/** The choice of a 4-bit transaction label for a new AVCTP request. */
module AvctpLabels {
  import opened Prelude

  const LABELS := 16

  function Next(t: nat): nat { (t + 1) % LABELS }

  /**
    The scan over a copy of the labels of processed requests: each match removes an element and
    moves on to the next label, and the scan then goes on behind the head of what is left.
   */
  function Scan(tmp: seq<nat>, i: nat, t: nat): nat
    decreases |tmp|, |tmp| - i
  {
    if i >= |tmp| then t
    else if tmp[i] == t then Scan(tmp[..i] + tmp[i + 1..], 1, Next(t))
    else Scan(tmp, i + 1, t)
  }

  /** The first label, from `label` on, that `used` does not contain; each label uses up an element. */
  function FirstFree(t: nat, used: multiset<nat>): nat
    decreases |used|
  {
    if t in used then FirstFree(Next(t), used - multiset{t}) else t
  }

  /** The processed request whose label the scan does not look at once it has found a match. */
  function Blind(processed: seq<nat>, t: nat): nat
    requires processed != []
  {
    if processed[0] == t then 1 else 0
  }

  function Tail(s: seq<nat>): multiset<nat> {
    if s == [] then multiset{} else multiset(s[1..])
  }

  /** The labels the scan looks at. */
  function Seen(processed: seq<nat>, t: nat): multiset<nat>
    requires processed != []
  {
    if processed[0] == t then multiset{t} + Tail(processed[1..]) else Tail(processed)
  }

  lemma SeenRest(processed: seq<nat>, t: nat)
    requires processed != []
    ensures var b := Blind(processed, t);
            multiset(processed) == Seen(processed, t) + if b < |processed| then multiset{processed[b]} else multiset{}
  {
    assert processed == [processed[0]] + processed[1..];
    if |processed| > 1 { assert processed[1..] == [processed[1]] + processed[1..][1..]; }
  }

  /** A match behind the head leaves the tail without the matched element. */
  lemma TailWithout(tmp: seq<nat>, i: nat)
    requires 1 <= i < |tmp|
    ensures Tail(tmp[..i] + tmp[i + 1..]) == Tail(tmp) - multiset{tmp[i]} && tmp[i] in Tail(tmp)
  {
    assert tmp[1..] == tmp[1..i] + [tmp[i]] + tmp[i + 1..];
    assert (tmp[..i] + tmp[i + 1..])[1..] == tmp[1..i] + tmp[i + 1..];
  }

  /** From the second element on, the scan finds the first label that these elements leave free. */
  lemma {:induction false} ScanBehindHead(tmp: seq<nat>, i: nat, t: nat)
    requires 1 <= i && forall j | 1 <= j < i && j < |tmp| :: tmp[j] != t
    ensures Scan(tmp, i, t) == FirstFree(t, Tail(tmp))
    decreases |tmp|, |tmp| - i
  {
    if i >= |tmp| {
      assert t !in Tail(tmp);
    } else if tmp[i] == t {
      TailWithout(tmp, i);
      ScanBehindHead(tmp[..i] + tmp[i + 1..], 1, Next(t));
    } else {
      ScanBehindHead(tmp, i + 1, t);
    }
  }

  /** The whole scan. */
  lemma ScanFinds(processed: seq<nat>, t: nat)
    requires processed != []
    ensures Scan(processed, 0, t) == FirstFree(t, Seen(processed, t))
  {
    if processed[0] == t {
      var rest := processed[1..];
      assert processed[..0] + processed[0 + 1..] == rest;
      ScanBehindHead(rest, 1, Next(t));
      assert Seen(processed, t) - multiset{t} == Tail(rest);
    } else {
      ScanBehindHead(processed, 1, t);
    }
  }

  /** Fewer than 16 elements always leave a label free. */
  lemma {:induction false} FirstFreeIsFree(t: nat, used: multiset<nat>, all: multiset<nat>, steps: nat)
    requires t < LABELS && used <= all && |used| + steps < LABELS
    requires forall x | x in all && x !in used :: x < LABELS && Behind(t, x) < steps
    requires forall x | x in all :: x < LABELS
    ensures FirstFree(t, used) !in all && FirstFree(t, used) < LABELS
    decreases |used|
  {
    if t in used {
      forall x | x in all && x !in used - multiset{t}
        ensures x < LABELS && Behind(Next(t), x) < steps + 1
      {
        if x in used { assert x == t; }
        BehindNext(t, x);
      }
      FirstFreeIsFree(Next(t), used - multiset{t}, all, steps + 1);
    }
  }

  /** How many labels back from `label` the label `x` lies, not counting `label` itself. */
  function Behind(t: nat, x: nat): nat
    requires t < LABELS && x < LABELS
  {
    (t + LABELS - 1 - x) % LABELS
  }

  lemma BehindNext(t: nat, x: nat)
    requires t < LABELS && x < LABELS
    ensures Behind(Next(t), x) == if x == t then 0 else Behind(t, x) + 1
  {
  }

  /**
    The new label is used by a processed request exactly if it is the label of the one request the
    scan did not look at.
   */
  lemma LabelClash(processed: seq<nat>, t: nat)
    requires processed != [] && |processed| <= LABELS && t < LABELS && forall x | x in processed :: x < LABELS
    ensures var chosen, b := Scan(processed, 0, t), Blind(processed, t);
            && chosen < LABELS
            && (chosen in processed <==>
                  b < |processed| && processed[b] == FirstFree(t, Seen(processed, t)))
  {
    ScanFinds(processed, t);
    SeenRest(processed, t);
    var seen := Seen(processed, t);
    assert forall x | x in multiset(processed) :: x in processed;
    assert |multiset(processed)| == |processed|;
    assert FirstFree(t, seen) in processed <==> FirstFree(t, seen) in multiset(processed);
    assert |seen| < LABELS;
    assert seen <= multiset(processed);
    assert forall x | x in seen :: x in multiset(processed);
    FirstFreeIsFree(t, seen, seen, 0);
  }

  /** With at most one processed request there is never a clash. */
  lemma NoClashWithOne(processed: seq<nat>, t: nat)
    requires |processed| <= 1 && t < LABELS && forall x | x in processed :: x < LABELS
    ensures Scan(processed, 0, t) !in processed
  {
    if processed != [] {
      LabelClash(processed, t);
      assert processed == [processed[0]];
      assert processed[0] != t ==> t !in Seen(processed, t);
    }
  }

  /** A clash: with processed labels 1 and 0 and 0 next, the new label is 1. */
  lemma ClashExample()
    ensures Scan([1, 0], 0, 0) == 1
  {
    assert [1, 0][..1] + [1, 0][1 + 1..] == [1];
    assert Scan([1, 0], 1, 0) == Scan([1], 1, 1);
  }

  lemma {:induction false} ScanSmall(tmp: seq<nat>, i: nat, t: nat)
    requires t < LABELS
    ensures Scan(tmp, i, t) < LABELS
    decreases |tmp|, |tmp| - i
  {
    if i < |tmp| {
      if tmp[i] == t { ScanSmall(tmp[..i] + tmp[i + 1..], 1, Next(t)); } else { ScanSmall(tmp, i + 1, t); }
    }
  }

  /** The loop of pending_create, over a copy of the processed requests. */
  method Choose(processed: seq<nat>, t: nat) returns (chosen: nat)
    ensures chosen == Scan(processed, 0, t)
  {
    var tmp := processed;
    chosen := t;
    var l: nat := 0;
    while l < |tmp|
      invariant Scan(tmp, l, chosen) == Scan(processed, 0, t)
      decreases |tmp|, |tmp| - l
    {
      if tmp[l] == chosen {
        chosen := (chosen + 1) % LABELS;
        tmp := tmp[..l] + tmp[l + 1..];
        l := 0;
      }
      l := l + 1;
    }
  }
}
