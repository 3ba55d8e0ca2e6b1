/**
  An AVCTP channel: a queue, at most one request in flight, the processed requests whose callback
  asked for more, and an idle source that works through the queue. A request is known by `id`, the
  number of requests created before it; `failing` are the requests that cannot be transmitted.
*/
module AvctpChannel {
  import opened Prelude
  import opened AvctpLabels

  datatype Req = Req(id: nat, transaction: nat, timeout: bool, err: bool)

  datatype Chan = Chan(p: Option<Req>, queue: seq<Req>, processed: seq<Req>, scheduled: bool, transaction: nat,
                       created: nat, destroyed: seq<Req>)
  {
    function InFlight(): seq<Req> {
      match p
      case None => []
      case Some(r) => [r]
    }

    /** The same without its timer, as pending_destroy leaves it. */
    function Stopped(): seq<Req> {
      match p
      case None => []
      case Some(r) => [r.(timeout := false)]
    }

    /** The requests that are not answered yet, oldest first. */
    function Live(): seq<Req> { InFlight() + queue }

    /** Every place a request can be in. */
    function Placed(): multiset<nat> { Ids(InFlight()) + Ids(queue) + Ids(processed) + Ids(destroyed) }
  }

  const NewChannel := Chan(None, [], [], false, 0, 0, [])

  function Labels(s: seq<Req>): seq<nat> {
    seq(|s|, i requires 0 <= i < |s| => s[i].transaction)
  }

  // ----- the operations -----

  /** pending_create, and the push of avctp_send_req; `watch` is false on a browsing channel not yet connected. */
  function Create(c: Chan, watch: bool): Chan {
    var t := Scan(Labels(c.processed), 0, c.transaction);
    c.(queue := c.queue + [Req(c.created, t, false, false)], transaction := Next(t), created := c.created + 1,
       scheduled := c.scheduled || watch)
  }

  /** The loop of process_queue: what is left of the queue, and what was destroyed. */
  function Pop(queue: seq<Req>, failing: set<nat>): (Option<Req>, seq<Req>, seq<Req>) {
    if queue == [] then (None, [], [])
    else if queue[0].id !in failing then (Some(queue[0].(timeout := true)), queue[1..], [])
    else
      var (p, rest, gone) := Pop(queue[1..], failing);
      (p, rest, [queue[0]] + gone)
  }

  /** process_queue. */
  function Process(c: Chan, failing: set<nat>): Chan {
    if c.p.Some? then c.(scheduled := false)
    else
      var (p, rest, gone) := Pop(c.queue, failing);
      c.(p := p, queue := rest, scheduled := false, destroyed := c.destroyed + gone)
  }

  /** req_timeout. */
  function Timeout(c: Chan): Chan
    requires c.p.Some?
  {
    c.(p := None, scheduled := true, destroyed := c.destroyed + [c.p.value.(timeout := false, err := true)])
  }

  /** The first half of a response: the request in flight is done if the label is its own. */
  function Arrive(c: Chan, t: nat): Chan {
    if c.p.Some? && c.p.value.transaction == t
    then c.(p := None, processed := [c.p.value.(timeout := false)] + c.processed, scheduled := true)
    else c
  }

  /** The first processed request with the label, or the length. */
  function Find(processed: seq<Req>, t: nat): (i: nat)
    ensures i <= |processed| && (i < |processed| ==> processed[i].transaction == t)
    ensures forall j | 0 <= j < i :: processed[j].transaction != t
  {
    if processed == [] || processed[0].transaction == t then 0 else 1 + Find(processed[1..], t)
  }

  /** The second half: the first processed request with that label gets the response. */
  function Deliver(c: Chan, t: nat, more: bool): Chan {
    var i := Find(c.processed, t);
    if i == |c.processed| || more then c else Drop(c, i)
  }

  function Drop(c: Chan, i: nat): Chan
    requires i < |c.processed|
  {
    c.(processed := c.processed[..i] + c.processed[i + 1..], destroyed := c.destroyed + [c.processed[i]])
  }

  /** control_response and browsing_response; `more` is whether the callback wants further responses. */
  function Respond(c: Chan, t: nat, more: bool): Chan {
    Deliver(Arrive(c, t), t, more)
  }

  /** avctp_channel_destroy. */
  function Destroy(c: Chan): Chan {
    c.(p := None, queue := [], processed := [], scheduled := false,
       destroyed := c.destroyed + c.Stopped() + c.queue + c.processed)
  }

  // ----- runs -----

  datatype Event =
    | Created(watch: bool)
    | Processed(failing: set<nat>)
    | TimedOut
    | Responded(t: nat, more: bool)
    | Destroyed

  /** Sources fire only while they are registered. */
  predicate Possible(c: Chan, e: Event) {
    match e
    case Processed(_) => c.scheduled
    case TimedOut => c.p.Some? && c.p.value.timeout
    case _ => true
  }

  function Step(c: Chan, e: Event): Chan
    requires Possible(c, e)
  {
    match e
    case Created(watch) => Create(c, watch)
    case Processed(failing) => Process(c, failing)
    case TimedOut => Timeout(c)
    case Responded(t, more) => Respond(c, t, more)
    case Destroyed => Destroy(c)
  }

  predicate PossibleRun(c: Chan, es: seq<Event>)
    decreases |es|
  {
    es == [] || (Possible(c, es[0]) && PossibleRun(Step(c, es[0]), es[1..]))
  }

  function Run(c: Chan, es: seq<Event>): Chan
    requires PossibleRun(c, es)
    decreases |es|
  {
    if es == [] then c else Run(Step(c, es[0]), es[1..])
  }

  // ----- conservation -----

  function Ids(s: seq<Req>): multiset<nat> {
    if s == [] then multiset{} else multiset{s[0].id} + Ids(s[1..])
  }

  function UpTo(n: nat): multiset<nat> {
    if n == 0 then multiset{} else UpTo(n - 1) + multiset{n - 1}
  }

  /** Each request created is in flight, queued, processed or destroyed: in one of them, once. */
  predicate Conserved(c: Chan) {
    c.Placed() == UpTo(c.created)
  }

  lemma {:induction false} IdsConcat(a: seq<Req>, b: seq<Req>)
    ensures Ids(a + b) == Ids(a) + Ids(b)
  {
    if a == [] {
      assert a + b == b;
    } else {
      assert (a + b)[1..] == a[1..] + b;
      IdsConcat(a[1..], b);
    }
  }

  lemma One(r: Req)
    ensures Ids([r]) == multiset{r.id}
  {
    assert [r][1..] == [];
  }

  /** Appending and prepending one request. */
  lemma IdsAppend(s: seq<Req>, r: Req)
    ensures Ids(s + [r]) == Ids(s) + multiset{r.id} && Ids([r] + s) == multiset{r.id} + Ids(s)
  {
    One(r);
    IdsConcat(s, [r]);
    IdsConcat([r], s);
  }

  lemma {:induction false} PopIds(queue: seq<Req>, failing: set<nat>)
    ensures var (p, rest, gone) := Pop(queue, failing);
            Ids(queue) == (if p.Some? then multiset{p.value.id} else multiset{}) + Ids(rest) + Ids(gone)
  {
    if queue != [] && queue[0].id in failing {
      var (p, rest, gone) := Pop(queue[1..], failing);
      PopIds(queue[1..], failing);
      assert ([queue[0]] + gone)[1..] == gone;
    }
  }

  lemma {:induction false} RemoveIds(s: seq<Req>, i: nat)
    requires i < |s|
    ensures Ids(s) == Ids(s[..i] + s[i + 1..]) + multiset{s[i].id}
  {
    if i == 0 {
      assert s[..0] + s[1..] == s[1..];
    } else {
      assert (s[..i] + s[i + 1..])[1..] == s[1..][..i - 1] + s[1..][i..];
      RemoveIds(s[1..], i - 1);
    }
  }

  lemma ArriveConserves(c: Chan, t: nat)
    requires Conserved(c)
    ensures Conserved(Arrive(c, t))
  {
    if Arrive(c, t) != c {
      One(c.p.value);
      IdsAppend(c.processed, c.p.value.(timeout := false));
    }
  }

  lemma DropConserves(c: Chan, i: nat)
    requires Conserved(c) && i < |c.processed|
    ensures Conserved(Drop(c, i))
  {
    RemoveIds(c.processed, i);
    IdsAppend(c.destroyed, c.processed[i]);
  }

  lemma RespondConserves(c: Chan, t: nat, more: bool)
    requires Conserved(c)
    ensures Conserved(Respond(c, t, more))
  {
    ArriveConserves(c, t);
    var d := Arrive(c, t);
    if Find(d.processed, t) < |d.processed| { DropConserves(d, Find(d.processed, t)); }
  }

  lemma ProcessConserves(c: Chan, failing: set<nat>)
    requires Conserved(c)
    ensures Conserved(Process(c, failing))
  {
    if c.p.None? {
      var (p, rest, gone) := Pop(c.queue, failing);
      PopIds(c.queue, failing);
      if p.Some? { One(p.value); }
      IdsConcat(c.destroyed, gone);
    }
  }

  lemma StoppedIds(c: Chan)
    ensures Ids(c.Stopped()) == Ids(c.InFlight())
  {
    if c.p.Some? {
      One(c.p.value);
      One(c.p.value.(timeout := false));
    }
  }

  lemma FourIds(a: seq<Req>, b: seq<Req>, c: seq<Req>, d: seq<Req>)
    ensures Ids(a + b + c + d) == Ids(a) + Ids(b) + Ids(c) + Ids(d)
  {
    IdsConcat(a, b);
    IdsConcat(a + b, c);
    IdsConcat(a + b + c, d);
  }

  lemma DestroyConserves(c: Chan)
    requires Conserved(c)
    ensures Conserved(Destroy(c)) && Destroy(c).Placed() == Ids(Destroy(c).destroyed)
  {
    FourIds(c.destroyed, c.Stopped(), c.queue, c.processed);
    StoppedIds(c);
  }

  lemma TimeoutConserves(c: Chan)
    requires Conserved(c) && c.p.Some?
    ensures Conserved(Timeout(c))
  {
    One(c.p.value);
    IdsAppend(c.destroyed, c.p.value.(timeout := false, err := true));
  }

  lemma StepConserves(c: Chan, e: Event)
    requires Conserved(c) && Possible(c, e)
    ensures Conserved(Step(c, e))
  {
    match e
    case Created(watch) => IdsAppend(c.queue, Create(c, watch).queue[|c.queue|]);
    case Processed(failing) => ProcessConserves(c, failing);
    case TimedOut => TimeoutConserves(c);
    case Responded(t, more) => RespondConserves(c, t, more);
    case Destroyed => DestroyConserves(c);
  }

  // ----- timers -----

  ghost predicate Silent(s: seq<Req>) {
    forall r | r in s :: !r.timeout
  }

  /** A request holds a timer exactly while it is in flight. */
  ghost predicate Timed(c: Chan) {
    (c.p.Some? ==> c.p.value.timeout) && Silent(c.queue) && Silent(c.processed) && Silent(c.destroyed)
  }

  /** What the loop has destroyed so far, and what it still will. */
  lemma GoneFirst(queue: seq<Req>, failing: set<nat>, gone: seq<Req>)
    requires queue != []
    ensures if queue[0].id in failing
            then gone + Pop(queue, failing).2 == gone + [queue[0]] + Pop(queue[1..], failing).2
            else gone + Pop(queue, failing).2 == gone
  {
  }

  lemma {:induction false} PopTimed(queue: seq<Req>, failing: set<nat>)
    requires Silent(queue)
    ensures var (p, rest, gone) := Pop(queue, failing);
            && (p.Some? ==> p.value.timeout) && Silent(rest) && Silent(gone)
            && (p.None? ==> rest == [])
  {
    if queue != [] { PopTimed(queue[1..], failing); }
  }

  lemma StepTimed(c: Chan, e: Event)
    requires Timed(c) && Possible(c, e)
    ensures Timed(Step(c, e))
  {
    match e
    case Processed(failing) => PopTimed(c.queue, failing);
    case _ =>
  }

  // ----- wake-ups -----

  /** A request waits only behind one in flight, or with the queue about to be worked through. */
  predicate Awake(c: Chan) {
    c.queue != [] && c.p.None? ==> c.scheduled
  }

  /**
    Only a request made before the browsing channel is watched can wait for nothing. avctp_connect_browsing
    sets the watch before it returns, so although the source guards against it no caller can make one.
   */
  lemma StepAwake(c: Chan, e: Event)
    requires Timed(c) && Awake(c) && Possible(c, e)
    ensures Awake(Step(c, e)) <==> !(e == Created(false) && c.p.None? && !c.scheduled)
  {
    match e
    case Processed(failing) =>
      PopTimed(c.queue, failing);
    case _ =>
  }

  /** No request is made before the channel is watched, which is so of every run of this source. */
  ghost predicate Connected(es: seq<Event>) {
    forall e | e in es :: e != Created(false)
  }

  // ----- runs: no request is lost -----

  lemma {:induction false} RunKeeps(c: Chan, es: seq<Event>)
    requires Conserved(c) && Timed(c) && PossibleRun(c, es)
    ensures Conserved(Run(c, es)) && Timed(Run(c, es))
    ensures Awake(c) && Connected(es) ==> Awake(Run(c, es))
    decreases |es|
  {
    if es != [] {
      StepConserves(c, es[0]);
      StepTimed(c, es[0]);
      if Awake(c) && Connected(es) {
        assert es[0] in es && forall e | e in es[1..] :: e in es;
        StepAwake(c, es[0]);
      }
      RunKeeps(Step(c, es[0]), es[1..]);
    }
  }

  lemma {:induction false} UpToOnce(n: nat, id: nat)
    ensures UpTo(n)[id] == if id < n then 1 else 0
  {
    if n != 0 { UpToOnce(n - 1, id); }
  }

  /** No lost wake-up, in every reachable state of a connected channel. */
  lemma NoLostWakeUp(es: seq<Event>)
    requires PossibleRun(NewChannel, es) && Connected(es)
    ensures var c := Run(NewChannel, es); c.queue != [] && c.p.None? ==> c.scheduled
  {
    RunKeeps(NewChannel, es);
  }

  /** Each request is in exactly one place, and has a timer exactly if that place is the channel's `p`. */
  lemma EachRequestInOnePlace(es: seq<Event>, id: nat)
    requires PossibleRun(NewChannel, es) && id < Run(NewChannel, es).created
    ensures var c := Run(NewChannel, es);
            && Ids(c.InFlight())[id] + Ids(c.queue)[id] + Ids(c.processed)[id] + Ids(c.destroyed)[id] == 1
            && (forall r | r in c.InFlight() :: r.timeout)
            && Silent(c.queue) && Silent(c.processed) && Silent(c.destroyed)
  {
    RunKeeps(NewChannel, es);
    var c := Run(NewChannel, es);
    UpToOnce(c.created, id);
  }

  /** When the channel is gone, each request created on it was destroyed exactly once. */
  lemma DestroyedExactlyOnce(es: seq<Event>)
    requires PossibleRun(NewChannel, es)
    ensures var c := Destroy(Run(NewChannel, es)); Ids(c.destroyed) == UpTo(c.created)
  {
    RunKeeps(NewChannel, es);
    DestroyConserves(Run(NewChannel, es));
  }

  // ----- order -----

  function Numbers(s: seq<Req>): (r: seq<nat>)
    ensures |r| == |s|
  {
    seq(|s|, i requires 0 <= i < |s| => s[i].id)
  }

  function FirstNumbers(n: nat): (r: seq<nat>)
    ensures |r| == n
  {
    seq(n, i => i)
  }

  /**
    What process_queue does: requests leave the queue at its front, those that cannot be transmitted are
    destroyed in order, and the first other one is in flight. Nothing else changes.
   */
  lemma ProcessTakes(c: Chan, failing: set<nat>)
    requires c.p.None?
    ensures var d := Process(c, failing); var n := |c.queue| - |d.queue|;
            && 0 <= n && d.queue == c.queue[n..] && !d.scheduled
            && d.processed == c.processed && d.transaction == c.transaction && d.created == c.created
            && (if d.p.Some? then
                  && n > 0 && d.p.value == c.queue[n - 1].(timeout := true) && d.p.value.id !in failing
                  && d.destroyed == c.destroyed + c.queue[..n - 1]
                  && (forall i | 0 <= i < n - 1 :: c.queue[i].id in failing)
                else
                  && d.queue == [] && d.destroyed == c.destroyed + c.queue
                  && (forall r | r in c.queue :: r.id in failing))
  {
    PopTakes(c.queue, failing);
  }

  lemma {:induction false} PopTakes(queue: seq<Req>, failing: set<nat>)
    ensures var (p, rest, gone) := Pop(queue, failing); var n := |queue| - |rest|;
            && 0 <= n && rest == queue[n..]
            && (if p.Some? then
                  && n > 0 && p.value == queue[n - 1].(timeout := true) && p.value.id !in failing
                  && gone == queue[..n - 1] && (forall i | 0 <= i < n - 1 :: queue[i].id in failing)
                else rest == [] && gone == queue && (forall r | r in queue :: r.id in failing))
  {
    if queue != [] && queue[0].id in failing {
      PopTakes(queue[1..], failing);
      var (p, rest, gone) := Pop(queue[1..], failing);
      assert queue == [queue[0]] + queue[1..];
    }
  }

  /** The request that goes out by an event. */
  function SentBy(c: Chan, e: Event): seq<nat>
    requires Possible(c, e)
  {
    if c.p.None? && Step(c, e).p.Some? then [Step(c, e).p.value.id] else []
  }

  /** The requests that leave the queue by an event without going out: tried in vain, or destroyed with the channel. */
  ghost function MissedBy(c: Chan, e: Event): set<nat> {
    match e
    case Processed(failing) =>
      if c.p.Some? then {}
      else set i | 0 <= i < |c.queue| && (forall j | 0 <= j <= i :: c.queue[j].id in failing) :: c.queue[i].id
    case Destroyed => Elements(Numbers(c.queue))
    case _ => {}
  }

  function SentIn(c: Chan, es: seq<Event>): seq<nat>
    requires PossibleRun(c, es)
    decreases |es|
  {
    if es == [] then [] else SentBy(c, es[0]) + SentIn(Step(c, es[0]), es[1..])
  }

  ghost function MissedIn(c: Chan, es: seq<Event>): set<nat>
    requires PossibleRun(c, es)
    decreases |es|
  {
    if es == [] then {} else MissedBy(c, es[0]) + MissedIn(Step(c, es[0]), es[1..])
  }

  /** Sent, and then queued, is all that was created, in order, without `missed`. */
  ghost predicate InOrder(c: Chan, sent: seq<nat>, missed: set<nat>) {
    sent + Numbers(c.queue) == Without(FirstNumbers(c.created), missed) && forall id | id in missed :: id < c.created
  }

  lemma FirstNoDup(n: nat)
    ensures NoDup(FirstNumbers(n))
  {
  }

  lemma CreateInOrder(c: Chan, watch: bool, sent: seq<nat>, missed: set<nat>)
    requires InOrder(c, sent, missed)
    ensures InOrder(Create(c, watch), sent, missed)
  {
    var d := Create(c, watch);
    assert FirstNumbers(d.created) == FirstNumbers(c.created) + [c.created];
    WithoutConcat(FirstNumbers(c.created), [c.created], missed);
    assert Without([c.created], missed) == [c.created];
    assert Numbers(d.queue) == Numbers(c.queue) + [c.created];
    assert sent + Numbers(d.queue) == sent + Numbers(c.queue) + [c.created];
  }

  /** Requests that leave the queue in one stretch are missed. */
  lemma MissInOrder(c: Chan, sent: seq<nat>, missed: set<nat>, gone: seq<nat>, rest: seq<nat>)
    requires InOrder(c, sent, missed) && Numbers(c.queue) == gone + rest
    ensures sent + rest == Without(FirstNumbers(c.created), missed + Elements(gone))
    ensures forall id | id in gone :: id < c.created
  {
    FirstNoDup(c.created);
    WithoutNoDup(FirstNumbers(c.created), missed);
    Regrouped(sent, gone, rest);
    WithoutMiddle(sent, gone, rest);
    WithoutTwice(FirstNumbers(c.created), missed, Elements(gone));
    forall id | id in gone
      ensures id < c.created
    {
      assert id in sent + gone + rest;
    }
  }

  lemma MissedPrefix(c: Chan, failing: set<nat>, n: nat)
    requires c.p.None? && n <= |c.queue| && (forall i | 0 <= i < n :: c.queue[i].id in failing)
    requires n < |c.queue| ==> c.queue[n].id !in failing
    ensures MissedBy(c, Processed(failing)) == Elements(Numbers(c.queue)[..n])
  {
    var ids := Numbers(c.queue);
    forall id | id in ids[..n]
      ensures id in MissedBy(c, Processed(failing))
    {
      var i :| 0 <= i < n && ids[..n][i] == id;
      assert c.queue[i].id == id;
    }
    forall id | id in MissedBy(c, Processed(failing))
      ensures id in ids[..n]
    {
      var i :| 0 <= i < |c.queue| && (forall j | 0 <= j <= i :: c.queue[j].id in failing) && c.queue[i].id == id;
      assert ids[..n][i] == id;
    }
  }

  /** The queue is what is tried in vain, what goes out, and what is left. */
  lemma QueueSplit(c: Chan, failing: set<nat>) returns (gone: seq<nat>)
    requires c.p.None? && c.scheduled
    ensures var e := Processed(failing);
            && Numbers(c.queue) == gone + (SentBy(c, e) + Numbers(Process(c, failing).queue))
            && MissedBy(c, e) == Elements(gone)
  {
    var d := Process(c, failing);
    ProcessTakes(c, failing);
    var n := |c.queue| - |d.queue|;
    var k := if d.p.Some? then n - 1 else n;
    if d.p.None? { assert forall i | 0 <= i < n :: c.queue[i] in c.queue; }
    MissedPrefix(c, failing, k);
    gone := Numbers(c.queue)[..k];
  }

  lemma ProcessInOrder(c: Chan, failing: set<nat>, sent: seq<nat>, missed: set<nat>)
    requires InOrder(c, sent, missed) && c.p.None? && c.scheduled
    ensures var e := Processed(failing); InOrder(Step(c, e), sent + SentBy(c, e), missed + MissedBy(c, e))
  {
    var d, e := Process(c, failing), Processed(failing);
    var gone := QueueSplit(c, failing);
    MissInOrder(c, sent, missed, gone, SentBy(c, e) + Numbers(d.queue));
    Regrouped(sent, SentBy(c, e), Numbers(d.queue));
    Kept(c, failing);
  }

  lemma Kept(c: Chan, failing: set<nat>)
    ensures Process(c, failing).created == c.created
  {
  }

  lemma Regrouped<T>(a: seq<T>, b: seq<T>, c: seq<T>)
    ensures a + (b + c) == a + b + c
  {
  }

  lemma RegroupedSets<T>(a: set<T>, b: set<T>, c: set<T>)
    ensures a + (b + c) == a + b + c
  {
  }

  lemma StepInOrder(c: Chan, e: Event, sent: seq<nat>, missed: set<nat>)
    requires InOrder(c, sent, missed) && Possible(c, e)
    ensures InOrder(Step(c, e), sent + SentBy(c, e), missed + MissedBy(c, e))
  {
    assert sent + [] == sent && missed + {} == missed;
    match e
    case Created(watch) => CreateInOrder(c, watch, sent, missed);
    case Processed(failing) => if c.p.None? { ProcessInOrder(c, failing, sent, missed); }
    case Destroyed =>
      assert Numbers(c.queue) == Numbers(c.queue) + [] && sent + [] == sent;
      MissInOrder(c, sent, missed, Numbers(c.queue), []);
    case _ =>
  }

  lemma {:induction false} RunInOrder(c: Chan, es: seq<Event>, sent: seq<nat>, missed: set<nat>)
    requires InOrder(c, sent, missed) && PossibleRun(c, es)
    ensures InOrder(Run(c, es), sent + SentIn(c, es), missed + MissedIn(c, es))
    decreases |es|
  {
    if es == [] {
      assert sent + [] == sent && missed + {} == missed;
    } else {
      StepInOrder(c, es[0], sent, missed);
      RunInOrder(Step(c, es[0]), es[1..], sent + SentBy(c, es[0]), missed + MissedBy(c, es[0]));
      Regrouped(sent, SentBy(c, es[0]), SentIn(Step(c, es[0]), es[1..]));
      RegroupedSets(missed, MissedBy(c, es[0]), MissedIn(Step(c, es[0]), es[1..]));
    }
  }

  /**
    First in, first out over every run: the requests that went out and then those still queued are the ones
    created, in order, without exactly those tried in vain and those that waited when the channel went.
   */
  lemma SentInOrder(es: seq<Event>)
    requires PossibleRun(NewChannel, es)
    ensures var c := Run(NewChannel, es);
            SentIn(NewChannel, es) + Numbers(c.queue) == Without(FirstNumbers(c.created), MissedIn(NewChannel, es))
  {
    assert [] + Numbers(NewChannel.queue) == Without(FirstNumbers(0), {});
    RunInOrder(NewChannel, es, [], {});
    assert [] + SentIn(NewChannel, es) == SentIn(NewChannel, es);
    assert {} + MissedIn(NewChannel, es) == MissedIn(NewChannel, es);
  }

  // ----- labels -----

  /** The labels of the live requests are consecutive, and the last lies just before the counter. */
  ghost predicate Block(c: Chan) {
    && c.transaction < LABELS
    && forall i | 0 <= i < |c.Live()| :: c.Live()[i].transaction == Back(c.transaction, |c.Live()| - i)
  }

  /** `n` labels before `t`. */
  function Back(t: nat, n: nat): nat {
    if n == 0 then t else (Back(t, n - 1) + 15) % 16
  }

  lemma {:induction false} BackNext(t: nat, n: nat)
    requires t < LABELS
    ensures Back(Next(t), n + 1) == Back(t, n)
  {
    if n > 0 { BackNext(t, n - 1); }
  }

  lemma {:induction false} BackTwice(t: nat, m: nat, n: nat)
    requires t < LABELS
    ensures Back(t, m + n) == Back(Back(t, m), n) && Back(t, m) < LABELS
  {
    if n > 0 { BackTwice(t, m, n - 1); } else if m > 0 { BackTwice(t, m - 1, 0); }
  }

  lemma {:induction false} BackFew(t: nat, n: nat)
    requires t < LABELS && n <= 16
    ensures Back(t, n) == if n <= t then t - n else t + 16 - n
  {
    if n > 0 { BackFew(t, n - 1); }
  }

  lemma BackDistinct(t: nat, m: nat, n: nat)
    requires t < LABELS && n <= 16
    ensures Back(t, m) == Back(t, m + n) <==> n == 0 || n == 16
  {
    BackTwice(t, m, n);
    BackFew(Back(t, m), n);
  }

  /** Requests leave the live ones only at the front. */
  lemma SuffixBlock(c: Chan, d: Chan)
    requires Block(c) && d.transaction == c.transaction && |d.Live()| <= |c.Live()|
    requires Labels(d.Live()) == Labels(c.Live()[|c.Live()| - |d.Live()|..])
    ensures Block(d)
  {
    var k := |c.Live()| - |d.Live()|;
    forall i | 0 <= i < |d.Live()|
      ensures d.Live()[i].transaction == Back(d.transaction, |d.Live()| - i)
    {
      assert Labels(d.Live())[i] == Labels(c.Live()[k..])[i];
    }
  }

  /** The loop of process_queue takes requests from the front. */
  lemma {:induction false} PopSuffix(queue: seq<Req>, failing: set<nat>)
    ensures var (p, rest, gone) := Pop(queue, failing);
            var k := |queue| - |rest|;
            && 0 <= k && rest == queue[k..]
            && (if p.Some? then k > 0 && p.value == queue[k - 1].(timeout := true) else rest == [])
  {
    if queue != [] && queue[0].id in failing {
      PopSuffix(queue[1..], failing);
      var (p, rest, gone) := Pop(queue[1..], failing);
      assert queue[1..][|queue| - 1 - |rest|..] == queue[|queue| - |rest|..];
    }
  }

  lemma PopLabels(queue: seq<Req>, failing: set<nat>)
    ensures var (p, rest, gone) := Pop(queue, failing);
            var live := (if p.Some? then [p.value] else []) + rest;
            |live| <= |queue| && Labels(live) == Labels(queue[|queue| - |live|..])
  {
    PopSuffix(queue, failing);
  }

  lemma CreateBlock(c: Chan, watch: bool)
    requires Block(c) && c.processed == []
    ensures Block(Create(c, watch))
  {
    var d, n := Create(c, watch), |c.Live()|;
    assert d.Live() == c.Live() + [Req(c.created, c.transaction, false, false)];
    forall i | 0 <= i < |d.Live()|
      ensures d.Live()[i].transaction == Back(d.transaction, |d.Live()| - i)
    {
      BackNext(c.transaction, n - i);
    }
  }

  /** A label is given while no processed request is kept. */
  predicate Plain(c: Chan, e: Event) {
    e.Created? ==> c.processed == []
  }

  lemma ProcessBlock(c: Chan, failing: set<nat>)
    requires Block(c)
    ensures Block(Process(c, failing))
  {
    var d := Process(c, failing);
    if c.p.None? {
      PopLabels(c.queue, failing);
      assert c.Live() == c.queue;
      LiveOf(d, if d.p.Some? then [d.p.value] else []);
      SuffixBlock(c, d);
    } else {
      SameLive(c, d);
    }
  }

  lemma LiveOf(d: Chan, first: seq<Req>)
    requires first == d.InFlight()
    ensures d.Live() == first + d.queue
  {
  }

  lemma SameLive(c: Chan, d: Chan)
    requires Block(c) && d.p == c.p && d.queue == c.queue && d.transaction == c.transaction
    ensures Block(d)
  {
    assert d.Live() == c.Live();
  }

  lemma FrontBlock(c: Chan, d: Chan)
    requires Block(c) && d.transaction == c.transaction && d.p.None? && (d.queue == c.queue || d.queue == [])
    ensures Block(d)
  {
    assert d.Live() == c.Live()[|c.Live()| - |d.queue|..];
    SuffixBlock(c, d);
  }

  lemma RespondBlock(c: Chan, t: nat, more: bool)
    requires Block(c)
    ensures Block(Respond(c, t, more))
  {
    var d := Respond(c, t, more);
    if c.p.Some? && c.p.value.transaction == t { FrontBlock(c, d); } else { SameLive(c, d); }
  }

  lemma StepBlock(c: Chan, e: Event)
    requires Block(c) && Possible(c, e) && Plain(c, e)
    ensures Block(Step(c, e))
  {
    match e
    case Created(watch) => CreateBlock(c, watch);
    case Processed(failing) => ProcessBlock(c, failing);
    case TimedOut => FrontBlock(c, Timeout(c));
    case Responded(t, more) => RespondBlock(c, t, more);
    case Destroyed => FrontBlock(c, Destroy(c));
  }

  predicate PlainRun(c: Chan, es: seq<Event>)
    requires PossibleRun(c, es)
    decreases |es|
  {
    es == [] || (Plain(c, es[0]) && PlainRun(Step(c, es[0]), es[1..]))
  }

  lemma {:induction false} RunBlock(c: Chan, es: seq<Event>)
    requires Block(c) && PossibleRun(c, es) && PlainRun(c, es)
    ensures Block(Run(c, es))
    decreases |es|
  {
    if es != [] {
      StepBlock(c, es[0]);
      RunBlock(Step(c, es[0]), es[1..]);
    }
  }

  /** The live requests have distinct labels exactly as long as there are at most 16 of them. */
  lemma LiveLabelsDistinct(es: seq<Event>)
    requires PossibleRun(NewChannel, es) && PlainRun(NewChannel, es)
    ensures var live := Run(NewChannel, es).Live(); NoDup(Labels(live)) <==> |live| <= 16
  {
    RunBlock(NewChannel, es);
    var c := Run(NewChannel, es);
    var live := c.Live();
    if |live| <= 16 {
      forall i, j | 0 <= i < j < |live|
        ensures Labels(live)[i] != Labels(live)[j]
      {
        BackDistinct(c.transaction, |live| - j, j - i);
      }
    } else {
      BackDistinct(c.transaction, |live| - 16, 16);
      assert Labels(live)[0] == Labels(live)[16];
    }
  }

  ghost predicate Small(s: seq<Req>) {
    forall r | r in s :: r.transaction < LABELS
  }

  /** Every label is one of the 16. */
  ghost predicate AllSmall(c: Chan) {
    c.transaction < LABELS && (c.p.Some? ==> c.p.value.transaction < LABELS) && Small(c.queue) && Small(c.processed)
  }

  lemma StepSmall(c: Chan, e: Event)
    requires AllSmall(c) && Possible(c, e)
    ensures AllSmall(Step(c, e))
  {
    match e
    case Created(watch) => ScanSmall(Labels(c.processed), 0, c.transaction);
    case Processed(failing) => PopSuffix(c.queue, failing);
    case _ =>
  }

  lemma {:induction false} RunSmall(c: Chan, es: seq<Event>)
    requires AllSmall(c) && PossibleRun(c, es)
    ensures AllSmall(Run(c, es))
    decreases |es|
  {
    if es != [] {
      StepSmall(c, es[0]);
      RunSmall(Step(c, es[0]), es[1..]);
    }
  }

  /**
    In every reachable state with at most 16 processed requests, a new request gets the label of one
    of them exactly if that is the one pending_create does not look at; with a single one, never.
   */
  lemma NewLabelClash(es: seq<Event>, watch: bool)
    requires PossibleRun(NewChannel, es) && |Run(NewChannel, es).processed| <= LABELS
    ensures var c := Run(NewChannel, es);
            var ls, t := Labels(c.processed), Create(c, watch).queue[|c.queue|].transaction;
            && (t in ls <==> ls != [] && Blind(ls, c.transaction) < |ls|
                             && ls[Blind(ls, c.transaction)] == FirstFree(c.transaction, Seen(ls, c.transaction)))
            && (|ls| <= 1 ==> t !in ls)
  {
    RunSmall(NewChannel, es);
    var c := Run(NewChannel, es);
    var ls := Labels(c.processed);
    forall x | x in ls
      ensures x < LABELS
    {
      var i :| 0 <= i < |ls| && ls[i] == x;
      assert c.processed[i] in c.processed;
    }
    if ls != [] { LabelClash(ls, c.transaction); }
    if |ls| <= 1 { NoClashWithOne(ls, c.transaction); }
  }

  // ----- replies -----

  /**
    A response with the label of the request in flight goes to it, whatever is still processed under
    the same label; it stays processed exactly if its callback wants more, and nothing else moves.
   */
  lemma ReplyToInFlight(c: Chan, t: nat, more: bool)
    requires c.p.Some? && c.p.value.transaction == t
    ensures var d := Respond(c, t, more); var r := c.p.value.(timeout := false);
            && d.p.None? && d.scheduled && d.queue == c.queue
            && (if more then d.processed == [r] + c.processed && d.destroyed == c.destroyed
                else d.processed == c.processed && d.destroyed == c.destroyed + [r])
  {
    var d := Arrive(c, t);
    assert Find(d.processed, t) == 0;
    assert d.processed[..0] + d.processed[0 + 1..] == c.processed;
  }

  /** Any other response goes to the processed request prepended last under its label, or to none. */
  lemma ReplyToProcessed(c: Chan, t: nat, more: bool)
    requires c.p.None? || c.p.value.transaction != t
    ensures var d := Respond(c, t, more); var i := Find(c.processed, t);
            && d.p == c.p && d.queue == c.queue && d.scheduled == c.scheduled
            && (i == |c.processed| || more ==> d == c)
            && (i < |c.processed| && !more ==>
                  && d.destroyed == c.destroyed + [c.processed[i]]
                  && c.processed == d.processed[..i] + [c.processed[i]] + d.processed[i..])
  {
    var i := Find(c.processed, t);
    if i < |c.processed| { RemovedAt(c.processed, i); }
  }

  lemma RemovedAt<T>(s: seq<T>, i: nat)
    requires i < |s|
    ensures var rest := s[..i] + s[i + 1..]; i <= |rest| && s == rest[..i] + [s[i]] + rest[i..]
  {
  }

  // ----- the channel -----

  class Channel {
    var p: Option<Req>
    var queue: seq<Req>
    var processed: seq<Req>
    var scheduled: bool
    var transaction: nat
    ghost var created: nat
    ghost var destroyed: seq<Req>
    var count: nat    // names the requests; `created` is what the specification calls it

    ghost function View(): Chan
      reads this
    {
      Chan(p, queue, processed, scheduled, transaction, created, destroyed)
    }

    ghost predicate Valid()
      reads this
    {
      count == created
    }

    constructor ()
      ensures Valid() && View() == NewChannel
    {
      p, queue, processed, scheduled, transaction := None, [], [], false, 0;
      created, destroyed, count := 0, [], 0;
    }

    /** avctp_send_req, and avctp_send_browsing_req. */
    method SendReq(watch: bool)
      requires Valid()
      modifies this
      ensures Valid() && View() == Create(old(View()), watch)
      ensures |queue| == |old(queue)| + 1 && queue[..|old(queue)|] == old(queue)
      ensures scheduled == (old(scheduled) || watch)
      ensures p == old(p) && processed == old(processed) && destroyed == old(destroyed)
      ensures var r := queue[|old(queue)|];
              r.id == old(count) && !r.timeout && !r.err && transaction == (r.transaction + 1) % 16
    {
      transaction := Choose(Labels(processed), transaction);
      var r := Req(count, transaction, false, false);
      transaction := (transaction + 1) % LABELS;
      count, created := count + 1, created + 1;
      queue := queue + [r];
      if watch && !scheduled { scheduled := true; }
    }

    /** process_queue. */
    method ProcessQueue(failing: set<nat>)
      requires Valid()
      modifies this
      ensures Valid() && View() == Process(old(View()), failing)
    {
      scheduled := false;
      if p.Some? { return; }
      ghost var gone: seq<Req> := [];
      assert [] + Pop(queue, failing).2 == Pop(queue, failing).2;
      while queue != [] && p.None?
        invariant Valid() && !scheduled && transaction == old(transaction) && processed == old(processed)
        invariant created == old(created) && destroyed == old(destroyed) + gone
        invariant p.Some? ==> Pop(old(queue), failing) == (p, queue, gone)
        invariant p.None? ==>
                    var (q, rest, more) := Pop(queue, failing); Pop(old(queue), failing) == (q, rest, gone + more)
        decreases |queue|
      {
        GoneFirst(queue, failing, gone);
        var r := queue[0];
        queue := queue[1..];
        if r.id !in failing {
          p := Some(r.(timeout := true));
        } else {
          destroyed := destroyed + [r];
          gone := gone + [r];
        }
      }
    }

    /** req_timeout. */
    method ReqTimeout()
      requires Valid() && p.Some?
      modifies this
      ensures Valid() && View() == Timeout(old(View()))
      ensures queue == old(queue) && processed == old(processed) && transaction == old(transaction)
      ensures p.None? && scheduled && destroyed == old(destroyed) + [old(p).value.(timeout := false, err := true)]
    {
      destroyed := destroyed + [p.value.(timeout := false, err := true)];
      p := None;
      if !scheduled { scheduled := true; }
    }

    /** control_response and browsing_response. */
    method Response(t: nat, more: bool)
      requires Valid()
      modifies this
      ensures Valid() && View() == Respond(old(View()), t, more)
    {
      if p.Some? && p.value.transaction == t {
        processed := [p.value.(timeout := false)] + processed;
        p := None;
        if !scheduled { scheduled := true; }
      }
      var i := 0;
      while i < |processed|
        invariant i <= |processed| && i + Find(processed[i..], t) == Find(processed, t)
        invariant forall j | 0 <= j < i :: processed[j].transaction != t
        invariant View() == Arrive(old(View()), t) && Valid()
      {
        if processed[i].transaction == t {
          if more { return; }
          destroyed := destroyed + [processed[i]];
          processed := processed[..i] + processed[i + 1..];
          return;
        }
        i := i + 1;
      }
    }

    /** avctp_channel_destroy. */
    method DestroyChannel()
      requires Valid()
      modifies this
      ensures Valid() && View() == Destroy(old(View()))
      ensures p.None? && queue == [] && processed == [] && !scheduled
    {
      if p.Some? { destroyed := destroyed + [p.value.(timeout := false)]; }
      p, scheduled := None, false;
      destroyed := destroyed + queue;
      queue := [];
      destroyed := destroyed + processed;
      processed := [];
    }
  }
}
