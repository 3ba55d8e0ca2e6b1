/**
  The choice of an SBC configuration for a remote end point (section 4.3.2 of A2DP): the first
  preset the remote accepts, with its bitpool range narrowed to the remote's - in the preset itself.
*/
module SbcNegotiation {
  import opened Prelude

  const CODEC_SBC := 0x00
  const SBC_SIZE := 4

  datatype Sbc = Sbc(frequency: bv4, channelMode: bv4, blockLength: bv4, allocationMethod: bv2, subbands: bv2,
                     minBitpool: Byte, maxBitpool: Byte)
  {
    /** A range of bitpools that is not empty. */
    predicate WellFormed() { minBitpool <= maxBitpool }

    predicate Admits(bitpool: Byte) { minBitpool <= bitpool <= maxBitpool }
  }

  /** What the remote end point offers, and a stored preset; `len` is the length of its codec data. */
  datatype Remote = Remote(codec: nat, len: nat, caps: Sbc)

  datatype Stored = Stored(len: nat, sbc: Sbc)

  datatype Verdict = Fits | Invalid | OutOfRange

  // ----- one preset -----

  /** Two bit masks have a bit in common. */
  predicate Meet4(a: bv4, b: bv4) { a & b != 0 }

  predicate Meet2(a: bv2, b: bv2) { a & b != 0 }

  predicate Features(cap: Sbc, config: Sbc) {
    && Meet4(cap.frequency, config.frequency) && Meet4(cap.channelMode, config.channelMode)
    && Meet4(cap.blockLength, config.blockLength) && Meet2(cap.allocationMethod, config.allocationMethod)
  }

  /** sbc_check_config. */
  function Check(r: Remote, p: Stored): Verdict {
    var cap, config := r.caps, p.sbc;
    if p.len != r.len || p.len != SBC_SIZE then Invalid
    else if !Features(cap, config) then Invalid
    else if config.maxBitpool < cap.minBitpool then Invalid
    else if config.minBitpool > cap.maxBitpool then Invalid
    else if config.maxBitpool > cap.maxBitpool then OutOfRange
    else if config.minBitpool < cap.minBitpool then OutOfRange
    else Fits
  }

  predicate Sized(r: Remote, p: Stored) { p.len == r.len == SBC_SIZE }

  /** Two ranges, each of them not empty, have a bitpool in common. */
  predicate Overlap(a: Sbc, b: Sbc) { a.minBitpool <= b.maxBitpool && b.minBitpool <= a.maxBitpool }

  /** The verdict in terms of bitpools: fit is inclusion, refusal is disjointness, of features or of ranges. */
  lemma CheckMeans(r: Remote, p: Stored)
    requires p.sbc.WellFormed() && r.caps.WellFormed()
    ensures Check(r, p) == Fits <==>
              Sized(r, p) && Features(r.caps, p.sbc) && forall b: Byte :: p.sbc.Admits(b) ==> r.caps.Admits(b)
    ensures Check(r, p) != Invalid <==>
              Sized(r, p) && Features(r.caps, p.sbc) && exists b: Byte :: p.sbc.Admits(b) && r.caps.Admits(b)
  {
    var lo: Byte := if p.sbc.minBitpool > r.caps.minBitpool then p.sbc.minBitpool else r.caps.minBitpool;
    assert Overlap(p.sbc, r.caps) ==> p.sbc.Admits(lo) && r.caps.Admits(lo);
    assert p.sbc.Admits(p.sbc.minBitpool) && p.sbc.Admits(p.sbc.maxBitpool);
  }

  /** check_capabilities. */
  function Capable(r: Remote, p: Stored): Verdict {
    if r.codec == CODEC_SBC then Check(r, p) else Invalid
  }

  /**
    When a preset is not refused: for an SBC end point, with equal sizes of 4 bytes, a common bit in each of four
    masks - subbands are not compared - and ranges that touch. It fits if its range lies within the other.
   */
  lemma CapableExactly(r: Remote, p: Stored)
    ensures Capable(r, p) != Invalid <==>
              && r.codec == 0 && p.len == 4 && r.len == 4
              && r.caps.frequency & p.sbc.frequency != 0 && r.caps.channelMode & p.sbc.channelMode != 0
              && r.caps.blockLength & p.sbc.blockLength != 0 && r.caps.allocationMethod & p.sbc.allocationMethod != 0
              && r.caps.minBitpool <= p.sbc.maxBitpool && p.sbc.minBitpool <= r.caps.maxBitpool
    ensures Capable(r, p) == Fits <==>
              && Capable(r, p) != Invalid
              && r.caps.minBitpool <= p.sbc.minBitpool && p.sbc.maxBitpool <= r.caps.maxBitpool
  {
  }

  /** sbc_select_range. */
  function Narrow(r: Remote, p: Stored): Stored {
    var cap, config := r.caps, p.sbc;
    p.(sbc := config.(minBitpool := if config.minBitpool > cap.minBitpool then config.minBitpool else cap.minBitpool,
                      maxBitpool := if config.maxBitpool < cap.maxBitpool then config.maxBitpool else cap.maxBitpool))
  }

  /** What a preset becomes when it is chosen: itself if it fits, else the narrowed one. */
  function Chosen(r: Remote, p: Stored): Stored {
    if Capable(r, p) == OutOfRange then Narrow(r, p) else p
  }

  /** The chosen range is exactly what both sides admit, and no other field changes. */
  lemma ChosenIsIntersection(r: Remote, p: Stored)
    requires Capable(r, p) != Invalid
    ensures var q := Chosen(r, p);
            && (forall b: Byte :: q.sbc.Admits(b) <==> p.sbc.Admits(b) && r.caps.Admits(b))
            && q == p.(sbc := p.sbc.(minBitpool := q.sbc.minBitpool, maxBitpool := q.sbc.maxBitpool))
  {
  }

  /** It is not empty exactly if neither side's own range is. */
  lemma ChosenWellFormed(r: Remote, p: Stored)
    requires Capable(r, p) != Invalid
    ensures Chosen(r, p).sbc.WellFormed() <==> p.sbc.WellFormed() && r.caps.WellFormed()
  {
  }

  /** A narrowed preset passes the check against the remote exactly if the remote's range is not empty. */
  lemma ChosenFits(r: Remote, p: Stored)
    requires Capable(r, p) == OutOfRange
    ensures Capable(r, Chosen(r, p)) == Fits <==> r.caps.WellFormed()
  {
  }

  // ----- all presets -----

  /** The first preset the remote does not refuse, or the length. */
  function First(r: Remote, ps: seq<Stored>): (i: nat)
    ensures i <= |ps| && (i < |ps| ==> Capable(r, ps[i]) != Invalid)
    ensures forall j | 0 <= j < i :: Capable(r, ps[j]) == Invalid
  {
    if ps == [] || Capable(r, ps[0]) != Invalid then 0 else 1 + First(r, ps[1..])
  }

  /** select_preset: the stored presets afterwards. */
  function Select(r: Remote, ps: seq<Stored>): seq<Stored> {
    var i := First(r, ps);
    if i == |ps| then ps else ps[i := Chosen(r, ps[i])]
  }

  /** A selected preset fits the remote, and its bitpools are the non-empty intersection of the two ranges. */
  lemma SelectedFits(r: Remote, ps: seq<Stored>)
    requires r.caps.WellFormed() && First(r, ps) < |ps| && ps[First(r, ps)].sbc.WellFormed()
    ensures var i := First(r, ps); var q := Select(r, ps)[i];
            && Capable(r, q) == Fits && q.sbc.WellFormed()
            && (forall b: Byte :: q.sbc.Admits(b) <==> ps[i].sbc.Admits(b) && r.caps.Admits(b))
  {
    var p := ps[First(r, ps)];
    ChosenIsIntersection(r, p);
    ChosenWellFormed(r, p);
    if Capable(r, p) == OutOfRange { ChosenFits(r, p); }
  }

  // ----- runs -----

  function Run(rs: seq<Remote>, ps: seq<Stored>): seq<Stored>
    decreases |rs|
  {
    if rs == [] then ps else Run(rs[1..], Select(rs[0], ps))
  }

  /** `q` is `p` with a range that is within `p`'s. */
  predicate Shrunk(p: Stored, q: Stored) {
    && q == p.(sbc := p.sbc.(minBitpool := q.sbc.minBitpool, maxBitpool := q.sbc.maxBitpool))
    && p.sbc.minBitpool <= q.sbc.minBitpool && q.sbc.maxBitpool <= p.sbc.maxBitpool
  }

  ghost predicate AllShrunk(ps: seq<Stored>, qs: seq<Stored>) {
    |ps| == |qs| && forall i | 0 <= i < |ps| :: Shrunk(ps[i], qs[i])
  }

  ghost predicate AllWellFormed(ps: seq<Stored>) {
    forall p | p in ps :: p.sbc.WellFormed()
  }

  lemma SelectShrinks(r: Remote, ps: seq<Stored>)
    ensures AllShrunk(ps, Select(r, ps))
    ensures AllWellFormed(ps) ==>
              (AllWellFormed(Select(r, ps)) <==> First(r, ps) == |ps| || r.caps.WellFormed())
  {
    var i := First(r, ps);
    if i < |ps| {
      ChosenWellFormed(r, ps[i]);
      var qs := Select(r, ps);
      assert qs[i] == Chosen(r, ps[i]);
      if AllWellFormed(ps) && r.caps.WellFormed() {
        forall q | q in qs
          ensures q.sbc.WellFormed()
        {
          var k :| 0 <= k < |qs| && qs[k] == q;
          assert ps[k] in ps;
        }
      } else if AllWellFormed(ps) {
        assert ps[i] in ps && qs[i] in qs;
      }
    }
  }

  ghost predicate RemotesWellFormed(rs: seq<Remote>) {
    forall r | r in rs :: r.caps.WellFormed()
  }

  /** Over every run of selections the stored ranges only shrink, stay non-empty, and nothing else changes. */
  lemma {:induction false} RunShrinks(rs: seq<Remote>, ps: seq<Stored>)
    ensures AllShrunk(ps, Run(rs, ps))
    ensures AllWellFormed(ps) && RemotesWellFormed(rs) ==> AllWellFormed(Run(rs, ps))
    decreases |rs|
  {
    if rs != [] {
      SelectShrinks(rs[0], ps);
      RunShrinks(rs[1..], Select(rs[0], ps));
      if RemotesWellFormed(rs) { assert rs[0] in rs && forall r | r in rs[1..] :: r in rs; }
      var qs := Run(rs, ps);
      forall i | 0 <= i < |ps|
        ensures Shrunk(ps[i], qs[i])
      {
        assert Shrunk(ps[i], Select(rs[0], ps)[i]);
      }
    }
  }

  // ----- what serving one remote leaves for another -----

  /** A preset that served one remote suits another exactly if it did before, and the two have a bitpool in common. */
  lemma StillCapable(r: Remote, served: Remote, p: Stored)
    requires p.sbc.WellFormed() && r.caps.WellFormed() && served.caps.WellFormed() && Capable(served, p) != Invalid
    ensures Capable(r, Chosen(served, p)) != Invalid <==> Capable(r, p) != Invalid && Overlap(served.caps, r.caps)
  {
  }

  /** The remotes that the preset at position `k` served. */
  ghost function ServedAt(rs: seq<Remote>, ps: seq<Stored>, k: nat): seq<Remote>
    decreases |rs|
  {
    if rs == [] then []
    else (if First(rs[0], ps) == k then [rs[0]] else []) + ServedAt(rs[1..], Select(rs[0], ps), k)
  }

  /** After every run a preset suits a remote exactly if it did at first, and all it served share a bitpool with it. */
  lemma {:induction false} CapableAfter(r: Remote, rs: seq<Remote>, ps: seq<Stored>, k: nat)
    requires AllWellFormed(ps) && RemotesWellFormed(rs) && r.caps.WellFormed() && k < |ps|
    ensures |Run(rs, ps)| == |ps|
    ensures Capable(r, Run(rs, ps)[k]) != Invalid <==>
              Capable(r, ps[k]) != Invalid && forall q | q in ServedAt(rs, ps, k) :: Overlap(q.caps, r.caps)
    decreases |rs|
  {
    RunShrinks(rs, ps);
    if rs != [] {
      var first, rest := rs[0], Select(rs[0], ps);
      SelectShrinks(first, ps);
      assert first in rs && forall q | q in rs[1..] :: q in rs;
      CapableAfter(r, rs[1..], rest, k);
      assert ps[k] in ps;
      if First(first, ps) == k { StillCapable(r, first, ps[k]); }
    }
  }

  /**
    Serving remotes narrows what later ones are offered: after every run a remote is refused exactly if
    for each preset that suited it, that preset served a remote that has no bitpool in common with it.
   */
  lemma RefusedAfter(r: Remote, rs: seq<Remote>, ps: seq<Stored>)
    requires AllWellFormed(ps) && RemotesWellFormed(rs) && r.caps.WellFormed()
    ensures First(r, Run(rs, ps)) == |ps| <==>
              forall k | 0 <= k < |ps| && Capable(r, ps[k]) != Invalid ::
                exists q :: q in ServedAt(rs, ps, k) && !Overlap(q.caps, r.caps)
  {
    RunShrinks(rs, ps);
    var qs := Run(rs, ps);
    forall k | 0 <= k < |ps|
      ensures Capable(r, qs[k]) != Invalid <==>
                Capable(r, ps[k]) != Invalid && forall q | q in ServedAt(rs, ps, k) :: Overlap(q.caps, r.caps)
    {
      CapableAfter(r, rs, ps, k);
    }
  }

  /** For example: a preset for bitpools 2 to 53 suits a remote from 40 on, but not after one up to 20. */
  lemma OrderMatters()
    ensures var all := Sbc(1, 1, 1, 1, 1, 2, 53);
            var low := Remote(CODEC_SBC, SBC_SIZE, all.(maxBitpool := 20));
            var high := Remote(CODEC_SBC, SBC_SIZE, all.(minBitpool := 40));
            var ps := [Stored(SBC_SIZE, all)];
            && First(high, ps) == 0 && First(low, ps) == 0 && First(high, Select(low, ps)) == 1
  {
    var all := Sbc(1, 1, 1, 1, 1, 2, 53);
    var low := Remote(CODEC_SBC, SBC_SIZE, all.(maxBitpool := 20));
    var high := Remote(CODEC_SBC, SBC_SIZE, all.(minBitpool := 40));
    assert Features(all, all);
    StillCapable(high, low, Stored(SBC_SIZE, all));
  }

  // ----- the end point -----

  class Preset {
    const len: nat
    var sbc: Sbc

    constructor (len: nat, sbc: Sbc)
      ensures this.len == len && this.sbc == sbc
    {
      this.len, this.sbc := len, sbc;
    }

    function View(): Stored
      reads this
    {
      Stored(len, sbc)
    }
  }

  function Views(ps: seq<Preset>): (r: seq<Stored>)
    reads ps
    ensures |r| == |ps|
  {
    seq(|ps|, i requires 0 <= i < |ps| reads ps => ps[i].View())
  }

  /** sbc_select_range: the stored preset is overwritten, and a copy of it returned. */
  method SelectRange(p: Preset, r: Remote) returns (q: Preset)
    modifies p
    ensures p.View() == Narrow(r, old(p.View())) && fresh(q) && q.View() == p.View()
  {
    var min := if p.sbc.minBitpool > r.caps.minBitpool then p.sbc.minBitpool else r.caps.minBitpool;
    p.sbc := p.sbc.(minBitpool := min);
    var max := if p.sbc.maxBitpool < r.caps.maxBitpool then p.sbc.maxBitpool else r.caps.maxBitpool;
    p.sbc := p.sbc.(maxBitpool := max);
    q := new Preset(p.len, p.sbc);
  }

  /** sbc_check_config, as it goes through the fields. */
  method CheckFields(p: Preset, r: Remote) returns (v: Verdict)
    ensures v == Check(r, p.View())
  {
    if p.len != r.len || p.len != SBC_SIZE { return Invalid; }
    if !Meet4(r.caps.frequency, p.sbc.frequency) { return Invalid; }
    if !Meet4(r.caps.channelMode, p.sbc.channelMode) { return Invalid; }
    if !Meet4(r.caps.blockLength, p.sbc.blockLength) { return Invalid; }
    if !Meet2(r.caps.allocationMethod, p.sbc.allocationMethod) { return Invalid; }
    if p.sbc.maxBitpool < r.caps.minBitpool { return Invalid; }
    if p.sbc.minBitpool > r.caps.maxBitpool { return Invalid; }
    if p.sbc.maxBitpool > r.caps.maxBitpool { return OutOfRange; }
    if p.sbc.minBitpool < r.caps.minBitpool { return OutOfRange; }
    return Fits;
  }

  /**
    What that comes to: a preset fits if the remote admits every bitpool it admits, and is refused if none,
    or if the sizes or features differ.
   */
  method CheckConfig(p: Preset, r: Remote) returns (v: Verdict)
    ensures v == Check(r, p.View())
    ensures p.sbc.WellFormed() && r.caps.WellFormed() ==>
              var comparable := (
                && p.len == r.len == SBC_SIZE
                && r.caps.frequency & p.sbc.frequency != 0 && r.caps.channelMode & p.sbc.channelMode != 0
                && r.caps.blockLength & p.sbc.blockLength != 0
                && r.caps.allocationMethod & p.sbc.allocationMethod != 0);
              && (v == Fits <==> comparable && forall b: Byte :: p.sbc.Admits(b) ==> r.caps.Admits(b))
              && (v == Invalid <==> !(comparable && exists b: Byte :: p.sbc.Admits(b) && r.caps.Admits(b)))
  {
    if p.sbc.WellFormed() && r.caps.WellFormed() { CheckMeans(r, p.View()); }
    v := CheckFields(p, r);
  }

  /** select_preset. */
  method SelectPreset(presets: seq<Preset>, r: Remote) returns (chosen: Preset?)
    requires NoDup(presets)
    modifies presets
    ensures Views(presets) == Select(r, old(Views(presets)))
    ensures var i := First(r, old(Views(presets)));
            if i == |presets| then chosen == null
            else chosen != null && chosen.View() == presets[i].View()
                 && (chosen == presets[i] <==> Capable(r, old(presets[i].View())) == Fits)
  {
    ghost var ps := Views(presets);
    var l := 0;
    while l < |presets|
      invariant l <= |presets| && Views(presets) == ps
      invariant forall j | 0 <= j < l :: Capable(r, ps[j]) == Invalid
    {
      var preset := presets[l];
      var err := Invalid;
      if r.codec == CODEC_SBC { err := CheckConfig(preset, r); }
      assert ps[l] == preset.View() && err == Capable(r, ps[l]);
      if err == Fits {
        assert First(r, ps) == l;
        return preset;
      }
      if err == OutOfRange {
        assert First(r, ps) == l;
        chosen := SelectRange(preset, r);
        assert forall k | 0 <= k < |presets| && k != l :: presets[k] != preset;
        assert Views(presets) == ps[l := Narrow(r, ps[l])];
        return chosen;
      }
      l := l + 1;
    }
    return null;
  }
}
