/**
  The cached characteristics of a GATT service (section 3.3 of Bluetooth Core Vol 3 Part G): each
  ends where the next begins, and clients walk through them by instance number. Handles have 16
  bits, instance numbers 8.
*/
module GattCharacteristics {
  import opened Prelude

  type Handle = x: int | 0 <= x < 0x1_0000

  datatype Char = Char(handle: Handle, endHandle: Handle, instance: Byte)

  /** The handle before `h`, in 16 bits. */
  function Before(h: Handle): Handle { (h + 0xFFFF) % 0x1_0000 }

  /** cache_all_srvc_chars: what the service caches for these handles. */
  function Cache(handles: seq<Handle>, end: Handle): (r: seq<Char>)
    ensures |r| == |handles|
  {
    seq(|handles|, i requires 0 <= i < |handles| =>
      Char(handles[i], if i + 1 < |handles| then Before(handles[i + 1]) else end, (i + 1) % 256))
  }

  // ----- ranges -----

  /** Without gap or overlap, from the first handle to the end of the service. */
  ghost predicate Tiles(cs: seq<Char>, end: Handle) {
    && (forall i | 0 <= i < |cs| :: cs[i].handle <= cs[i].endHandle)
    && (forall i | 0 <= i < |cs| - 1 :: cs[i + 1].handle == cs[i].endHandle + 1)
    && (cs != [] ==> cs[|cs| - 1].endHandle == end)
  }

  ghost predicate Rising(handles: seq<Handle>, end: Handle) {
    && (forall i | 0 <= i < |handles| - 1 :: handles[i] < handles[i + 1])
    && (handles != [] ==> handles[|handles| - 1] <= end)
  }

  lemma BeforeIs(h: Handle)
    ensures Before(h) == if h == 0 then 0xFFFF else h - 1
  {
  }

  /** The ranges tile the service exactly if the peer reports rising handles inside it. */
  lemma TilesIffRising(handles: seq<Handle>, end: Handle)
    ensures Tiles(Cache(handles, end), end) <==> Rising(handles, end)
  {
    var cs := Cache(handles, end);
    forall i | 0 <= i < |handles| - 1
      ensures cs[i].handle <= cs[i].endHandle && cs[i + 1].handle == cs[i].endHandle + 1
              <==> handles[i] < handles[i + 1]
    {
      BeforeIs(handles[i + 1]);
    }
    if Rising(handles, end) {
      forall i | 0 <= i < |cs|
        ensures cs[i].handle <= cs[i].endHandle
      {
        if i + 1 < |cs| { assert handles[i] < handles[i + 1]; }
      }
    }
    if Tiles(cs, end) && handles != [] {
      forall i | 0 <= i < |handles| - 1
        ensures handles[i] < handles[i + 1]
      {
        assert cs[i].handle <= cs[i].endHandle;
      }
      assert cs[|cs| - 1].handle <= cs[|cs| - 1].endHandle;
    }
  }

  /** Where the range with `h` in it is. */
  lemma {:induction false} TileOf(cs: seq<Char>, end: Handle, h: Handle) returns (i: nat)
    requires Tiles(cs, end) && cs != [] && cs[0].handle <= h <= end
    ensures i < |cs| && cs[i].handle <= h <= cs[i].endHandle
    ensures forall j | 0 <= j < |cs| && j != i :: !(cs[j].handle <= h <= cs[j].endHandle)
  {
    if h <= cs[0].endHandle {
      i := 0;
    } else {
      assert |cs| > 1;
      assert cs[1].handle == cs[0].endHandle + 1;
      TailTiles(cs, end);
      var k := TileOf(cs[1..], end, h);
      i := k + 1;
    }
    forall j | 0 <= j < |cs| && j != i
      ensures !(cs[j].handle <= h <= cs[j].endHandle)
    {
      if j < i { Later(cs, end, j, i); } else { Later(cs, end, i, j); }
    }
  }

  lemma TailTiles(cs: seq<Char>, end: Handle)
    requires Tiles(cs, end) && |cs| > 1
    ensures Tiles(cs[1..], end)
  {
    forall i | 0 <= i < |cs[1..]| - 1
      ensures cs[1..][i + 1].handle == cs[1..][i].endHandle + 1
    {
      assert cs[i + 1 + 1].handle == cs[i + 1].endHandle + 1;
    }
  }

  lemma {:induction false} Later(cs: seq<Char>, end: Handle, i: nat, j: nat)
    requires Tiles(cs, end) && i < j < |cs|
    ensures cs[i].endHandle < cs[j].handle
    decreases j
  {
    assert cs[j - 1 + 1].handle == cs[j - 1].endHandle + 1;
    if i < j - 1 { Later(cs, end, i, j - 1); }
  }

  /** Each handle from the first characteristic to the end of the service belongs to exactly one of them. */
  lemma EachHandleOnce(handles: seq<Handle>, end: Handle, h: Handle)
    requires Rising(handles, end) && handles != [] && handles[0] <= h <= end
    ensures var cs := Cache(handles, end);
            exists i :: 0 <= i < |cs| && cs[i].handle <= h <= cs[i].endHandle
                        && forall j | 0 <= j < |cs| && j != i :: !(cs[j].handle <= h <= cs[j].endHandle)
  {
    TilesIffRising(handles, end);
    var i := TileOf(Cache(handles, end), end, h);
  }

  // ----- the cursor -----

  /** queue_find with match_char_by_higher_inst_id: the first with a higher instance number, or the length. */
  function After(cs: seq<Char>, instance: Byte): (i: nat)
    ensures i <= |cs| && (i < |cs| ==> cs[i].instance > instance) && forall j | 0 <= j < i :: cs[j].instance <= instance
  {
    if cs == [] || cs[0].instance > instance then 0 else 1 + After(cs[1..], instance)
  }

  /** The positions a client visits that goes on from the instance number it was given last. */
  function From(cs: seq<Char>, instance: Byte): seq<nat>
    decreases 256 - instance
  {
    var i := After(cs, instance);
    if i == |cs| then [] else [i] + From(cs, cs[i].instance)
  }

  /** The whole walk: it starts at the head of the list. */
  function Walk(cs: seq<Char>): seq<nat> {
    if cs == [] then [] else [0] + From(cs, cs[0].instance)
  }

  /** The positions from `k` to before `n`. */
  function Upto(k: nat, n: nat): (r: seq<nat>)
    ensures forall i | k <= i < n :: i in r
    ensures forall i | i in r :: k <= i < n
    decreases n - k
  {
    if k >= n then [] else [k] + Upto(k + 1, n)
  }

  function Min(a: nat, b: nat): nat { if a < b then a else b }

  /** Instance numbers count positions from 1, in 8 bits. */
  ghost predicate Numbered(cs: seq<Char>) {
    forall j | 0 <= j < |cs| :: cs[j].instance == (j + 1) % 256
  }

  /** The next position after number `k`. */
  lemma AfterIs(cs: seq<Char>, k: Byte)
    requires Numbered(cs) && k <= Min(|cs|, 255)
    ensures After(cs, k) == if k < Min(|cs|, 255) then k else |cs|
  {
    if k < Min(|cs|, 255) { assert cs[k].instance == k + 1; }
    assert forall j | 0 <= j < k :: cs[j].instance <= k;
  }

  lemma {:induction false} FromVisits(cs: seq<Char>, k: Byte)
    requires Numbered(cs) && 1 <= k <= Min(|cs|, 255)
    ensures From(cs, k) == Upto(k, Min(|cs|, 255))
    decreases 256 - k
  {
    AfterIs(cs, k);
    if k < Min(|cs|, 255) {
      assert cs[k].instance == k + 1;
      FromVisits(cs, k + 1);
    }
  }

  /** The walk visits the first 255 characteristics once, in order, and then stops. */
  lemma WalkVisits(handles: seq<Handle>, end: Handle)
    ensures Walk(Cache(handles, end)) == Upto(0, Min(|handles|, 255))
  {
    if handles != [] { FromVisits(Cache(handles, end), 1); }
  }

  /** So it visits them all exactly if there are at most 255: the instance number is one byte. */
  lemma WalkVisitsAll(handles: seq<Handle>, end: Handle)
    ensures (forall i | 0 <= i < |handles| :: i in Walk(Cache(handles, end))) <==> |handles| <= 255
  {
    WalkVisits(handles, end);
    if |handles| > 255 { assert 255 !in Walk(Cache(handles, end)); }
  }

  // ----- the service -----

  class Service {
    const end: Handle
    var chars: seq<Char>

    constructor (end: Handle)
      ensures this.end == end && chars == []
    {
      this.end, chars := end, [];
    }

    /** discover_char_cb with cache_all_srvc_chars: only an empty cache is filled. */
    method Discovered(handles: seq<Handle>)
      modifies this
      ensures chars == if old(chars) == [] then Cache(handles, end) else old(chars)
      ensures old(chars) == [] ==> |chars| == |handles| && forall i | 0 <= i < |handles| ::
                chars[i].handle == handles[i] && chars[i].instance == (i + 1) % 256
    {
      if chars != [] { return; }
      var inst: int := 0;
      var i := 0;
      while i < |handles|
        invariant i <= |handles| && chars == Cache(handles, end)[..i] && inst == i % 0x1_0000
      {
        inst := (inst + 1) % 0x1_0000;
        var last: Handle := if i + 1 < |handles| then (handles[i + 1] - 1) % 0x1_0000 else end;
        SixteenBits(i);
        chars := chars + [Char(handles[i], last, inst % 256)];
        i := i + 1;
      }
    }

    /** handle_client_get_characteristic, on a filled cache: the characteristic to report, or none. */
    method GetCharacteristic(continuation: bool, instance: Byte) returns (ch: Option<Char>)
      ensures continuation ==>
                ch == if After(chars, instance) < |chars| then Some(chars[After(chars, instance)]) else None
      ensures !continuation ==> ch == if chars == [] then None else Some(chars[0])
    {
      if !continuation { return if chars == [] then None else Some(chars[0]); }
      var i := 0;
      while i < |chars|
        invariant i <= |chars| && i + After(chars[i..], instance) == After(chars, instance)
      {
        if chars[i].instance > instance { return Some(chars[i]); }
        i := i + 1;
      }
      return None;
    }
  }

  /** Counting in 16 bits and keeping 8 of them. */
  lemma SixteenBits(i: nat)
    ensures (i % 0x1_0000 + 1) % 0x1_0000 == (i + 1) % 0x1_0000 && (i + 1) % 0x1_0000 % 256 == (i + 1) % 256
  {
    var q, r := i / 0x1_0000, i % 0x1_0000;
    if r < 0xFFFF { ModMultiple(r + 1, q * 256); } else { ModMultiple(0, (q + 1) * 256); }
  }

  lemma {:induction false} ModMultiple(r: nat, k: nat)
    ensures (k * 256 + r) % 256 == r % 256
  {
  }
}
