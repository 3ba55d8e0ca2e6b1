/** The list of service capabilities (section 8.21 of AVDTP 1.3): category, length, and so many bytes. */
module AvdtpCapabilities {
  import opened Prelude

  const MEDIA_TRANSPORT: Byte := 0x01
  const MEDIA_CODEC: Byte := 0x07
  const DELAY_REPORTING: Byte := 0x08

  datatype Cap = Cap(category: Byte, data: seq<Byte>) {
    predicate Fits() { |data| < 256 }

    function Wire(): seq<Byte>
      requires Fits()
    {
      [category, |data|] + data
    }
  }

  ghost predicate AllFit(caps: seq<Cap>) {
    forall c | c in caps :: c.Fits()
  }

  ghost function Serialise(caps: seq<Cap>): seq<Byte>
    requires AllFit(caps)
  {
    if caps == [] then [] else caps[0].Wire() + Serialise(caps[1..])
  }

  /** What a reader has to stop at: less than a header, or an entry that announces more than is there. */
  predicate Stops(rest: seq<Byte>) {
    |rest| < 2 || |rest| < (rest[1] as int) + 2
  }

  /** `caps` is as much of `bytes` as can be read. */
  ghost predicate Reads(bytes: seq<Byte>, caps: seq<Cap>, rest: seq<Byte>) {
    AllFit(caps) && bytes == Serialise(caps) + rest && Stops(rest)
  }

  lemma {:induction false} SerialiseConcat(a: seq<Cap>, b: seq<Cap>)
    requires AllFit(a) && AllFit(b)
    ensures AllFit(a + b) && Serialise(a + b) == Serialise(a) + Serialise(b)
  {
    if a == [] {
      assert a + b == b;
    } else {
      assert (a + b)[1..] == a[1..] + b;
      SerialiseConcat(a[1..], b);
    }
  }

  /** Only one list can be read from given bytes. */
  lemma {:induction false} ReadsOnce(bytes: seq<Byte>, a: seq<Cap>, ra: seq<Byte>, b: seq<Cap>, rb: seq<Byte>)
    requires Reads(bytes, a, ra) && Reads(bytes, b, rb)
    ensures a == b && ra == rb
  {
    if a == [] || b == [] {
      assert [] + ra == ra && [] + rb == rb;
      if a != [] { FirstEntry(bytes, a, ra); }
      if b != [] { FirstEntry(bytes, b, rb); }
    } else {
      FirstEntry(bytes, a, ra);
      FirstEntry(bytes, b, rb);
      assert a[0] == b[0];
      ReadsOnce(bytes[2 + bytes[1]..], a[1..], ra, b[1..], rb);
    }
  }

  /** The first entry is where the header says. */
  lemma FirstEntry(bytes: seq<Byte>, caps: seq<Cap>, rest: seq<Byte>)
    requires Reads(bytes, caps, rest) && caps != []
    ensures !Stops(bytes) && caps[0] == Cap(bytes[0], bytes[2..2 + bytes[1]])
    ensures Reads(bytes[2 + bytes[1]..], caps[1..], rest)
  {
    var c := caps[0];
    assert c in caps;
    assert bytes == c.Wire() + (Serialise(caps[1..]) + rest);
    assert bytes[..2 + |c.data|] == c.Wire();
    assert bytes[2..2 + |c.data|] == c.Wire()[2..] == c.data;
    assert bytes[2 + |c.data|..] == Serialise(caps[1..]) + rest;
  }

  /** Reading what was written gives back the list, with nothing left. */
  lemma ReadsWhatWasWritten(caps: seq<Cap>, read: seq<Cap>, rest: seq<Byte>)
    requires AllFit(caps) && Reads(Serialise(caps), read, rest)
    ensures read == caps && rest == []
  {
    assert Reads(Serialise(caps), caps, []);
    ReadsOnce(Serialise(caps), caps, [], read, rest);
  }

  /** The last codec capability of the list that can hold the media type and the codec type, if there is one. */
  ghost predicate LastCodec(caps: seq<Cap>, codec: Option<nat>) {
    match codec
    case Some(i) =>
      && i < |caps| && caps[i].category == MEDIA_CODEC && |caps[i].data| >= 2
      && forall j | i < j < |caps| :: caps[j].category != MEDIA_CODEC || |caps[j].data| < 2
    case None => forall j | 0 <= j < |caps| :: caps[j].category != MEDIA_CODEC || |caps[j].data| < 2
  }

  /** Where the entry at position `i` starts. */
  function Offset(caps: seq<Cap>, i: nat): nat
    requires i <= |caps|
  {
    if i == 0 then 0 else Offset(caps, i - 1) + 2 + |caps[i - 1].data|
  }

  lemma {:induction false} OffsetIs(caps: seq<Cap>, i: nat)
    requires AllFit(caps) && i <= |caps|
    ensures Offset(caps, i) == |Serialise(caps[..i])|
  {
    if i > 0 {
      OffsetIs(caps, i - 1);
      PrefixOneMore(caps, i - 1);
    }
  }

  /** Each entry is its category, the number of its bytes, and these bytes, right behind the entries before it. */
  lemma EntryAt(caps: seq<Cap>, i: nat)
    requires AllFit(caps) && i < |caps|
    ensures var o, bytes := Offset(caps, i), Serialise(caps);
            && o + 2 + |caps[i].data| <= |bytes|
            && bytes[o] == caps[i].category && bytes[o + 1] == |caps[i].data|
            && bytes[o + 2..o + 2 + |caps[i].data|] == caps[i].data
  {
    var c := caps[i];
    assert c in caps;
    OffsetIs(caps, i);
    PrefixOneMore(caps, i);
    assert caps == caps[..i + 1] + caps[i + 1..];
    SerialiseConcat(caps[..i + 1], caps[i + 1..]);
    var o, bytes := Offset(caps, i), Serialise(caps);
    assert bytes == Serialise(caps[..i]) + c.Wire() + Serialise(caps[i + 1..]);
    assert bytes[o..o + 2 + |c.data|] == c.Wire();
    assert bytes[o + 2..o + 2 + |c.data|] == bytes[o..o + 2 + |c.data|][2..];
  }

  /** One entry moves from the unread bytes to the list. */
  lemma ReadOneMore(bytes: seq<Byte>, caps: seq<Cap>, processed: nat)
    requires AllFit(caps) && processed + 2 <= |bytes| && bytes[..processed] == Serialise(caps)
    requires processed + 2 + bytes[processed + 1] <= |bytes|
    ensures var next := processed + 2 + bytes[processed + 1];
            var cap := Cap(bytes[processed], bytes[processed + 2..next]);
            AllFit(caps + [cap]) && bytes[..next] == Serialise(caps + [cap])
  {
    var next := processed + 2 + bytes[processed + 1];
    var cap := Cap(bytes[processed], bytes[processed + 2..next]);
    assert AllFit([cap]) && [cap][1..] == [];
    assert Serialise([cap]) == cap.Wire() + [];
    SerialiseConcat(caps, [cap]);
    assert bytes[..next] == bytes[..processed] + cap.Wire();
  }

  /** caps_to_list: the list, the position in it of the codec, and whether delays are reported. */
  method CapsToList(bytes: seq<Byte>) returns (caps: seq<Cap>, codec: Option<nat>, delayReporting: bool)
    ensures AllFit(caps) && |Serialise(caps)| <= |bytes| && Reads(bytes, caps, bytes[|Serialise(caps)|..])
    ensures LastCodec(caps, codec)
    ensures delayReporting <==> exists c :: c in caps && c.category == DELAY_REPORTING
  {
    caps, codec, delayReporting := [], None, false;
    var processed := 0;
    while processed + 2 <= |bytes|
      invariant processed <= |bytes| && AllFit(caps) && bytes[..processed] == Serialise(caps)
      invariant LastCodec(caps, codec)
      invariant delayReporting <==> exists c :: c in caps && c.category == DELAY_REPORTING
      decreases |bytes| - processed
    {
      var category, length := bytes[processed], bytes[processed + 1];
      if processed + 2 + length > |bytes| { break; }
      var cap := Cap(category, bytes[processed + 2..processed + 2 + length]);
      ReadOneMore(bytes, caps, processed);
      processed := processed + 2 + length;
      ghost var before := caps;
      caps := caps + [cap];
      assert forall c :: c in caps <==> c in before || c == cap;
      if category == MEDIA_CODEC && length >= 2 {
        codec := Some(|caps| - 1);
      } else if category == DELAY_REPORTING {
        delayReporting := true;
      }
    }
    assert |Serialise(caps)| == processed;
    assert bytes == bytes[..processed] + bytes[processed..];
  }

  /** The size of a Set Configuration request, and the copying of the capabilities into it. */
  method CopyCaps(caps: seq<Cap>) returns (buf: array<Byte>)
    requires AllFit(caps)
    ensures fresh(buf) && buf[..] == Serialise(caps)
  {
    var capsLen := 0;
    var i := 0;
    assert caps[..0] == [];
    while i < |caps|
      invariant i <= |caps| && capsLen == |Serialise(caps[..i])|
    {
      PrefixOneMore(caps, i);
      capsLen := capsLen + |caps[i].data| + 2;
      i := i + 1;
    }
    assert caps[..|caps|] == caps;
    buf := new Byte[capsLen](_ => 0);
    var ptr := 0;
    i := 0;
    while i < |caps|
      invariant i <= |caps| && ptr == |Serialise(caps[..i])| <= capsLen && buf[..ptr] == Serialise(caps[..i])
    {
      PrefixOneMore(caps, i);
      PrefixShorter(caps, i + 1);
      var wire := [caps[i].category, |caps[i].data|] + caps[i].data;
      Put(buf, ptr, wire);
      ptr := ptr + |caps[i].data| + 2;
      i := i + 1;
    }
  }

  /** memcpy. */
  method Put(buf: array<Byte>, at: nat, bytes: seq<Byte>)
    requires at + |bytes| <= buf.Length
    modifies buf
    ensures buf[..at + |bytes|] == old(buf[..at]) + bytes
    ensures buf[at + |bytes|..] == old(buf[at + |bytes|..])
  {
    forall k | 0 <= k < |bytes| { buf[at + k] := bytes[k]; }
  }

  lemma PrefixOneMore(caps: seq<Cap>, i: nat)
    requires AllFit(caps) && i < |caps|
    ensures Serialise(caps[..i + 1]) == Serialise(caps[..i]) + caps[i].Wire()
  {
    assert caps[..i + 1] == caps[..i] + [caps[i]];
    SerialiseConcat(caps[..i], [caps[i]]);
    assert [caps[i]][1..] == [];
    assert Serialise([caps[i]]) == caps[i].Wire() + [];
  }

  lemma PrefixShorter(caps: seq<Cap>, i: nat)
    requires AllFit(caps) && i <= |caps|
    ensures |Serialise(caps[..i])| <= |Serialise(caps)|
  {
    assert caps == caps[..i] + caps[i..];
    SerialiseConcat(caps[..i], caps[i..]);
  }
}
