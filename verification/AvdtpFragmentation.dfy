/**
  AVDTP signalling transport (section 8.4 of AVDTP 1.3): the sender that splits one message
  into START, CONTINUE and END packets, and the receiver that puts it together again.

  The class `Transport` holds the fields the two handlers update in place. `Packets` and
  `Parse` are the values its methods are proved against; the lemmas relate those two, on
  packets first and then, through the header codec, on bytes.
*/
module AvdtpFragmentation {
  import opened Prelude

  const IN_BUF_SIZE := 1024

  // ----- packets and their bytes -----

  datatype Packet =
    | Single(lbl: Byte, messageType: Byte, signal: Byte, payload: seq<Byte>)
    | Start(lbl: Byte, messageType: Byte, announced: Byte, signal: Byte, payload: seq<Byte>)
    | Continue(lbl: Byte, messageType: Byte, payload: seq<Byte>)
    | End(lbl: Byte, messageType: Byte, payload: seq<Byte>)
  {
    /** The bit fields of the headers hold their values. */
    predicate Valid() {
      lbl < 16 && messageType < 4 && (Single? || Start? ==> signal < 64)
    }

    function HeaderSize(): nat {
      match this
      case Single(_, _, _, _) => 2
      case Start(_, _, _, _, _) => 3
      case _ => 1
    }
  }

  /** First byte of every packet: message type in bits 0-1, packet type in 2-3, label in 4-7. */
  function Header(lbl: Byte, kind: int, messageType: Byte): Byte
    requires lbl < 16 && 0 <= kind < 4 && messageType < 4
  {
    lbl * 16 + kind * 4 + messageType
  }

  function Encode(p: Packet): (bytes: seq<Byte>)
    requires p.Valid()
    ensures |bytes| == p.HeaderSize() + |p.payload|
  {
    match p
    case Single(l, t, s, d) => [Header(l, 0, t), s] + d
    case Start(l, t, n, s, d) => [Header(l, 1, t), n, s] + d
    case Continue(l, t, d) => [Header(l, 2, t)] + d
    case End(l, t, d) => [Header(l, 3, t)] + d
  }

  /** What the receiver reads out of a packet; None for one too short for its header. */
  function Decode(bytes: seq<Byte>): (p: Option<Packet>)
    requires bytes != []
    ensures p.Some? ==> p.value.Valid()
  {
    var l, kind, t := bytes[0] / 16, bytes[0] % 16 / 4, bytes[0] % 4;
    if kind == 0 then if |bytes| < 2 then None else Some(Single(l, t, bytes[1] % 64, bytes[2..]))
    else if kind == 1 then if |bytes| < 3 then None else Some(Start(l, t, bytes[1], bytes[2] % 64, bytes[3..]))
    else if kind == 2 then Some(Continue(l, t, bytes[1..]))
    else Some(End(l, t, bytes[1..]))
  }

  lemma HeaderFields(lbl: Byte, kind: int, messageType: Byte)
    requires lbl < 16 && 0 <= kind < 4 && messageType < 4
    ensures var h := Header(lbl, kind, messageType);
            h / 16 == lbl && h % 16 == kind * 4 + messageType && h % 16 / 4 == kind && h % 4 == messageType
  {
  }

  lemma DecodeEncode(p: Packet)
    requires p.Valid()
    ensures Decode(Encode(p)) == Some(p)
  {
    HeaderFields(p.lbl, if p.Single? then 0 else if p.Start? then 1 else if p.Continue? then 2 else 3, p.messageType);
    assert Encode(p)[p.HeaderSize()..] == p.payload;
  }

  // ----- sender -----

  /** A message as the upper layer hands it over; the headers keep 4, 2 and 6 bits of the fields. */
  datatype Message = Message(transaction: Byte, messageType: Byte, signal: Byte, data: seq<Byte>) {
    function Lbl(): Byte { transaction % 16 }
    function Type(): Byte { messageType % 4 }
    function Signal(): Byte { signal % 64 }
  }

  /** The number of CONTINUE and END packets the sender expects to need. */
  function ContFragments(len: nat, omtu: nat): nat
    requires 3 <= omtu < len + 2
  {
    (len - (omtu - 3)) / (omtu - 1) + 1
  }

  /** The announced packet count is stored in one byte. */
  function StartPacket(m: Message, omtu: nat): Packet
    requires 3 <= omtu < |m.data| + 2
  {
    Start(m.Lbl(), m.Type(), (ContFragments(|m.data|, omtu) + 1) % 256, m.Signal(), m.data[..omtu - 3])
  }

  /** The CONTINUE packets and the END packet for the bytes from `sent` on. */
  function TailPackets(m: Message, omtu: nat, sent: nat): (ps: seq<Packet>)
    requires 3 <= omtu && sent <= |m.data|
    ensures forall p | p in ps :: p.Valid()
    decreases |m.data| - sent
  {
    if sent == |m.data| then []
    else if |m.data| - sent + 1 > omtu then
      [Continue(m.Lbl(), m.Type(), m.data[sent..sent + omtu - 1])] + TailPackets(m, omtu, sent + omtu - 1)
    else
      [End(m.Lbl(), m.Type(), m.data[sent..])]
  }

  /** The packets for `m`, or None where the sender gives up before sending anything. */
  function Packets(m: Message, omtu: nat): (ps: Option<seq<Packet>>)
    ensures ps.Some? ==> ps.value != [] && forall p | p in ps.value :: p.Valid()
  {
    if 2 + |m.data| <= omtu then Some([Single(m.Lbl(), m.Type(), m.Signal(), m.data)])
    else if omtu < 3 then None
    else Some([StartPacket(m, omtu)] + TailPackets(m, omtu, omtu - 3))
  }

  // ----- receiver -----

  /** The reassembly state; `size` is the one-byte fill level of the 1024-byte buffer. */
  datatype Inbound = Inbound(active: bool, left: int, lbl: Byte, messageType: Byte, signal: Byte,
                             buf: seq<Byte>, size: Byte)
  {
    predicate Valid() { |buf| == IN_BUF_SIZE }

    function Received(): seq<Byte>
      requires Valid()
    {
      buf[..size]
    }
  }

  datatype ParseResult = Error | Fragment | Success

  /** The common end of all packet types: store the payload, count the packet. */
  function Store(st: Inbound, payload: seq<Byte>): (r: (Inbound, ParseResult))
    requires st.Valid()
    ensures r.0.Valid()
  {
    if st.size + |payload| > IN_BUF_SIZE then (st, Error)
    else
      var st' := st.(buf := st.buf[..st.size] + payload + st.buf[st.size + |payload|..],
                     size := (st.size + |payload|) % 256);
      if st.left > 1 then (st'.(left := st.left - 1), Fragment) else (st'.(active := false), Success)
  }

  function Parse(st: Inbound, p: Packet): (r: (Inbound, ParseResult))
    requires st.Valid()
    ensures r.0.Valid()
  {
    match p
    case Single(l, t, s, d) =>
      if st.active then (st, Error)
      else Store(st.(active := true, size := 0, left := 1, lbl := l, messageType := t, signal := s), d)
    case Start(l, t, n, s, d) =>
      if st.active then (st, Error)
      else Store(st.(active := true, size := 0, left := n, lbl := l, messageType := t, signal := s), d)
    case Continue(l, _, d) =>
      if !st.active || st.lbl != l || st.left <= 1 then (st, Error) else Store(st, d)
    case End(l, _, d) =>
      if !st.active || st.lbl != l || st.left > 1 then (st, Error) else Store(st, d)
  }

  /** Feeds packets in order; an error drops the connection, so nothing is read after one. */
  function Feed(st: Inbound, ps: seq<Packet>): (r: (Inbound, seq<ParseResult>))
    requires st.Valid()
    ensures r.0.Valid() && |r.1| <= |ps|
    decreases |ps|
  {
    if ps == [] then (st, [])
    else
      var (st1, res) := Parse(st, ps[0]);
      if res == Error then (st1, [Error])
      else
        var (st2, rest) := Feed(st1, ps[1..]);
        (st2, [res] + rest)
  }

  /** FRAGMENT for every packet but the last, then `last`. */
  function Verdicts(n: nat, last: ParseResult): (r: seq<ParseResult>)
    requires n > 0
    ensures |r| == n && r[n - 1] == last && forall i | 0 <= i < n - 1 :: r[i] == Fragment
  {
    seq(n - 1, _ => Fragment) + [last]
  }

  lemma VerdictsCons(n: nat, last: ParseResult)
    requires n > 1
    ensures Verdicts(n, last) == [Fragment] + Verdicts(n - 1, last)
  {
  }

  lemma SameCons<T>(a: T, s: seq<T>, b: T, t: seq<T>)
    ensures [a] + s == [b] + t <==> a == b && s == t
  {
    assert ([a] + s)[0] == a && ([a] + s)[1..] == s;
    assert ([b] + t)[0] == b && ([b] + t)[1..] == t;
  }

  /** `ps` is received up to its last packet iff its first packet is a fragment and the rest is. */
  lemma FeedStep(st: Inbound, ps: seq<Packet>, last: ParseResult)
    requires st.Valid() && |ps| > 1
    ensures var (st1, res) := Parse(st, ps[0]);
            && (Feed(st, ps).1 == Verdicts(|ps|, last)
                <==> res == Fragment && Feed(st1, ps[1..]).1 == Verdicts(|ps| - 1, last))
            && (res == Fragment ==> Feed(st, ps).0 == Feed(st1, ps[1..]).0)
  {
    var (st1, res) := Parse(st, ps[0]);
    VerdictsCons(|ps|, last);
    SameCons(res, Feed(st1, ps[1..]).1, Fragment, Verdicts(|ps| - 1, last));
  }

  /**
    What `Feed` returned says that exactly the message `m` came in, in `n` packets: the low 4, 2 and 6 bits
    of its label, type and signal, which is all of them if they are in range, and its bytes.
   */
  ghost predicate Delivers(fed: (Inbound, seq<ParseResult>), n: nat, m: Message)
    requires fed.0.Valid()
  {
    && n > 0 && fed.1 == Verdicts(n, Success)
    && !fed.0.active
    && fed.0.lbl == m.transaction % 16 && fed.0.messageType == m.messageType % 4 && fed.0.signal == m.signal % 64
    && fed.0.Received() == m.data
  }

  // ----- arithmetic of the fragment count -----

  /** Division of unsigned numbers, by repeated subtraction as the send loop does it. */
  function Quotient(a: nat, m: nat): nat
    requires m > 0
  {
    if a < m then 0 else 1 + Quotient(a - m, m)
  }

  function Remainder(a: nat, m: nat): nat
    requires m > 0
  {
    if a < m then a else Remainder(a - m, m)
  }

  lemma {:induction false} QuotientIsDiv(a: nat, m: nat)
    requires m > 0
    ensures Quotient(a, m) == a / m && Remainder(a, m) == a % m
  {
    if a >= m {
      QuotientIsDiv(a - m, m);
      DivUnique(a, m, Quotient(a, m), Remainder(a, m));
    } else {
      DivUnique(a, m, 0, a);
    }
  }

  lemma DivUnique(a: nat, m: nat, q: nat, r: nat)
    requires 0 < m && r < m && a == q * m + r
    ensures a / m == q && a % m == r
  {
    var q', r' := a / m, a % m;
    assert a == q' * m + r';
    if q' < q { AtLeastOnce(q - q', m); }
    if q' > q { AtLeastOnce(q' - q, m); }
  }

  lemma AtLeastOnce(d: nat, m: nat)
    requires d >= 1
    ensures d * m >= m
  {
    assert d * m == (d - 1) * m + m;
  }

  lemma {:induction false} QuotientSmall(a: nat, m: nat)
    requires m >= 2
    ensures 2 * Quotient(a, m) <= a
  {
    if a >= m { QuotientSmall(a - m, m); }
  }

  /** How many packets follow START: as many as it takes, which is not always what START says. */
  lemma {:induction false} TailCount(m: Message, omtu: nat, sent: nat)
    requires 3 <= omtu && sent <= |m.data|
    ensures var left := |m.data| - sent;
            |TailPackets(m, omtu, sent)| == Quotient(left, omtu - 1) + (if Remainder(left, omtu - 1) == 0 then 0 else 1)
    decreases |m.data| - sent
  {
    var left := |m.data| - sent;
    if left + 1 > omtu {
      TailCount(m, omtu, sent + omtu - 1);
    }
  }

  /** START announces one packet too many exactly when the rest fills whole packets. */
  lemma AnnouncedCount(m: Message, omtu: nat)
    requires 3 <= omtu < |m.data| + 2
    ensures var tail := |TailPackets(m, omtu, omtu - 3)|;
            && tail >= 1
            && ContFragments(|m.data|, omtu) == tail + (if WholeMultiple(|m.data|, omtu) then 1 else 0)
            && (|m.data| <= 255 ==> StartPacket(m, omtu).announced == ContFragments(|m.data|, omtu) + 1)
  {
    TailCount(m, omtu, omtu - 3);
    QuotientIsDiv(|m.data| - (omtu - 3), omtu - 1);
    QuotientSmall(|m.data| - (omtu - 3), omtu - 1);
  }

  /** The bytes START leaves over fill whole packets. */
  predicate WholeMultiple(len: nat, omtu: nat)
    requires 3 <= omtu < len + 2
  {
    Remainder(len - (omtu - 3), omtu - 1) == 0
  }

  // ----- the receiver on the sender's packets -----

  /** Storing a payload that fits behind `size` bytes appends it. */
  lemma StoreAppends(st: Inbound, payload: seq<Byte>)
    requires st.Valid() && st.size + |payload| < 256
    ensures var (st', res) := Store(st, payload);
            && st'.Received() == st.Received() + payload && st'.size == st.size + |payload|
            && st'.lbl == st.lbl && st'.messageType == st.messageType && st'.signal == st.signal
            && (if st.left > 1 then res == Fragment && st'.active == st.active && st'.left == st.left - 1
                else res == Success && !st'.active)
  {
  }

  /** `st` is in the middle of receiving `m`, and has its first `sent` bytes. */
  ghost predicate Receiving(st: Inbound, m: Message, sent: nat) {
    && st.Valid() && st.active
    && st.lbl == m.Lbl() && st.messageType == m.Type() && st.signal == m.Signal()
    && sent <= |m.data| && st.size == sent && st.Received() == m.data[..sent]
  }

  /** One of these packets stores its bytes, whatever its verdict. */
  lemma TailStored(st: Inbound, m: Message, omtu: nat, sent: nat)
    requires 3 <= omtu && sent < |m.data| <= 255 && Receiving(st, m, sent)
    ensures var p := TailPackets(m, omtu, sent)[0]; var (st1, res) := Parse(st, p);
            && (res != Error ==> st1.Received() == m.data[..sent + |p.payload|] && st1.size == sent + |p.payload|)
            && (res == Error <==> (p.Continue? <==> st.left <= 1))
            && (res == Error ==> st1 == st)
            && (res == Fragment ==> Receiving(st1, m, sent + |p.payload|) && st1.left == st.left - 1 && st.left > 1)
            && (res == Success ==> !st1.active && st1.lbl == st.lbl && st1.messageType == st.messageType
                                   && st1.signal == st.signal)
  {
    var p := TailPackets(m, omtu, sent)[0];
    StoreAppends(st, p.payload);
    assert m.data[..sent] + p.payload == m.data[..sent + |p.payload|];
  }

  lemma {:induction false} FeedTail(st: Inbound, m: Message, omtu: nat, sent: nat)
    requires 3 <= omtu && sent < |m.data| <= 255 && Receiving(st, m, sent)
    requires st.left >= |TailPackets(m, omtu, sent)|
    ensures var ps := TailPackets(m, omtu, sent);
            if st.left == |ps| then Delivers(Feed(st, ps), |ps|, m)
            else ps != [] && Feed(st, ps).1 == Verdicts(|ps|, Error) && Feed(st, ps).0.active
    decreases |m.data| - sent
  {
    var ps := TailPackets(m, omtu, sent);
    TailStored(st, m, omtu, sent);
    if |m.data| - sent + 1 > omtu {
      var st1 := Parse(st, ps[0]).0;
      FeedTail(st1, m, omtu, sent + omtu - 1);
      assert ps[1..] == TailPackets(m, omtu, sent + omtu - 1);
      FeedStep(st, ps, Success);
      FeedStep(st, ps, Error);
    } else {
      assert ps[1..] == [];
    }
  }

  /** When a message of `len` bytes survives the round trip: a condition the caller can check. */
  predicate RoundTrips(len: nat, omtu: nat) {
    len <= 255 && (len + 2 <= omtu || (3 <= omtu && (len - (omtu - 3)) % (omtu - 1) != 0))
  }

  lemma StartReceived(st: Inbound, m: Message, omtu: nat)
    requires st.Valid() && !st.active && 3 <= omtu < |m.data| + 2 && |m.data| <= 255
    requires StartPacket(m, omtu).announced > 1
    ensures var (st1, res) := Parse(st, StartPacket(m, omtu));
            res == Fragment && Receiving(st1, m, omtu - 3) && st1.left == StartPacket(m, omtu).announced - 1
  {
    var p := StartPacket(m, omtu);
    var st0 := st.(active := true, size := 0, left := p.announced, lbl := m.Lbl(), messageType := m.Type(),
                   signal := m.Signal());
    StoreAppends(st0, p.payload);
  }

  /** A fragmented message of at most 255 bytes: delivered, or refused at its END packet. */
  lemma FragmentedOutcome(st: Inbound, m: Message, omtu: nat)
    requires st.Valid() && !st.active && 3 <= omtu < |m.data| + 2 && |m.data| <= 255
    ensures var ps := Packets(m, omtu).value;
            if !WholeMultiple(|m.data|, omtu) then Delivers(Feed(st, ps), |ps|, m)
            else Feed(st, ps).1 == Verdicts(|ps|, Error) && Feed(st, ps).0.active
  {
    var ps := Packets(m, omtu).value;
    AnnouncedCount(m, omtu);
    StartReceived(st, m, omtu);
    assert ps[1..] == TailPackets(m, omtu, omtu - 3);
    FeedTail(Parse(st, ps[0]).0, m, omtu, omtu - 3);
    FeedStep(st, ps, Success);
    FeedStep(st, ps, Error);
  }

  lemma SingleDelivered(st: Inbound, m: Message, omtu: nat)
    requires st.Valid() && !st.active && |m.data| + 2 <= omtu && |m.data| <= 255
    ensures Delivers(Feed(st, Packets(m, omtu).value), 1, m)
  {
    var st0 := st.(active := true, size := 0, left := 1, lbl := m.Lbl(), messageType := m.Type(),
                   signal := m.Signal());
    StoreAppends(st0, m.data);
    assert Packets(m, omtu).value[1..] == [];
  }

  /** The round trip on packets, for every message, MTU and idle receiver. */
  lemma PacketRoundTrip(st: Inbound, m: Message, omtu: nat)
    requires st.Valid() && !st.active
    ensures RoundTrips(|m.data|, omtu)
            <==> Packets(m, omtu).Some?
                 && Delivers(Feed(st, Packets(m, omtu).value), |Packets(m, omtu).value|, m)
  {
    if |m.data| > 255 {
      // The fill level is one byte, so the receiver never claims that many bytes.
    } else if |m.data| + 2 <= omtu {
      SingleDelivered(st, m, omtu);
    } else if omtu >= 3 {
      QuotientIsDiv(|m.data| - (omtu - 3), omtu - 1);
      FragmentedOutcome(st, m, omtu);
    }
  }

  // ----- the same on bytes -----

  function Wire(ps: seq<Packet>): (wire: seq<seq<Byte>>)
    requires forall p | p in ps :: p.Valid()
    ensures |wire| == |ps| && forall i | 0 <= i < |wire| :: wire[i] != []
  {
    if ps == [] then [] else [Encode(ps[0])] + Wire(ps[1..])
  }

  function ParseBytes(st: Inbound, bytes: seq<Byte>): (r: (Inbound, ParseResult))
    requires st.Valid() && bytes != []
    ensures r.0.Valid()
  {
    match Decode(bytes)
    case None => (st, Error)
    case Some(p) => Parse(st, p)
  }

  function FeedBytes(st: Inbound, wire: seq<seq<Byte>>): (r: (Inbound, seq<ParseResult>))
    requires st.Valid() && forall i | 0 <= i < |wire| :: wire[i] != []
    ensures r.0.Valid() && |r.1| <= |wire|
    decreases |wire|
  {
    if wire == [] then (st, [])
    else
      var (st1, res) := ParseBytes(st, wire[0]);
      if res == Error then (st1, [Error])
      else
        var (st2, rest) := FeedBytes(st1, wire[1..]);
        (st2, [res] + rest)
  }

  lemma {:induction false} FeedBytesWire(st: Inbound, ps: seq<Packet>)
    requires st.Valid() && forall p | p in ps :: p.Valid()
    ensures FeedBytes(st, Wire(ps)) == Feed(st, ps)
    decreases |ps|
  {
    if ps != [] {
      DecodeEncode(ps[0]);
      assert Wire(ps)[1..] == Wire(ps[1..]);
      FeedBytesWire(Parse(st, ps[0]).0, ps[1..]);
    }
  }

  /** The bytes the sender puts on the wire for `m`. */
  function WireOf(m: Message, omtu: nat): (wire: Option<seq<seq<Byte>>>)
    ensures wire.Some? ==> wire.value != [] && forall i | 0 <= i < |wire.value| :: wire.value[i] != []
  {
    match Packets(m, omtu)
    case None => None
    case Some(ps) => Some(Wire(ps))
  }

  /**
    The round trip, for every message, MTU and idle receiver: the bytes sent make the receiver
    report FRAGMENT for all packets but the last and then the same label, type, signal and
    bytes, if and only if `RoundTrips` holds of the message length and the MTU.
   */
  lemma FragmentationRoundTrip(st: Inbound, m: Message, omtu: nat)
    requires st.Valid() && !st.active
    ensures RoundTrips(|m.data|, omtu)
            <==> WireOf(m, omtu).Some?
                 && Delivers(FeedBytes(st, WireOf(m, omtu).value), |WireOf(m, omtu).value|, m)
  {
    PacketRoundTrip(st, m, omtu);
    if Packets(m, omtu).Some? { FeedBytesWire(st, Packets(m, omtu).value); }
  }

  /** For a message whose fields are in range, all of them come out as they went in. */
  lemma FieldsRoundTrip(st: Inbound, m: Message, omtu: nat)
    requires st.Valid() && !st.active && RoundTrips(|m.data|, omtu)
    requires m.transaction < 16 && m.messageType < 4 && m.signal < 64
    ensures WireOf(m, omtu).Some?
    ensures var got := FeedBytes(st, WireOf(m, omtu).value).0;
            && got.lbl == m.transaction && got.messageType == m.messageType && got.signal == m.signal
            && got.Received() == m.data
  {
    FragmentationRoundTrip(st, m, omtu);
    InRange(FeedBytes(st, WireOf(m, omtu).value), |WireOf(m, omtu).value|, m);
  }

  lemma InRange(fed: (Inbound, seq<ParseResult>), n: nat, m: Message)
    requires fed.0.Valid() && Delivers(fed, n, m) && m.transaction < 16 && m.messageType < 4 && m.signal < 64
    ensures fed.0.lbl == m.transaction && fed.0.messageType == m.messageType && fed.0.signal == m.signal
    ensures fed.0.Received() == m.data
  {
  }

  lemma {:induction false} WireAt(ps: seq<Packet>, i: nat)
    requires i < |ps| && forall p | p in ps :: p.Valid()
    ensures Wire(ps)[i] == Encode(ps[i])
  {
    if i > 0 { WireAt(ps[1..], i - 1); }
  }

  /** The first byte of a packet, from its most significant bit on: label, packet type, message type. */
  lemma HeaderByte(p: Packet)
    requires p.Valid()
    ensures var h := Encode(p)[0];
            && h / 16 == p.lbl && h % 4 == p.messageType
            && h % 16 / 4 == (if p.Single? then 0 else if p.Start? then 1 else if p.Continue? then 2 else 3)
  {
    HeaderFields(p.lbl, if p.Single? then 0 else if p.Start? then 1 else if p.Continue? then 2 else 3, p.messageType);
  }

  /** Which packet is which, and that all carry label and type of the message. */
  lemma PacketAt(m: Message, omtu: nat, i: nat)
    requires Packets(m, omtu).Some? && i < |Packets(m, omtu).value|
    ensures var ps := Packets(m, omtu).value;
            && (if |ps| == 1 then ps[i].Single? else if i == 0 then ps[i].Start?
                else if i < |ps| - 1 then ps[i].Continue? else ps[i].End?)
            && ps[i].lbl == m.transaction % 16 && ps[i].messageType == m.messageType % 4
  {
    if |m.data| + 2 > omtu {
      TailCount(m, omtu, omtu - 3);
      if i > 0 {
        TailShape(m, omtu, omtu - 3);
        TailShapedAt(TailPackets(m, omtu, omtu - 3), omtu, i - 1);
        TailFields(m, omtu, omtu - 3, i - 1);
      }
    }
  }

  lemma {:induction false} TailFields(m: Message, omtu: nat, sent: nat, i: nat)
    requires 3 <= omtu && sent <= |m.data| && i < |TailPackets(m, omtu, sent)|
    ensures var p := TailPackets(m, omtu, sent)[i];
            p.lbl == m.transaction % 16 && p.messageType == m.messageType % 4
    decreases i
  {
    if i > 0 { TailFields(m, omtu, sent + omtu - 1, i - 1); }
  }

  /**
    What is on the wire: every packet has the label in bits 4-7 and the message type in bits 0-1 of its
    first byte, and in between 0 for a SINGLE, 1 for a START, 2 for a CONTINUE and 3 for an END packet. The
    signal follows in a SINGLE packet, and in a START packet behind the number of packets.
   */
  lemma WireHeaders(m: Message, omtu: nat, i: nat)
    requires WireOf(m, omtu).Some? && i < |WireOf(m, omtu).value|
    ensures var wire := WireOf(m, omtu).value; var h := wire[i][0];
            && h / 16 == m.transaction % 16 && h % 4 == m.messageType % 4
            && h % 16 / 4 == (if |wire| == 1 then 0 else if i == 0 then 1 else if i < |wire| - 1 then 2 else 3)
            && (if |wire| == 1 then |wire[i]| >= 2 && wire[i][1] == m.signal % 64 && wire[i][2..] == m.data
                else if i == 0 then
                  |wire[i]| == omtu && wire[i][2] == m.signal % 64 && wire[i][3..] == m.data[..omtu - 3]
                else wire[i][1..] == Packets(m, omtu).value[i].payload)
  {
    var ps := Packets(m, omtu).value;
    PacketAt(m, omtu, i);
    WireAt(ps, i);
    HeaderByte(ps[i]);
  }

  /** And the number in a START packet is the announced one, one byte of it. */
  lemma WireCount(m: Message, omtu: nat)
    requires 3 <= omtu < |m.data| + 2
    ensures var wire := WireOf(m, omtu).value;
            |wire[0]| >= 3 && wire[0][1] == ((|m.data| - (omtu - 3)) / (omtu - 1) + 2) % 256
  {
    StartAndTail(m, omtu);
  }

  /** A packet is too short for its header exactly below 2 bytes for SINGLE, 3 for START; no other can be. */
  lemma DecodeFails(bytes: seq<Byte>)
    requires bytes != []
    ensures Decode(bytes).None? <==>
              (bytes[0] / 4 % 4 == 0 && |bytes| < 2) || (bytes[0] / 4 % 4 == 1 && |bytes| < 3)
  {
    assert bytes[0] % 16 / 4 == bytes[0] / 4 % 4;
  }

  /** In the excluded case every packet but END is taken as a fragment and END is refused. */
  lemma WholeMultipleIsRefused(st: Inbound, m: Message, omtu: nat)
    requires st.Valid() && !st.active && 3 <= omtu < |m.data| + 2 && |m.data| <= 255
    requires !RoundTrips(|m.data|, omtu)
    ensures var ps := Packets(m, omtu).value;
            && FeedBytes(st, Wire(ps)).1 == Verdicts(|ps|, Error) && FeedBytes(st, Wire(ps)).0.active
            && ps[|ps| - 1].End?
  {
    QuotientIsDiv(|m.data| - (omtu - 3), omtu - 1);
    assert WholeMultiple(|m.data|, omtu);
    FragmentedOutcome(st, m, omtu);
    FeedBytesWire(st, Packets(m, omtu).value);
    LastIsEnd(m, omtu);
  }

  lemma LastIsEnd(m: Message, omtu: nat)
    requires 3 <= omtu < |m.data| + 2
    ensures var ps := Packets(m, omtu).value; ps[|ps| - 1].End?
  {
    var tail := TailPackets(m, omtu, omtu - 3);
    TailShape(m, omtu, omtu - 3);
    TailShapedAt(tail, omtu, |tail| - 1);
  }

  // ----- what the sender emits, without the receiver -----

  function Payloads(ps: seq<Packet>): seq<Byte> {
    if ps == [] then [] else ps[0].payload + Payloads(ps[1..])
  }

  lemma PayloadsCons(p: Packet, rest: seq<Packet>)
    ensures Payloads([p] + rest) == p.payload + Payloads(rest)
  {
    assert ([p] + rest)[1..] == rest;
  }

  /** CONTINUE packets that fill the MTU, then one END packet that fits it. */
  predicate TailShaped(ps: seq<Packet>, omtu: nat) {
    && ps != []
    && if |ps| == 1 then ps[0].End? && |ps[0].payload| < omtu
       else ps[0].Continue? && |ps[0].payload| + 1 == omtu && TailShaped(ps[1..], omtu)
  }

  lemma {:induction false} TailShapedAt(ps: seq<Packet>, omtu: nat, i: nat)
    requires TailShaped(ps, omtu) && i < |ps|
    ensures if i == |ps| - 1 then ps[i].End? && |ps[i].payload| < omtu
            else ps[i].Continue? && |ps[i].payload| + 1 == omtu
    decreases i
  {
    if i > 0 { TailShapedAt(ps[1..], omtu, i - 1); }
  }

  lemma {:induction false} TailShape(m: Message, omtu: nat, sent: nat)
    requires 3 <= omtu && sent < |m.data|
    ensures TailShaped(TailPackets(m, omtu, sent), omtu)
    decreases |m.data| - sent
  {
    if |m.data| - sent + 1 > omtu {
      TailShape(m, omtu, sent + omtu - 1);
      assert TailPackets(m, omtu, sent)[1..] == TailPackets(m, omtu, sent + omtu - 1);
    }
  }

  lemma SliceSplit(data: seq<Byte>, from: nat, to: nat)
    requires from <= to <= |data|
    ensures data[from..] == data[from..to] + data[to..]
  {
  }

  lemma {:induction false} TailCarries(m: Message, omtu: nat, sent: nat)
    requires 3 <= omtu && sent < |m.data|
    ensures Payloads(TailPackets(m, omtu, sent)) == m.data[sent..]
    decreases |m.data| - sent
  {
    if |m.data| - sent + 1 > omtu {
      var next := sent + omtu - 1;
      TailCarries(m, omtu, next);
      PayloadsCons(Continue(m.Lbl(), m.Type(), m.data[sent..next]), TailPackets(m, omtu, next));
      SliceSplit(m.data, sent, next);
    } else {
      PayloadsCons(End(m.Lbl(), m.Type(), m.data[sent..]), []);
      assert m.data[sent..] + [] == m.data[sent..];
    }
  }

  /** The payloads of the packets sent are the message, in order. */
  lemma PacketsCarryMessage(m: Message, omtu: nat)
    requires Packets(m, omtu).Some?
    ensures Payloads(Packets(m, omtu).value) == m.data
  {
    var ps := Packets(m, omtu).value;
    if |m.data| + 2 <= omtu {
      PayloadsCons(ps[0], []);
      assert m.data + [] == m.data;
    } else {
      TailCarries(m, omtu, omtu - 3);
      PayloadsCons(StartPacket(m, omtu), TailPackets(m, omtu, omtu - 3));
      SliceSplit(m.data, 0, omtu - 3);
      assert m.data[0..] == m.data && m.data[0..omtu - 3] == m.data[..omtu - 3];
    }
  }

  /** No packet exceeds the MTU, and all but the last fill it. */
  lemma PacketsFillMtu(m: Message, omtu: nat, i: nat)
    requires Packets(m, omtu).Some? && i < |Packets(m, omtu).value|
    ensures var ps := Packets(m, omtu).value;
            if i < |ps| - 1 then |Encode(ps[i])| == omtu else |Encode(ps[i])| <= omtu
  {
    if |m.data| + 2 > omtu && i > 0 {
      TailShape(m, omtu, omtu - 3);
      TailShapedAt(TailPackets(m, omtu, omtu - 3), omtu, i - 1);
    }
  }

  // ----- what the receiver accepts, without the sender -----

  /** After START: CONTINUE packets and a final END packet, all with the label of START. */
  predicate TrainTail(ps: seq<Packet>, lbl: Byte) {
    && ps != []
    && (forall i | 0 <= i < |ps| :: ps[i].lbl == lbl)
    && (forall i | 0 <= i < |ps| - 1 :: ps[i].Continue?)
    && ps[|ps| - 1].End?
  }

  /** One complete message: a SINGLE packet, a START that announces no more, or a full train. */
  predicate CompleteTrain(ps: seq<Packet>) {
    && ps != []
    && match ps[0]
       case Single(_, _, _, _) => |ps| == 1
       case Start(l, _, n, _, _) => if n <= 1 then |ps| == 1 else |ps| == n && TrainTail(ps[1..], l)
       case _ => false
  }

  /** Each payload has room in the buffer; the fill level counts to 255 only. */
  predicate FitsBuffer(ps: seq<Packet>, level: Byte) {
    ps == [] ||
    (level + |ps[0].payload| <= IN_BUF_SIZE && FitsBuffer(ps[1..], (level + |ps[0].payload|) % 256))
  }

  lemma TrainTailStep(ps: seq<Packet>, lbl: Byte)
    requires |ps| > 1
    ensures TrainTail(ps, lbl) <==> ps[0].lbl == lbl && ps[0].Continue? && TrainTail(ps[1..], lbl)
  {
    var rest := ps[1..];
    assert forall i | 1 <= i < |ps| :: ps[i] == rest[i - 1];
    assert forall i | 0 <= i < |rest| :: rest[i] == ps[i + 1];
  }

  lemma {:induction false} TailAccepted(st: Inbound, ps: seq<Packet>)
    requires st.Valid() && st.active && st.left >= 1 && ps != []
    ensures Feed(st, ps).1 == Verdicts(|ps|, Success) <==>
              |ps| == st.left && TrainTail(ps, st.lbl) && FitsBuffer(ps, st.size)
    decreases |ps|
  {
    var (st1, res) := Parse(st, ps[0]);
    if |ps| == 1 {
      assert ps[1..] == [];
    } else {
      TrainTailStep(ps, st.lbl);
      FeedStep(st, ps, Success);
      if res == Fragment { TailAccepted(st1, ps[1..]); }
    }
  }

  /**
    An idle receiver reports one complete message exactly on the complete trains, whoever sent
    them, each of whose payloads fits behind the one-byte fill level the ones before it leave.
   */
  lemma ReceiverAcceptsExactlyTrains(st: Inbound, ps: seq<Packet>)
    requires st.Valid() && !st.active && ps != []
    ensures Feed(st, ps).1 == Verdicts(|ps|, Success) <==> CompleteTrain(ps) && FitsBuffer(ps, 0)
  {
    var (st1, res) := Parse(st, ps[0]);
    if |ps| == 1 {
      assert ps[1..] == [];
    } else {
      FeedStep(st, ps, Success);
      if res == Fragment { TailAccepted(st1, ps[1..]); }
    }
  }

  lemma {:induction false} TailReassembled(st: Inbound, ps: seq<Packet>)
    requires st.Valid() && st.active && TrainTail(ps, st.lbl) && st.left == |ps|
    requires st.size + |Payloads(ps)| <= 255
    ensures Feed(st, ps).0.Received() == st.Received() + Payloads(ps)
    decreases |ps|
  {
    StoreAppends(st, ps[0].payload);
    if |ps| == 1 {
      assert ps[1..] == [];
    } else {
      TrainTailStep(ps, st.lbl);
      TailReassembled(Parse(st, ps[0]).0, ps[1..]);
    }
  }

  lemma FirstStored(st: Inbound, p: Packet)
    requires st.Valid() && !st.active && (p.Single? || p.Start?) && |p.payload| <= 255
    ensures var (st1, res) := Parse(st, p);
            && res != Error && st1.Received() == p.payload && st1.size == |p.payload|
            && (res == Fragment <==> p.Start? && p.announced > 1)
            && (res == Fragment ==> st1.active && st1.lbl == p.lbl && st1.left == p.announced - 1)
  {
    var st0 := st.(active := true, size := 0, left := if p.Single? then 1 else p.announced, lbl := p.lbl,
                   messageType := p.messageType, signal := p.signal);
    StoreAppends(st0, p.payload);
  }

  /** What it then holds is the payloads in order, as long as they fit the one-byte fill level. */
  lemma ReassemblyInOrder(st: Inbound, ps: seq<Packet>)
    requires st.Valid() && !st.active && CompleteTrain(ps) && |Payloads(ps)| <= 255
    ensures Feed(st, ps).0.Received() == Payloads(ps)
  {
    FirstStored(st, ps[0]);
    var (st1, res) := Parse(st, ps[0]);
    if res == Fragment {
      TailReassembled(st1, ps[1..]);
    } else {
      assert ps[1..] == [];
    }
  }

  // ----- the two handlers, on the fields they update -----

  function Min(a: nat, b: nat): nat { if a < b then a else b }

  /** The packet the send loop builds next, and what is left for later. */
  lemma NextPacket(m: Message, omtu: nat, sent: nat)
    requires 3 <= omtu && sent < |m.data|
    ensures var more := |m.data| - sent + 1 > omtu;
            var size := if more then omtu - 1 else |m.data| - sent;
            Wire(TailPackets(m, omtu, sent))
              == [[Header(m.Lbl(), if more then 2 else 3, m.Type())] + m.data[sent..sent + size]]
                 + Wire(TailPackets(m, omtu, sent + size))
  {
    if |m.data| - sent + 1 > omtu {
      WireCons(Continue(m.Lbl(), m.Type(), m.data[sent..sent + omtu - 1]), TailPackets(m, omtu, sent + omtu - 1));
    } else {
      assert m.data[sent..] == m.data[sent..|m.data|];
      WireCons(End(m.Lbl(), m.Type(), m.data[sent..]), []);
    }
  }

  lemma WireCons(p: Packet, rest: seq<Packet>)
    requires p.Valid() && forall q | q in rest :: q.Valid()
    ensures forall q | q in [p] + rest :: q.Valid()
    ensures Wire([p] + rest) == [Encode(p)] + Wire(rest)
  {
    assert ([p] + rest)[1..] == rest;
  }

  /** Of `packets`, `done` were sent after `before`, and `rest` remains. */
  ghost predicate SoFar<T>(before: seq<T>, packets: seq<T>, done: nat, sent: seq<T>, rest: seq<T>) {
    done <= |packets| && rest == packets[done..] && sent == before + packets[..done]
  }

  lemma OneMore<T>(before: seq<T>, packets: seq<T>, done: nat, sent: seq<T>, rest: seq<T>)
    requires SoFar(before, packets, done, sent, rest) && rest != []
    ensures SoFar(before, packets, done + 1, sent + [rest[0]], rest[1..])
  {
    assert packets[..done + 1] == packets[..done] + [packets[done]];
  }

  lemma StartAndTail(m: Message, omtu: nat)
    requires 3 <= omtu < |m.data| + 2
    ensures WireOf(m, omtu) == Some([Encode(StartPacket(m, omtu))] + Wire(TailPackets(m, omtu, omtu - 3)))
  {
    WireCons(StartPacket(m, omtu), TailPackets(m, omtu, omtu - 3));
  }

  lemma FirstAndRest<T>(before: seq<T>, first: T, rest: seq<T>, budget: nat)
    requires budget > 0
    ensures before + [first] + rest[..Min(budget - 1, |rest|)]
            == before + ([first] + rest)[..Min(budget, |[first] + rest|)]
  {
  }

  class Transport {
    var io: bool                 // the signalling channel is open
    const omtu: nat
    const buf: array<Byte>       // packets are built, and read, here
    var inActive: bool
    var inLeft: int
    var inLabel: Byte
    var inMessageType: Byte
    var inSignal: Byte
    const inBuf: array<Byte>
    var inSize: Byte
    ghost var wire: seq<seq<Byte>>   // the packets the socket took, oldest first

    ghost predicate Valid() {
      omtu <= buf.Length && inBuf.Length == IN_BUF_SIZE && buf != inBuf
    }

    ghost function In(): (st: Inbound)
      reads this`inActive, this`inLeft, this`inLabel, this`inMessageType, this`inSignal, this`inSize, inBuf
      requires Valid()
      ensures st.Valid()
    {
      Inbound(inActive, inLeft, inLabel, inMessageType, inSignal, inBuf[..], inSize)
    }

    constructor (imtu: nat, omtu: nat)
      ensures Valid() && fresh(buf) && fresh(inBuf) && io && this.omtu == omtu && wire == []
      ensures !In().active
    {
      io := true;
      this.omtu := omtu;
      buf := new Byte[if imtu > omtu then imtu else omtu](_ => 0);
      inBuf := new Byte[IN_BUF_SIZE](_ => 0);
      inActive, inLeft, inLabel, inMessageType, inSignal, inSize := false, 0, 0, 0, 0, 0;
      wire := [];
    }

    /** Builds a packet at the start of `buf`. */
    method Assemble(header: seq<Byte>, payload: seq<Byte>)
      requires Valid() && |header| + |payload| <= buf.Length
      modifies buf
      ensures buf[..|header| + |payload|] == header + payload
    {
      forall i | 0 <= i < |header| { buf[i] := header[i]; }
      forall i | 0 <= i < |payload| { buf[|header| + i] := payload[i]; }
    }

    /** One attempt to write `size` bytes; `accepted` is what the socket answers. */
    method TrySend(size: nat, accepted: bool) returns (ok: bool)
      requires Valid() && size <= buf.Length
      modifies this`wire
      ensures ok == accepted
      ensures wire == if accepted then old(wire) + [buf[..size]] else old(wire)
    {
      if accepted { wire := wire + [buf[..size]]; }
      ok := accepted;
    }

    /** The only packet of a message that fits the MTU. */
    method SendSingle(m: Message, accepted: bool) returns (ok: bool)
      requires Valid() && 2 + |m.data| <= omtu
      modifies this`wire, buf
      ensures In() == old(In()) && ok == accepted
      ensures wire == if accepted then old(wire) + WireOf(m, omtu).value else old(wire)
    {
      WireCons(Single(m.Lbl(), m.Type(), m.Signal(), m.data), []);
      Assemble([Header(m.Lbl(), 0, m.Type()), m.Signal()], m.data);
      ok := TrySend(2 + |m.data|, accepted);
    }

    /** The START packet. */
    method SendStart(m: Message, accepted: bool) returns (ok: bool)
      requires Valid() && 3 <= omtu < |m.data| + 2
      modifies this`wire, buf
      ensures In() == old(In()) && ok == accepted
      ensures wire == if accepted then old(wire) + [Encode(StartPacket(m, omtu))] else old(wire)
    {
      var contFragments := (|m.data| - (omtu - 3)) / (omtu - 1) + 1;
      Assemble([Header(m.Lbl(), 1, m.Type()), (contFragments + 1) % 256, m.Signal()], m.data[..omtu - 3]);
      ok := TrySend(omtu, accepted);
    }

    /** Sends `m`; the socket takes `budget` packets and then fails. */
    method AvdtpSend(m: Message, budget: nat) returns (ok: bool)
      requires Valid()
      modifies this`wire, buf
      ensures Valid() && In() == old(In())
      ensures !io || WireOf(m, omtu).None? ==> !ok && wire == old(wire)
      ensures io && WireOf(m, omtu).Some? ==>
                var packets := WireOf(m, omtu).value;
                ok == (|packets| <= budget) && wire == old(wire) + packets[..Min(budget, |packets|)]
    {
      if !io { return false; }
      if 2 + |m.data| <= omtu {
        ok := SendSingle(m, budget > 0);
        assert WireOf(m, omtu).value[..1] == WireOf(m, omtu).value;
        return;
      }
      if omtu < 3 { return false; }
      ghost var before := wire;
      StartAndTail(m, omtu);
      ok := SendStart(m, budget > 0);
      if !ok { return; }
      ok := SendTail(m, budget - 1);
      FirstAndRest(before, Encode(StartPacket(m, omtu)), Wire(TailPackets(m, omtu, omtu - 3)), budget);
    }

    /** The loop that sends the CONTINUE packets and the END packet. */
    method SendTail(m: Message, budget: nat) returns (ok: bool)
      requires Valid() && 3 <= omtu < |m.data| + 2
      modifies this`wire, buf
      ensures In() == old(In())
      ensures var packets := Wire(TailPackets(m, omtu, omtu - 3));
              ok == (|packets| <= budget) && wire == old(wire) + packets[..Min(budget, |packets|)]
    {
      ghost var packets := Wire(TailPackets(m, omtu, omtu - 3));
      ghost var rest := packets;
      var sent, done := omtu - 3, 0;
      while sent < |m.data|
        invariant omtu - 3 <= sent <= |m.data| && done <= budget
        invariant rest == Wire(TailPackets(m, omtu, sent)) && SoFar(old(wire), packets, done, wire, rest)
      {
        var copied;
        ghost var sofar := wire;
        ok, copied := SendNext(m, sent, done < budget, rest);
        if !ok { return; }
        OneMore(old(wire), packets, done, sofar, rest);
        sent, done, rest := sent + copied, done + 1, rest[1..];
      }
      ok := true;
    }

    /** One round of that loop. */
    method SendNext(m: Message, sent: nat, accepted: bool, ghost rest: seq<seq<Byte>>)
      returns (ok: bool, toCopy: nat)
      requires Valid() && 3 <= omtu && sent < |m.data| && rest == Wire(TailPackets(m, omtu, sent))
      modifies this`wire, buf
      ensures In() == old(In())
      ensures ok == accepted && 0 < toCopy <= |m.data| - sent
      ensures rest != [] && rest[1..] == Wire(TailPackets(m, omtu, sent + toCopy))
      ensures wire == if accepted then old(wire) + [rest[0]] else old(wire)
    {
      var left := |m.data| - sent;
      var kind;
      if left + 1 > omtu {
        kind, toCopy := 2, omtu - 1;
      } else {
        kind, toCopy := 3, left;
      }
      NextPacket(m, omtu, sent);
      Assemble([Header(m.Lbl(), kind, m.Type())], m.data[sent..sent + toCopy]);
      ok := TrySend(toCopy + 1, accepted);
    }

    /** Takes in the `size` bytes just read into `buf`. */
    method ParseData(size: nat) returns (r: ParseResult)
      requires Valid() && 1 <= size <= buf.Length
      modifies this`inActive, this`inLeft, this`inLabel, this`inMessageType, this`inSignal, this`inSize, inBuf
      ensures Valid()
      ensures (In(), r) == ParseBytes(old(In()), old(buf[..size]))
    {
      var header := buf[0];
      var payload;
      assert forall k | 0 <= k <= size :: buf[k..size] == buf[..size][k..];
      if header % 16 / 4 == 0 {
        if size < 2 || inActive { return Error; }
        payload := 2;
        inActive, inSize, inLeft := true, 0, 1;
        inLabel, inMessageType, inSignal := header / 16, header % 4, buf[1] % 64;
      } else if header % 16 / 4 == 1 {
        if size < 3 || inActive { return Error; }
        inActive, inSize, inLeft := true, 0, buf[1];
        inLabel, inMessageType, inSignal := header / 16, header % 4, buf[2] % 64;
        payload := 3;
      } else if header % 16 / 4 == 2 {
        if !inActive || inLabel != header / 16 || inLeft <= 1 { return Error; }
        payload := 1;
      } else {
        if !inActive || inLabel != header / 16 || inLeft > 1 { return Error; }
        payload := 1;
      }

      r := StorePayload(payload, size);
    }

    /** memcpy of `buf[payload..size]` behind what was received. */
    method CopyPayload(payload: nat, size: nat)
      requires Valid() && payload <= size <= buf.Length && inSize + (size - payload) <= IN_BUF_SIZE
      modifies inBuf
      ensures inBuf[..] == old(inBuf[..inSize]) + old(buf[payload..size]) + old(inBuf[inSize + (size - payload)..])
    {
      forall i | 0 <= i < size - payload { inBuf[inSize + i] := buf[payload + i]; }
    }

    /** Appends `buf[payload..size]` to what was received and counts the packet. */
    method StorePayload(payload: nat, size: nat) returns (r: ParseResult)
      requires Valid() && payload <= size <= buf.Length
      modifies this`inActive, this`inLeft, this`inSize, inBuf
      ensures (In(), r) == Store(old(In()), old(buf[payload..size]))
    {
      var payloadSize := size - payload;
      ghost var before := inBuf[..];
      assert inBuf[..inSize] == before[..inSize];
      if inSize + payloadSize > IN_BUF_SIZE { return Error; }
      assert inBuf[inSize + payloadSize..] == before[inSize + payloadSize..];
      CopyPayload(payload, size);
      inSize := (inSize + payloadSize) % 256;
      if inLeft > 1 {
        inLeft := inLeft - 1;
        return Fragment;
      }
      inActive := false;
      return Success;
    }
  }
}
