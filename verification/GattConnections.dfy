/**
  The connections of GATT applications to LE devices. Several applications share the link to a
  device, which counts them; a device stays known for good. Connections are numbered, and `log`
  records for which of them a disconnect event was sent.
*/
module GattConnections {
  import opened Prelude

  type Addr = nat
  type App = nat

  datatype DevState = Disconnected | ConnectInit | ConnectReady | Connected

  /** `attempts` are the calls of bt_io_connect not answered yet, `leaked` the references nobody gives back. */
  datatype Dev = Dev(state: DevState, attIo: bool, ref: int, connCnt: int, attempts: nat, leaked: nat)

  const NewDev := Dev(Disconnected, false, 1, 0, 0, 0)

  datatype Conn = Conn(id: nat, device: Addr, app: App)

  datatype State = State(devices: map<Addr, Dev>, conns: seq<Conn>, lastId: nat, log: seq<nat>)

  const Start := State(map[], [], 1, [])

  // ----- the operations -----

  function Put(s: State, a: Addr, d: Dev): State { s.(devices := s.devices[a := d]) }

  /** find_device_by_addr, or create_device. */
  function Know(s: State, a: Addr): State {
    if a in s.devices then s else Put(s, a, NewDev)
  }

  /** create_connection. */
  function Create(s: State, a: Addr, app: App): State
    requires a in s.devices
  {
    var d := s.devices[a];
    Put(s, a, d.(ref := d.ref + 1, connCnt := d.connCnt + 1))
      .(conns := [Conn(s.lastId, a, app)] + s.conns, lastId := s.lastId + 1)
  }

  /** destroy_connection: the last one of a device cleans it up. */
  function Release(d: Dev): Dev {
    var d1 := d.(connCnt := d.connCnt - 1, ref := d.ref - 1);
    if d1.connCnt == 0 then d1.(state := Disconnected, attIo := false) else d1
  }

  function Drop(s: State, i: nat): State
    requires i < |s.conns|
  {
    var a := s.conns[i].device;
    var s1 := s.(conns := s.conns[..i] + s.conns[i + 1..]);
    if a in s.devices then Put(s1, a, Release(s.devices[a])) else s1
  }

  /** What connections are looked up by. */
  datatype Key = OfDevice(a: Addr) | OfApp(app: App) | OfBoth(a: Addr, app: App) | Numbered(id: nat)

  predicate Matches(c: Conn, k: Key) {
    match k
    case OfDevice(a) => c.device == a
    case OfApp(app) => c.app == app
    case OfBoth(a, app) => c.device == a && c.app == app
    case Numbered(id) => c.id == id
  }

  /** queue_find: the first connection that matches, or the length. */
  function First(conns: seq<Conn>, k: Key): (i: nat)
    ensures i <= |conns| && (i < |conns| ==> Matches(conns[i], k)) && forall j | 0 <= j < i :: !Matches(conns[j], k)
  {
    if conns == [] || Matches(conns[0], k) then 0 else 1 + First(conns[1..], k)
  }

  /** trigger_connection. */
  function Trigger(d: Dev): Dev { if d.state == Disconnected then d.(state := ConnectInit) else d }

  /** handle_connect, for a registered application. */
  function Connect(s: State, a: Addr, app: App): State {
    var s1 := Know(s, a);
    var s2 := if First(s1.conns, OfBoth(a, app)) < |s1.conns| then s1 else Create(s1, a, app);
    Put(s2, a, Trigger(s2.devices[a]))
  }

  /** handle_client_disconnect: trigger_disconnection of the connection with that number. */
  function DisconnectId(s: State, id: nat): State {
    var i := First(s.conns, Numbered(id));
    if i == |s.conns| then s else Drop(s.(log := s.log + [id]), i)
  }

  /** Every connection that matches is destroyed, one after another. */
  function DropAll(s: State, k: Key): State
    decreases |s.conns|
  {
    var i := First(s.conns, k);
    if i == |s.conns| then s else DropAll(Drop(s, i), k)
  }

  function IdsOf(conns: seq<Conn>, a: Addr): seq<nat> {
    if conns == [] then [] else (if conns[0].device == a then [conns[0].id] else []) + IdsOf(conns[1..], a)
  }

  /** device_disconnect_clients: every connection is told, and then all are destroyed. */
  function LinkLost(s: State, a: Addr): State
    requires a in s.devices
  {
    DropAll(if s.devices[a].state == Connected then s.(log := s.log + IdsOf(s.conns, a)) else s, OfDevice(a))
  }

  /** le_device_found_handler. */
  function Found(d: Dev): Dev { if d.state == ConnectInit then d.(state := ConnectReady) else d }

  /** connect_le, for a device that is READY; if bt_io_connect fails nobody gives its reference back. */
  function Attempt(d: Dev, started: bool): Dev {
    if d.state != ConnectReady || d.attIo then d
    else if started then d.(attIo := true, ref := d.ref + 1, attempts := d.attempts + 1)
    else d.(ref := d.ref + 1, leaked := d.leaked + 1)
  }

  /** connect_cb: in any other state than READY it returns without giving its reference back. */
  function Attempted(d: Dev, ok: bool): Dev
    requires d.attempts > 0
  {
    if d.state != ConnectReady then d.(attempts := d.attempts - 1, leaked := d.leaked + 1)
    else d.(attIo := false, state := if ok then Connected else Disconnected, ref := d.ref - 1,
            attempts := d.attempts - 1)
  }

  /** create_listen_connections, for each of the listening applications. */
  function Listen(s: State, a: Addr, apps: seq<App>): State
    requires a in s.devices
    ensures a in Listen(s, a, apps).devices
    decreases |apps|
  {
    if apps == [] then s else Listen(Create(s, a, apps[0]), a, apps[1..])
  }

  /** connect_event. */
  function Incoming(s: State, a: Addr, apps: seq<App>): State {
    if a in s.devices && s.devices[a].state != Disconnected then s
    else
      var s1 := Listen(Know(s, a), a, apps);
      Put(s1, a, s1.devices[a].(state := Connected))
  }

  datatype Event =
    | ConnectBy(a: Addr, app: App)
    | DisconnectOf(id: nat)
    | Unregister(app: App)
    | DeviceFound(a: Addr)
    | AttemptOn(a: Addr, started: bool)
    | AttemptDone(a: Addr, ok: bool)
    | IncomingFrom(a: Addr, apps: seq<App>)
    | LinkDown(a: Addr)

  predicate Possible(s: State, e: Event) {
    match e
    case DeviceFound(a) => a in s.devices
    case AttemptOn(a, _) => a in s.devices
    case AttemptDone(a, _) => a in s.devices && s.devices[a].attempts > 0
    case LinkDown(a) => a in s.devices
    case _ => true
  }

  function Step(s: State, e: Event): State
    requires Possible(s, e)
  {
    match e
    case ConnectBy(a, app) => Connect(s, a, app)
    case DisconnectOf(id) => DisconnectId(s, id)
    case Unregister(app) => DropAll(s, OfApp(app))
    case DeviceFound(a) => Put(s, a, Found(s.devices[a]))
    case AttemptOn(a, started) => Put(s, a, Attempt(s.devices[a], started))
    case AttemptDone(a, ok) => Put(s, a, Attempted(s.devices[a], ok))
    case IncomingFrom(a, apps) => Incoming(s, a, apps)
    case LinkDown(a) => LinkLost(s, a)
  }

  predicate PossibleRun(s: State, es: seq<Event>)
    decreases |es|
  {
    es == [] || (Possible(s, es[0]) && PossibleRun(Step(s, es[0]), es[1..]))
  }

  function Run(s: State, es: seq<Event>): State
    requires PossibleRun(s, es)
    decreases |es|
  {
    if es == [] then s else Run(Step(s, es[0]), es[1..])
  }

  // ----- counting -----

  function Count(conns: seq<Conn>, a: Addr): nat {
    if conns == [] then 0 else (if conns[0].device == a then 1 else 0) + Count(conns[1..], a)
  }

  /** A device counts its connections, holds a reference for each, and waits for a link only if it has one. */
  ghost predicate DevOk(s: State, a: Addr)
    requires a in s.devices
  {
    var d := s.devices[a];
    && d.connCnt == Count(s.conns, a)
    && d.ref == 1 + d.connCnt + d.attempts + d.leaked
    && (d.state == ConnectInit || d.state == ConnectReady ==> d.connCnt >= 1)
  }

  ghost predicate Counted(s: State) {
    && (forall a | a in s.devices :: DevOk(s, a))
    && (forall c | c in s.conns :: c.device in s.devices && c.id < s.lastId)
    && NoDupIds(s.conns)
  }

  ghost predicate NoDupIds(conns: seq<Conn>) {
    forall i, j | 0 <= i < j < |conns| :: conns[i].id != conns[j].id
  }

  /** No connection is told twice that it is gone, and none that is told is still there. */
  ghost predicate Told(s: State) {
    && NoDup(s.log) && (forall id | id in s.log :: id < s.lastId)
    && forall c | c in s.conns :: c.id !in s.log
  }

  lemma {:induction false} CountRemove(conns: seq<Conn>, i: nat, a: Addr)
    requires i < |conns|
    ensures Count(conns, a) == Count(conns[..i] + conns[i + 1..], a) + if conns[i].device == a then 1 else 0
  {
    if i == 0 {
      assert conns[..0] + conns[1..] == conns[1..];
    } else {
      assert (conns[..i] + conns[i + 1..])[1..] == conns[1..][..i - 1] + conns[1..][i..];
      CountRemove(conns[1..], i - 1, a);
    }
  }

  lemma {:induction false} CountFirst(conns: seq<Conn>, a: Addr)
    ensures Count(conns, a) == 0 <==> First(conns, OfDevice(a)) == |conns|
  {
    if conns != [] { CountFirst(conns[1..], a); }
  }

  lemma DropCounted(s: State, i: nat)
    requires Counted(s) && i < |s.conns|
    ensures Counted(Drop(s, i)) && (Told(s) ==> Told(Drop(s, i)))
  {
    var s' := Drop(s, i);
    forall a | a in s'.devices
      ensures DevOk(s', a)
    {
      assert DevOk(s, a);
      CountRemove(s.conns, i, a);
    }
  }

  lemma {:induction false} DropAllCounted(s: State, k: Key)
    requires Counted(s)
    ensures var s' := DropAll(s, k);
            && Counted(s') && (Told(s) ==> Told(s')) && s'.log == s.log && s'.lastId == s.lastId
            && forall c | c in s'.conns :: c in s.conns && !Matches(c, k)
    decreases |s.conns|
  {
    var i := First(s.conns, k);
    if i < |s.conns| {
      DropCounted(s, i);
      DropAllCounted(Drop(s, i), k);
    }
  }

  lemma {:induction false} IdsOfFacts(conns: seq<Conn>, a: Addr)
    requires NoDupIds(conns)
    ensures NoDup(IdsOf(conns, a))
    ensures forall id | id in IdsOf(conns, a) :: exists c :: c in conns && c.device == a && c.id == id
  {
    if conns != [] {
      IdsOfFacts(conns[1..], a);
      forall c | c in conns[1..]
        ensures c in conns && c.id != conns[0].id
      {
        var k :| 0 <= k < |conns[1..]| && conns[1..][k] == c;
        assert conns[k + 1] == c;
      }
      assert conns[0] in conns && conns[0].id !in IdsOf(conns[1..], a);
      forall id | id in IdsOf(conns, a)
        ensures exists c :: c in conns && c.device == a && c.id == id
      {
        if id in IdsOf(conns[1..], a) {
          var c :| c in conns[1..] && c.device == a && c.id == id;
          assert c in conns;
        }
      }
    }
  }

  lemma NoDupConcat<T>(a: seq<T>, b: seq<T>)
    requires NoDup(a) && NoDup(b) && forall x | x in b :: x !in a
    ensures NoDup(a + b)
  {
    forall i, j | 0 <= i < j < |a + b|
      ensures (a + b)[i] != (a + b)[j]
    {
      if i < |a| <= j { assert b[j - |a|] in b; }
    }
  }

  /** Telling the live connections of a device that they are gone tells nobody twice. */
  lemma LogLost(s: State, a: Addr)
    requires Counted(s) && Told(s)
    ensures NoDup(s.log + IdsOf(s.conns, a)) && forall id | id in s.log + IdsOf(s.conns, a) :: id < s.lastId
    ensures forall c | c in s.conns && c.device != a :: c.id !in s.log + IdsOf(s.conns, a)
  {
    IdsOfFacts(s.conns, a);
    forall id | id in IdsOf(s.conns, a)
      ensures id !in s.log && id < s.lastId
    {
      var c :| c in s.conns && c.device == a && c.id == id;
    }
    NoDupConcat(s.log, IdsOf(s.conns, a));
    forall c | c in s.conns && c.device != a
      ensures c.id !in IdsOf(s.conns, a)
    {
      if c.id in IdsOf(s.conns, a) {
        var o :| o in s.conns && o.device == a && o.id == c.id;
        SameConn(s.conns, o, c);
      }
    }
  }

  lemma LinkLostCounted(s: State, a: Addr)
    requires Counted(s) && Told(s) && a in s.devices
    ensures Counted(LinkLost(s, a)) && Told(LinkLost(s, a))
  {
    LogLost(s, a);
    var s1 := if s.devices[a].state == Connected then s.(log := s.log + IdsOf(s.conns, a)) else s;
    assert forall b | b in s.devices :: DevOk(s, b) == DevOk(s1, b);
    DropAllCounted(s1, OfDevice(a));
  }

  lemma SameConn(conns: seq<Conn>, x: Conn, y: Conn)
    requires NoDupIds(conns) && x in conns && y in conns && x.id == y.id
    ensures x == y
  {
    var i :| 0 <= i < |conns| && conns[i] == x;
    var j :| 0 <= j < |conns| && conns[j] == y;
  }

  lemma CreateCounted(s: State, a: Addr, app: App)
    requires Counted(s) && Told(s) && a in s.devices
    ensures Counted(Create(s, a, app)) && Told(Create(s, a, app))
  {
    var s' := Create(s, a, app);
    assert s'.conns[1..] == s.conns;
    forall b | b in s'.devices
      ensures DevOk(s', b)
    {
      assert DevOk(s, b);
    }
  }

  lemma KnowCounted(s: State, a: Addr)
    requires Counted(s) && Told(s)
    ensures Counted(Know(s, a)) && Told(Know(s, a))
  {
    var s' := Know(s, a);
    if a !in s.devices { NoConns(s.conns, a); }
    forall b | b in s'.devices
      ensures DevOk(s', b)
    {
      if b in s.devices { assert DevOk(s, b); }
    }
  }

  lemma {:induction false} NoConns(conns: seq<Conn>, a: Addr)
    requires forall c | c in conns :: c.device != a
    ensures Count(conns, a) == 0
  {
    if conns != [] { NoConns(conns[1..], a); }
  }

  /** A device changes, but not its count. */
  lemma PutCounted(s: State, a: Addr, d: Dev)
    requires Counted(s) && Told(s) && a in s.devices
    requires d.connCnt == s.devices[a].connCnt && d.ref == 1 + d.connCnt + d.attempts + d.leaked
    requires d.state == ConnectInit || d.state == ConnectReady ==> d.connCnt >= 1
    ensures Counted(Put(s, a, d)) && Told(Put(s, a, d))
  {
    forall b | b in s.devices
      ensures DevOk(Put(s, a, d), b)
    {
      assert DevOk(s, b);
    }
  }

  lemma {:induction false} CountOne(conns: seq<Conn>, i: nat)
    requires i < |conns|
    ensures Count(conns, conns[i].device) >= 1
  {
    if i > 0 { CountOne(conns[1..], i - 1); }
  }

  lemma ConnectCounted(s: State, a: Addr, app: App)
    requires Counted(s) && Told(s)
    ensures Counted(Connect(s, a, app)) && Told(Connect(s, a, app))
  {
    KnowCounted(s, a);
    var s1 := Know(s, a);
    var i := First(s1.conns, OfBoth(a, app));
    if i < |s1.conns| { CountOne(s1.conns, i); } else { CreateCounted(s1, a, app); }
    var s2 := if i < |s1.conns| then s1 else Create(s1, a, app);
    assert DevOk(s2, a);
    if i == |s1.conns| { CountOne(s2.conns, 0); }
    PutCounted(s2, a, Trigger(s2.devices[a]));
  }

  lemma {:induction false} ListenCounted(s: State, a: Addr, apps: seq<App>)
    requires Counted(s) && Told(s) && a in s.devices
    ensures Counted(Listen(s, a, apps)) && Told(Listen(s, a, apps))
    decreases |apps|
  {
    if apps != [] {
      CreateCounted(s, a, apps[0]);
      ListenCounted(Create(s, a, apps[0]), a, apps[1..]);
    }
  }

  lemma IncomingCounted(s: State, a: Addr, apps: seq<App>)
    requires Counted(s) && Told(s)
    ensures Counted(Incoming(s, a, apps)) && Told(Incoming(s, a, apps))
  {
    KnowCounted(s, a);
    ListenCounted(Know(s, a), a, apps);
    var s1 := Listen(Know(s, a), a, apps);
    assert DevOk(s1, a);
    PutCounted(s1, a, s1.devices[a].(state := Connected));
  }

  /** Telling one live connection that it is gone, before it goes. */
  lemma LogOne(s: State, i: nat)
    requires Counted(s) && Told(s) && i < |s.conns|
    ensures var s1 := s.(log := s.log + [s.conns[i].id]);
            && Counted(s1) && NoDup(s1.log) && (forall id | id in s1.log :: id < s.lastId)
            && forall c | c in s.conns[..i] + s.conns[i + 1..] :: c.id !in s1.log
  {
    assert s.conns[i] in s.conns;
    forall a | a in s.devices
      ensures DevOk(s.(log := s.log + [s.conns[i].id]), a)
    {
      assert DevOk(s, a);
    }
  }

  lemma DisconnectCounted(s: State, id: nat)
    requires Counted(s) && Told(s)
    ensures Counted(DisconnectId(s, id)) && Told(DisconnectId(s, id))
  {
    var i := First(s.conns, Numbered(id));
    if i < |s.conns| {
      LogOne(s, i);
      DropCounted(s.(log := s.log + [id]), i);
    }
  }

  lemma StepCounted(s: State, e: Event)
    requires Counted(s) && Told(s) && Possible(s, e)
    ensures Counted(Step(s, e)) && Told(Step(s, e))
  {
    match e
    case ConnectBy(a, app) => ConnectCounted(s, a, app);
    case DisconnectOf(id) => DisconnectCounted(s, id);
    case Unregister(app) => DropAllCounted(s, OfApp(app));
    case DeviceFound(a) =>
      assert DevOk(s, a);
      PutCounted(s, a, Found(s.devices[a]));
    case AttemptOn(a, started) =>
      assert DevOk(s, a);
      PutCounted(s, a, Attempt(s.devices[a], started));
    case AttemptDone(a, ok) =>
      assert DevOk(s, a);
      PutCounted(s, a, Attempted(s.devices[a], ok));
    case IncomingFrom(a, apps) => IncomingCounted(s, a, apps);
    case LinkDown(a) => LinkLostCounted(s, a);
  }

  lemma {:induction false} RunCounted(s: State, es: seq<Event>)
    requires Counted(s) && Told(s) && PossibleRun(s, es)
    ensures Counted(Run(s, es)) && Told(Run(s, es))
    decreases |es|
  {
    if es != [] {
      StepCounted(s, es[0]);
      RunCounted(Step(s, es[0]), es[1..]);
    }
  }

  /**
    In every reachable state: a device's count is the number of connections that name it, numbers are
    distinct, no connection was told twice that it is gone, and a device that waits for a link has
    a connection.
   */
  lemma ConnectionsCounted(es: seq<Event>, a: Addr)
    requires PossibleRun(Start, es) && a in Run(Start, es).devices
    ensures var s := Run(Start, es); var d := s.devices[a];
            && d.connCnt == Count(s.conns, a) && d.ref >= 1 + d.connCnt
            && (d.state == ConnectInit || d.state == ConnectReady ==> exists c :: c in s.conns && c.device == a)
            && NoDupIds(s.conns) && NoDup(s.log) && (forall c | c in s.conns :: c.id !in s.log)
  {
    RunCounted(Start, es);
    var s := Run(Start, es);
    assert DevOk(s, a);
    CountFirst(s.conns, a);
    if First(s.conns, OfDevice(a)) < |s.conns| { assert s.conns[First(s.conns, OfDevice(a))] in s.conns; }
  }

  /** The link to a device goes down: the device is DISCONNECTED afterwards exactly if it had a connection. */
  lemma {:induction false} LinkLostState(s: State, a: Addr)
    requires Counted(s) && a in s.devices
    ensures a in DropAll(s, OfDevice(a)).devices
    ensures DropAll(s, OfDevice(a)).devices[a].state ==
            if Count(s.conns, a) > 0 then Disconnected else s.devices[a].state
    decreases |s.conns|
  {
    var i := First(s.conns, OfDevice(a));
    CountFirst(s.conns, a);
    if i < |s.conns| {
      assert DevOk(s, a);
      CountRemove(s.conns, i, a);
      DropCounted(s, i);
      LinkLostState(Drop(s, i), a);
    }
  }

  // ----- what survives -----

  /** The connections that do not match, in order. */
  function Others(conns: seq<Conn>, k: Key): seq<Conn> {
    if conns == [] then [] else (if Matches(conns[0], k) then [] else [conns[0]]) + Others(conns[1..], k)
  }

  lemma OthersCons(c: Conn, rest: seq<Conn>, k: Key)
    ensures Others([c] + rest, k) == (if Matches(c, k) then [] else [c]) + Others(rest, k)
    ensures First([c] + rest, k) == if Matches(c, k) then 0 else 1 + First(rest, k)
  {
    assert ([c] + rest)[1..] == rest;
  }

  lemma {:induction false} NoneMatches(conns: seq<Conn>, k: Key)
    requires First(conns, k) == |conns|
    ensures Others(conns, k) == conns
  {
    if conns != [] { NoneMatches(conns[1..], k); }
  }

  lemma SliceCons<T>(c: T, rest: seq<T>, i: nat)
    requires i < |rest|
    ensures ([c] + rest)[..i + 1] + ([c] + rest)[i + 2..] == [c] + (rest[..i] + rest[i + 1..])
  {
  }

  lemma {:induction false} OthersWithout(conns: seq<Conn>, k: Key)
    requires First(conns, k) < |conns|
    ensures var i := First(conns, k); Others(conns[..i] + conns[i + 1..], k) == Others(conns, k)
  {
    var c, rest := conns[0], conns[1..];
    assert conns == [c] + rest;
    OthersCons(c, rest, k);
    if Matches(c, k) {
      assert conns[..0] + conns[1..] == rest;
    } else {
      var i := First(rest, k);
      OthersWithout(rest, k);
      SliceCons(c, rest, i);
      OthersCons(c, rest[..i] + rest[i + 1..], k);
    }
  }

  /** Only devices of matching connections may differ. */
  ghost predicate SameOthers(s: State, s': State, k: Key) {
    && s'.log == s.log && s'.lastId == s.lastId && s'.devices.Keys == s.devices.Keys
    && forall a | a in s.devices && (forall c | c in s.conns && c.device == a :: !Matches(c, k)) ::
         s'.devices[a] == s.devices[a]
  }

  lemma DropOne(s: State, k: Key)
    requires First(s.conns, k) < |s.conns|
    ensures var s1 := Drop(s, First(s.conns, k));
            SameOthers(s, s1, k) && forall c | c in s1.conns :: c in s.conns
  {
    assert s.conns[First(s.conns, k)] in s.conns;
  }

  lemma SameAgain(s: State, s1: State, s2: State, k: Key)
    requires SameOthers(s, s1, k) && SameOthers(s1, s2, k) && forall c | c in s1.conns :: c in s.conns
    ensures SameOthers(s, s2, k)
  {
  }

  /** Exactly the matching connections go, and only their devices notice. */
  lemma {:induction false} DropAllExact(s: State, k: Key)
    ensures DropAll(s, k).conns == Others(s.conns, k) && SameOthers(s, DropAll(s, k), k)
    decreases |s.conns|
  {
    var i := First(s.conns, k);
    if i < |s.conns| {
      OthersWithout(s.conns, k);
      DropOne(s, k);
      DropAllExact(Drop(s, i), k);
      SameAgain(s, Drop(s, i), DropAll(s, k), k);
    } else {
      NoneMatches(s.conns, k);
    }
  }

  lemma {:induction false} OthersAre(conns: seq<Conn>, k: Key)
    ensures Subsequence(Others(conns, k), conns)
    ensures forall c :: c in Others(conns, k) <==> c in conns && !Matches(c, k)
  {
    if conns != [] {
      OthersAre(conns[1..], k);
      assert conns == [conns[0]] + conns[1..];
      if Matches(conns[0], k) {
        var rest := Others(conns[1..], k);
        assert Others(conns, k) == rest && (rest != [] ==> rest[0] in rest && rest[0] != conns[0]);
      } else {
        assert Others(conns, k)[1..] == Others(conns[1..], k);
      }
    }
  }

  lemma {:induction false} IdsOfAre(conns: seq<Conn>, a: Addr)
    ensures forall id :: id in IdsOf(conns, a) <==> exists c :: c in conns && c.device == a && c.id == id
  {
    if conns != [] {
      IdsOfAre(conns[1..], a);
      assert conns == [conns[0]] + conns[1..];
    }
  }

  /** The loss of a link ends the connections to that device; the others stay, in order, and so do other devices. */
  lemma LinkLostExact(s: State, a: Addr)
    requires a in s.devices
    ensures var s' := LinkLost(s, a);
            && (forall c :: c in s'.conns <==> c in s.conns && c.device != a) && Subsequence(s'.conns, s.conns)
            && s'.devices.Keys == s.devices.Keys && s'.lastId == s.lastId
            && (forall b | b in s.devices && b != a :: s'.devices[b] == s.devices[b])
            && (s.devices[a].state != Connected ==> s'.log == s.log)
            && (s.devices[a].state == Connected ==>
                  && |s.log| <= |s'.log| && s'.log[..|s.log|] == s.log
                  && forall id :: id in s'.log[|s.log|..] <==> exists c :: c in s.conns && c.device == a && c.id == id)
  {
    IdsOfAre(s.conns, a);
    var s1 := if s.devices[a].state == Connected then s.(log := s.log + IdsOf(s.conns, a)) else s;
    DropAllExact(s1, OfDevice(a));
    OthersAre(s.conns, OfDevice(a));
  }

  /** The end of an application ends its connections, untold; the others stay, in order, and devices without one too. */
  lemma UnregisterExact(s: State, app: App)
    ensures var s' := DropAll(s, OfApp(app));
            && (forall c :: c in s'.conns <==> c in s.conns && c.app != app) && Subsequence(s'.conns, s.conns)
            && s'.devices.Keys == s.devices.Keys && s'.lastId == s.lastId && s'.log == s.log
            && (forall b | b in s.devices && (forall c | c in s.conns && c.device == b :: c.app != app) ::
                  s'.devices[b] == s.devices[b])
  {
    DropAllExact(s, OfApp(app));
    OthersAre(s.conns, OfApp(app));
  }

  lemma DisconnectExact(s: State, id: nat)
    requires NoDupIds(s.conns)
    ensures var s' := DisconnectId(s, id);
            && (forall c :: c in s'.conns <==> c in s.conns && c.id != id) && s'.lastId == s.lastId
            && s'.log == (if exists c :: c in s.conns && c.id == id then s.log + [id] else s.log)
  {
    var i := First(s.conns, Numbered(id));
    if i < |s.conns| {
      assert s.conns[i] in s.conns;
      var rest := s.conns[..i] + s.conns[i + 1..];
      forall c | c in s.conns && c.id != id
        ensures c in rest
      {
        var j :| 0 <= j < |s.conns| && s.conns[j] == c;
        if j < i { assert rest[j] == c; } else { assert rest[j - 1] == c; }
      }
    }
  }

  lemma {:induction false} ListenConns(s: State, a: Addr, apps: seq<App>)
    requires a in s.devices
    ensures var s' := Listen(s, a, apps);
            s'.lastId >= s.lastId && forall c: Conn | c.id < s.lastId :: c in s'.conns <==> c in s.conns
    decreases |apps|
  {
    if apps != [] { ListenConns(Create(s, a, apps[0]), a, apps[1..]); }
  }

  /** Each listening application gets a connection, and none loses one. */
  lemma {:induction false} ListenConnects(s: State, a: Addr, apps: seq<App>)
    requires a in s.devices
    ensures var s' := Listen(s, a, apps);
            && (forall c | c in s.conns :: c in s'.conns)
            && (forall app | app in apps :: exists c :: c in s'.conns && c.device == a && c.app == app)
    decreases |apps|
  {
    if apps != [] {
      var s1 := Create(s, a, apps[0]);
      ListenConnects(s1, a, apps[1..]);
      assert s1.conns[0] in s1.conns && forall c | c in s.conns :: c in s1.conns;
      assert apps == [apps[0]] + apps[1..];
    }
  }

  /** Whether an event is about a device, or about a connection to it. */
  predicate Concerns(s: State, e: Event, b: Addr) {
    match e
    case ConnectBy(a, _) => a == b
    case DisconnectOf(id) => exists c :: c in s.conns && c.id == id && c.device == b
    case Unregister(app) => exists c :: c in s.conns && c.app == app && c.device == b
    case DeviceFound(a) => a == b
    case AttemptOn(a, _) => a == b
    case AttemptDone(a, _) => a == b
    case IncomingFrom(a, _) => a == b
    case LinkDown(a) => a == b
  }

  lemma {:induction false} ListenDevices(s: State, a: Addr, apps: seq<App>, b: Addr)
    requires a in s.devices && b != a
    ensures var s' := Listen(s, a, apps);
            (b in s'.devices <==> b in s.devices) && (b in s.devices ==> s'.devices[b] == s.devices[b])
    decreases |apps|
  {
    if apps != [] { ListenDevices(Create(s, a, apps[0]), a, apps[1..], b); }
  }

  /** No other event changes the device, or makes it known. */
  lemma OthersUntouched(s: State, e: Event, b: Addr)
    requires Possible(s, e) && !Concerns(s, e, b)
    ensures b in Step(s, e).devices <==> b in s.devices
    ensures b in s.devices ==> Step(s, e).devices[b] == s.devices[b]
  {
    match e
    case DisconnectOf(id) =>
      var i := First(s.conns, Numbered(id));
      if i < |s.conns| { assert s.conns[i] in s.conns; }
    case Unregister(app) => UnregisterExact(s, app);
    case LinkDown(a) => LinkLostExact(s, a);
    case IncomingFrom(a, apps) => ListenDevices(Know(s, a), a, apps, b);
    case _ =>
  }

  /** What ends a connection. */
  predicate EndedBy(c: Conn, e: Event) {
    match e
    case DisconnectOf(id) => id == c.id
    case Unregister(app) => app == c.app
    case LinkDown(a) => a == c.device
    case _ => false
  }

  lemma StepSurvives(s: State, e: Event, c: Conn)
    requires Counted(s) && Possible(s, e) && c.id < s.lastId
    ensures c in Step(s, e).conns <==> c in s.conns && !EndedBy(c, e)
    ensures c.id < Step(s, e).lastId
  {
    match e
    case DisconnectOf(id) => DisconnectExact(s, id);
    case Unregister(app) => UnregisterExact(s, app);
    case LinkDown(a) => LinkLostExact(s, a);
    case IncomingFrom(a, apps) => ListenConns(Know(s, a), a, apps);
    case _ =>
  }

  /**
    Over every run a connection survives exactly if it is not disconnected itself, its application stays, and
    the link to its device: what happens to other devices and applications does not matter to it.
   */
  lemma {:induction false} Survives(s: State, es: seq<Event>, c: Conn)
    requires Counted(s) && Told(s) && PossibleRun(s, es) && c.id < s.lastId
    ensures c in Run(s, es).conns <==> c in s.conns && forall i | 0 <= i < |es| :: !EndedBy(c, es[i])
    decreases |es|
  {
    if es != [] {
      var rest := es[1..];
      StepCounted(s, es[0]);
      StepSurvives(s, es[0], c);
      Survives(Step(s, es[0]), rest, c);
      assert forall i | 0 < i < |es| :: es[i] == rest[i - 1];
    }
  }

  // ----- devices that are stuck -----

  /** A device is CONNECTED without a connection. */
  predicate Stuck(s: State, a: Addr) {
    a in s.devices && s.devices[a].state == Connected && Count(s.conns, a) == 0
  }

  lemma DropStuck(s: State, i: nat, a: Addr)
    requires Counted(s) && i < |s.conns|
    ensures Stuck(Drop(s, i), a) <==> Stuck(s, a)
  {
    CountRemove(s.conns, i, a);
    CountOne(s.conns, i);
    if a in s.devices { assert DevOk(s, a); }
  }

  lemma {:induction false} DropAllStuck(s: State, k: Key, a: Addr)
    requires Counted(s)
    ensures Stuck(DropAll(s, k), a) <==> Stuck(s, a)
    decreases |s.conns|
  {
    var i := First(s.conns, k);
    if i < |s.conns| {
      DropStuck(s, i, a);
      DropCounted(s, i);
      DropAllStuck(Drop(s, i), k, a);
    }
  }

  /** What was told does not matter. */
  lemma LogStuck(s: State, log: seq<nat>, a: Addr)
    requires Counted(s)
    ensures Counted(s.(log := log)) && (Stuck(s.(log := log), a) <==> Stuck(s, a))
  {
    assert forall b | b in s.devices :: DevOk(s, b) == DevOk(s.(log := log), b);
  }

  lemma LinkLostStuck(s: State, b: Addr, a: Addr)
    requires Counted(s) && b in s.devices
    ensures Stuck(LinkLost(s, b), a) <==> Stuck(s, a)
  {
    var s1 := if s.devices[b].state == Connected then s.(log := s.log + IdsOf(s.conns, b)) else s;
    LogStuck(s, s1.log, a);
    DropAllStuck(s1, OfDevice(b), a);
  }

  lemma DisconnectStuck(s: State, id: nat, a: Addr)
    requires Counted(s)
    ensures Stuck(DisconnectId(s, id), a) <==> Stuck(s, a)
  {
    var i := First(s.conns, Numbered(id));
    if i < |s.conns| {
      LogStuck(s, s.log + [id], a);
      DropStuck(s.(log := s.log + [id]), i, a);
    }
  }

  lemma ConnectStuck(s: State, b: Addr, app: App, a: Addr)
    requires Counted(s)
    ensures Stuck(Connect(s, b, app), a) <==> Stuck(s, a) && a != b
  {
    var s1 := Know(s, b);
    var i := First(s1.conns, OfBoth(b, app));
    if i < |s1.conns| { CountOne(s1.conns, i); }
  }

  lemma {:induction false} ListenStuck(s: State, b: Addr, apps: seq<App>, a: Addr)
    requires b in s.devices
    ensures var s' := Listen(s, b, apps);
            && Count(s'.conns, a) == Count(s.conns, a) + (if a == b then |apps| else 0)
            && (a in s'.devices <==> a in s.devices) && (a in s.devices ==> s'.devices[a].state == s.devices[a].state)
    decreases |apps|
  {
    if apps != [] { ListenStuck(Create(s, b, apps[0]), b, apps[1..], a); }
  }

  lemma IncomingStuck(s: State, b: Addr, apps: seq<App>, a: Addr)
    requires Counted(s)
    ensures Stuck(Incoming(s, b, apps), a) <==> Stuck(s, a) || Strands(s, IncomingFrom(b, apps), a)
  {
    ListenStuck(Know(s, b), b, apps, a);
    if a !in s.devices { NoConns(s.conns, a); }
  }

  /** An incoming link is accepted while no application listens, and none has a connection. */
  predicate Strands(s: State, e: Event, a: Addr) {
    e.IncomingFrom? && e.a == a && e.apps == [] && Count(s.conns, a) == 0
    && (a in s.devices ==> s.devices[a].state == Disconnected)
  }

  predicate Frees(e: Event, a: Addr) { e.ConnectBy? && e.a == a }

  /** A device gets stuck by exactly such a link, and is so until an application connects to it. */
  lemma StepStuck(s: State, e: Event, a: Addr)
    requires Counted(s) && Possible(s, e)
    ensures Stuck(Step(s, e), a) <==> (Stuck(s, a) && !Frees(e, a)) || Strands(s, e, a)
  {
    if e.DeviceFound? || e.AttemptOn? || e.AttemptDone? { assert DevOk(s, e.a); }
    match e
    case ConnectBy(b, app) => ConnectStuck(s, b, app, a);
    case DisconnectOf(id) => DisconnectStuck(s, id, a);
    case Unregister(app) => DropAllStuck(s, OfApp(app), a);
    case IncomingFrom(b, apps) => IncomingStuck(s, b, apps, a);
    case LinkDown(b) => LinkLostStuck(s, b, a);
    case _ =>
  }

  /** The device is stuck, and refuses every link, in all states of the run. */
  ghost predicate StuckThroughout(s: State, es: seq<Event>, a: Addr)
    requires PossibleRun(s, es)
    decreases |es|
  {
    && Stuck(s, a) && (forall apps :: Incoming(s, a, apps) == s)
    && (es == [] || StuckThroughout(Step(s, es[0]), es[1..], a))
  }

  /** A stuck device stays so over a run exactly if no application connects to it: losing the link is no help. */
  lemma {:induction false} StuckUntilConnected(s: State, es: seq<Event>, a: Addr)
    requires Counted(s) && Told(s) && Stuck(s, a) && PossibleRun(s, es)
    ensures StuckThroughout(s, es, a) <==> forall i | 0 <= i < |es| :: !Frees(es[i], a)
    decreases |es|
  {
    if es != [] {
      var rest := es[1..];
      StepCounted(s, es[0]);
      StepStuck(s, es[0], a);
      assert forall i | 0 < i < |es| :: es[i] == rest[i - 1];
      if Stuck(Step(s, es[0]), a) { StuckUntilConnected(Step(s, es[0]), rest, a); }
    }
  }

  /** A connection, and its end, bring the device back to DISCONNECTED, where it takes the next link. */
  lemma ConnectingFrees(s: State, a: Addr, app: App, apps: seq<App>)
    requires Counted(s) && Stuck(s, a)
    ensures var s' := DisconnectId(Connect(s, a, app), s.lastId);
            && a in s'.devices && s'.devices[a].state == Disconnected && Count(s'.conns, a) == 0
            && a in Incoming(s', a, apps).devices && Incoming(s', a, apps).devices[a].state == Connected
  {
    var i := First(s.conns, OfBoth(a, app));
    if i < |s.conns| { CountOne(s.conns, i); }
    assert DevOk(s, a);
    var s1 := Connect(s, a, app);
    assert s1.conns == [Conn(s.lastId, a, app)] + s.conns && First(s1.conns, Numbered(s.lastId)) == 0;
    assert s1.conns[..0] + s1.conns[1..] == s.conns;
  }

  lemma OneToldMore(log: seq<nat>, conns: seq<Conn>, a: Addr)
    requires conns != []
    ensures log + IdsOf(conns, a)
            == (if conns[0].device == a then log + [conns[0].id] else log) + IdsOf(conns[1..], a)
  {
  }

  // ----- the bookkeeping itself -----

  class Gatt {
    var devices: map<Addr, Dev>
    var conns: seq<Conn>
    var lastId: nat
    ghost var log: seq<nat>

    ghost function View(): State
      reads this
    {
      State(devices, conns, lastId, log)
    }

    constructor ()
      ensures View() == Start
    {
      devices, conns, lastId, log := map[], [], 1, [];
    }

    /** destroy_connection, of the connection at `i`, which leaves the queue. */
    method DestroyConnection(i: nat)
      requires i < |conns|
      modifies this
      ensures View() == Drop(old(View()), i)
      ensures conns == old(conns)[..i] + old(conns)[i + 1..] && log == old(log) && lastId == old(lastId)
      ensures devices.Keys == old(devices).Keys
      ensures forall b | b in devices && b != old(conns)[i].device :: devices[b] == old(devices)[b]
    {
      var a := conns[i].device;
      conns := conns[..i] + conns[i + 1..];
      if a !in devices { return; }
      var d := devices[a];
      d := d.(connCnt := d.connCnt - 1);
      if d.connCnt == 0 { d := d.(state := Disconnected, attIo := false); }
      d := d.(ref := d.ref - 1);
      devices := devices[a := d];
    }

    /** create_connection. */
    method CreateConnection(a: Addr, app: App)
      requires a in devices
      modifies this
      ensures View() == Create(old(View()), a, app)
      ensures conns == [Conn(old(lastId), a, app)] + old(conns) && lastId == old(lastId) + 1 && log == old(log)
      ensures var d := old(devices)[a]; devices == old(devices)[a := d.(ref := d.ref + 1, connCnt := d.connCnt + 1)]
    {
      conns := [Conn(lastId, a, app)] + conns;
      lastId := lastId + 1;
      devices := devices[a := devices[a].(ref := devices[a].ref + 1, connCnt := devices[a].connCnt + 1)];
    }

    /** handle_connect. */
    method HandleConnect(a: Addr, app: App)
      modifies this
      ensures View() == Connect(old(View()), a, app)
      ensures exists c :: c in conns && c.device == a && c.app == app
      ensures a in devices && devices[a].state ==
              if a !in old(devices) || old(devices)[a].state == Disconnected then ConnectInit else old(devices)[a].state
    {
      if a !in devices { devices := devices[a := NewDev]; }
      var i := First(conns, OfBoth(a, app));
      if i == |conns| { CreateConnection(a, app); }
      if devices[a].state == Disconnected { devices := devices[a := devices[a].(state := ConnectInit)]; }
      assert devices == devices[a := devices[a]];
    }

    /** handle_client_disconnect and handle_server_disconnect. */
    method HandleDisconnect(id: nat)
      modifies this
      ensures View() == DisconnectId(old(View()), id)
    {
      var i := First(conns, Numbered(id));
      if i == |conns| { return; }
      log := log + [id];
      DestroyConnection(i);
    }

    /** app_disconnect_devices: a connection has left the queue before it is triggered, so nobody is told. */
    method AppDisconnectDevices(app: App)
      modifies this
      ensures View() == DropAll(old(View()), OfApp(app))
      ensures forall c :: c in conns <==> c in old(conns) && c.app != app
    {
      UnregisterExact(View(), app);
      var i := First(conns, OfApp(app));
      while i < |conns|
        invariant i == First(conns, OfApp(app)) && DropAll(View(), OfApp(app)) == DropAll(old(View()), OfApp(app))
        decreases |conns|
      {
        DestroyConnection(i);
        i := First(conns, OfApp(app));
      }
    }

    /** queue_foreach with disconnect_notify_by_device; a device not connected reports a failed connect instead. */
    method NotifyClients(a: Addr)
      requires a in devices
      modifies this`log
      ensures log == if devices[a].state == Connected then old(log) + IdsOf(conns, a) else old(log)
    {
      if devices[a].state != Connected { return; }
      var k := 0;
      while k < |conns|
        invariant k <= |conns| && log + IdsOf(conns[k..], a) == old(log) + IdsOf(conns, a)
      {
        assert conns[k..][1..] == conns[k + 1..];
        OneToldMore(log, conns[k..], a);
        if conns[k].device == a { log := log + [conns[k].id]; }
        k := k + 1;
      }
      assert log + [] == log;
    }

    /** queue_remove_all with destroy_connection. */
    method RemoveClients(a: Addr)
      modifies this
      ensures View() == DropAll(old(View()), OfDevice(a))
    {
      var i := First(conns, OfDevice(a));
      while i < |conns|
        invariant i == First(conns, OfDevice(a)) && DropAll(View(), OfDevice(a)) == DropAll(old(View()), OfDevice(a))
        decreases |conns|
      {
        DestroyConnection(i);
        i := First(conns, OfDevice(a));
      }
    }

    /** device_disconnect_clients. */
    method DeviceDisconnectClients(a: Addr)
      requires a in devices
      modifies this
      ensures View() == LinkLost(old(View()), a)
      ensures forall c :: c in conns <==> c in old(conns) && c.device != a
      ensures forall b | b in old(devices) && b != a :: b in devices && devices[b] == old(devices)[b]
    {
      LinkLostExact(View(), a);
      NotifyClients(a);
      RemoveClients(a);
    }

    /** le_device_found_handler: a device an application waits for may be connected now. */
    method LeDeviceFound(a: Addr)
      requires a in devices
      modifies this
      ensures View() == Put(old(View()), a, Found(old(devices[a])))
      ensures devices[a].state == if old(devices[a].state) == ConnectInit then ConnectReady else old(devices[a].state)
    {
      var d := devices[a];
      if d.state != ConnectInit {
        assert devices == devices[a := d];
        return;
      }
      devices := devices[a := d.(state := ConnectReady)];
    }

    /** connect_le, on a device in state READY; `started` is whether the attempt could be made. */
    method ConnectLe(a: Addr, started: bool)
      requires a in devices && devices[a].state == ConnectReady
      modifies this
      ensures View() == Put(old(View()), a, Attempt(old(devices[a]), started))
      ensures devices[a].state == ConnectReady && devices[a].attIo == (old(devices[a].attIo) || started)
      ensures devices[a].attempts == old(devices[a].attempts) + (if started && !old(devices[a].attIo) then 1 else 0)
    {
      var d := devices[a];
      if d.attIo {
        assert devices == devices[a := d];
        return;
      }
      d := d.(ref := d.ref + 1);
      if !started {
        devices := devices[a := d.(leaked := d.leaked + 1)];
        return;
      }
      devices := devices[a := d.(attIo := true, attempts := d.attempts + 1)];
    }

    /** connect_cb. */
    method ConnectCb(a: Addr, ok: bool)
      requires a in devices && devices[a].attempts > 0
      modifies this
      ensures View() == Put(old(View()), a, Attempted(old(devices[a]), ok))
      ensures devices[a].state ==
              if old(devices[a].state) != ConnectReady then old(devices[a].state)
              else if ok then Connected else Disconnected
      ensures old(devices[a].state) == ConnectReady ==> !devices[a].attIo && devices[a].ref == old(devices[a].ref) - 1
    {
      var d := devices[a];
      d := d.(attempts := d.attempts - 1);
      if d.state != ConnectReady {
        devices := devices[a := d.(leaked := d.leaked + 1)];
        return;
      }
      d := d.(attIo := false);
      d := d.(state := if ok then Connected else Disconnected);
      devices := devices[a := d.(ref := d.ref - 1)];
    }

    /** connect_event, with the listening applications that are still registered. */
    method ConnectEvent(a: Addr, apps: seq<App>)
      modifies this
      ensures View() == Incoming(old(View()), a, apps)
      ensures a in old(devices) && old(devices)[a].state != Disconnected ==> View() == old(View())
      ensures a !in old(devices) || old(devices)[a].state == Disconnected ==>
                && a in devices && devices[a].state == Connected
                && forall app | app in apps :: exists c :: c in conns && c.device == a && c.app == app
    {
      if a !in devices {
        devices := devices[a := NewDev];
      } else if devices[a].state != Disconnected {
        return;
      }
      ghost var known := View();
      ListenConnects(known, a, apps);
      var k := 0;
      while k < |apps|
        invariant k <= |apps| && a in devices && Listen(View(), a, apps[k..]) == Listen(known, a, apps)
      {
        assert apps[k..][1..] == apps[k + 1..];
        CreateConnection(a, apps[k]);
        k := k + 1;
      }
      devices := devices[a := devices[a].(state := Connected)];
    }
  }
}
