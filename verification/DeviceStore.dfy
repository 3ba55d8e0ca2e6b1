/**
  The devices an adapter knows: the bonded ones, and a cache of at most 300 others, most recently
  cached first. Each list is mirrored in a key file. A device is known by its address; a device
  that leaves both lists is freed.
*/
module DeviceStore {
  import opened Prelude

  type Addr = nat

  const CACHE_MAX := 300

  datatype Device = Device(pairing: bool, bredrPaired: bool, bredrBonded: bool, lePaired: bool, leBonded: bool) {
    predicate Paired() { bredrPaired || lePaired }
  }

  const NewDevice := Device(false, false, false, false, false)

  /** The two lists, the devices, and the groups of the two key files. */
  datatype Store = Store(bonded: seq<Addr>, cached: seq<Addr>, devices: map<Addr, Device>,
                         devicesFile: set<Addr>, cacheFile: set<Addr>)

  // ----- the operations -----

  /** g_slist_remove: the first element that is `a`. */
  function RemoveFirst(s: seq<Addr>, a: Addr): (r: seq<Addr>)
    ensures forall x | x in r :: x in s
  {
    if s == [] then [] else if s[0] == a then s[1..] else [s[0]] + RemoveFirst(s[1..], a)
  }

  /** The order of the cache after `a` was cached again, or newly. */
  function Reorder(cached: seq<Addr>, a: Addr): seq<Addr> {
    if a in cached then [a] + RemoveFirst(cached, a)
    else if |cached| < CACHE_MAX then [a] + cached
    else [a] + RemoveFirst(cached, cached[|cached| - 1])
  }

  /** The devices that have to go for that. */
  function Evicted(cached: seq<Addr>, a: Addr): set<Addr> {
    if a in cached || |cached| < CACHE_MAX then {} else {cached[|cached| - 1]}
  }

  /** cache_device. */
  function Cache(s: Store, a: Addr): Store {
    var out := Evicted(s.cached, a);
    s.(cached := Reorder(s.cached, a), devices := s.devices - out, cacheFile := s.cacheFile - out + {a})
  }

  predicate Known(s: Store, a: Addr) {
    a in s.bonded || a in s.cached
  }

  /** get_device. */
  function Get(s: Store, a: Addr): Store {
    if Known(s, a) then s else Cache(s.(devices := s.devices[a := NewDevice]), a)
  }

  /** The bearer's own part of a device, and whether the other bearer is paired. */
  function Mine(d: Device, le: bool): (bool, bool) {
    if le then (d.lePaired, d.leBonded) else (d.bredrPaired, d.bredrBonded)
  }

  predicate Other(d: Device, le: bool) { if le then d.bredrPaired else d.lePaired }

  function WithMine(d: Device, le: bool, paired: bool, bonded: bool): Device {
    if le then d.(lePaired := paired, leBonded := bonded) else d.(bredrPaired := paired, bredrBonded := bonded)
  }

  /** The device moves to the bonded list. */
  function Bond(s: Store, a: Addr): Store {
    s.(cached := RemoveFirst(s.cached, a), bonded := [a] + s.bonded,
       cacheFile := s.cacheFile - {a}, devicesFile := s.devicesFile + {a})
  }

  /** The device moves to the cache. */
  function Unbond(s: Store, a: Addr): Store {
    Cache(s.(bonded := RemoveFirst(s.bonded, a), devicesFile := s.devicesFile - {a}), a)
  }

  /** update_bredr_state and update_le_state. */
  function Update(s: Store, a: Addr, le: bool, pairing: bool, paired: bool, bonded: bool): Store
    requires a in s.devices
  {
    var d := s.devices[a];
    if pairing == d.pairing && (paired, bonded) == Mine(d, le) then s
    else if pairing && Mine(d, le).0 then Put(s, a, d.(pairing := pairing))
    else if !pairing && !paired && d.pairing && Mine(d, le).0 then Put(s, a, d.(pairing := pairing))
    else
      var s1 := if Other(d, le) then s else if paired then Bond(s, a) else Unbond(s, a);
      Put(s1, a, WithMine(d, le, paired, bonded).(pairing := pairing))
  }

  function Put(s: Store, a: Addr, d: Device): Store {
    s.(devices := s.devices[a := d])
  }

  // ----- events -----

  /**
    A device is found; or the pairing state of a device changes on one bearer: a request to pair, a
    key, a failure, an unpairing. Some of these create a device that is not known (`create`).
   */
  datatype Event =
    | Found(a: Addr)
    | Changed(a: Addr, le: bool, pairing: bool, paired: bool, bonded: bool, create: bool)

  function Step(s: Store, e: Event): Store {
    match e
    case Found(a) =>
      var s1 := Get(s, a);
      if a in s1.devices && !s1.devices[a].Paired() then Cache(s1, a) else s1
    case Changed(a, le, pairing, paired, bonded, create) =>
      var s1 := if create then Get(s, a) else s;
      if Known(s1, a) && a in s1.devices then Update(s1, a, le, pairing, paired, bonded) else s1
  }

  function Run(s: Store, es: seq<Event>): Store
    decreases |es|
  {
    if es == [] then s else Run(Step(s, es[0]), es[1..])
  }

  // ----- lists -----

  lemma {:induction false} RemoveFirstNoDup(s: seq<Addr>, a: Addr)
    requires NoDup(s)
    ensures NoDup(RemoveFirst(s, a)) && Elements(RemoveFirst(s, a)) == Elements(s) - {a}
    ensures |RemoveFirst(s, a)| == if a in s then |s| - 1 else |s|
  {
    if s != [] {
      assert s == [s[0]] + s[1..] && s[0] !in s[1..];
      RemoveFirstNoDup(s[1..], a);
      if s[0] != a {
        assert Elements(RemoveFirst(s, a)) == {s[0]} + Elements(RemoveFirst(s[1..], a));
        assert s[0] !in Elements(RemoveFirst(s[1..], a));
      }
    }
  }

  lemma Prepend(rest: seq<Addr>, a: Addr)
    requires NoDup(rest) && a !in rest
    ensures NoDup([a] + rest) && Elements([a] + rest) == {a} + Elements(rest)
  {
  }

  lemma ReorderNoDup(cached: seq<Addr>, a: Addr)
    requires NoDup(cached) && |cached| <= CACHE_MAX
    ensures NoDup(Reorder(cached, a)) && 1 <= |Reorder(cached, a)| <= CACHE_MAX
    ensures Elements(Reorder(cached, a)) == Elements(cached) - Evicted(cached, a) + {a}
    ensures a !in Evicted(cached, a)
  {
    if a in cached {
      RemoveFirstNoDup(cached, a);
      assert a !in Elements(RemoveFirst(cached, a));
      Prepend(RemoveFirst(cached, a), a);
    } else if |cached| == CACHE_MAX {
      var last := cached[|cached| - 1];
      RemoveFirstNoDup(cached, last);
      assert a !in Elements(cached) && a !in Elements(RemoveFirst(cached, last));
      Prepend(RemoveFirst(cached, last), a);
    } else {
      Prepend(cached, a);
    }
  }

  // ----- the partition, and its mirror -----

  /**
    Each known device is in exactly one of the two lists, once; it is bonded iff it is paired on some
    bearer; and the key files hold exactly the addresses of the lists.
   */
  ghost predicate Kept(s: Store) {
    && Lists(s) && s.devices.Keys == Elements(s.bonded) + Elements(s.cached)
    && (forall a | a in s.devices :: a in s.bonded <==> s.devices[a].Paired())
  }

  ghost predicate Lists(s: Store) {
    && NoDup(s.bonded) && NoDup(s.cached) && Elements(s.bonded) !! Elements(s.cached) && |s.cached| <= CACHE_MAX
    && s.devicesFile == Elements(s.bonded) && s.cacheFile == Elements(s.cached)
  }

  /** The same while the device `a`, not bonded, may still be in no list, and whatever its state says. */
  ghost predicate Loose(s: Store, a: Addr) {
    && Lists(s) && a !in s.bonded && s.devices.Keys == Elements(s.bonded) + Elements(s.cached) + {a}
    && (forall b | b in s.devices && b != a :: b in s.bonded <==> s.devices[b].Paired())
  }

  lemma CacheLoose(s: Store, a: Addr)
    requires Loose(s, a)
    ensures Loose(Cache(s, a), a) && a in Cache(s, a).cached && Cache(s, a).devices[a] == s.devices[a]
  {
    ReorderNoDup(s.cached, a);
    var out := Evicted(s.cached, a);
    assert out <= Elements(s.cached);
    assert a in Elements(Cache(s, a).cached);
  }

  /** Once its state says that it is not paired, the device is where it belongs. */
  lemma PutLoose(s: Store, a: Addr, d: Device)
    requires Loose(s, a) && a in s.cached && !d.Paired()
    ensures Kept(Put(s, a, d))
  {
    assert a in Elements(s.cached);
  }

  lemma GetKept(s: Store, a: Addr)
    requires Kept(s)
    ensures Kept(Get(s, a)) && Known(Get(s, a), a) && a in Get(s, a).devices
    ensures !Known(s, a) ==> Get(s, a).devices[a] == NewDevice
    ensures Known(s, a) <==> a in s.devices
  {
    assert a in s.bonded <==> a in Elements(s.bonded);
    assert a in s.cached <==> a in Elements(s.cached);
    if !Known(s, a) {
      var s1 := s.(devices := s.devices[a := NewDevice]);
      CacheLoose(s1, a);
      PutLoose(Cache(s1, a), a, NewDevice);
      assert Put(Cache(s1, a), a, NewDevice) == Cache(s1, a);
    }
  }

  lemma BondKept(s: Store, a: Addr, d: Device)
    requires Kept(s) && a in s.cached && d.Paired()
    ensures Kept(Put(Bond(s, a), a, d))
  {
    RemoveFirstNoDup(s.cached, a);
    assert a in Elements(s.cached) && a !in Elements(s.bonded);
    assert Elements([a] + s.bonded) == {a} + Elements(s.bonded);
    forall b | b in s.devices && b != a
      ensures b in [a] + s.bonded <==> b in s.bonded
    {
    }
  }

  lemma UnbondKept(s: Store, a: Addr, d: Device)
    requires Kept(s) && a in s.devices && !d.Paired()
    ensures Kept(Put(Unbond(s, a), a, d))
  {
    RemoveFirstNoDup(s.bonded, a);
    var s1 := s.(bonded := RemoveFirst(s.bonded, a), devicesFile := s.devicesFile - {a});
    assert forall b :: b in s1.bonded <==> b in Elements(s1.bonded);
    CacheLoose(s1, a);
    PutLoose(Cache(s1, a), a, d);
  }

  /** A device only changes its flags, and stays paired or stays unpaired. */
  lemma PutKept(s: Store, a: Addr, d: Device)
    requires Kept(s) && a in s.devices && d.Paired() == s.devices[a].Paired()
    ensures Kept(Put(s, a, d))
  {
  }

  /** A key, with news, for the bearer that is paired already while the other is not. */
  predicate Repairs(d: Device, le: bool, pairing: bool, paired: bool, bonded: bool) {
    && paired && !pairing && Mine(d, le).0 && !Other(d, le)
    && (d.pairing || bonded != Mine(d, le).1)
  }

  lemma UpdateKept(s: Store, a: Addr, le: bool, pairing: bool, paired: bool, bonded: bool)
    requires Kept(s) && a in s.devices && !Repairs(s.devices[a], le, pairing, paired, bonded)
    ensures Kept(Update(s, a, le, pairing, paired, bonded))
  {
    var d := s.devices[a];
    var d' := WithMine(d, le, paired, bonded).(pairing := pairing);
    PutKept(s, a, d.(pairing := pairing));
    if Other(d, le) {
      PutKept(s, a, d');
    } else if paired {
      if !d.Paired() {
        assert a in Elements(s.cached);
        BondKept(s, a, d');
      }
    } else {
      UnbondKept(s, a, d');
    }
  }

  /** The device is prepended to the bonded list a second time. */
  lemma RepairDuplicates(s: Store, a: Addr, le: bool, pairing: bool, paired: bool, bonded: bool)
    requires Kept(s) && a in s.devices && Repairs(s.devices[a], le, pairing, paired, bonded)
    ensures var s' := Update(s, a, le, pairing, paired, bonded);
            s'.bonded == [a] + s.bonded && a in s.bonded && !Kept(s')
  {
    var k :| 0 <= k < |s.bonded| && s.bonded[k] == a;
    assert ([a] + s.bonded)[0] == ([a] + s.bonded)[k + 1];
  }

  predicate RepairsIn(s: Store, e: Event) {
    e.Changed? && e.a in s.devices && Repairs(s.devices[e.a], e.le, e.pairing, e.paired, e.bonded)
  }

  lemma FoundKept(s: Store, a: Addr)
    requires Kept(s)
    ensures Kept(Step(s, Found(a)))
  {
    GetKept(s, a);
    var s1 := Get(s, a);
    if !s1.devices[a].Paired() {
      CacheLoose(s1, a);
      PutLoose(Cache(s1, a), a, s1.devices[a]);
      assert Put(Cache(s1, a), a, s1.devices[a]) == Cache(s1, a);
    }
  }

  /** Exactly a key for an already paired bearer breaks the partition. */
  lemma StepKept(s: Store, e: Event)
    requires Kept(s)
    ensures Kept(Step(s, e)) <==> !RepairsIn(s, e)
  {
    match e
    case Found(a) => FoundKept(s, a);
    case Changed(a, le, pairing, paired, bonded, create) =>
      GetKept(s, a);
      var s1 := if create then Get(s, a) else s;
      if a in s1.devices {
        GetKept(s1, a);
        if Repairs(s1.devices[a], le, pairing, paired, bonded) {
          RepairDuplicates(s1, a, le, pairing, paired, bonded);
        } else {
          UpdateKept(s1, a, le, pairing, paired, bonded);
        }
      } else {
        GetKept(s1, a);
      }
  }

  // ----- what becomes of the flags -----

  /** The news `(pairing, paired, bonded)` for one bearer: what a device `d` has become is `n`. */
  predicate Updated(d: Device, n: Device, le: bool, pairing: bool, paired: bool, bonded: bool) {
    && n.pairing == pairing
    && (if le then
          && n.bredrPaired == d.bredrPaired && n.bredrBonded == d.bredrBonded
          && (if d.lePaired && (pairing || (!paired && d.pairing))
              then n.lePaired && n.leBonded == d.leBonded else n.lePaired == paired && n.leBonded == bonded)
        else
          && n.lePaired == d.lePaired && n.leBonded == d.leBonded
          && (if d.bredrPaired && (pairing || (!paired && d.pairing))
              then n.bredrPaired && n.bredrBonded == d.bredrBonded
              else n.bredrPaired == paired && n.bredrBonded == bonded))
  }

  lemma UpdateFlags(s: Store, a: Addr, le: bool, pairing: bool, paired: bool, bonded: bool)
    requires Kept(s) && a in s.devices
    ensures var s' := Update(s, a, le, pairing, paired, bonded);
            && a in s'.devices && Updated(s.devices[a], s'.devices[a], le, pairing, paired, bonded)
            && forall b | b in s'.devices && b != a :: b in s.devices && s'.devices[b] == s.devices[b]
  {
  }

  /**
    A report about one bearer sets the flags of that bearer and leaves those of the other. But a paired
    bearer stays paired, and as bonded as it was, when pairing starts again, or fails. A device that is not
    known is ignored, or first created without any flag; no other device changes.
   */
  lemma ReportedFlags(s: Store, a: Addr, le: bool, pairing: bool, paired: bool, bonded: bool, create: bool)
    requires Kept(s)
    ensures var s' := Step(s, Changed(a, le, pairing, paired, bonded, create));
            && (a !in s.devices && !create ==> s' == s)
            && (a in s.devices ==>
                  a in s'.devices && Updated(s.devices[a], s'.devices[a], le, pairing, paired, bonded))
            && (a !in s.devices && create ==>
                  && a in s'.devices
                  && Updated(Device(false, false, false, false, false), s'.devices[a], le, pairing, paired, bonded))
            && forall b | b in s'.devices && b != a :: b in s.devices && s'.devices[b] == s.devices[b]
  {
    GetKept(s, a);
    var s1 := if create then Get(s, a) else s;
    if a in s1.devices {
      GetKept(s1, a);
      UpdateFlags(s1, a, le, pairing, paired, bonded);
    }
  }

  /** A device found is known afterwards, in front of the cache unless it is paired; then nothing changes. */
  lemma FoundExactly(s: Store, a: Addr)
    requires Kept(s)
    ensures var s' := Step(s, Found(a));
            if a in s.devices && (s.devices[a].bredrPaired || s.devices[a].lePaired) then s' == s
            else
              && s'.cached != [] && s'.cached[0] == a && a in s'.devices
              && s'.devices[a] == (if a in s.devices then s.devices[a] else Device(false, false, false, false, false))
  {
    GetKept(s, a);
  }

  /** So a report unpairs a paired bearer exactly if it says so, outside of pairing. */
  lemma UnpairsExactly(s: Store, a: Addr, pairing: bool, paired: bool, bonded: bool, create: bool)
    requires Kept(s) && a in s.devices
    ensures var s' := Step(s, Changed(a, false, pairing, paired, bonded, create));
            a in s'.devices && (s.devices[a].bredrPaired ==>
              (!s'.devices[a].bredrPaired <==> !paired && !pairing && !s.devices[a].pairing))
    ensures var s' := Step(s, Changed(a, true, pairing, paired, bonded, create));
            a in s'.devices && (s.devices[a].lePaired ==>
              (!s'.devices[a].lePaired <==> !paired && !pairing && !s.devices[a].pairing))
  {
    ReportedFlags(s, a, false, pairing, paired, bonded, create);
    ReportedFlags(s, a, true, pairing, paired, bonded, create);
  }

  predicate NoRepairs(s: Store, es: seq<Event>)
    decreases |es|
  {
    es == [] || (!RepairsIn(s, es[0]) && NoRepairs(Step(s, es[0]), es[1..]))
  }

  lemma {:induction false} RunKept(s: Store, es: seq<Event>)
    requires Kept(s) && NoRepairs(s, es)
    ensures Kept(Run(s, es))
    decreases |es|
  {
    if es != [] {
      StepKept(s, es[0]);
      RunKept(Step(s, es[0]), es[1..]);
    }
  }

  // ----- the cache is a least-recently-cached cache -----

  /** When `a` was last cached, by the log of all calls of cache_device. */
  function Last(log: seq<Addr>, a: Addr): int {
    if log == [] then -1 else if log[|log| - 1] == a then |log| - 1 else Last(log[..|log| - 1], a)
  }

  /** The cache is ordered by that, most recent first. */
  ghost predicate Recent(cached: seq<Addr>, log: seq<Addr>) {
    forall i, j | 0 <= i < j < |cached| :: Last(log, cached[i]) > Last(log, cached[j])
  }

  lemma {:induction false} LastBound(log: seq<Addr>, a: Addr)
    ensures -1 <= Last(log, a) < |log|
  {
    if log != [] { LastBound(log[..|log| - 1], a); }
  }

  lemma LastAppend(log: seq<Addr>, a: Addr, x: Addr)
    ensures Last(log + [a], x) == if x == a then |log| else Last(log, x)
  {
    assert (log + [a])[..|log|] == log;
  }

  lemma {:induction false} RemoveRecent(cached: seq<Addr>, a: Addr, log: seq<Addr>)
    requires Recent(cached, log)
    ensures Recent(RemoveFirst(cached, a), log)
  {
    if cached != [] && cached[0] != a {
      RemoveRecent(cached[1..], a, log);
      var rest := RemoveFirst(cached[1..], a);
      forall j | 0 <= j < |rest|
        ensures Last(log, cached[0]) > Last(log, rest[j])
      {
        assert rest[j] in cached[1..];
      }
    }
  }

  lemma PrependRecent(rest: seq<Addr>, a: Addr, log: seq<Addr>)
    requires Recent(rest, log) && a !in rest
    ensures Recent([a] + rest, log + [a])
  {
    forall i, j | 0 <= i < j < |rest| + 1
      ensures Last(log + [a], ([a] + rest)[i]) > Last(log + [a], ([a] + rest)[j])
    {
      LastAppend(log, a, ([a] + rest)[i]);
      LastAppend(log, a, rest[j - 1]);
      LastBound(log, rest[j - 1]);
    }
  }

  /** One device leaves the list, and `a`, not in what is left, comes to the front. */
  lemma ToFront(cached: seq<Addr>, out: Addr, a: Addr, log: seq<Addr>)
    requires NoDup(cached) && Recent(cached, log) && (out == a || a !in cached)
    ensures Recent([a] + RemoveFirst(cached, out), log + [a])
  {
    RemoveFirstNoDup(cached, out);
    assert a !in Elements(RemoveFirst(cached, out));
    RemoveRecent(cached, out, log);
    PrependRecent(RemoveFirst(cached, out), a, log);
  }

  lemma LastIsOldest(cached: seq<Addr>, x: Addr, log: seq<Addr>)
    requires Recent(cached, log) && x in cached
    ensures Last(log, cached[|cached| - 1]) <= Last(log, x)
  {
    var i :| 0 <= i < |cached| && cached[i] == x;
  }

  /** cache_device puts the device in front, and evicts only when full and only the least recently cached one. */
  lemma CacheIsLru(cached: seq<Addr>, a: Addr, log: seq<Addr>)
    requires NoDup(cached) && |cached| <= CACHE_MAX && Recent(cached, log)
    ensures Recent(Reorder(cached, a), log + [a]) && Reorder(cached, a)[0] == a
    ensures Evicted(cached, a) != {} <==> a !in cached && |cached| == CACHE_MAX
    ensures forall v, x | v in Evicted(cached, a) && x in cached :: Last(log, v) <= Last(log, x)
  {
    if a in cached {
      ToFront(cached, a, a, log);
    } else if |cached| == CACHE_MAX {
      ToFront(cached, cached[|cached| - 1], a, log);
      forall x | x in cached { LastIsOldest(cached, x, log); }
    } else {
      PrependRecent(cached, a, log);
    }
  }

  /** The calls of cache_device an event makes. */
  function Calls(s: Store, e: Event): seq<Addr> {
    match e
    case Found(a) =>
      var s1 := Get(s, a);
      GetCalls(s, a) + (if a in s1.devices && !s1.devices[a].Paired() then [a] else [])
    case Changed(a, le, pairing, paired, bonded, create) =>
      var s1 := if create then Get(s, a) else s;
      (if create then GetCalls(s, a) else [])
      + (if Known(s1, a) && a in s1.devices && Unbonds(s1.devices[a], le, pairing, paired, bonded) then [a] else [])
  }

  function GetCalls(s: Store, a: Addr): seq<Addr> { if Known(s, a) then [] else [a] }

  /** Whether an update ends with cache_device. */
  predicate Unbonds(d: Device, le: bool, pairing: bool, paired: bool, bonded: bool) {
    && !(pairing == d.pairing && (paired, bonded) == Mine(d, le)) && !(pairing && Mine(d, le).0)
    && !(!pairing && !paired && d.pairing && Mine(d, le).0)
    && !paired && !Other(d, le)
  }

  lemma GetRecent(s: Store, a: Addr, log: seq<Addr>)
    requires Kept(s) && Recent(s.cached, log)
    ensures Recent(Get(s, a).cached, log + GetCalls(s, a))
  {
    CacheIsLru(s.cached, a, log);
    assert log + [] == log;
  }

  lemma UpdateRecent(s: Store, a: Addr, le: bool, pairing: bool, paired: bool, bonded: bool, log: seq<Addr>)
    requires Kept(s) && a in s.devices && Recent(s.cached, log)
    ensures Recent(Update(s, a, le, pairing, paired, bonded).cached,
                   log + if Unbonds(s.devices[a], le, pairing, paired, bonded) then [a] else [])
  {
    assert log + [] == log;
    RemoveRecent(s.cached, a, log);
    CacheIsLru(s.cached, a, log);
  }

  lemma Regroup(a: seq<Addr>, b: seq<Addr>, c: seq<Addr>)
    ensures a + b + c == a + (b + c)
  {
  }

  lemma FoundRecent(s: Store, a: Addr, log: seq<Addr>)
    requires Kept(s) && Recent(s.cached, log)
    ensures Recent(Step(s, Found(a)).cached, log + Calls(s, Found(a)))
  {
    GetKept(s, a);
    GetRecent(s, a, log);
    var s1, log1 := Get(s, a), log + GetCalls(s, a);
    if s1.devices[a].Paired() {
      Regroup(log, GetCalls(s, a), []);
      assert log1 + [] == log1;
    } else {
      CacheIsLru(s1.cached, a, log1);
      Regroup(log, GetCalls(s, a), [a]);
    }
  }

  lemma ChangedRecent(s: Store, e: Event, log: seq<Addr>)
    requires Kept(s) && Recent(s.cached, log) && e.Changed?
    ensures Recent(Step(s, e).cached, log + Calls(s, e))
  {
    var a := e.a;
    GetKept(s, a);
    GetRecent(s, a, log);
    assert log + [] == log;
    var s1, first := if e.create then Get(s, a) else s, if e.create then GetCalls(s, a) else [];
    if Known(s1, a) && a in s1.devices {
      UpdateRecent(s1, a, e.le, e.pairing, e.paired, e.bonded, log + first);
      Regroup(log, first, if Unbonds(s1.devices[a], e.le, e.pairing, e.paired, e.bonded) then [a] else []);
    } else {
      Regroup(log, first, []);
      assert log + first + [] == log + first;
    }
  }

  lemma StepRecent(s: Store, e: Event, log: seq<Addr>)
    requires Kept(s) && Recent(s.cached, log)
    ensures Recent(Step(s, e).cached, log + Calls(s, e))
  {
    if e.Found? { FoundRecent(s, e.a, log); } else { ChangedRecent(s, e, log); }
  }

  function RunCalls(s: Store, es: seq<Event>): seq<Addr>
    decreases |es|
  {
    if es == [] then [] else Calls(s, es[0]) + RunCalls(Step(s, es[0]), es[1..])
  }

  /** Over every run the cache stays ordered by when each device was last cached, and within its bound. */
  lemma {:induction false} RunRecent(s: Store, es: seq<Event>, log: seq<Addr>)
    requires Kept(s) && Recent(s.cached, log) && NoRepairs(s, es)
    ensures Recent(Run(s, es).cached, log + RunCalls(s, es)) && |Run(s, es).cached| <= CACHE_MAX
    decreases |es|
  {
    if es == [] {
      assert log + [] == log;
    } else {
      var s1, calls := Step(s, es[0]), Calls(s, es[0]);
      StepKept(s, es[0]);
      StepRecent(s, es[0], log);
      RunRecent(s1, es[1..], log + calls);
      Regroup(log, calls, RunCalls(s1, es[1..]));
    }
  }

  // ----- the adapter -----

  class Adapter {
    var bonded: seq<Addr>
    var cached: seq<Addr>
    var devices: map<Addr, Device>
    var devicesFile: set<Addr>
    var cacheFile: set<Addr>

    function View(): Store
      reads this
    {
      Store(bonded, cached, devices, devicesFile, cacheFile)
    }

    constructor (s: Store)
      ensures View() == s
    {
      bonded, cached, devices := s.bonded, s.cached, s.devices;
      devicesFile, cacheFile := s.devicesFile, s.cacheFile;
    }

    /** find_device. */
    method FindDevice(a: Addr) returns (found: bool)
      ensures found == Known(View(), a)
    {
      found := a in bonded;
      if !found { found := a in cached; }
    }

    /** cache_device. */
    method CacheDevice(a: Addr)
      modifies this
      ensures View() == Cache(old(View()), a)
    {
      if a in cached {
        cached := RemoveFirst(cached, a);
      } else if |cached| >= CACHE_MAX {
        var dev := cached[|cached| - 1];
        cached := RemoveFirst(cached, dev);
        cacheFile := cacheFile - {dev};
        devices := devices - {dev};
      }
      cached := [a] + cached;
      cacheFile := cacheFile + {a};
      assert cacheFile == old(cacheFile) - Evicted(old(cached), a) + {a};
    }

    /** get_device. */
    method GetDevice(a: Addr)
      modifies this
      ensures View() == Get(old(View()), a)
    {
      var found := FindDevice(a);
      if found { return; }
      devices := devices[a := NewDevice];
      CacheDevice(a);
    }

    /** update_bredr_state (`le` false) and update_le_state (`le` true). */
    method UpdateState(a: Addr, le: bool, pairing: bool, paired: bool, isBonded: bool)
      requires a in devices
      modifies this
      ensures View() == Update(old(View()), a, le, pairing, paired, isBonded)
    {
      var dev := devices[a];
      var (wasPaired, wasBonded) := Mine(dev, le);
      if pairing == dev.pairing && paired == wasPaired && isBonded == wasBonded { return; }
      var keep := (pairing && wasPaired) || (!pairing && !paired && dev.pairing && wasPaired);
      if !keep {
        if paired && !Other(dev, le) {
          cached := RemoveFirst(cached, a);
          bonded := [a] + bonded;
          cacheFile := cacheFile - {a};
          devicesFile := devicesFile + {a};
        } else if !paired && !Other(dev, le) {
          bonded := RemoveFirst(bonded, a);
          devicesFile := devicesFile - {a};
          CacheDevice(a);
        }
        dev := WithMine(dev, le, paired, isBonded);
      }
      devices := devices[a := dev.(pairing := pairing)];
    }

    /** update_found_device. */
    method UpdateFoundDevice(a: Addr)
      modifies this
      ensures View() == Step(old(View()), Found(a))
    {
      GetDevice(a);
      if a in devices && !devices[a].Paired() { CacheDevice(a); }
    }

    /** The callbacks that report a pairing state. */
    method DeviceStateEvent(a: Addr, le: bool, pairing: bool, paired: bool, isBonded: bool, create: bool)
      modifies this
      ensures View() == Step(old(View()), Changed(a, le, pairing, paired, isBonded, create))
    {
      if create { GetDevice(a); }
      var found := FindDevice(a);
      if found && a in devices { UpdateState(a, le, pairing, paired, isBonded); }
    }
  }
}
