/** Registering and unregistering local SEPs, and the life of a session. */
module AvdtpRegistry {
  import opened Prelude
  import opened AvdtpObjects
  import opened AvdtpRuns
  import opened AvdtpEngine
  import Q = AvdtpRequests

  const MAX_SEID := 0x3E

  /** avdtp_register_sep: the SEID comes from the length of the list. */
  method RegisterSep(e: Engine, sink: bool, confirms: bool) returns (sep: LocalSep?)
    requires e.Valid()
    modifies e`lseps, e`world, e`history
    ensures e.Valid() && (sep == null <==> |old(e.lseps)| > MAX_SEID)
    ensures sep == null ==> e.world == old(e.world)
    ensures sep != null ==> fresh(sep) && sep.seid == |old(e.lseps)| + 1 && sep.sink == sink && sep.confirms == confirms
    ensures sep != null ==> e.world == Register(old(e.world), sep) && e.lseps == old(e.lseps) + [sep]
  {
    if |e.lseps| > MAX_SEID { return null; }
    var p := new LocalSep(|e.lseps| + 1, sink, confirms);
    ghost var w := Register(e.world, p);
    Extends(e.history, e.world, Registered(p));
    e.history := e.history.Then(w, Registered(p));
    e.world := w;
    e.lseps := e.lseps + [p];
    return p;
  }

  /** Takes `sep` out of the list of registered SEPs. */
  method UnlistSep(e: Engine, sep: LocalSep)
    requires e.Valid()
    modifies e`lseps, e`world, e`history
    ensures e.Valid() && e.world == Unlist(old(e.world), sep)
  {
    ghost var w := Unlist(e.world, sep);
    Extends(e.history, e.world, Unlisted(sep));
    e.history := e.history.Then(w, Unlisted(sep));
    e.world := w;
    e.lseps := Without<LocalSep>(e.lseps, {sep});
  }

  /** release_stream, for the stream of a SEP. */
  method ReleaseSep(e: Engine, sep: LocalSep)
    requires e.Valid() && sep in e.world.seps && sep.stream != null
    modifies e`world, e`history, e.world.links.Keys, sep,
             sep.stream`io, sep.stream`watch, sep.stream`timer, sep.stream`startTimer
    ensures e.Valid() && CanDetach(old(e.world), old(sep.stream))
    ensures e.world == Detach(old(e.world), old(sep.stream))
    ensures sep.stream == null && old(sep.stream).Quiet()
  {
    LiveSep(e.history, e.world, sep);
    e.SetIdle(sep.stream.session, sep, sep.stream);
  }

  /** The memory of `sep` is freed. */
  method ForgetSep(e: Engine, sep: LocalSep)
    requires e.Valid() && sep in e.world.seps && sep !in e.lseps && sep.stream == null
    modifies e`world, e`history
    ensures e.Valid() && e.world == Forget(old(e.world), sep)
  {
    ghost var w := Forget(e.world, sep);
    Extends(e.history, e.world, Forgotten(sep));
    e.history := e.history.Then(w, Forgotten(sep));
    e.world := w;
  }

  /** avdtp_unregister_sep: the SEP leaves the list first, then its stream is released, then it goes. */
  method UnregisterSep(e: Engine, sep: LocalSep) returns (ghost w1: World, ghost w2: World)
    requires e.Valid() && sep in e.world.seps
    modifies e`lseps, e`world, e`history, e.world.links.Keys, sep
    modifies if sep.stream == null then {} else {sep.stream}
    ensures e.Valid() && w1 == Unlist(old(e.world), sep)
    ensures old(sep.stream) != null ==> CanDetach(w1, old(sep.stream)) && old(sep.stream).Quiet()
    ensures w2 == if old(sep.stream) == null then w1 else Detach(w1, old(sep.stream))
    ensures e.world == Forget(w2, sep)
  {
    UnlistSep(e, sep);
    w1 := e.world;
    if sep.stream != null { ReleaseSep(e, sep); }
    w2 := e.world;
    ForgetSep(e, sep);
  }

  // ----- SEIDs -----

  /** SEIDs are positions in the list, from 1. */
  ghost predicate Dense(lseps: seq<LocalSep>) {
    forall i | 0 <= i < |lseps| :: lseps[i].seid == i + 1
  }

  ghost predicate UniqueSeids(lseps: seq<LocalSep>) {
    forall i, j | 0 <= i < j < |lseps| :: lseps[i].seid != lseps[j].seid
  }

  lemma {:induction false} WithoutOne<T>(s: seq<T>, k: nat)
    requires k < |s| && NoDup(s)
    ensures Without(s, {s[k]}) == s[..k] + s[k + 1..]
  {
    if k == 0 {
      WithoutNothing(s[1..], {s[0]});
      assert Without(s, {s[0]}) == Without(s[1..], {s[0]});
    } else {
      assert NoDup(s[1..]) && s[1..][k - 1] == s[k] && s[0] != s[k];
      WithoutOne(s[1..], k - 1);
      assert s[..k] + s[k + 1..] == [s[0]] + (s[1..][..k - 1] + s[1..][k..]);
    }
  }

  /** As long as only the last SEP is unregistered, every SEID finds the SEP at its position. */
  lemma DenseLookup(lseps: seq<LocalSep>, seid: nat)
    requires Dense(lseps)
    ensures BySeid(lseps, seid) == if 1 <= seid <= |lseps| then lseps[seid - 1] else null
    ensures UniqueSeids(lseps)
  {
    if 1 <= seid <= |lseps| { assert lseps[seid - 1] in lseps; }
    var r := BySeid(lseps, seid);
    if r != null {
      var i :| 0 <= i < |lseps| && lseps[i] == r;
    }
  }

  /** A SEID is handed out twice exactly when the SEP that was unregistered before was not the last one. */
  lemma SeidReuse(lseps: seq<LocalSep>, k: nat, next: LocalSep)
    requires NoDup(lseps) && Dense(lseps) && k < |lseps|
    requires next.seid == |Without(lseps, {lseps[k]})| + 1
    ensures UniqueSeids(Without(lseps, {lseps[k]}) + [next]) <==> k == |lseps| - 1
    ensures Dense(Without(lseps, {lseps[k]}) + [next]) <==> k == |lseps| - 1
  {
    WithoutOne(lseps, k);
    var rest := lseps[..k] + lseps[k + 1..];
    if k < |lseps| - 1 {
      assert (rest + [next])[|rest| - 1] == lseps[|lseps| - 1];
      assert (rest + [next])[|rest|] == next;
    } else {
      assert rest == lseps[..k];
    }
  }

  // ----- sessions -----

  /** avdtp_new. */
  method NewSession(e: Engine, version: nat) returns (s: Session)
    requires e.Valid()
    modifies e`world, e`history
    ensures e.Valid() && fresh(s) && s.version == version && e.world == OpenSession(old(e.world), s)
    ensures s.streams == [] && s.pendingOpen == null && s.req == None && s.prioQueue == [] && s.reqQueue == []
  {
    s := new Session(version);
    ghost var w := OpenSession(e.world, s);
    Extends(e.history, e.world, Opened(s));
    e.history := e.history.Then(w, Opened(s));
    e.world := w;
  }

  /** The SEPs while avdtp_free walks the streams: those of `gone` have lost theirs, but kept their state. */
  ghost predicate Stripped(seps: map<LocalSep, SepView>, gone: set<Stream>)
    reads seps.Keys
  {
    forall p | p in seps ::
      SepView(p.state, p.stream, p.inuse) ==
      if seps[p].stream in gone then SepView(seps[p].state, null, false) else seps[p]
  }

  lemma OnlySep(h: History, w: World, stream: Stream)
    requires Leads(h, w)
    ensures forall p | p in w.seps && w.seps[p].stream == stream :: p == stream.lsep
  {
    HistorySound(h, w);
    forall p | p in w.seps && w.seps[p].stream == stream
      ensures p == stream.lsep
    {
      assert SepOk(w, p);
    }
  }

  /** stream_free on one stream of the session. */
  method StripOne(e: Engine, stream: Stream, ghost h: History, ghost w: World, ghost gone: set<Stream>)
    requires Leads(h, w) && stream.session in w.links && stream in w.Streams(stream.session) && stream !in gone
    requires Stripped(w.seps, gone)
    modifies stream.lsep`stream, stream.lsep`inuse, stream
    ensures Stripped(w.seps, gone + {stream})
  {
    OnlySep(h, w, stream);
    LiveStream(h, w, stream.session, stream);
    e.StreamFree(stream);
  }

  /** avdtp_free: the streams go without the move to IDLE. */
  method FreeStreams(e: Engine, s: Session)
    requires e.Valid() && s in e.world.links
    modifies e.world.seps.Keys, s.streams
    ensures Stripped(old(e.world).seps, AllStreams(old(e.world), s))
  {
    LiveLink(e.history, e.world, s);
    var list := s.streams;
    ghost var gone: set<Stream> := {};
    var i := 0;
    while i < |list|
      invariant i <= |list| && gone == Elements(list[..i])
      invariant Stripped(e.world.seps, gone)
    {
      ElementsOneMore(list, i);
      LiveStream(e.history, e.world, s, list[i]);
      StripOne(e, list[i], e.history, e.world, gone);
      gone := gone + {list[i]};
      i := i + 1;
    }
    assert list[..i] == list;
  }

  /** pending_req_free on the outstanding request and on both queues. */
  method FreeRequests(s: Session, ghost l: Link)
    requires s.Holds(l)
    modifies s`streams, s`req, s`prioQueue, s`reqQueue
    ensures s.Holds(l.(streams := [], reqStream := null, queues := Q.FreeAll(l.queues)))
  {
    s.streams, s.req := [], None;
    s.prioQueue, s.reqQueue := [], [];
  }

  /** What a session accepted is freed with it, if it was not freed before. */
  lemma FreesEveryRequest(h: History, w: World, s: Session)
    requires Leads(h, w) && s in w.links
    ensures var q := Q.FreeAll(w.links[s].queues); q.freed == q.Accepted() && q.out.None? && !q.Waiting()
  {
    HistorySound(h, w);
    Q.FreeAllFrees(w.links[s].queues);
  }

  /**
    avdtp_free: the SEPs of streams the session still has are released but keep their state, so the
    pointers agree afterwards exactly if those SEPs are IDLE. Every request of the session is freed.
   */
  method DestroySession(e: Engine, s: Session)
    requires e.Valid() && s in e.world.links
    modifies e`world, e`history, e.world.seps.Keys, s.streams, s`streams, s`req, s`prioQueue, s`reqQueue
    ensures e.Tied() && e.world == FreeSession(old(e.world), s)
    ensures old(CanFree(e.world, s)) ==> e.Valid()
    ensures Agree(e.world) <==> old(CanFree(e.world, s))
    ensures var l := old(e.world).links[s];
            && s.Holds(l.(streams := [], reqStream := null, queues := Q.FreeAll(l.queues)))
            && Q.FreeAll(l.queues).freed == l.queues.Accepted()
  {
    FreesEveryRequest(e.history, e.world, s);
    ghost var w := e.world;
    FreeStreams(e, s);
    FreeRequests(s, w.links[s]);
    ForgetSession(e, s);
    RecordFreed(e, w, s);
  }

  /** The session is no longer one of those of the world. */
  ghost method ForgetSession(e: Engine, s: Session)
    requires s in e.world.links && e.lseps == e.world.lseps && Stripped(e.world.seps, AllStreams(e.world, s))
    requires forall o | o in e.world.links && o != s :: o.Holds(e.world.links[o])
    modifies e`world
    ensures e.Tied() && e.world == FreeSession(old(e.world), s)
  {
    e.world := FreeSession(e.world, s);
  }

  /** That is a change like the others exactly if the pointers agree. */
  ghost method RecordFreed(e: Engine, w: World, s: Session)
    requires Leads(e.history, w) && s in w.links
    modifies e`history
    ensures CanFree(w, s) ==> Leads(e.history, FreeSession(w, s))
    ensures Agree(FreeSession(w, s)) <==> CanFree(w, s)
  {
    HistorySound(e.history, w);
    FreeSessionOutcome(w, s);
    if CanFree(w, s) {
      Extends(e.history, w, Freed(s));
      e.history := e.history.Then(FreeSession(w, s), Freed(s));
    }
  }

  lemma FreeSessionOutcome(w: World, s: Session)
    requires Agree(w) && s in w.links
    ensures Agree(FreeSession(w, s)) <==> CanFree(w, s)
  {
    FreeSessionOwned(w, s);
    forall st | st in w.Streams(s)
      ensures st.lsep in w.seps
    {
      OwnerOf(w, s, st);
    }
  }
}
