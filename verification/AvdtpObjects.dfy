/**
  AVDTP sessions, their streams, and the local stream end points (SEPs) all sessions share.

  These objects point at each other: a SEP at its stream, a session at its streams. `World` is
  the value of these pointers, `Owned` says how they must agree, and `Change` is every way in
  which they change.
*/
module AvdtpObjects {
  import opened Prelude
  import Q = AvdtpRequests

  datatype SepState = Idle | Configured | Open | Streaming | Closing | Aborting

  /** The position of a state in the source's enumeration, by which it compares states. */
  function Rank(s: SepState): nat {
    match s case Idle => 0 case Configured => 1 case Open => 2 case Streaming => 3 case Closing => 4 case Aborting => 5
  }

  /** The states in which a SEP carries media, or is ready to. */
  predicate Carries(state: SepState) {
    state == Open || state == Streaming
  }

  datatype Signal =
    | Discover | GetCapabilities | GetAllCapabilities | SetConfiguration | GetConfiguration | Reconfigure
    | OpenStream | Start | Close | Suspend | Abort | DelayReport

  class LocalSep {
    const seid: nat
    const sink: bool
    const confirms: bool    // the upper layer has confirmation callbacks
    var state: SepState
    var stream: Stream?
    var inuse: bool

    constructor (seid: nat, sink: bool, confirms: bool)
      ensures this.seid == seid && this.sink == sink && this.confirms == confirms
      ensures state == Idle && stream == null && !inuse
    {
      this.seid, this.sink, this.confirms := seid, sink, confirms;
      state, stream, inuse := Idle, null, false;
    }
  }

  class Stream {
    const session: Session
    const lsep: LocalSep
    const rseid: nat
    const delayReporting: bool
    var io: bool           // holds a transport channel
    var watch: bool        // and watches it
    var timer: bool        // waiting for the peer to open or close the channel
    var startTimer: bool
    var delay: nat
    var openAcp: bool
    var closeInt: bool
    var abortInt: bool
    var starting: bool

    constructor (session: Session, lsep: LocalSep, rseid: nat, delayReporting: bool)
      ensures this.session == session && this.lsep == lsep && this.rseid == rseid
      ensures this.delayReporting == delayReporting
      ensures !io && !watch && !timer && !startTimer && !openAcp && !closeInt && !abortInt && !starting
    {
      this.session, this.lsep, this.rseid, this.delayReporting := session, lsep, rseid, delayReporting;
      io, watch, timer, startTimer, delay := false, false, false, false, 0;
      openAcp, closeInt, abortInt, starting := false, false, false, false;
    }

    /** The stream has no channel, and no event source that could still fire. */
    ghost predicate Quiet()
      reads this
    {
      !io && !watch && !timer && !startTimer
    }
  }

  class PendingReq {
    const signal: Signal
    const seid: nat         // remote SEID at the head of the request, 0 for Discover
    const target: Stream?   // the stream it was made for, if any

    constructor (signal: Signal, seid: nat, target: Stream?)
      ensures this.signal == signal && this.seid == seid && this.target == target
    {
      this.signal, this.seid, this.target := signal, seid, target;
    }
  }

  /** The fields of a request that it gets when it goes out; `stream` is its target until that goes away. */
  datatype Outstanding = Outstanding(r: PendingReq, stream: Stream?, transaction: nat, timeout: bool, collided: bool)

  class Session {
    var version: nat
    var streams: seq<Stream>
    var pendingOpen: Stream?
    var req: Option<Outstanding>
    var prioQueue: seq<PendingReq>
    var reqQueue: seq<PendingReq>

    constructor (version: nat)
      ensures this.version == version && Holds(NewLink)
    {
      this.version, streams, pendingOpen := version, [], null;
      req, prioQueue, reqQueue := None, [], [];
    }

    /** The stream of the outstanding request, if there is one. */
    function ReqStream(): Stream?
      reads this
    {
      match req
      case None => null
      case Some(o) => o.stream
    }

    /** `l` is what this session holds. */
    ghost predicate Holds(l: Link)
      reads this
    {
      && streams == l.streams && pendingOpen == l.pendingOpen && ReqStream() == l.reqStream
      && l.queues.out == (match req case None => None case Some(o) => Some(o.r))
      && prioQueue == l.queues.prio.waiting && reqQueue == l.queues.normal.waiting
    }
  }

  // ----- who points at what -----

  /** What a session holds: its streams, and everything that points at a stream. */
  datatype Link = Link(streams: seq<Stream>, pendingOpen: Stream?, reqStream: Stream?, queues: Q.Queues<PendingReq>)

  const NewLink := Link([], null, null, Q.Empty())

  /**
    Nothing session `s` holds points at a stream of its own that it no longer has. `pendingOpen` can be
    a stream of another session, which `s` does not follow.
   */
  ghost predicate NoDangling(s: Session, l: Link) {
    && (l.pendingOpen == null || l.pendingOpen.session != s || l.pendingOpen in l.streams)
    && (l.reqStream == null || (l.queues.out.Some? && l.reqStream in l.streams))
    && (forall r | r in l.queues.prio.waiting :: r.target == null || r.target in l.streams)
    && (forall r | r in l.queues.normal.waiting :: r.target == null || r.target in l.streams)
  }

  datatype SepView = SepView(state: SepState, stream: Stream?, inuse: bool)

  const FreeSep := SepView(Idle, null, false)

  /** The registered SEPs, the live sessions, the allocated SEPs, and the streams freed so far. */
  datatype World = World(lseps: seq<LocalSep>, links: map<Session, Link>, seps: map<LocalSep, SepView>,
                         freed: set<Stream>)
  {
    function Streams(s: Session): seq<Stream>
      requires s in links
    {
      links[s].streams
    }
  }

  /**
    A SEP is in use iff it has a stream iff that stream is listed, once, by exactly one session
    and points back to the SEP; a SEP without stream is IDLE; a listed stream is not freed.
   */
  ghost predicate Owned(w: World) {
    && NoDup(w.lseps) && (forall p | p in w.lseps :: p in w.seps)
    && (forall s | s in w.links :: NoDup(w.Streams(s)))
    && (forall s, st | s in w.links && st in w.Streams(s) ::
          st.session == s && st.lsep in w.seps && w.seps[st.lsep].stream == st && st !in w.freed)
    && (forall p | p in w.seps :: SepOk(w, p))
  }

  ghost predicate SepOk(w: World, p: LocalSep)
    requires p in w.seps
  {
    var v := w.seps[p];
    && (v.inuse <==> v.stream != null)
    && (v.stream == null ==> v.state == Idle)
    && (v.stream != null ==>
          v.stream.lsep == p && v.stream.session in w.links && v.stream in w.Streams(v.stream.session))
  }

  ghost predicate Linked(w: World) {
    forall s | s in w.links :: NoDangling(s, w.links[s])
  }

  /** The pointers of all objects agree. */
  ghost predicate Agree(w: World) {
    Owned(w) && Linked(w)
  }

  /** find_stream_by_rseid: the first stream to that remote SEP. */
  function ByRseid(streams: seq<Stream>, rseid: nat): (r: Stream?)
    ensures r == null <==> forall st | st in streams :: st.rseid != rseid
    ensures r != null ==> r in streams && r.rseid == rseid
  {
    if streams == [] then null else if streams[0].rseid == rseid then streams[0] else ByRseid(streams[1..], rseid)
  }

  /** find_local_sep_by_seid: the first registered SEP with that SEID. */
  function BySeid(lseps: seq<LocalSep>, seid: nat): (r: LocalSep?)
    ensures r == null <==> forall p | p in lseps :: p.seid != seid
    ensures r != null ==> r in lseps && r.seid == seid
  {
    if lseps == [] then null else if lseps[0].seid == seid then lseps[0] else BySeid(lseps[1..], seid)
  }

  /** Either finds the first match. */
  lemma {:induction false} FirstByRseid(streams: seq<Stream>, i: nat)
    requires i < |streams| && forall j | 0 <= j < i :: streams[j].rseid != streams[i].rseid
    ensures ByRseid(streams, streams[i].rseid) == streams[i]
  {
    if i > 0 { FirstByRseid(streams[1..], i - 1); }
  }

  lemma {:induction false} FirstBySeid(lseps: seq<LocalSep>, i: nat)
    requires i < |lseps| && forall j | 0 <= j < i :: lseps[j].seid != lseps[i].seid
    ensures BySeid(lseps, lseps[i].seid) == lseps[i]
  {
    if i > 0 { FirstBySeid(lseps[1..], i - 1); }
  }

  // ----- how the pointers change -----

  ghost predicate Placed(w: World, st: Stream) {
    st.session in w.links && st.lsep in w.seps
  }

  ghost predicate CanAttach(w: World, st: Stream) {
    Placed(w, st) && w.seps[st.lsep].stream == null && st !in w.freed
  }

  /** A new stream enters its session and its SEP. */
  ghost function Attach(w: World, st: Stream): World
    requires Placed(w, st)
  {
    var l := w.links[st.session];
    w.(links := w.links[st.session := l.(streams := l.streams + [st])],
       seps := w.seps[st.lsep := SepView(w.seps[st.lsep].state, st, true)])
  }

  /** A SEP that has a stream changes state. */
  ghost function Move(w: World, p: LocalSep, state: SepState): World
    requires p in w.seps
  {
    w.(seps := w.seps[p := w.seps[p].(state := state)])
  }

  ghost predicate CanDetach(w: World, st: Stream) {
    st.session in w.links && st in w.Streams(st.session) && st.lsep in w.seps
  }

  /** A stream is freed: its SEP goes IDLE, and what pointed at the stream is cleaned. */
  ghost function Detach(w: World, st: Stream): World
    requires CanDetach(w, st)
  {
    w.(links := w.links[st.session := Drop(w.links[st.session], st)],
       seps := w.seps[st.lsep := FreeSep], freed := w.freed + {st})
  }

  /** The state change, what the session does, and stream_free. */
  lemma DetachInSteps(w: World, st: Stream)
    requires CanDetach(w, st)
    ensures var w1 := Move(w, st.lsep, Idle);
            var w2 := Relink(w1, st.session, Drop(w1.links[st.session], st));
            w2.(seps := w2.seps[st.lsep := FreeSep], freed := w2.freed + {st}) == Detach(w, st)
  {
    assert w.seps[st.lsep := w.seps[st.lsep].(state := Idle)][st.lsep := FreeSep] == w.seps[st.lsep := FreeSep];
  }

  /** What a session holds after `st` was freed: first `pendingOpen`, then the outstanding request, then the queues. */
  ghost function Drop(l: Link, st: Stream): Link {
    Clean(Unanswered(if l.pendingOpen == st then l.(pendingOpen := null) else l, st), st)
  }

  /** An outstanding request for `st` is freed; an Abort stays and loses its stream. */
  ghost function Unanswered(l: Link, st: Stream): Link {
    if l.queues.out.None? || l.reqStream != st then l
    else if l.queues.out.value.signal == Abort then l.(reqStream := null)
    else Finish(l)
  }

  ghost function Clean(l: Link, st: Stream): Link {
    l.(streams := Without(l.streams, {st}), queues := Q.Cleanup(l.queues, Waiters(l, st)))
  }

  /** The queued requests for `st`. */
  ghost function Waiters(l: Link, st: Stream): set<PendingReq> {
    (set r | r in l.queues.prio.waiting && r.target == st) + (set r | r in l.queues.normal.waiting && r.target == st)
  }

  /** The outstanding request is freed. */
  ghost function Finish(l: Link): Link {
    l.(queues := Q.Release(l.queues), reqStream := null)
  }

  ghost function Submit(l: Link, r: PendingReq, priority: bool, ok: bool): Link {
    l.(queues := Q.Submit(l.queues, r, priority, ok),
       reqStream := if l.queues.out.None? && ok then r.target else l.reqStream)
  }

  /** Requests of no stream queue up behind an outstanding one, ahead of the normal ones. */
  ghost function Asked(l: Link, rs: seq<PendingReq>): Link {
    var p := l.queues.prio;
    l.(queues := l.queues.(prio := Q.Lane(p.waiting + rs, p.accepted + rs, p.sent)))
  }

  lemma AskedOneMore(l: Link, rs: seq<PendingReq>, r: PendingReq, ok: bool)
    requires l.queues.out.Some?
    ensures Submit(Asked(l, rs), r, true, ok) == Asked(l, rs + [r])
  {
    var p := l.queues.prio;
    assert p.waiting + rs + [r] == p.waiting + (rs + [r]) && p.accepted + rs + [r] == p.accepted + (rs + [r]);
  }

  lemma AskedNone(l: Link)
    ensures Asked(l, []) == l
  {
    var p := l.queues.prio;
    assert p.waiting + [] == p.waiting && p.accepted + [] == p.accepted;
  }

  ghost function Process(l: Link, ok: bool): Link {
    var q := Q.Process(l.queues, ok);
    l.(queues := q, reqStream := if l.queues.out.None? && q.out.Some? then q.out.value.target else l.reqStream)
  }

  /** A request that could not be transmitted leaves no trace. */
  lemma RefusedSubmit(w: World, s: Session, r: PendingReq, priority: bool)
    requires s in w.links && w.links[s].queues.out.None?
    ensures Relink(w, s, Submit(w.links[s], r, priority, false)) == w
  {
    assert Submit(w.links[s], r, priority, false) == w.links[s];
    assert w.links[s := w.links[s]] == w.links;
  }

  ghost function Relink(w: World, s: Session, l: Link): World
    requires s in w.links
  {
    w.(links := w.links[s := l])
  }

  /** stream_free on a stream that never was, or no longer is, in its SEP: the SEP is emptied all the same. */
  ghost function Vacate(w: World, p: LocalSep): World
    requires p in w.seps
  {
    w.(seps := w.seps[p := SepView(w.seps[p].state, null, false)])
  }

  /** `pendingOpen` is set or cleared. */
  ghost function SetOpening(w: World, s: Session, pending: Stream?): World
    requires s in w.links
  {
    Relink(w, s, w.links[s].(pendingOpen := pending))
  }

  ghost function Register(w: World, p: LocalSep): World {
    w.(lseps := w.lseps + [p], seps := w.seps[p := FreeSep])
  }

  /** avdtp_unregister_sep takes the SEP out of the list, and frees it in the end. */
  ghost function Unlist(w: World, p: LocalSep): World {
    w.(lseps := Without(w.lseps, {p}))
  }

  ghost function Forget(w: World, p: LocalSep): World {
    w.(seps := w.seps - {p})
  }

  ghost function OpenSession(w: World, s: Session): World {
    w.(links := w.links[s := NewLink])
  }

  /** avdtp_free: stream_free on each stream; the SEPs lose their stream, but not their state. */
  ghost function FreeSession(w: World, s: Session): World
    requires s in w.links
  {
    var gone := set st | st in w.Streams(s);
    w.(links := w.links - {s},
       seps := map p | p in w.seps :: if w.seps[p].stream in gone then SepView(w.seps[p].state, null, false)
                                      else w.seps[p],
       freed := w.freed + gone)
  }

  // ----- ownership -----

  /** Ownership does not depend on requests, on `pendingOpen` or on the state of a SEP with a stream. */
  lemma SameOwnership(w: World, w': World)
    requires Owned(w) && w'.lseps == w.lseps && w'.freed == w.freed
    requires w'.links.Keys == w.links.Keys && w'.seps.Keys == w.seps.Keys
    requires forall s | s in w.links :: w'.Streams(s) == w.Streams(s)
    requires forall p | p in w.seps ::
               w'.seps[p].stream == w.seps[p].stream && w'.seps[p].inuse == w.seps[p].inuse
               && (w.seps[p].stream == null ==> w'.seps[p].state == w.seps[p].state)
    ensures Owned(w')
  {
    forall p | p in w'.seps
      ensures SepOk(w', p)
    {
      assert SepOk(w, p);
    }
  }

  lemma AttachOwned(w: World, st: Stream)
    requires Owned(w) && CanAttach(w, st)
    ensures Owned(Attach(w, st))
  {
    var w' := Attach(w, st);
    assert st !in w.Streams(st.session);
    forall p | p in w'.seps
      ensures SepOk(w', p)
    {
      assert p in w.seps && SepOk(w, p);
    }
  }

  /** `w'` is what owns what in `w` after `st` was freed, whatever became of the requests. */
  ghost predicate StreamLeft(w: World, w': World, st: Stream)
    requires CanDetach(w, st)
  {
    && w'.lseps == w.lseps && w'.seps == w.seps[st.lsep := FreeSep] && w'.freed == w.freed + {st}
    && w'.links.Keys == w.links.Keys
    && forall s | s in w.links :: w'.Streams(s) == if s == st.session then Without(w.Streams(s), {st}) else w.Streams(s)
  }

  lemma DetachedSep(w: World, w': World, st: Stream, p: LocalSep)
    requires Owned(w) && CanDetach(w, st) && StreamLeft(w, w', st) && p in w.seps
    ensures SepOk(w', p)
  {
    assert SepOk(w, p);
    var v := w.seps[p];
    if v.stream != null && p != st.lsep {
      assert v.stream != st && v.stream in w'.Streams(v.stream.session);
    }
  }

  lemma DetachedStream(w: World, w': World, st: Stream, s: Session, o: Stream)
    requires Owned(w) && CanDetach(w, st) && StreamLeft(w, w', st) && s in w.links && o in w'.Streams(s)
    ensures o.session == s && o.lsep in w'.seps && w'.seps[o.lsep].stream == o && o !in w'.freed
  {
    assert o in w.Streams(s);
    assert o != st;
  }

  lemma LeftOwned(w: World, w': World, st: Stream)
    requires Owned(w) && CanDetach(w, st) && StreamLeft(w, w', st)
    ensures Owned(w')
  {
    WithoutNoDup(w.Streams(st.session), {st});
    forall p | p in w'.seps
      ensures SepOk(w', p)
    {
      DetachedSep(w, w', st, p);
    }
    forall s, o | s in w'.links && o in w'.Streams(s)
      ensures o.session == s && o.lsep in w'.seps && w'.seps[o.lsep].stream == o && o !in w'.freed
    {
      DetachedStream(w, w', st, s, o);
    }
  }

  lemma DetachOwned(w: World, st: Stream)
    requires Owned(w) && CanDetach(w, st)
    ensures Owned(Detach(w, st))
  {
    DropFields(w.links[st.session], st);
    LeftOwned(w, Detach(w, st), st);
  }

  /** Freeing a session keeps ownership exactly if the SEPs of the streams it still has are IDLE. */
  lemma FreeSessionOwned(w: World, s: Session)
    requires Owned(w) && s in w.links
    ensures Owned(FreeSession(w, s)) <==> forall st | st in w.Streams(s) :: w.seps[st.lsep].state == Idle
  {
    var w' := FreeSession(w, s);
    if forall st | st in w.Streams(s) :: w.seps[st.lsep].state == Idle {
      forall o | o in w'.seps
        ensures SepOk(w', o)
      {
        assert SepOk(w, o);
      }
    } else {
      var st :| st in w.Streams(s) && w.seps[st.lsep].state != Idle;
      assert !SepOk(w', st.lsep);
    }
  }

  // ----- no dangling streams -----

  /** Freeing a stream leaves nothing behind that points at it. */
  lemma DropNoDangling(s: Session, l: Link, st: Stream)
    requires NoDangling(s, l)
    ensures NoDangling(s, Drop(l, st)) && Drop(l, st).pendingOpen != st && Drop(l, st).reqStream != st
    ensures forall r | r in Drop(l, st).queues.prio.waiting + Drop(l, st).queues.normal.waiting :: r.target != st
  {
    var l1 := Unanswered(if l.pendingOpen == st then l.(pendingOpen := null) else l, st);
    assert NoDangling(s, l1) && l1.pendingOpen != st && l1.reqStream != st;
    CleanNoDangling(s, l1, st);
  }

  lemma CleanNoDangling(s: Session, l: Link, st: Stream)
    requires NoDangling(s, l) && l.pendingOpen != st && l.reqStream != st
    ensures NoDangling(s, Clean(l, st))
    ensures forall r | r in Clean(l, st).queues.prio.waiting + Clean(l, st).queues.normal.waiting :: r.target != st
  {
  }

  /** What `before` becomes when the requests for `st` leave it: all others stay, in order. */
  ghost predicate LaneExact(before: Q.Lane<PendingReq>, after: Q.Lane<PendingReq>, st: Stream) {
    && (forall r | r in after.waiting :: r in before.waiting && r.target != st)
    && (forall r | r in before.waiting && r.target != st :: r in after.waiting)
    && Subsequence(after.waiting, before.waiting) && after.accepted == before.accepted && after.sent == before.sent
  }

  lemma ThinExact(lane: Q.Lane<PendingReq>, drop: set<PendingReq>, st: Stream)
    requires forall r | r in lane.waiting :: r in drop <==> r.target == st
    ensures LaneExact(lane, lane.Thin(drop), st)
  {
    WithoutIsSubsequence(lane.waiting, drop);
  }

  lemma UnansweredExact(l: Link, st: Stream)
    ensures var q := Unanswered(l, st).queues;
            && q.prio == l.queues.prio && q.normal == l.queues.normal
            && q.out == (if l.queues.out.Some? && l.reqStream == st && l.queues.out.value.signal != Abort then None
                         else l.queues.out)
  {
  }

  /**
    Exactly what a session loses with a stream: the stream, a pending open of it, the outstanding request if it
    is for the stream and no Abort - an Abort only loses the stream - and the queued requests for it. All
    else stays, in order.
   */
  lemma DropExact(l: Link, st: Stream)
    ensures var d := Drop(l, st);
            && d.streams == Without(l.streams, {st})
            && d.pendingOpen == (if l.pendingOpen == st then null else l.pendingOpen)
            && d.queues.out == (if l.queues.out.Some? && l.reqStream == st && l.queues.out.value.signal != Abort
                                then None else l.queues.out)
            && d.reqStream == (if l.queues.out.Some? && l.reqStream == st then null else l.reqStream)
            && LaneExact(l.queues.prio, d.queues.prio, st) && LaneExact(l.queues.normal, d.queues.normal, st)
  {
    DropFields(l, st);
    UnansweredExact(l, st);
    ThinExact(l.queues.prio, Waiters(l, st), st);
    ThinExact(l.queues.normal, Waiters(l, st), st);
  }

  lemma ProcessNoDangling(s: Session, l: Link, ok: bool)
    requires NoDangling(s, l)
    ensures NoDangling(s, Process(l, ok))
  {
  }

  lemma SubmitNoDangling(s: Session, l: Link, r: PendingReq, priority: bool, ok: bool)
    requires NoDangling(s, l) && (r.target == null || r.target in l.streams)
    ensures NoDangling(s, Submit(l, r, priority, ok))
  {
  }

  lemma AttachLinked(w: World, st: Stream)
    requires Linked(w) && Placed(w, st)
    ensures Linked(Attach(w, st))
  {
    var w' := Attach(w, st);
    forall s | s in w'.links
      ensures NoDangling(s, w'.links[s])
    {
      assert NoDangling(s, w.links[s]);
    }
  }

  // ----- both -----

  lemma DetachAgree(w: World, st: Stream)
    requires Agree(w) && CanDetach(w, st)
    ensures Agree(Detach(w, st))
  {
    DetachOwned(w, st);
    DropNoDangling(st.session, w.links[st.session], st);
  }

  lemma AttachAgree(w: World, st: Stream)
    requires Agree(w) && CanAttach(w, st)
    ensures Agree(Attach(w, st))
  {
    AttachOwned(w, st);
    AttachLinked(w, st);
  }

  /** A new stream may enter a SEP exactly if the SEP is free: two streams in one SEP do not agree. */
  lemma AttachNeedsFreeSep(w: World, st: Stream)
    requires Agree(w) && Placed(w, st) && st !in w.freed && st !in w.Streams(st.session)
    ensures Agree(Attach(w, st)) <==> w.seps[st.lsep].stream == null
  {
    var o := w.seps[st.lsep].stream;
    if o == null {
      AttachAgree(w, st);
    } else {
      assert SepOk(w, st.lsep);
      var w' := Attach(w, st);
      assert o in w'.Streams(o.session) && o.lsep == st.lsep && w'.seps[o.lsep].stream == st;
    }
  }

  /** stream_free on a stream that never entered its SEP takes the SEP from the one that is in it. */
  lemma VacateNeedsFreeSep(w: World, p: LocalSep)
    requires Agree(w) && p in w.seps
    ensures Agree(Vacate(w, p)) <==> w.seps[p].stream == null
    ensures w.seps[p].stream == null ==> Vacate(w, p) == w
  {
    assert SepOk(w, p);
    var o := w.seps[p].stream;
    if o == null {
      assert w.seps[p := w.seps[p]] == w.seps;
    } else {
      var w' := Vacate(w, p);
      assert o in w'.Streams(o.session) && o.lsep == p && w'.seps[p].stream == null;
    }
  }

  lemma MoveAgree(w: World, p: LocalSep, state: SepState)
    requires Agree(w) && p in w.seps && w.seps[p].stream != null
    ensures Agree(Move(w, p, state))
  {
    SameOwnership(w, Move(w, p, state));
  }

  /** A session changes what points at its streams, not the streams: it must not let anything dangle. */
  lemma RelinkAgree(w: World, s: Session, l: Link)
    requires Agree(w) && s in w.links && l.streams == w.Streams(s)
    ensures Agree(Relink(w, s, l)) <==> NoDangling(s, l)
  {
    SameOwnership(w, Relink(w, s, l));
    assert Relink(w, s, l).links[s] == l;
  }

  lemma SubmitAgree(w: World, s: Session, r: PendingReq, priority: bool, ok: bool)
    requires Agree(w) && s in w.links && (r.target == null || r.target in w.Streams(s))
    ensures Agree(Relink(w, s, Submit(w.links[s], r, priority, ok)))
  {
    SubmitNoDangling(s, w.links[s], r, priority, ok);
    RelinkAgree(w, s, Submit(w.links[s], r, priority, ok));
  }

  lemma ProcessAgree(w: World, s: Session, ok: bool)
    requires Agree(w) && s in w.links
    ensures Agree(Relink(w, s, Process(w.links[s], ok)))
  {
    ProcessNoDangling(s, w.links[s], ok);
    RelinkAgree(w, s, Process(w.links[s], ok));
  }

  lemma FinishAgree(w: World, s: Session)
    requires Agree(w) && s in w.links
    ensures Agree(Relink(w, s, Finish(w.links[s])))
  {
    assert NoDangling(s, w.links[s]);
    RelinkAgree(w, s, Finish(w.links[s]));
  }

  /** A session waits for a live stream, of any session, or for none. */
  ghost predicate CanOpen(w: World, s: Session, st: Stream?) {
    s in w.links && (st == null || (st.session in w.links && st in w.Streams(st.session)))
  }

  lemma SetOpeningAgree(w: World, s: Session, st: Stream?)
    requires Agree(w) && CanOpen(w, s, st)
    ensures Agree(SetOpening(w, s, st))
  {
    assert NoDangling(s, w.links[s]);
    RelinkAgree(w, s, w.links[s].(pendingOpen := st));
  }

  lemma DetachPending(w: World, st: Stream, s: Session)
    requires CanDetach(w, st) && s in w.links
    ensures Detach(w, st).links[s].pendingOpen ==
            if s == st.session && w.links[s].pendingOpen == st then null else w.links[s].pendingOpen
  {
    DropFields(w.links[s], st);
  }

  /**
    Every SEP is visible to every session, so an Open command can name the stream of another one. The
    session then waits for a stream it does not have, and still points at it after it was freed; a
    stream of its own it would have let go of.
   */
  lemma ForeignOpenDangles(w: World, s: Session, st: Stream)
    requires Agree(w) && CanOpen(w, s, st)
    ensures var w1 := SetOpening(w, s, st);
            && (w1.links[s].pendingOpen in w1.Streams(s) <==> st.session == s)
            && CanDetach(w1, st) && st in Detach(w1, st).freed
            && (Detach(w1, st).links[s].pendingOpen == st <==> st.session != s)
  {
    OwnerOf(w, st.session, st);
    DetachPending(SetOpening(w, s, st), st, s);
    assert st in w.Streams(s) ==> st.session == s;
  }

  /** The request that configures a stream is accepted first, and then the stream enters its session. */
  lemma SubmitThenAttach(w: World, st: Stream, r: PendingReq, ok: bool)
    requires Placed(w, st)
    ensures var w1 := Relink(w, st.session, Submit(w.links[st.session], r, false, ok));
            Placed(w1, st)
            && Attach(w1, st)
               == Relink(Attach(w, st), st.session, Submit(Attach(w, st).links[st.session], r, false, ok))
  {
    var s, l := st.session, w.links[st.session];
    var l1, l2 := l.(streams := l.streams + [st]), Submit(l, r, false, ok);
    assert Submit(l1, r, false, ok) == l2.(streams := l.streams + [st]);
    assert w.links[s := l2][s := l2.(streams := l.streams + [st])]
           == w.links[s := l1][s := l2.(streams := l.streams + [st])];
  }

  /** Whether a request for the new stream is submitted does not change whether the pointers agree. */
  lemma ConfiguredAgrees(w: World, st: Stream, r: PendingReq, ok: bool)
    requires Agree(w) && Placed(w, st) && st !in w.freed && st !in w.Streams(st.session) && r.target == st
    ensures var w1 := Relink(w, st.session, Submit(w.links[st.session], r, false, ok));
            Placed(w1, st) && (Agree(Attach(w1, st)) <==> w.seps[st.lsep].stream == null)
  {
    var w2 := Attach(w, st);
    var l := Submit(w2.links[st.session], r, false, ok);
    SubmitThenAttach(w, st, r, ok);
    AttachNeedsFreeSep(w, st);
    if Agree(w2) {
      SubmitAgree(w2, st.session, r, false, ok);
    } else {
      AttachLinked(w, st);
      assert !Owned(w2);
      if Owned(Relink(w2, st.session, l)) { SameOwnership(Relink(w2, st.session, l), w2); }
    }
  }

  lemma OpenSessionAgree(w: World, s: Session)
    requires Agree(w) && s !in w.links
    ensures Agree(OpenSession(w, s))
  {
    forall o | o in w.seps
      ensures SepOk(OpenSession(w, s), o)
    {
      assert SepOk(w, o);
    }
    assert NoDangling(s, NewLink);
  }

  lemma RegisterAgree(w: World, p: LocalSep)
    requires Agree(w) && p !in w.seps
    ensures Agree(Register(w, p))
  {
    forall o | o in w.seps
      ensures SepOk(Register(w, p), o)
    {
      assert SepOk(w, o);
    }
  }

  lemma UnlistAgree(w: World, p: LocalSep)
    requires Agree(w)
    ensures Agree(Unlist(w, p))
  {
    WithoutNoDup(w.lseps, {p});
    SameButList(w, Unlist(w, p));
  }

  lemma SameButList(w: World, w': World)
    requires Agree(w) && w'.links == w.links && w'.seps == w.seps && w'.freed == w.freed
    requires NoDup(w'.lseps) && forall p | p in w'.lseps :: p in w.lseps
    ensures Agree(w')
  {
    forall o | o in w.seps
      ensures SepOk(w', o)
    {
      assert SepOk(w, o);
    }
  }

  lemma ForgetAgree(w: World, p: LocalSep)
    requires Agree(w) && p in w.seps && p !in w.lseps && w.seps[p].stream == null
    ensures Agree(Forget(w, p))
  {
    forall o | o in w.seps - {p}
      ensures SepOk(Forget(w, p), o)
    {
      assert SepOk(w, o);
    }
  }

  lemma FreeSessionAgree(w: World, s: Session)
    requires Agree(w) && s in w.links
    requires forall st | st in w.Streams(s) :: st.lsep in w.seps && w.seps[st.lsep].state == Idle
    ensures Agree(FreeSession(w, s))
  {
    FreeSessionOwned(w, s);
  }

  // ----- transport channels -----

  ghost function StreamsIn(w: World): set<Stream> {
    set p | p in w.seps && w.seps[p].stream != null :: w.seps[p].stream
  }

  /** Every SEP that carries media, or is ready to, has a stream that holds a transport channel. */
  ghost predicate TransportSafe(w: World)
    reads StreamsIn(w)`io
  {
    forall p | p in w.seps && Carries(w.seps[p].state) :: w.seps[p].stream != null && w.seps[p].stream.io
  }

  lemma MoveStreams(w: World, p: LocalSep, state: SepState)
    requires p in w.seps
    ensures StreamsIn(Move(w, p, state)) == StreamsIn(w)
  {
    var w' := Move(w, p, state);
    assert forall o | o in w.seps :: w'.seps[o].stream == w.seps[o].stream;
  }

  // ----- losing a connection -----

  /** What a session holds after the streams of `gone` were freed, in whatever order. */
  ghost function DropMany(l: Link, gone: set<Stream>): Link {
    Link(Without(l.streams, gone),
         if l.pendingOpen in gone then null else l.pendingOpen,
         if Hit(l, gone) then null else l.reqStream,
         Q.Cleanup(Settled(l, gone), WaitersOf(l, gone)))
  }

  ghost predicate Hit(l: Link, gone: set<Stream>) {
    l.queues.out.Some? && l.reqStream in gone
  }

  /** An outstanding request for one of these streams is freed, unless it is an Abort. */
  ghost function Settled(l: Link, gone: set<Stream>): Q.Queues<PendingReq> {
    if Hit(l, gone) && l.queues.out.value.signal != Abort then Q.Release(l.queues) else l.queues
  }

  ghost function WaitersOf(l: Link, gone: set<Stream>): set<PendingReq> {
    (set r | r in l.queues.prio.waiting && r.target in gone)
    + (set r | r in l.queues.normal.waiting && r.target in gone)
  }

  lemma CleanupTwice(q: Q.Queues<PendingReq>, a: set<PendingReq>, b: set<PendingReq>)
    ensures Q.Cleanup(Q.Cleanup(q, a), b) == Q.Cleanup(q, a + b)
  {
    WithoutTwice(q.prio.waiting, a, b);
    WithoutTwice(q.normal.waiting, a, b);
    assert q.freed + Dropped(q.prio.waiting, a) + Dropped(q.normal.waiting, a)
           + Dropped(Without(q.prio.waiting, a), b) + Dropped(Without(q.normal.waiting, a), b)
           == q.freed + (Dropped(q.prio.waiting, a) + Dropped(Without(q.prio.waiting, a), b))
              + (Dropped(q.normal.waiting, a) + Dropped(Without(q.normal.waiting, a), b));
  }

  lemma CleanupNothing(q: Q.Queues<PendingReq>)
    ensures Q.Cleanup(q, {}) == q
  {
    WithoutNothing(q.prio.waiting, {});
    WithoutNothing(q.normal.waiting, {});
    DroppedNothing(q.prio.waiting, {});
    DroppedNothing(q.normal.waiting, {});
  }

  lemma CleanupRelease(q: Q.Queues<PendingReq>, a: set<PendingReq>)
    ensures Q.Cleanup(Q.Release(q), a) == Q.Release(Q.Cleanup(q, a))
  {
    var d, e := Dropped(q.prio.waiting, a), Dropped(q.normal.waiting, a);
    assert q.freed + q.OutSet() + d + e == q.freed + d + e + q.OutSet();
  }

  lemma SettledOneMore(s: Session, l: Link, gone: set<Stream>, st: Stream)
    requires NoDangling(s, l) && st !in gone
    ensures var m := DropMany(l, gone);
            Unanswered(m, st).queues == Q.Cleanup(Settled(l, gone + {st}), WaitersOf(l, gone))
  {
    var m := DropMany(l, gone);
    if Hit(l, gone) {
      assert Unanswered(m, st) == m && Hit(l, gone + {st});
    } else {
      assert m.reqStream == l.reqStream && m.queues == Q.Cleanup(l.queues, WaitersOf(l, gone));
      CleanupRelease(l.queues, WaitersOf(l, gone));
    }
  }

  /** What `Drop` does, field by field. */
  lemma DropFields(l: Link, st: Stream)
    ensures Drop(l, st).streams == Without(l.streams, {st})
    ensures Drop(l, st).pendingOpen == if l.pendingOpen == st then null else l.pendingOpen
    ensures Drop(l, st).reqStream == if l.queues.out.Some? && l.reqStream == st then null else l.reqStream
    ensures Drop(l, st).queues == Q.Cleanup(Unanswered(l, st).queues, Waiters(l, st))
  {
    var l0 := if l.pendingOpen == st then l.(pendingOpen := null) else l;
    assert Unanswered(l0, st).queues == Unanswered(l, st).queues;
    assert Waiters(Unanswered(l0, st), st) == Waiters(l, st);
  }

  lemma WaitersUnion(l: Link, gone: set<Stream>, st: Stream)
    requires st !in gone
    ensures var m := l.(queues := Q.Cleanup(l.queues, WaitersOf(l, gone)));
            WaitersOf(l, gone) + Waiters(m, st) == WaitersOf(l, gone + {st})
  {
    var m := l.(queues := Q.Cleanup(l.queues, WaitersOf(l, gone)));
    forall r | r in WaitersOf(l, gone + {st})
      ensures r in WaitersOf(l, gone) + Waiters(m, st)
    {
      if r.target == st { assert r !in WaitersOf(l, gone); }
    }
  }

  lemma WaitersOneMore(l: Link, gone: set<Stream>, st: Stream, q: Q.Queues<PendingReq>)
    requires q.prio.waiting == l.queues.prio.waiting && q.normal.waiting == l.queues.normal.waiting && st !in gone
    ensures var m := l.(queues := Q.Cleanup(q, WaitersOf(l, gone)));
            Q.Cleanup(m.queues, Waiters(m, st)) == Q.Cleanup(q, WaitersOf(l, gone + {st}))
  {
    var l1 := l.(queues := q);
    assert WaitersOf(l1, gone) == WaitersOf(l, gone) && WaitersOf(l1, gone + {st}) == WaitersOf(l, gone + {st});
    WaitersUnion(l1, gone, st);
    CleanupTwice(q, WaitersOf(l, gone), Waiters(l.(queues := Q.Cleanup(q, WaitersOf(l, gone))), st));
  }

  lemma QueuesOneMore(s: Session, l: Link, gone: set<Stream>, st: Stream)
    requires NoDangling(s, l) && st !in gone
    ensures Drop(DropMany(l, gone), st).queues == DropMany(l, gone + {st}).queues
  {
    var m, q := DropMany(l, gone), Settled(l, gone + {st});
    DropFields(m, st);
    SettledOneMore(s, l, gone, st);
    WaitersOneMore(l, gone, st, q);
    assert Waiters(m, st) == Waiters(l.(queues := Q.Cleanup(q, WaitersOf(l, gone))), st);
  }

  lemma PointersOneMore(s: Session, l: Link, gone: set<Stream>, st: Stream)
    requires NoDangling(s, l) && st !in gone
    ensures var m, n := DropMany(l, gone), DropMany(l, gone + {st});
            && Without(m.streams, {st}) == n.streams
            && (if m.pendingOpen == st then null else m.pendingOpen) == n.pendingOpen
            && (if m.queues.out.Some? && m.reqStream == st then null else m.reqStream) == n.reqStream
  {
    WithoutTwice(l.streams, gone, {st});
  }

  lemma SameLink(a: Link, b: Link)
    requires a.streams == b.streams && a.pendingOpen == b.pendingOpen && a.reqStream == b.reqStream
    requires a.queues == b.queues
    ensures a == b
  {
  }

  /** Freeing one more stream. */
  lemma DropOneMore(s: Session, l: Link, gone: set<Stream>, st: Stream)
    requires NoDangling(s, l) && st !in gone
    ensures Drop(DropMany(l, gone), st) == DropMany(l, gone + {st})
  {
    QueuesOneMore(s, l, gone, st);
    PointersOneMore(s, l, gone, st);
    DropFields(DropMany(l, gone), st);
    SameLink(Drop(DropMany(l, gone), st), DropMany(l, gone + {st}));
  }

  lemma DropNone(l: Link)
    ensures DropMany(l, {}) == l
  {
    WithoutNothing(l.streams, {});
    assert WaitersOf(l, {}) == {};
    CleanupNothing(l.queues);
  }

  /** The streams of `gone`, all of session `s`, are freed. */
  ghost function DetachMany(w: World, s: Session, gone: set<Stream>): World
    requires s in w.links
  {
    w.(links := w.links[s := DropMany(w.links[s], gone)],
       seps := FreedSeps(w.seps, gone),
       freed := w.freed + gone)
  }

  ghost function FreedSeps(seps: map<LocalSep, SepView>, gone: set<Stream>): map<LocalSep, SepView> {
    map p | p in seps :: if seps[p].stream in gone then FreeSep else seps[p]
  }

  ghost function AllStreams(w: World, s: Session): set<Stream>
    requires s in w.links
  {
    Elements(w.Streams(s))
  }

  lemma DetachNone(w: World, s: Session)
    requires s in w.links
    ensures DetachMany(w, s, {}) == w
  {
    DropNone(w.links[s]);
    assert w.links[s := w.links[s]] == w.links;
    assert FreedSeps(w.seps, {}) == w.seps;
  }

  lemma SepsOneMore(seps: map<LocalSep, SepView>, gone: set<Stream>, p: LocalSep, st: Stream)
    requires p in seps && seps[p].stream == st && forall o | o in seps && seps[o].stream == st :: o == p
    ensures FreedSeps(seps, gone)[p := FreeSep] == FreedSeps(seps, gone + {st})
  {
  }

  lemma DetachOneMore(w: World, s: Session, gone: set<Stream>, st: Stream)
    requires Agree(w) && s in w.links && st in w.Streams(s) && st !in gone
    ensures CanDetach(DetachMany(w, s, gone), st)
    ensures Detach(DetachMany(w, s, gone), st) == DetachMany(w, s, gone + {st})
  {
    OwnerOf(w, s, st);
    SepsOneMore(w.seps, gone, st.lsep, st);
    DropOneMore(s, w.links[s], gone, st);
    OverwriteLink(w, s, DropMany(w.links[s], gone), DropMany(w.links[s], gone + {st}), gone, st);
    assert st in DropMany(w.links[s], gone).streams;
  }

  lemma OwnerOf(w: World, s: Session, st: Stream)
    requires Agree(w) && s in w.links && st in w.Streams(s)
    ensures st.session == s && st.lsep in w.seps && w.seps[st.lsep].stream == st && NoDangling(s, w.links[s])
    ensures forall p | p in w.seps && w.seps[p].stream == st :: p == st.lsep
  {
    forall p | p in w.seps && w.seps[p].stream == st
      ensures p == st.lsep
    {
      assert SepOk(w, p);
    }
  }

  /** A second update of the same session overwrites the first. */
  lemma OverwriteLink(w: World, s: Session, l: Link, l': Link, gone: set<Stream>, st: Stream)
    ensures w.links[s := l][s := l'] == w.links[s := l']
    ensures w.freed + gone + {st} == w.freed + (gone + {st})
  {
  }

  /** Freeing them one after another keeps the pointers agreeing. */
  lemma {:induction false} DetachManyAgree(w: World, s: Session, gone: set<Stream>)
    requires Agree(w) && s in w.links && gone <= AllStreams(w, s)
    ensures Agree(DetachMany(w, s, gone))
  {
    if gone == {} {
      DetachNone(w, s);
    } else {
      var st :| st in gone;
      var rest := gone - {st};
      assert gone == rest + {st};
      DetachManyAgree(w, s, rest);
      DetachStepAgree(w, s, rest, st);
    }
  }

  lemma DetachStepAgree(w: World, s: Session, gone: set<Stream>, st: Stream)
    requires Agree(w) && s in w.links && st in w.Streams(s) && st !in gone && Agree(DetachMany(w, s, gone))
    ensures Agree(DetachMany(w, s, gone + {st}))
  {
    DetachOneMore(w, s, gone, st);
    DetachAgree(DetachMany(w, s, gone), st);
  }

  lemma LostAgree(w: World, s: Session)
    requires Agree(w) && s in w.links
    ensures Agree(DetachMany(w, s, AllStreams(w, s)))
  {
    DetachManyAgree(w, s, AllStreams(w, s));
  }

  lemma HeldStream(w: World, s: Session)
    requires Agree(w) && s in w.links
    ensures w.links[s].reqStream == null || w.links[s].reqStream in w.Streams(s)
    ensures var st := w.links[s].pendingOpen; st == null || st.session != s || st in w.Streams(s)
  {
    assert NoDangling(s, w.links[s]);
  }

  lemma RelinkTwice(w: World, s: Session, l: Link, l': Link)
    requires s in w.links
    ensures Relink(Relink(w, s, l), s, l') == Relink(w, s, l')
  {
    assert w.links[s := l][s := l'] == w.links[s := l'];
  }

  lemma MoveNowhere(w: World, p: LocalSep)
    requires p in w.seps
    ensures Move(w, p, w.seps[p].state) == w
  {
    assert w.seps[p := w.seps[p]] == w.seps;
  }

  /** All of them: the session is empty, what it held is released, and nobody else notices. */
  lemma LostIsTotal(w: World, s: Session)
    requires Agree(w) && s in w.links
    ensures var w' := DetachMany(w, s, AllStreams(w, s));
            && w'.Streams(s) == [] && w'.links[s].reqStream == null
            && (w'.links[s].pendingOpen == null || w'.links[s].pendingOpen.session != s)
            && (forall r | r in w'.links[s].queues.prio.waiting :: r.target == null)
            && (forall r | r in w'.links[s].queues.normal.waiting :: r.target == null)
            && (forall t | t in w.links && t != s :: w'.links[t] == w.links[t])
            && (forall p | p in w.seps :: w'.seps[p] ==
                  if w.seps[p].stream != null && w.seps[p].stream.session == s then FreeSep else w.seps[p])
  {
    var gone := AllStreams(w, s);
    WithoutAll(w.Streams(s), gone);
    assert NoDangling(s, w.links[s]);
    forall p | p in w.seps
      ensures w.seps[p].stream in gone <==> w.seps[p].stream != null && w.seps[p].stream.session == s
    {
      assert SepOk(w, p);
    }
  }
}
