/**
  Histories of AVDTP: every way in which the pointers between sessions, streams and SEPs change, in
  any order, for any number of sessions. `AvdtpEngine.Engine` keeps the history of its world, so each
  handler proves that what it does is such changes.
*/
module AvdtpRuns {
  import opened Prelude
  import opened AvdtpObjects
  import Q = AvdtpRequests

  datatype Change =
    | Attached(st: Stream)                      // a configured stream enters its session and SEP
    | Moved(p: LocalSep, state: SepState)
    | Detached(st: Stream)                      // the move to IDLE
    | Requested(s: Session, r: PendingReq, priority: bool, ok: bool)
    | Processed(s: Session, ok: bool)           // process_queue
    | Finished(s: Session)                      // the outstanding request is freed
    | Opening(s: Session, pending: Stream?)     // pendingOpen is set or cleared
    | Registered(p: LocalSep)
    | Unlisted(p: LocalSep)
    | Forgotten(p: LocalSep)
    | Opened(s: Session)
    | Freed(s: Session)

  /** What the handlers guarantee, and what their callers owe them. */
  ghost predicate Enabled(w: World, c: Change) {
    match c
    case Attached(st) => CanAttach(w, st)
    case Moved(p, _) => p in w.seps && w.seps[p].stream != null
    case Detached(st) => CanDetach(w, st)
    case Requested(s, r, _, _) => s in w.links && NewFor(w.links[s], r)
    case Processed(s, _) => s in w.links
    case Finished(s) => s in w.links
    case Opening(s, st) => CanOpen(w, s, st)
    case Registered(p) => p !in w.seps
    case Unlisted(_) => true
    case Forgotten(p) => p in w.seps && p !in w.lseps && w.seps[p].stream == null
    case Opened(s) => s !in w.links
    case Freed(s) => s in w.links && CanFree(w, s)
  }

  /** A request that was never made before, for a stream of the session or for none. */
  ghost predicate NewFor(l: Link, r: PendingReq) {
    && (r.target == null || r.target in l.streams)
    && r !in l.queues.prio.accepted && r !in l.queues.normal.accepted
  }

  /** The SEPs of the streams that a session still has are IDLE. */
  ghost predicate CanFree(w: World, s: Session)
    requires s in w.links
  {
    forall st | st in w.Streams(s) :: st.lsep in w.seps && w.seps[st.lsep].state == Idle
  }

  ghost function Apply(w: World, c: Change): World
    requires Enabled(w, c)
  {
    match c
    case Attached(st) => Attach(w, st)
    case Moved(p, state) => Move(w, p, state)
    case Detached(st) => Detach(w, st)
    case Requested(s, r, priority, ok) => Relink(w, s, Submit(w.links[s], r, priority, ok))
    case Processed(s, ok) => Relink(w, s, Process(w.links[s], ok))
    case Finished(s) => Relink(w, s, Finish(w.links[s]))
    case Opening(s, st) => SetOpening(w, s, st)
    case Registered(p) => Register(w, p)
    case Unlisted(p) => Unlist(w, p)
    case Forgotten(p) => Forget(w, p)
    case Opened(s) => OpenSession(w, s)
    case Freed(s) => FreeSession(w, s)
  }

  const NoWorld := World([], map[], map[], {})

  /** Changes, and the worlds before, between and after them. */
  datatype History = History(worlds: seq<World>, changes: seq<Change>) {
    ghost function Then(w: World, c: Change): History { History(worlds + [w], changes + [c]) }
  }

  const NoHistory := History([NoWorld], [])

  /** The changes are possible one after another, from the empty world on, and lead to `w`. */
  ghost predicate Leads(h: History, w: World) {
    && |h.worlds| == |h.changes| + 1 && h.worlds[0] == NoWorld && h.worlds[|h.changes|] == w
    && forall i {:trigger h.changes[i]} | 0 <= i < |h.changes| ::
         Enabled(h.worlds[i], h.changes[i]) && h.worlds[i + 1] == Apply(h.worlds[i], h.changes[i])
  }

  /** One more change. */
  lemma Extends(h: History, w: World, c: Change)
    requires Leads(h, w) && Enabled(w, c)
    ensures Leads(h.Then(Apply(w, c), c), Apply(w, c))
  {
    var h' := h.Then(Apply(w, c), c);
    forall i | 0 <= i < |h'.changes|
      ensures Enabled(h'.worlds[i], h'.changes[i]) && h'.worlds[i + 1] == Apply(h'.worlds[i], h'.changes[i])
    {
      if i < |h.changes| { assert h.changes[i] == h'.changes[i]; }
    }
  }

  // ----- what holds in every world a history leads to -----

  /** The pointers agree, and no session loses, duplicates or resends a request. */
  ghost predicate Sound(w: World) {
    Agree(w) && AllConserve(w.links)
  }

  ghost predicate AllConserve(links: map<Session, Link>) {
    forall s | s in links :: Q.Conserved(links[s].queues)
  }

  lemma ChangeAgrees(w: World, c: Change)
    requires Agree(w) && Enabled(w, c)
    ensures Agree(Apply(w, c))
  {
    match c
    case Attached(st) => AttachAgree(w, st);
    case Moved(p, state) => MoveAgree(w, p, state);
    case Detached(st) => DetachAgree(w, st);
    case Requested(s, r, priority, ok) => SubmitAgree(w, s, r, priority, ok);
    case Processed(s, ok) => ProcessAgree(w, s, ok);
    case Finished(s) => FinishAgree(w, s);
    case Opening(s, st) => SetOpeningAgree(w, s, st);
    case Registered(p) => RegisterAgree(w, p);
    case Unlisted(p) => UnlistAgree(w, p);
    case Forgotten(p) => ForgetAgree(w, p);
    case Opened(s) => OpenSessionAgree(w, s);
    case Freed(s) => FreeSessionAgree(w, s);
  }

  lemma UpdateConserves(links: map<Session, Link>, s: Session, l: Link)
    requires AllConserve(links) && Q.Conserved(l.queues)
    ensures AllConserve(links[s := l])
  {
  }

  /** What a change does to the queues of a session is a step, or a few steps, of the request machine. */
  lemma ChangeConserves(w: World, c: Change)
    requires AllConserve(w.links) && Enabled(w, c)
    ensures AllConserve(Apply(w, c).links)
  {
    match c
    case Detached(st) =>
      DropConserves(w.links[st.session], st);
      UpdateConserves(w.links, st.session, Drop(w.links[st.session], st));
    case Requested(s, r, priority, ok) =>
      Q.SubmitConserves(w.links[s].queues, r, priority, ok);
      UpdateConserves(w.links, s, Submit(w.links[s], r, priority, ok));
    case Processed(s, ok) =>
      Q.ProcessConserves(w.links[s].queues, ok);
      UpdateConserves(w.links, s, Process(w.links[s], ok));
    case Finished(s) =>
      Q.ReleaseConserves(w.links[s].queues);
      UpdateConserves(w.links, s, Finish(w.links[s]));
    case Attached(st) => UpdateConserves(w.links, st.session, Apply(w, c).links[st.session]);
    case Opening(s, st) => UpdateConserves(w.links, s, Apply(w, c).links[s]);
    case Opened(s) => UpdateConserves(w.links, s, NewLink);
    case _ =>
  }

  lemma UnansweredConserves(l: Link, st: Stream)
    requires Q.Conserved(l.queues)
    ensures Q.Conserved(Unanswered(l, st).queues)
  {
    Q.ReleaseConserves(l.queues);
  }

  lemma CleanConserves(l: Link, st: Stream)
    requires Q.Conserved(l.queues)
    ensures Q.Conserved(Clean(l, st).queues)
  {
    Q.CleanupConserves(l.queues, Waiters(l, st));
  }

  lemma DropConserves(l: Link, st: Stream)
    requires Q.Conserved(l.queues)
    ensures Q.Conserved(Drop(l, st).queues)
  {
    var l0 := if l.pendingOpen == st then l.(pendingOpen := null) else l;
    UnansweredConserves(l0, st);
    CleanConserves(Unanswered(l0, st), st);
  }

  lemma {:induction false} SoundAt(h: History, w: World, n: nat)
    requires Leads(h, w) && n <= |h.changes|
    ensures Sound(h.worlds[n])
  {
    if n > 0 {
      SoundAt(h, w, n - 1);
      assert Enabled(h.worlds[n - 1], h.changes[n - 1]);
      ChangeAgrees(h.worlds[n - 1], h.changes[n - 1]);
      ChangeConserves(h.worlds[n - 1], h.changes[n - 1]);
    }
  }

  /** Over every history, of any number of sessions. */
  lemma HistorySound(h: History, w: World)
    requires Leads(h, w)
    ensures Sound(w)
  {
    SoundAt(h, w, |h.changes|);
  }

  /**
    No dangling stream, in every world a history leads to: what a session points at, it has, and it is
    not freed. Only a stream of another session that it waits for is none of its business.
   */
  lemma NothingDangles(h: History, w: World, s: Session)
    requires Leads(h, w) && s in w.links
    ensures var l := w.links[s];
            && (l.pendingOpen != null && l.pendingOpen.session == s ==>
                  l.pendingOpen in l.streams && l.pendingOpen !in w.freed)
            && (l.reqStream != null ==> l.queues.out.Some? && l.reqStream in l.streams && l.reqStream !in w.freed)
            && (forall r | r in l.queues.prio.waiting + l.queues.normal.waiting && r.target != null ::
                  r.target in l.streams && r.target !in w.freed)
  {
    HistorySound(h, w);
    assert NoDangling(s, w.links[s]);
  }

  /** SEP ownership, in every world a history leads to, across all sessions. */
  lemma OwnershipAgrees(h: History, w: World, p: LocalSep)
    requires Leads(h, w) && p in w.seps
    ensures var v := w.seps[p];
            && (v.inuse <==> v.stream != null)
            && (v.stream == null ==> v.state == Idle)
            && (v.stream != null ==> v.stream.lsep == p && v.stream !in w.freed && v.stream.session in w.links)
            && (v.stream != null ==>
                  forall s | s in w.links :: v.stream in w.Streams(s) <==> s == v.stream.session)
            && (v.stream != null ==> multiset(w.Streams(v.stream.session))[v.stream] == 1)
  {
    HistorySound(h, w);
    assert SepOk(w, p);
    if w.seps[p].stream != null {
      Q.CountInNoDup(w.Streams(w.seps[p].stream.session), w.seps[p].stream);
    }
  }

  /** Each request a session accepted is outstanding, queued or freed: in one of these, once; and sent at most once. */
  lemma RequestsConserved(h: History, w: World, s: Session, r: PendingReq)
    requires Leads(h, w) && s in w.links
    requires r in w.links[s].queues.prio.accepted + w.links[s].queues.normal.accepted
    ensures var q := w.links[s].queues;
            && (if q.out == Some(r) then 1 else 0)
               + multiset(q.prio.waiting)[r] + multiset(q.normal.waiting)[r] + q.freed[r] == 1
            && q.Sent()[r] <= 1
  {
    HistorySound(h, w);
    Q.InOnePlace(w.links[s].queues, r);
  }

  // ----- single facts about such a world, for the handlers -----

  lemma LiveStream(h: History, w: World, s: Session, st: Stream)
    requires Leads(h, w) && s in w.links && st in w.Streams(s)
    ensures st.session == s && st.lsep in w.seps && w.seps[st.lsep].stream == st && st !in w.freed
    ensures CanDetach(w, st)
  {
    HistorySound(h, w);
    OwnerOf(w, s, st);
  }

  lemma LiveSep(h: History, w: World, p: LocalSep)
    requires Leads(h, w) && p in w.seps
    ensures SepOk(w, p)
    ensures w.seps[p].stream != null ==>
              CanDetach(w, w.seps[p].stream) && forall s | s in w.links :: CanOpen(w, s, w.seps[p].stream)
  {
    HistorySound(h, w);
  }

  lemma LiveLink(h: History, w: World, s: Session)
    requires Leads(h, w) && s in w.links
    ensures w.links[s].reqStream == null || w.links[s].reqStream in w.Streams(s)
    ensures var st := w.links[s].pendingOpen; st == null || st.session != s || st in w.Streams(s)
    ensures NoDup(w.Streams(s))
  {
    HistorySound(h, w);
    HeldStream(w, s);
  }

  /** The stream of its own that a session waits for. */
  lemma LivePending(h: History, w: World, s: Session, st: Stream)
    requires Leads(h, w) && s in w.links && w.links[s].pendingOpen == st && st.session == s
    ensures st in w.Streams(s) && st.lsep in w.seps && w.seps[st.lsep].stream == st
  {
    HistorySound(h, w);
    HeldStream(w, s);
    OwnerOf(w, s, st);
  }

  lemma LiveList(h: History, w: World)
    requires Leads(h, w)
    ensures NoDup(w.lseps) && forall p | p in w.lseps :: p in w.seps
  {
    HistorySound(h, w);
  }

  // ----- `Extends`, change by change -----

  lemma AttachLeads(h: History, w: World, st: Stream)
    requires Leads(h, w) && CanAttach(w, st)
    ensures Leads(h.Then(Attach(w, st), Attached(st)), Attach(w, st))
  {
    Extends(h, w, Attached(st));
  }

  lemma MoveLeads(h: History, w: World, p: LocalSep, state: SepState)
    requires Leads(h, w) && p in w.seps && w.seps[p].stream != null
    ensures Leads(h.Then(Move(w, p, state), Moved(p, state)), Move(w, p, state))
  {
    Extends(h, w, Moved(p, state));
  }

  lemma DetachLeads(h: History, w: World, st: Stream)
    requires Leads(h, w) && CanDetach(w, st)
    ensures Leads(h.Then(Detach(w, st), Detached(st)), Detach(w, st))
  {
    Extends(h, w, Detached(st));
  }

  lemma SubmitLeads(h: History, w: World, s: Session, r: PendingReq, priority: bool, ok: bool)
    requires Leads(h, w) && s in w.links && NewFor(w.links[s], r)
    ensures var w' := Relink(w, s, Submit(w.links[s], r, priority, ok));
            Leads(h.Then(w', Requested(s, r, priority, ok)), w')
  {
    Extends(h, w, Requested(s, r, priority, ok));
  }

  lemma ProcessLeads(h: History, w: World, s: Session, ok: bool)
    requires Leads(h, w) && s in w.links
    ensures var w' := Relink(w, s, Process(w.links[s], ok)); Leads(h.Then(w', Processed(s, ok)), w')
  {
    Extends(h, w, Processed(s, ok));
  }

  lemma FinishLeads(h: History, w: World, s: Session)
    requires Leads(h, w) && s in w.links
    ensures var w' := Relink(w, s, Finish(w.links[s])); Leads(h.Then(w', Finished(s)), w')
  {
    Extends(h, w, Finished(s));
  }

  lemma OpeningLeads(h: History, w: World, s: Session, st: Stream?)
    requires Leads(h, w) && CanOpen(w, s, st)
    ensures Leads(h.Then(SetOpening(w, s, st), Opening(s, st)), SetOpening(w, s, st))
  {
    Extends(h, w, Opening(s, st));
  }

  /** avdtp_set_configuration submits the request before it attaches the stream; the history has it the other way. */
  lemma ConfigureLeads(h: History, w: World, st: Stream, r: PendingReq, ok: bool)
    requires Leads(h, w) && CanAttach(w, st) && r.target == st
    requires r !in w.links[st.session].queues.prio.accepted && r !in w.links[st.session].queues.normal.accepted
    ensures var w1 := Attach(w, st);
            var w' := Attach(Relink(w, st.session, Submit(w.links[st.session], r, false, ok)), st);
            Leads(h.Then(w1, Attached(st)).Then(w', Requested(st.session, r, false, ok)), w')
  {
    AttachLeads(h, w, st);
    SubmitThenAttach(w, st, r, ok);
    SubmitLeads(h.Then(Attach(w, st), Attached(st)), Attach(w, st), st.session, r, false, ok);
  }

  /** The move to CONFIGURED, and the delay report `r` that may go with it. */
  ghost function ConfiguredWorld(w: World, s: Session, st: Stream, r: PendingReq?, ok: bool): World
    requires s in w.links && st.lsep in w.seps
  {
    var w1 := Move(w, st.lsep, Configured);
    if r == null then w1 else Relink(w1, s, Submit(w1.links[s], r, true, ok))
  }

  lemma ConfiguredLeads(h: History, w: World, s: Session, st: Stream, r: PendingReq?, ok: bool) returns (h': History)
    requires Leads(h, w) && s in w.links && st in w.Streams(s) && (r != null ==> NewFor(w.links[s], r))
    ensures st.lsep in w.seps && Leads(h', ConfiguredWorld(w, s, st, r, ok))
  {
    LiveStream(h, w, s, st);
    var w1 := Move(w, st.lsep, Configured);
    MoveLeads(h, w, st.lsep, Configured);
    h' := h.Then(w1, Moved(st.lsep, Configured));
    if r != null {
      SubmitLeads(h', w1, s, r, true, ok);
      h' := h'.Then(ConfiguredWorld(w, s, st, r, ok), Requested(s, r, true, ok));
    }
  }

  /** The same for a stream that a Set Configuration command has just brought in. */
  lemma SetconfLeads(h: History, w: World, st: Stream, r: PendingReq?, ok: bool) returns (h': History)
    requires Leads(h, w) && CanAttach(w, st)
    requires r != null ==> r.target == st && NewFor(Attach(w, st).links[st.session], r)
    ensures Leads(h', ConfiguredWorld(Attach(w, st), st.session, st, r, ok))
  {
    AttachLeads(h, w, st);
    h' := ConfiguredLeads(h.Then(Attach(w, st), Attached(st)), Attach(w, st), st.session, st, r, ok);
  }

  /** If another stream is in the SEP by then, the pointers do not agree. */
  lemma SetconfNeedsFreeSep(h: History, w: World, st: Stream, r: PendingReq?, ok: bool)
    requires Leads(h, w) && Placed(w, st) && st !in w.freed && st !in w.Streams(st.session)
    requires r != null ==> r.target == st
    ensures Agree(ConfiguredWorld(Attach(w, st), st.session, st, r, ok)) <==> w.seps[st.lsep].stream == null
  {
    HistorySound(h, w);
    AttachNeedsFreeSep(w, st);
    if w.seps[st.lsep].stream == null {
      ConfiguredAgreement(Attach(w, st), st.session, st, r, ok);
    } else {
      AttachLinked(w, st);
      if Owned(ConfiguredWorld(Attach(w, st), st.session, st, r, ok)) {
        ConfiguredOwnership(Attach(w, st), st.session, st, r, ok);
      }
    }
  }

  lemma ConfiguredAgreement(w: World, s: Session, st: Stream, r: PendingReq?, ok: bool)
    requires Agree(w) && s in w.links && st in w.Streams(s) && (r != null ==> r.target == st)
    ensures st.lsep in w.seps && Agree(ConfiguredWorld(w, s, st, r, ok))
  {
    OwnerOf(w, s, st);
    MoveAgree(w, st.lsep, Configured);
    if r != null { SubmitAgree(Move(w, st.lsep, Configured), s, r, true, ok); }
  }

  /** What owns what is the same before. */
  lemma ConfiguredOwnership(w: World, s: Session, st: Stream, r: PendingReq?, ok: bool)
    requires s in w.links && st.lsep in w.seps && w.seps[st.lsep].stream != null
    requires Owned(ConfiguredWorld(w, s, st, r, ok))
    ensures Owned(w)
  {
    SameOwnership(ConfiguredWorld(w, s, st, r, ok), w);
  }

  /** Whether the SEP is free decides whether the pointers agree once a stream was configured for it. */
  lemma ConfiguredOutcome(h: History, w: World, st: Stream, r: PendingReq, ok: bool)
    requires Leads(h, w) && Placed(w, st) && st !in w.freed && st !in w.Streams(st.session) && r.target == st
    ensures var w1 := Relink(w, st.session, Submit(w.links[st.session], r, false, ok));
            Placed(w1, st) && (Agree(Attach(w1, st)) <==> w.seps[st.lsep].stream == null)
  {
    HistorySound(h, w);
    ConfiguredAgrees(w, st, r, ok);
  }

  lemma VacatedOutcome(h: History, w: World, p: LocalSep)
    requires Leads(h, w) && p in w.seps
    ensures Agree(Vacate(w, p)) <==> w.seps[p].stream == null
    ensures w.seps[p].stream == null ==> Vacate(w, p) == w
  {
    HistorySound(h, w);
    VacateNeedsFreeSep(w, p);
  }
}
