/**
  Which SEPs may send or receive media, on the acceptor's side of AVDTP. What the peer does -
  commands, transport channels that appear and disappear - is a run over the world of `AvdtpObjects`
  and the streams that hold a channel. The handlers are proved to do such runs on the objects.
*/
module AvdtpTransport {
  import opened AvdtpObjects
  import opened AvdtpRuns
  import opened AvdtpAcceptor

  /** `wired` are the streams that hold a channel, `aborting` those the session is aborting itself. */
  datatype Side = Side(w: World, wired: set<Stream>, aborting: set<Stream>)

  /** A SEP is OPEN or STREAMING only while its stream holds a channel. */
  ghost predicate Safe(d: Side) {
    forall p | p in d.w.seps :: Carries(d.w.seps[p].state) ==> d.w.seps[p].stream in d.wired
  }

  datatype Event =
    | Other(c: Change)            // sessions, SEPs, requests: no state changes
    | Configures(st: Stream)      // a new stream, for a free SEP
    | Starts(p: LocalSep)
    | Suspends(p: LocalSep)
    | Closes(p: LocalSep)
    | Aborts(p: LocalSep)
    | Connects(s: Session)        // the channel for the stream the session waits for
    | Disconnects(st: Stream)     // the channel of a stream goes down
    | ConnectionLost(s: Session)

  ghost predicate Possible(d: Side, e: Event) {
    match e
    case Other(c) => Enabled(d.w, c) && !c.Moved? && !c.Detached? && !c.Attached?
    case Configures(st) => CanAttach(d.w, st) && st !in d.wired && st !in d.aborting
    case Connects(s) => s in d.w.links && Awaited(d.w, s, d.w.links[s].pendingOpen)
    case Disconnects(st) => CanDetach(d.w, st)
    case ConnectionLost(s) => s in d.w.links
    case _ => true
  }

  /** avdtp_stream_set_transport takes a channel only for a stream that its own session waits for. */
  ghost predicate Awaited(w: World, s: Session, st: Stream?) {
    st != null && st.session == s && st.lsep in w.seps && w.seps[st.lsep].stream == st
  }

  ghost function Closed(w: World, p: LocalSep): World {
    if CloseError(w, p) == 0 then Move(w, p, Closing) else w
  }

  ghost function Aborted(w: World, p: LocalSep): World {
    if p in w.seps && w.seps[p].stream != null then Move(w, p, Aborting) else w
  }

  ghost function Step(d: Side, e: Event): Side
    requires Possible(d, e)
  {
    match e
    case Other(c) => d.(w := Apply(d.w, c))
    case Configures(st) => d.(w := Move(Attach(d.w, st), st.lsep, Configured))
    case Starts(p) => d.(w := Ordered(d.w, p, 0, Open, Streaming))
    case Suspends(p) => d.(w := Ordered(d.w, p, 0, Streaming, Open))
    case Closes(p) => d.(w := Closed(d.w, p))
    case Aborts(p) => d.(w := Aborted(d.w, p))
    case Connects(s) => Connected(d, s)
    case Disconnects(st) => Disconnected(d, st)
    case ConnectionLost(s) => d.(w := DetachMany(d.w, s, AllStreams(d.w, s)), wired := d.wired - AllStreams(d.w, s))
  }

  /** handle_transport_connect: whatever state the SEP is in, it goes to OPEN. */
  ghost function Connected(d: Side, s: Session): Side
    requires Possible(d, Connects(s))
  {
    var st := d.w.links[s].pendingOpen;
    d.(w := Move(SetOpening(d.w, s, null), st.lsep, Open), wired := d.wired + {st})
  }

  /** transport_cb. */
  ghost function Disconnected(d: Side, st: Stream): Side
    requires CanDetach(d.w, st)
  {
    d.(w := if st in d.aborting then d.w else Detach(d.w, st), wired := d.wired - {st})
  }

  ghost predicate PossibleRun(d: Side, es: seq<Event>)
    decreases |es|
  {
    es == [] || (Possible(d, es[0]) && PossibleRun(Step(d, es[0]), es[1..]))
  }

  ghost function Run(d: Side, es: seq<Event>): Side
    requires PossibleRun(d, es)
    decreases |es|
  {
    if es == [] then d else Run(Step(d, es[0]), es[1..])
  }

  // ----- what each event keeps -----

  lemma OrderedAgrees(w: World, p: LocalSep, from: SepState, to: SepState)
    requires Agree(w)
    ensures Agree(Ordered(w, p, 0, from, to))
  {
    if StreamError(w, p, from) == 0 { MoveAgree(w, p, to); }
  }

  lemma ConfiguredAgree(w: World, st: Stream)
    requires Agree(w) && CanAttach(w, st)
    ensures Agree(Move(Attach(w, st), st.lsep, Configured))
  {
    AttachAgree(w, st);
    MoveAgree(Attach(w, st), st.lsep, Configured);
  }

  lemma StepAgrees(d: Side, e: Event)
    requires Agree(d.w) && Possible(d, e)
    ensures Agree(Step(d, e).w)
  {
    match e
    case Other(c) => ChangeAgrees(d.w, c);
    case Configures(st) => ConfiguredAgree(d.w, st);
    case Starts(p) => OrderedAgrees(d.w, p, Open, Streaming);
    case Suspends(p) => OrderedAgrees(d.w, p, Streaming, Open);
    case Closes(p) => if CloseError(d.w, p) == 0 { MoveAgree(d.w, p, Closing); }
    case Aborts(p) => if p in d.w.seps && d.w.seps[p].stream != null { MoveAgree(d.w, p, Aborting); }
    case Connects(s) =>
      SetOpeningAgree(d.w, s, null);
      MoveAgree(SetOpening(d.w, s, null), d.w.links[s].pendingOpen.lsep, Open);
    case Disconnects(st) => DetachAgree(d.w, st);
    case ConnectionLost(s) => LostAgree(d.w, s);
  }

  /** Losing the channel of a stream the session itself aborts leaves its SEP where it is. */
  ghost predicate Strands(d: Side, e: Event) {
    e.Disconnects? && e.st in d.aborting && e.st.lsep in d.w.seps && Carries(d.w.seps[e.st.lsep].state)
  }

  lemma DisconnectSafe(d: Side, st: Stream)
    requires Agree(d.w) && Safe(d) && Possible(d, Disconnects(st))
    ensures Safe(Disconnected(d, st)) <==> !Strands(d, Disconnects(st))
  {
    OwnerOf(d.w, st.session, st);
    var d' := Disconnected(d, st);
    if Strands(d, Disconnects(st)) {
      assert Carries(d'.w.seps[st.lsep].state) && d'.w.seps[st.lsep].stream == st;
    }
  }

  lemma OtherSafe(d: Side, c: Change)
    requires Agree(d.w) && Safe(d) && Possible(d, Other(c))
    ensures Safe(Step(d, Other(c)))
  {
  }

  lemma ConnectSafe(d: Side, s: Session)
    requires Safe(d) && Possible(d, Connects(s))
    ensures Safe(Connected(d, s))
  {
  }

  lemma LostSafe(d: Side, s: Session)
    requires Agree(d.w) && Safe(d) && s in d.w.links
    ensures Safe(Step(d, ConnectionLost(s)))
  {
  }

  /** Every event keeps media on channels, except exactly that one. */
  lemma StepSafe(d: Side, e: Event)
    requires Agree(d.w) && Safe(d) && Possible(d, e)
    ensures Safe(Step(d, e)) <==> !Strands(d, e)
  {
    match e
    case Other(c) => OtherSafe(d, c);
    case Connects(s) => ConnectSafe(d, s);
    case Disconnects(st) => DisconnectSafe(d, st);
    case ConnectionLost(s) => LostSafe(d, s);
    case _ =>
  }

  // ----- runs -----

  ghost predicate AlwaysSafe(d: Side, es: seq<Event>)
    requires PossibleRun(d, es)
    decreases |es|
  {
    Safe(d) && (es == [] || AlwaysSafe(Step(d, es[0]), es[1..]))
  }

  ghost predicate NeverStrands(d: Side, es: seq<Event>)
    requires PossibleRun(d, es)
    decreases |es|
  {
    es == [] || (!Strands(d, es[0]) && NeverStrands(Step(d, es[0]), es[1..]))
  }

  /** In every state of a run media has a channel, exactly if no event of the run is that one. */
  lemma {:induction false} RunSafe(d: Side, es: seq<Event>)
    requires Agree(d.w) && Safe(d) && PossibleRun(d, es)
    ensures AlwaysSafe(d, es) <==> NeverStrands(d, es)
    ensures Agree(Run(d, es).w) && (NeverStrands(d, es) ==> Safe(Run(d, es)))
    decreases |es|
  {
    if es != [] {
      StepAgrees(d, es[0]);
      StepSafe(d, es[0]);
      if Safe(Step(d, es[0])) {
        RunSafe(Step(d, es[0]), es[1..]);
      } else {
        RunAgrees(Step(d, es[0]), es[1..]);
      }
    }
  }

  lemma {:induction false} RunAgrees(d: Side, es: seq<Event>)
    requires Agree(d.w) && PossibleRun(d, es)
    ensures Agree(Run(d, es).w)
    decreases |es|
  {
    if es != [] {
      StepAgrees(d, es[0]);
      RunAgrees(Step(d, es[0]), es[1..]);
    }
  }

  /** Streams are stranded only by a session that aborts them, or by the loss of a channel. */
  lemma {:induction false} NothingStrands(d: Side, es: seq<Event>)
    requires PossibleRun(d, es) && (d.aborting == {} || forall i | 0 <= i < |es| :: !es[i].Disconnects?)
    ensures NeverStrands(d, es)
    decreases |es|
  {
    if es != [] { NothingStrands(Step(d, es[0]), es[1..]); }
  }

  /**
    As long as the session requests nothing itself: in every reachable state a SEP that is OPEN or
    STREAMING has a stream, and that stream holds a channel.
   */
  lemma AcceptorSafe(es: seq<Event>, p: LocalSep)
    requires PossibleRun(Side(NoWorld, {}, {}), es)
    requires p in Run(Side(NoWorld, {}, {}), es).w.seps
    ensures var d := Run(Side(NoWorld, {}, {}), es);
            d.w.seps[p].state == Open || d.w.seps[p].state == Streaming ==>
              d.w.seps[p].stream != null && d.w.seps[p].stream in d.wired
  {
    NothingStrands(Side(NoWorld, {}, {}), es);
    RunSafe(Side(NoWorld, {}, {}), es);
  }

  // ----- the states of a SEP -----

  /** The state a SEP goes to by an event. */
  ghost function NextState(d: Side, e: Event, p: LocalSep): SepState
    requires p in d.w.seps && Possible(d, e)
  {
    var v := d.w.seps[p];
    match e
    case Configures(st) => if st.lsep == p then Configured else v.state
    case Starts(q) => if q == p && v.state == Open then Streaming else v.state
    case Suspends(q) => if q == p && v.state == Streaming then Open else v.state
    case Closes(q) => if q == p && (v.state == Open || v.state == Streaming) then Closing else v.state
    case Aborts(q) => if q == p && v.stream != null then Aborting else v.state
    case Connects(s) => if v.stream != null && v.stream == d.w.links[s].pendingOpen then Open else v.state
    case Disconnects(st) => if v.stream == st && st !in d.aborting then Idle else v.state
    case ConnectionLost(s) => if v.stream != null && v.stream.session == s then Idle else v.state
    case Other(_) => v.state
  }

  /** Only an IDLE SEP is configured, and only a free one is registered, forgotten, or loses its session. */
  lemma StateTable(d: Side, e: Event, p: LocalSep)
    requires Agree(d.w) && Possible(d, e) && p in d.w.seps && p in Step(d, e).w.seps
    ensures Step(d, e).w.seps[p].state == NextState(d, e, p)
    ensures e.Configures? && e.st.lsep == p ==> d.w.seps[p].state == Idle
  {
    assert SepOk(d.w, p);
    match e
    case Disconnects(st) => OwnerOf(d.w, st.session, st);
    case ConnectionLost(s) => LostTable(d, s, p);
    case Connects(s) => assert SepOk(d.w, d.w.links[s].pendingOpen.lsep);
    case Other(c) => OtherTable(d, c, p);
    case _ =>
  }

  lemma LostTable(d: Side, s: Session, p: LocalSep)
    requires Agree(d.w) && s in d.w.links && p in d.w.seps
    ensures DetachMany(d.w, s, AllStreams(d.w, s)).seps[p].state ==
            if d.w.seps[p].stream != null && d.w.seps[p].stream.session == s then Idle else d.w.seps[p].state
  {
    LostIsTotal(d.w, s);
  }

  lemma OtherTable(d: Side, c: Change, p: LocalSep)
    requires Agree(d.w) && Possible(d, Other(c)) && p in d.w.seps && p in Apply(d.w, c).seps
    ensures Apply(d.w, c).seps[p].state == d.w.seps[p].state
  {
  }

  /** Each state of a run follows from the one before as `NextState` says. */
  ghost predicate FollowsTable(d: Side, es: seq<Event>)
    requires PossibleRun(d, es)
    decreases |es|
  {
    es == [] ||
    (&& (forall p | p in d.w.seps && p in Step(d, es[0]).w.seps ::
           Step(d, es[0]).w.seps[p].state == NextState(d, es[0], p))
     && FollowsTable(Step(d, es[0]), es[1..]))
  }

  /** Over every run: a Start takes OPEN to STREAMING, a Suspend STREAMING to OPEN, a Close either to CLOSING. */
  lemma {:induction false} RunFollowsTable(d: Side, es: seq<Event>)
    requires Agree(d.w) && PossibleRun(d, es)
    ensures FollowsTable(d, es)
    decreases |es|
  {
    if es != [] {
      forall p | p in d.w.seps && p in Step(d, es[0]).w.seps
        ensures Step(d, es[0]).w.seps[p].state == NextState(d, es[0], p)
      {
        StateTable(d, es[0], p);
      }
      StepAgrees(d, es[0]);
      RunFollowsTable(Step(d, es[0]), es[1..]);
    }
  }

  // ----- after an Abort -----

  /**
    An accepted Abort does not take back an accepted Open: the channel that still arrives moves the
    SEP from ABORTING to OPEN.
   */
  lemma AbortDoesNotStopOpen(d: Side, s: Session)
    requires Agree(d.w) && Possible(d, Connects(s))
    ensures var p := d.w.links[s].pendingOpen.lsep;
            && Step(d, Aborts(p)).w.seps[p].state == Aborting
            && Possible(Step(d, Aborts(p)), Connects(s))
            && Step(Step(d, Aborts(p)), Connects(s)).w.seps[p].state == Open
  {
  }

  /** Whether `e` is the channel for `st`. */
  ghost predicate Wires(d: Side, e: Event, st: Stream) {
    e.Connects? && e.s in d.w.links && d.w.links[e.s].pendingOpen == st
  }

  /** Nothing else takes a SEP from ABORTING to OPEN. */
  lemma LeavesAborting(d: Side, e: Event, p: LocalSep)
    requires Agree(d.w) && Possible(d, e) && p in d.w.seps && p in Step(d, e).w.seps
    requires d.w.seps[p].state == Aborting && d.w.seps[p].stream != null
    ensures Step(d, e).w.seps[p].state == Open <==> Wires(d, e, d.w.seps[p].stream)
  {
    assert SepOk(d.w, p);
    if e.Connects? { HeldStream(d.w, e.s); }
  }

  /** `st` is in `p`, which is ABORTING, or it is gone. */
  ghost predicate OnItsWayOut(w: World, p: LocalSep, st: Stream) {
    st in w.freed || (p in w.seps && w.seps[p].state == Aborting && w.seps[p].stream == st)
  }

  lemma StaysOnItsWayOut(d: Side, e: Event, p: LocalSep, st: Stream)
    requires Agree(d.w) && Possible(d, e) && OnItsWayOut(d.w, p, st)
    ensures OnItsWayOut(Step(d, e).w, p, st) <==> st in d.w.freed || !Wires(d, e, st)
  {
    if st !in d.w.freed {
      assert SepOk(d.w, p);
      match e
      case Other(c) => OtherLeaves(d, c, p, st);
      case Disconnects(o) => DisconnectLeaves(d, o, p, st);
      case ConnectionLost(s) => LostLeaves(d, s, p, st);
      case _ =>
    }
  }

  lemma OtherLeaves(d: Side, c: Change, p: LocalSep, st: Stream)
    requires Agree(d.w) && Possible(d, Other(c)) && OnItsWayOut(d.w, p, st) && st !in d.w.freed
    ensures OnItsWayOut(Step(d, Other(c)).w, p, st)
  {
  }

  lemma DisconnectLeaves(d: Side, o: Stream, p: LocalSep, st: Stream)
    requires Agree(d.w) && Possible(d, Disconnects(o)) && OnItsWayOut(d.w, p, st) && st !in d.w.freed
    ensures OnItsWayOut(Disconnected(d, o).w, p, st)
  {
    OwnerOf(d.w, o.session, o);
  }

  lemma LostLeaves(d: Side, s: Session, p: LocalSep, st: Stream)
    requires s in d.w.links && OnItsWayOut(d.w, p, st) && st !in d.w.freed
    ensures OnItsWayOut(Step(d, ConnectionLost(s)).w, p, st)
  {
  }

  /** Whether some event of the run is the channel for `st`, while there is such a stream. */
  ghost predicate EverWired(d: Side, es: seq<Event>, st: Stream)
    requires PossibleRun(d, es)
    decreases |es|
  {
    es != [] && ((st !in d.w.freed && Wires(d, es[0], st)) || EverWired(Step(d, es[0]), es[1..], st))
  }

  /** So over every run without a channel for it an aborted stream stays so, until it is freed. */
  lemma {:induction false} AbortedStaysAborted(d: Side, es: seq<Event>, p: LocalSep, st: Stream)
    requires Agree(d.w) && PossibleRun(d, es) && OnItsWayOut(d.w, p, st) && !EverWired(d, es, st)
    ensures OnItsWayOut(Run(d, es).w, p, st)
    decreases |es|
  {
    if es != [] {
      StepAgrees(d, es[0]);
      StaysOnItsWayOut(d, es[0], p, st);
      AbortedStaysAborted(Step(d, es[0]), es[1..], p, st);
    }
  }
}
