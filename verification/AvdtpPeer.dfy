/**
  The commands and channels of the peer on the objects are runs of `AvdtpTransport`: so whatever the
  peer sends, media has a channel on the objects as well.
*/
module AvdtpPeer {
  import opened Prelude
  import opened AvdtpObjects
  import opened AvdtpRuns
  import opened AvdtpEngine
  import opened AvdtpAcceptor
  import opened AvdtpTransport

  /** `d` is right about the channels of its streams, and about which of them are being aborted. */
  ghost predicate Right(d: Side)
    reads StreamsIn(d.w)`io, StreamsIn(d.w)`abortInt
  {
    forall st | st in StreamsIn(d.w) :: (st.io <==> st in d.wired) && (st.abortInt <==> st in d.aborting)
  }

  /** `d` is what the objects say. */
  ghost predicate Shows(e: Engine, d: Side)
    reads e`world, StreamsIn(d.w)`io, StreamsIn(d.w)`abortInt
  {
    e.world == d.w && Right(d)
  }

  ghost function SideOf(e: Engine): (d: Side)
    reads e`world, StreamsIn(e.world)`io, StreamsIn(e.world)`abortInt
    ensures Shows(e, d)
  {
    Side(e.world, set st | st in StreamsIn(e.world) && st.io, set st | st in StreamsIn(e.world) && st.abortInt)
  }

  /** The objects went from `d` through the events `es`, none of them the loss of a channel. */
  ghost predicate Follows(e: Engine, d: Side, es: seq<Event>)
    requires PossibleRun(d, es)
    reads e`world, StreamsIn(Run(d, es).w)`io, StreamsIn(Run(d, es).w)`abortInt
  {
    Shows(e, Run(d, es)) && forall i | 0 <= i < |es| :: !es[i].Disconnects?
  }

  lemma FollowsNone(e: Engine, d: Side)
    requires Shows(e, d)
    ensures PossibleRun(d, []) && Follows(e, d, [])
  {
  }

  lemma FollowsOne(e: Engine, d: Side, ev: Event)
    requires Possible(d, ev) && !ev.Disconnects? && Shows(e, Step(d, ev))
    ensures PossibleRun(d, [ev]) && Follows(e, d, [ev])
  {
    RunOne(d, ev);
  }

  lemma MovedRight(d: Side, p: LocalSep, state: SepState)
    requires Right(d) && p in d.w.seps
    ensures Right(d.(w := Move(d.w, p, state)))
  {
    MoveStreams(d.w, p, state);
  }

  lemma ShownSafe(e: Engine, d: Side)
    requires e.Valid() && Shows(e, d)
    ensures Agree(d.w) && (Safe(d) <==> TransportSafe(e.world))
  {
    e.ValidIsSound();
    forall p | p in d.w.seps
      ensures SepOk(d.w, p)
    {
    }
  }

  lemma RunOne(d: Side, e: Event)
    requires Possible(d, e)
    ensures PossibleRun(d, [e]) && Run(d, [e]) == Step(d, e)
  {
    assert [e][1..] == [];
  }

  lemma {:induction false} RunAppend(d: Side, a: seq<Event>, b: seq<Event>)
    requires PossibleRun(d, a) && PossibleRun(Run(d, a), b)
    ensures PossibleRun(d, a + b) && Run(d, a + b) == Run(Run(d, a), b)
    decreases |a|
  {
    if a == [] {
      assert a + b == b;
    } else {
      assert (a + b)[0] == a[0] && (a + b)[1..] == a[1..] + b;
      RunAppend(Step(d, a[0]), a[1..], b);
    }
  }

  lemma SameSepsRight(d: Side, w: World)
    requires Right(d) && w.seps == d.w.seps
    ensures Right(d.(w := w))
  {
    assert StreamsIn(w) == StreamsIn(d.w);
  }

  // ----- commands -----

  /** No other sessions, SEPs or streams than before, except `more`. */
  ghost predicate SameParts(w: World, w': World, more: set<Stream>) {
    w'.links.Keys == w.links.Keys && w'.seps.Keys == w.seps.Keys && StreamsIn(w') <= StreamsIn(w) + more
  }

  lemma OrderedFollows(e: Engine, d: Side, sep: LocalSep?, hook: nat, start: bool) returns (es: seq<Event>)
    requires Right(d)
    requires e.world == if start then Ordered(d.w, sep, hook, Open, Streaming)
                        else Ordered(d.w, sep, hook, Streaming, Open)
    ensures SameParts(d.w, e.world, {})
    ensures PossibleRun(d, es) && Follows(e, d, es)
  {
    if e.world == d.w {
      es := [];
      FollowsNone(e, d);
    } else if start {
      es := [Starts(sep)];
      MoveStreams(d.w, sep, Streaming);
      MovedRight(d, sep, Streaming);
      FollowsOne(e, d, Starts(sep));
    } else {
      es := [Suspends(sep)];
      MoveStreams(d.w, sep, Open);
      MovedRight(d, sep, Open);
      FollowsOne(e, d, Suspends(sep));
    }
  }

  method StartStep(e: Engine, s: Session, seids: seq<nat>, hooks: seq<nat>, sent: bool, ghost d: Side)
    returns (handled: bool, ghost es: seq<Event>)
    requires e.Valid() && s in e.world.links && |hooks| == |seids| && Shows(e, d)
    modifies e`world, e`history, s`req, e.world.seps.Keys`state,
             StreamsIn(e.world)`starting, StreamsIn(e.world)`startTimer, StreamsIn(e.world)`openAcp
    ensures e.Valid() && SameParts(d.w, e.world, {}) && PossibleRun(d, es) && Follows(e, d, es)
  {
    ghost var sep := if seids == [] then null else BySeid(e.lseps, seids[0]);
    var error, failed;
    ghost var stream;
    handled, error, failed, stream := StartCmd(e, s, seids, hooks, sent);
    es := OrderedFollows(e, d, sep, if seids == [] then 1 else hooks[0], true);
  }

  method SuspendStep(e: Engine, s: Session, seids: seq<nat>, hooks: seq<nat>, sent: bool, ghost d: Side)
    returns (handled: bool, ghost es: seq<Event>)
    requires e.Valid() && s in e.world.links && |hooks| == |seids| && Shows(e, d)
    modifies e`world, e`history, s`req, e.world.seps.Keys`state,
             StreamsIn(e.world)`starting, StreamsIn(e.world)`startTimer, StreamsIn(e.world)`openAcp
    ensures e.Valid() && SameParts(d.w, e.world, {}) && PossibleRun(d, es) && Follows(e, d, es)
  {
    ghost var sep := if seids == [] then null else BySeid(e.lseps, seids[0]);
    var error, failed;
    ghost var stream;
    handled, error, failed, stream := SuspendCmd(e, s, seids, hooks, sent);
    es := OrderedFollows(e, d, sep, if seids == [] then 1 else hooks[0], false);
  }

  lemma OpenFollows(e: Engine, d: Side, s: Session, st: Stream?, sent: bool) returns (es: seq<Event>)
    requires Right(d) && (st != null ==> CanOpen(d.w, s, st))
    requires e.world == if st != null && sent then SetOpening(d.w, s, st) else d.w
    ensures SameParts(d.w, e.world, {}) && PossibleRun(d, es) && Follows(e, d, es)
  {
    if st != null && sent {
      es := [Other(Opening(s, st))];
      assert StreamsIn(e.world) == StreamsIn(d.w);
      SameSepsRight(d, e.world);
      FollowsOne(e, d, Other(Opening(s, st)));
    } else {
      es := [];
      FollowsNone(e, d);
    }
  }

  method OpenStep(e: Engine, s: Session, seid: Option<nat>, hook: nat, sent: bool, ghost d: Side)
    returns (handled: bool, ghost es: seq<Event>)
    requires e.Valid() && s in e.world.links && Shows(e, d)
    modifies e`world, e`history, s`req, s`pendingOpen, StreamsIn(e.world)`openAcp, StreamsIn(e.world)`timer
    ensures e.Valid() && SameParts(d.w, e.world, {}) && PossibleRun(d, es) && Follows(e, d, es)
  {
    var error, sep, stream;
    handled, error, sep, stream := OpenCmd(e, s, seid, hook, sent);
    es := OpenFollows(e, d, s, stream, sent);
  }

  lemma MoveFollows(e: Engine, d: Side, p: LocalSep?, moves: bool, state: SepState) returns (es: seq<Event>)
    requires Right(d) && (moves ==> p != null && p in d.w.seps && d.w.seps[p].stream != null)
    requires state == Closing || state == Aborting
    requires moves && state == Closing ==> CloseError(d.w, p) == 0
    requires e.world == if moves then Move(d.w, p, state) else d.w
    ensures SameParts(d.w, e.world, {}) && PossibleRun(d, es) && Follows(e, d, es)
  {
    if moves {
      var ev := if state == Closing then Closes(p) else Aborts(p);
      es := [ev];
      MoveStreams(d.w, p, state);
      MovedRight(d, p, state);
      FollowsOne(e, d, ev);
    } else {
      es := [];
      FollowsNone(e, d);
    }
  }

  method CloseStep(e: Engine, s: Session, seid: Option<nat>, hook: nat, sent: bool, ghost d: Side)
    returns (handled: bool, ghost es: seq<Event>)
    requires e.Valid() && s in e.world.links && Shows(e, d)
    modifies e`world, e`history, s`req, e.world.seps.Keys`state, StreamsIn(e.world)`starting,
             StreamsIn(e.world)`startTimer, StreamsIn(e.world)`openAcp, StreamsIn(e.world)`timer
    ensures e.Valid() && SameParts(d.w, e.world, {}) && PossibleRun(d, es) && Follows(e, d, es)
  {
    var error, sep, stream;
    handled, error, sep, stream := CloseCmd(e, s, seid, hook, sent);
    es := MoveFollows(e, d, sep, stream != null, Closing);
  }

  method AbortStep(e: Engine, s: Session, seid: Option<nat>, sent: bool, ghost d: Side)
    returns (handled: bool, ghost es: seq<Event>)
    requires e.Valid() && s in e.world.links && Shows(e, d)
    modifies e`world, e`history, s`req, e.world.seps.Keys`state,
             StreamsIn(e.world)`starting, StreamsIn(e.world)`startTimer, StreamsIn(e.world)`openAcp
    ensures e.Valid() && SameParts(d.w, e.world, {}) && PossibleRun(d, es) && Follows(e, d, es)
  {
    var sep, stream;
    handled, sep, stream := AbortCmd(e, s, seid, sent);
    es := MoveFollows(e, d, sep, stream != null && sent, Aborting);
  }

  lemma ConfigureRight(d: Side, st: Stream)
    requires Right(d) && Possible(d, Configures(st)) && !st.io && !st.abortInt
    ensures Right(Step(d, Configures(st)))
  {
    var w := Step(d, Configures(st)).w;
    assert StreamsIn(w) <= StreamsIn(d.w) + {st};
  }

  lemma ConfigureFollows(e: Engine, d: Side, st: Stream, r: PendingReq?, ok: bool) returns (es: seq<Event>)
    requires Right(d) && Possible(d, Configures(st)) && !st.io && !st.abortInt
    requires r != null ==> NewFor(Attach(d.w, st).links[st.session], r)
    requires e.world == ConfiguredWorld(Attach(d.w, st), st.session, st, r, ok)
    ensures SameParts(d.w, e.world, {st}) && PossibleRun(d, es) && Follows(e, d, es)
  {
    var s, d1 := st.session, Step(d, Configures(st));
    assert StreamsIn(e.world) <= StreamsIn(d.w) + {st};
    RunOne(d, Configures(st));
    ConfigureRight(d, st);
    if r == null {
      es := [Configures(st)];
    } else {
      SameSepsRight(d1, e.world);
      RunOne(d1, Other(Requested(s, r, true, ok)));
      RunAppend(d, [Configures(st)], [Other(Requested(s, r, true, ok))]);
      es := [Configures(st)] + [Other(Requested(s, r, true, ok))];
    }
  }

  /** What a Set Configuration amounts to; `more` is the stream that came in, if one did. */
  lemma SetconfFollows(e: Engine, d: Side, attached: bool, st: Stream?, r: PendingReq?, ok: bool)
    returns (es: seq<Event>, more: set<Stream>)
    requires Right(d) && (!attached ==> e.world == d.w)
    requires attached ==>
               && st != null && Possible(d, Configures(st)) && !st.io && !st.abortInt
               && (r != null ==> NewFor(Attach(d.w, st).links[st.session], r))
               && e.world == ConfiguredWorld(Attach(d.w, st), st.session, st, r, ok)
    ensures SameParts(d.w, e.world, more) && PossibleRun(d, es) && Follows(e, d, es)
    ensures forall o | o in more :: attached && o == st
  {
    if attached {
      more := {st};
      es := ConfigureFollows(e, d, st, r, ok);
    } else {
      es, more := [], {};
      FollowsNone(e, d);
    }
  }

  method SetconfStep(e: Engine, s: Session, seid: Option<nat>, rseid: nat, delay: bool, badTransport: bool,
                     hook: ConfHook, sent: bool, ok: bool, ghost d: Side)
    returns (handled: bool, ghost es: seq<Event>, ghost more: set<Stream>)
    requires e.Valid() && s in e.world.links && Shows(e, d)
    modifies e`world, e`history, e`transaction, s`version, s`streams, s`req, s`prioQueue, s`reqQueue, e.world.seps.Keys
    ensures e.Valid() && SameParts(d.w, e.world, more) && PossibleRun(d, es) && Follows(e, d, es)
    ensures fresh(more)
  {
    var error, sep, stream, attached, r;
    handled, error, sep, stream, attached, r := SetconfCmd(e, s, seid, rseid, delay, badTransport, hook, sent, ok);
    es, more := SetconfFollows(e, d, attached, stream, r, ok);
  }

  lemma LostFollows(e: Engine, d: Side, s: Session)
    requires s in d.w.links && e.world == DetachMany(d.w, s, AllStreams(d.w, s))
    requires forall st | st in StreamsIn(d.w) - AllStreams(d.w, s) ::
               (st.io <==> st in d.wired) && (st.abortInt <==> st in d.aborting)
    ensures PossibleRun(d, [ConnectionLost(s)]) && Follows(e, d, [ConnectionLost(s)])
  {
    assert StreamsIn(e.world) <= StreamsIn(d.w) - AllStreams(d.w, s);
    FollowsOne(e, d, ConnectionLost(s));
  }

  lemma NextFollows(e: Engine, d: Side, s: Session, ok: bool) returns (es: seq<Event>)
    requires Right(d) && s in d.w.links && e.world == Relink(d.w, s, Process(Finish(d.w.links[s]), ok))
    ensures SameParts(d.w, e.world, {})
    ensures PossibleRun(d, es) && Follows(e, d, es)
  {
    assert StreamsIn(e.world) == StreamsIn(d.w);
    var ev1, ev2 := Other(Finished(s)), Other(Processed(s, ok));
    RunOne(d, ev1);
    RunOne(Step(d, ev1), ev2);
    RunAppend(d, [ev1], [ev2]);
    RelinkTwice(d.w, s, Finish(d.w.links[s]), Process(Finish(d.w.links[s]), ok));
    SameSepsRight(d, e.world);
    es := [ev1] + [ev2];
  }

  method EndStep(e: Engine, s: Session, ok: bool, ghost d: Side) returns (ghost es: seq<Event>)
    requires e.Valid() && s in e.world.links && Shows(e, d)
    modifies e`world, e`history, e`transaction, s`req, s`prioQueue, s`reqQueue
    ensures e.Valid() && PossibleRun(d, es) && Follows(e, d, es)
  {
    ghost var collided := s.req.Some? && s.req.value.collided;
    EndCollision(e, s, ok);
    if collided {
      es := NextFollows(e, d, s, ok);
    } else {
      es := [];
      FollowsNone(e, d);
    }
  }

  method LostStep(e: Engine, s: Session, ghost d: Side) returns (ghost es: seq<Event>)
    requires e.Valid() && s in e.world.links && Shows(e, d)
    modifies e`world, e`history, s`streams, s`pendingOpen, s`req, s`prioQueue, s`reqQueue, e.world.seps.Keys, s.streams
    ensures e.Valid() && PossibleRun(d, es) && Follows(e, d, es) && es == [ConnectionLost(s)]
  {
    e.ConnectionLost(s);
    es := [ConnectionLost(s)];
    LostFollows(e, d, s);
  }

  /** What the peer can ask for; `Plain` are the commands that are only answered. */
  datatype Command =
    | ToConfigure(seid: Option<nat>, rseid: nat, delay: bool, badTransport: bool, conf: ConfHook)
    | ToOpen(seid: Option<nat>, hook: nat)
    | ToStart(seids: seq<nat>, hooks: seq<nat>)
    | ToSuspend(seids: seq<nat>, hooks: seq<nat>)
    | ToClose(seid: Option<nat>, hook: nat)
    | ToAbort(seid: Option<nat>)
    | Plain

  /** avdtp_parse_cmd. */
  method ParseCmd(e: Engine, s: Session, cmd: Command, sent: bool, ok: bool, ghost d: Side)
    returns (handled: bool, ghost es: seq<Event>, ghost more: set<Stream>)
    requires e.Valid() && s in e.world.links && Shows(e, d)
    requires cmd.ToStart? || cmd.ToSuspend? ==> |cmd.hooks| == |cmd.seids|
    modifies e`world, e`history, e`transaction, s`version, s`streams, s`pendingOpen, s`req, s`prioQueue, s`reqQueue,
             e.world.seps.Keys, StreamsIn(e.world)`starting, StreamsIn(e.world)`startTimer,
             StreamsIn(e.world)`openAcp, StreamsIn(e.world)`timer
    ensures fresh(more) && e.Valid() && SameParts(d.w, e.world, more) && PossibleRun(d, es) && Follows(e, d, es)
  {
    more := {};
    match cmd
    case ToConfigure(seid, rseid, delay, badTransport, conf) =>
      handled, es, more := SetconfStep(e, s, seid, rseid, delay, badTransport, conf, sent, ok, d);
    case ToOpen(seid, hook) => handled, es := OpenStep(e, s, seid, hook, sent, d);
    case ToStart(seids, hooks) => handled, es := StartStep(e, s, seids, hooks, sent, d);
    case ToSuspend(seids, hooks) => handled, es := SuspendStep(e, s, seids, hooks, sent, d);
    case ToClose(seid, hook) => handled, es := CloseStep(e, s, seid, hook, sent, d);
    case ToAbort(seid) => handled, es := AbortStep(e, s, seid, sent, d);
    case Plain =>
      handled, es := sent, [];
      FollowsNone(e, d);
  }

  lemma KeepsSafe(e: Engine, d: Side, es: seq<Event>)
    requires e.Valid() && Agree(d.w) && PossibleRun(d, es) && Follows(e, d, es)
    ensures Safe(d) ==> TransportSafe(e.world)
  {
    if Safe(d) {
      NothingStrands(d, es);
      RunSafe(d, es);
      ShownSafe(e, Run(d, es));
    }
  }

  /** The rest of session_cb: a handler that failed loses the connection. */
  method AfterCommand(e: Engine, s: Session, handled: bool, ok: bool, ghost d: Side) returns (ghost es: seq<Event>)
    requires e.Valid() && s in e.world.links && Shows(e, d)
    modifies e`world, e`history, e`transaction, s`streams, s`pendingOpen, s`req, s`prioQueue, s`reqQueue,
             e.world.seps.Keys, s.streams
    ensures e.Valid() && PossibleRun(d, es) && Follows(e, d, es)
    ensures !handled ==> es == [ConnectionLost(s)]
  {
    if handled {
      es := EndStep(e, s, ok, d);
    } else {
      es := LostStep(e, s, d);
    }
  }

  /** All streams of a session are in SEPs. */
  lemma StreamsAreIn(e: Engine, s: Session)
    requires e.Valid() && s in e.world.links
    ensures forall st | st in s.streams :: st in StreamsIn(e.world)
  {
    forall st | st in s.streams
      ensures st in StreamsIn(e.world)
    {
      LiveStream(e.history, e.world, s, st);
    }
  }

  /** session_cb for a command. */
  method CommandStep(e: Engine, s: Session, cmd: Command, sent: bool, ok: bool, ghost d: Side)
    returns (handled: bool, ghost es: seq<Event>)
    requires e.Valid() && s in e.world.links && Shows(e, d)
    requires cmd.ToStart? || cmd.ToSuspend? ==> |cmd.hooks| == |cmd.seids|
    modifies e`world, e`history, e`transaction, s, e.world.seps.Keys, StreamsIn(e.world)
    ensures e.Valid() && PossibleRun(d, es) && Follows(e, d, es)
  {
    ghost var first, more, rest;
    handled, first, more := ParseCmd(e, s, cmd, sent, ok, d);
    StreamsAreIn(e, s);
    rest := AfterCommand(e, s, handled, ok, Run(d, first));
    RunAppend(d, first, rest);
    es := first + rest;
  }

  /**
    The same, whatever the command is and whatever becomes of it: the objects go through events of the
    acceptor's run, and afterwards media still has a channel.
   */
  method PeerCommand(e: Engine, s: Session, cmd: Command, sent: bool, ok: bool, ghost d: Side)
    returns (handled: bool, ghost es: seq<Event>)
    requires e.Valid() && s in e.world.links && Shows(e, d)
    requires cmd.ToStart? || cmd.ToSuspend? ==> |cmd.hooks| == |cmd.seids|
    modifies e`world, e`history, e`transaction, s, e.world.seps.Keys, StreamsIn(e.world)
    ensures e.Valid() && PossibleRun(d, es) && Follows(e, d, es)
    ensures old(TransportSafe(e.world)) ==> TransportSafe(e.world)
  {
    ShownSafe(e, d);
    handled, es := CommandStep(e, s, cmd, sent, ok, d);
    KeepsSafe(e, d, es);
  }

  // ----- channels -----

  /** `d` is right about the other streams. */
  ghost predicate RightBut(d: Side, st: Stream)
    reads StreamsIn(d.w) - {st}
  {
    forall o | o in StreamsIn(d.w) - {st} :: (o.io <==> o in d.wired) && (o.abortInt <==> o in d.aborting)
  }

  lemma ConnectFollows(e: Engine, d: Side, s: Session, st: Stream)
    requires Possible(d, Connects(s)) && d.w.links[s].pendingOpen == st && st.io
    requires e.world == Move(SetOpening(d.w, s, null), st.lsep, Open)
    requires RightBut(d, st) && (st.abortInt <==> st in d.aborting)
    ensures PossibleRun(d, [Connects(s)]) && Follows(e, d, [Connects(s)])
  {
    MoveStreams(SetOpening(d.w, s, null), st.lsep, Open);
    assert StreamsIn(SetOpening(d.w, s, null)) == StreamsIn(d.w);
    FollowsOne(e, d, Connects(s));
  }

  lemma UpFollows(e: Engine, d: Side, s: Session, st: Stream, accepted: bool) returns (es: seq<Event>)
    requires RightBut(d, st) && (st in StreamsIn(d.w) ==> (st.abortInt <==> st in d.aborting))
    requires accepted ==>
               && Possible(d, Connects(s)) && d.w.links[s].pendingOpen == st && st.io
               && e.world == Move(SetOpening(d.w, s, null), st.lsep, Open)
    requires !accepted ==> e.world == d.w && (st in StreamsIn(d.w) ==> (st.io <==> st in d.wired))
    ensures es == (if accepted then [Connects(s)] else []) && PossibleRun(d, es) && Follows(e, d, es)
  {
    if accepted {
      es := [Connects(s)];
      ConnectFollows(e, d, s, st);
    } else {
      es := [];
      FollowsNone(e, d);
    }
  }

  lemma CanConnect(e: Engine, s: Session, stream: Stream, d: Side)
    requires e.Valid() && s in e.world.links && stream.session == s && e.world == d.w
    ensures s.pendingOpen == stream ==> Possible(d, Connects(s)) && d.w.links[s].pendingOpen == stream
  {
    if s.pendingOpen == stream { LivePending(e.history, e.world, s, stream); }
  }

  method ConnectStep(e: Engine, s: Session, stream: Stream, ghost d: Side)
    returns (accepted: bool, ghost es: seq<Event>)
    requires e.Valid() && s in e.world.links && stream.session == s && Shows(e, d)
    modifies e`world, e`history, s`pendingOpen, stream.lsep`state, stream`io, stream`watch, stream`timer,
             stream`starting, stream`startTimer, stream`openAcp
    ensures e.Valid() && accepted == (old(s.pendingOpen) == stream)
    ensures es == (if accepted then [Connects(s)] else []) && PossibleRun(d, es) && Follows(e, d, es)
  {
    ghost var w1;
    assert RightBut(d, stream);
    CanConnect(e, s, stream, d);
    accepted, w1 := SetTransport(e, s, stream);
    es := UpFollows(e, d, s, stream, accepted);
  }

  /** A channel arrives for a stream: its SEP may carry media exactly if its session waited for it. */
  method ChannelUp(e: Engine, s: Session, stream: Stream, ghost d: Side) returns (accepted: bool, ghost es: seq<Event>)
    requires e.Valid() && s in e.world.links && stream.session == s && Shows(e, d)
    modifies e`world, e`history, s`pendingOpen, stream.lsep`state, stream`io, stream`watch, stream`timer,
             stream`starting, stream`startTimer, stream`openAcp
    ensures e.Valid() && accepted == (old(s.pendingOpen) == stream)
    ensures es == (if accepted then [Connects(s)] else []) && PossibleRun(d, es) && Follows(e, d, es)
    ensures old(TransportSafe(e.world)) ==> TransportSafe(e.world)
  {
    ShownSafe(e, d);
    accepted, es := ConnectStep(e, s, stream, d);
    KeepsSafe(e, d, es);
  }

  lemma DisconnectFollows(e: Engine, d: Side, h: History, st: Stream)
    requires Leads(h, d.w) && CanDetach(d.w, st) && e.world == Disconnected(d, st).w
    requires RightBut(d, st) && !(st in d.aborting && st.io) && (st.abortInt <==> st in d.aborting)
    ensures PossibleRun(d, [Disconnects(st)]) && Shows(e, Run(d, [Disconnects(st)]))
  {
    RunOne(d, Disconnects(st));
    LiveStream(h, d.w, st.session, st);
    assert StreamsIn(e.world) <= StreamsIn(d.w);
    if st !in d.aborting { DetachedFrom(h, d.w, st); }
  }

  lemma DetachedFrom(h: History, w: World, st: Stream)
    requires Leads(h, w) && CanDetach(w, st)
    ensures st !in StreamsIn(Detach(w, st))
  {
    HistorySound(h, w);
    OwnerOf(w, st.session, st);
  }

  lemma IsIn(e: Engine, s: Session, stream: Stream)
    requires e.Valid() && s in e.world.links && stream in s.streams
    ensures stream in StreamsIn(e.world)
  {
    LiveStream(e.history, e.world, s, stream);
  }

  method DisconnectStep(e: Engine, s: Session, stream: Stream, ghost d: Side)
    requires e.Valid() && s in e.world.links && stream in s.streams && Shows(e, d)
    modifies e`world, e`history, s`streams, s`pendingOpen, s`req, s`prioQueue, s`reqQueue, stream.lsep,
             stream`io, stream`watch, stream`timer, stream`startTimer
    ensures e.Valid() && PossibleRun(d, [Disconnects(stream)]) && Shows(e, Run(d, [Disconnects(stream)]))
  {
    ghost var h := e.history;
    IsIn(e, s, stream);
    assert RightBut(d, stream);
    TransportCb(e, s, stream, false);
    DisconnectFollows(e, d, h, stream);
  }

  lemma StrandsSafe(e: Engine, d: Side, st: Stream)
    requires e.Valid() && Agree(d.w) && PossibleRun(d, [Disconnects(st)]) && Shows(e, Run(d, [Disconnects(st)]))
    ensures Safe(d) ==> (TransportSafe(e.world) <==> !Strands(d, Disconnects(st)))
  {
    RunOne(d, Disconnects(st));
    if Safe(d) { StepSafe(d, Disconnects(st)); }
    ShownSafe(e, Run(d, [Disconnects(st)]));
  }

  lemma StrandsIs(e: Engine, s: Session, stream: Stream, d: Side)
    requires e.Valid() && s in e.world.links && stream in s.streams && Shows(e, d)
    ensures Strands(d, Disconnects(stream)) <==>
              stream.abortInt && (stream.lsep.state == Open || stream.lsep.state == Streaming)
  {
    LiveStream(e.history, e.world, s, stream);
    IsIn(e, s, stream);
  }

  /**
    The channel of a stream goes down. That leaves media without a channel exactly if the session is
    aborting the stream, which then stays where it is.
   */
  method ChannelDown(e: Engine, s: Session, stream: Stream, ghost d: Side)
    requires e.Valid() && s in e.world.links && stream in s.streams && Shows(e, d)
    modifies e`world, e`history, s`streams, s`pendingOpen, s`req, s`prioQueue, s`reqQueue, stream.lsep,
             stream`io, stream`watch, stream`timer, stream`startTimer
    ensures e.Valid() && PossibleRun(d, [Disconnects(stream)]) && Shows(e, Run(d, [Disconnects(stream)]))
    ensures old(TransportSafe(e.world)) ==>
              (TransportSafe(e.world) <==>
                 !(stream.abortInt && (old(stream.lsep.state) == Open || old(stream.lsep.state) == Streaming)))
  {
    ShownSafe(e, d);
    StrandsIs(e, s, stream, d);
    DisconnectStep(e, s, stream, d);
    StrandsSafe(e, d, stream);
  }
}
