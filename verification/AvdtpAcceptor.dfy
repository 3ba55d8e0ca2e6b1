/**
  The commands of the peer and what happens on the transport channels. `sent` is whether the
  response was transmitted, hooks are the answers of the upper layer, a command too short for its
  SEID has none. A handler that returns false makes the session drop the connection.
*/
module AvdtpAcceptor {
  import opened Prelude
  import opened AvdtpObjects
  import opened AvdtpRuns
  import opened AvdtpEngine
  import opened AvdtpInitiator
  import opened AvdtpReplies

  const BAD_ACP_SEID := 0x12
  const SEP_IN_USE := 0x13
  const BAD_MEDIA_TRANSPORT_FORMAT := 0x23
  const UNSUPPORTED_CONFIGURATION := 0x29
  const BAD_STATE := 0x31

  method FindLocalSep(e: Engine, seid: nat) returns (r: LocalSep?)
    ensures r == BySeid(e.lseps, seid)
  {
    var i := 0;
    while i < |e.lseps|
      invariant i <= |e.lseps| && BySeid(e.lseps[i..], seid) == BySeid(e.lseps, seid)
    {
      if e.lseps[i].seid == seid { return e.lseps[i]; }
      i := i + 1;
    }
    return null;
  }

  /** Whether the command collides with the session's own outstanding request for the same stream. */
  predicate Collides(req: Option<Outstanding>, cmd: Signal, rseid: nat) {
    && req.Some? && (req.value.r.signal == cmd || cmd == Abort)
    && req.value.r.signal in {OpenStream, Close, Start, Suspend} && req.value.r.seid == rseid
  }

  /** What that makes of it. */
  function Collided(req: Option<Outstanding>, cmd: Signal, rseid: nat): Option<Outstanding> {
    if Collides(req, cmd, rseid) then Some(req.value.(collided := true)) else req
  }

  /** avdtp_check_collision. */
  method CheckCollision(e: Engine, s: Session, cmd: Signal, stream: Stream)
    requires e.Tied() && s in e.world.links
    modifies s`req
    ensures e.Tied() && s.req == Collided(old(s.req), cmd, stream.rseid)
    ensures var q := old(s.req);
            s.req == if q.Some? && (q.value.r.signal == cmd || cmd == Abort) && q.value.r.seid == stream.rseid
                        && (q.value.r.signal == OpenStream || q.value.r.signal == Close || q.value.r.signal == Start
                            || q.value.r.signal == Suspend)
                     then Some(q.value.(collided := true)) else q
  {
    if s.req.None? { return; }
    var signal := s.req.value.r.signal;
    if signal != cmd && cmd != Abort { return; }
    if signal == OpenStream || signal == Close || signal == Start || signal == Suspend {
      if s.req.value.r.seid == stream.rseid { e.CollideTied(s); }
    }
  }

  // ----- Set Configuration -----

  /** The upper layer accepts, refuses, or answers through the callback: at once, or later. */
  datatype ConfHook = NoHook | Refuses | CallsBack(failed: bool) | Defers

  /** A stream enters its session and its SEP, and the SEP is configured. */
  method Enter(e: Engine, s: Session, stream: Stream, ok: bool) returns (r: PendingReq?)
    requires e.Tied() && Placed(e.world, stream) && stream.session == s
    modifies e`world, e`transaction, s`streams, s`req, s`prioQueue, s`reqQueue,
             stream.lsep`stream, stream.lsep`inuse, stream.lsep`state, stream`delay
    ensures e.Tied() && e.Asks(r, DelayReport, stream, stream.rseid)
    ensures e.world == ConfiguredWorld(Attach(old(e.world), stream), s, stream, r, ok)
    ensures r != null <==> stream.lsep.sink && stream.delayReporting && s.version >= 0x0103 && !stream.abortInt
  {
    e.AttachTied(stream);
    r := e.ConfiguredTied(s, stream, ok);
  }

  /** The end of an accepted configuration, on the objects. */
  method Configure(e: Engine, s: Session, stream: Stream, sent: bool, ok: bool) returns (r: PendingReq?)
    requires e.Tied() && Placed(e.world, stream) && stream.session == s
    modifies e`world, e`transaction, s`streams, s`req, s`prioQueue, s`reqQueue,
             stream.lsep`stream, stream.lsep`inuse, stream.lsep`state,
             stream`io, stream`watch, stream`timer, stream`startTimer, stream`delay
    ensures e.Tied() && e.Asks(r, DelayReport, stream, stream.rseid) && (stream.io ==> old(stream.io))
    ensures e.world == if sent then ConfiguredWorld(Attach(old(e.world), stream), s, stream, r, ok)
                       else Vacate(old(e.world), stream.lsep)
    ensures r != null <==>
              sent && stream.lsep.sink && stream.delayReporting && s.version >= 0x0103 && !stream.abortInt
  {
    if sent {
      r := Enter(e, s, stream, ok);
    } else {
      FreeUnattached(e, stream);
      r := null;
    }
  }

  /** The history goes on exactly if the SEP was free. */
  ghost method RecordConfigured(e: Engine, w: World, st: Stream, r: PendingReq?, sent: bool, ok: bool)
    requires Leads(e.history, w) && Placed(w, st) && st !in w.freed && st !in w.Streams(st.session)
    requires r != null ==> r.target == st && NewFor(Attach(w, st).links[st.session], r)
    requires e.world == if sent then ConfiguredWorld(Attach(w, st), st.session, st, r, ok) else Vacate(w, st.lsep)
    modifies e`history
    ensures w.seps[st.lsep].stream == null ==> Leads(e.history, e.world)
    ensures Agree(e.world) <==> w.seps[st.lsep].stream == null
  {
    VacatedOutcome(e.history, w, st.lsep);
    SetconfNeedsFreeSep(e.history, w, st, r, ok);
    if sent && w.seps[st.lsep].stream == null {
      var h := SetconfLeads(e.history, w, st, r, ok);
      e.history := h;
    }
  }

  /**
    setconf_cb, for the stream of a Set Configuration: it enters SEP and session exactly if the upper
    layer accepts and that was transmitted. If the upper layer took its time, the SEP need not be free
    any more, and then the pointers do not agree.
   */
  method SetconfCb(e: Engine, s: Session, stream: Stream, failed: bool, sent: bool, ok: bool)
    returns (r: PendingReq?)
    requires e.Valid() && Placed(e.world, stream) && stream.session == s
    requires stream !in e.world.freed && stream !in s.streams
    modifies e`world, e`history, e`transaction, s`streams, s`req, s`prioQueue, s`reqQueue,
             stream.lsep`stream, stream.lsep`inuse, stream.lsep`state,
             stream`io, stream`watch, stream`timer, stream`startTimer, stream`delay
    ensures e.Tied() && (failed || old(stream.lsep.stream) == null ==> e.Valid())
    ensures Agree(e.world) <==> failed || old(stream.lsep.stream) == null
    ensures stream.io ==> old(stream.io)
    ensures e.Asks(r, DelayReport, stream, stream.rseid)
    ensures e.world == if failed then old(e.world)
                       else if sent then ConfiguredWorld(Attach(old(e.world), stream), s, stream, r, ok)
                       else Vacate(old(e.world), stream.lsep)
  {
    if failed {
      HistorySound(e.history, e.world);
      return null;
    }
    ghost var w := e.world;
    r := Configure(e, s, stream, sent, ok);
    RecordConfigured(e, w, stream, r, sent, ok);
  }

  /** The stream a Set Configuration creates; it raises the version of the session to 1.3 if it reports delays. */
  method NewStream(e: Engine, s: Session, sep: LocalSep, rseid: nat, delay: bool) returns (stream: Stream)
    requires e.Valid() && s in e.world.links
    modifies s`version
    ensures e.Valid() && fresh(stream) && stream.session == s && stream.lsep == sep && stream.rseid == rseid
    ensures stream.delayReporting == delay && !stream.abortInt && !stream.io
    ensures s.version == if delay && old(s.version) < 0x0103 then 0x0103 else old(s.version)
  {
    RaiseVersion(s, delay);
    stream := new Stream(s, sep, rseid, delay);
  }

  method RaiseVersion(s: Session, delay: bool)
    modifies s`version
    ensures s.version == if delay && old(s.version) < 0x0103 then 0x0103 else old(s.version)
  {
    if delay && s.version < 0x0103 { s.version := 0x0103; }
  }

  /** A stream that is not wanted, for a free SEP. */
  method Discard(e: Engine, stream: Stream)
    requires e.Valid() && stream.lsep in e.world.seps && stream.lsep.stream == null
    modifies e`world, stream.lsep`stream, stream.lsep`inuse, stream`io, stream`watch, stream`timer, stream`startTimer
    ensures e.Valid() && e.world == old(e.world)
  {
    VacatedOutcome(e.history, e.world, stream.lsep);
    FreeUnattached(e, stream);
  }

  /** An acceptance at once, for a free SEP. */
  method Accepted(e: Engine, s: Session, stream: Stream, failed: bool, sent: bool, ok: bool) returns (r: PendingReq?)
    requires e.Valid() && Placed(e.world, stream) && stream.session == s && stream.lsep.stream == null
    requires stream !in e.world.freed && stream !in s.streams
    modifies e`world, e`history, e`transaction, s`streams, s`req, s`prioQueue, s`reqQueue,
             stream.lsep`stream, stream.lsep`inuse, stream.lsep`state,
             stream`io, stream`watch, stream`timer, stream`startTimer, stream`delay
    ensures e.Valid() && e.Asks(r, DelayReport, stream, stream.rseid)
    ensures stream.io ==> old(stream.io)
    ensures e.world == if !failed && sent then ConfiguredWorld(Attach(old(e.world), stream), s, stream, r, ok)
                       else old(e.world)
  {
    VacatedOutcome(e.history, e.world, stream.lsep);
    r := SetconfCb(e, s, stream, failed, sent, ok);
  }

  /** The part of avdtp_setconf_cmd for a free SEP; `attached` is whether the new stream is in it afterwards. */
  method SetconfSep(e: Engine, s: Session, sep: LocalSep, rseid: nat, delay: bool, badTransport: bool, hook: ConfHook,
                    sent: bool, ok: bool)
    returns (stream: Stream, attached: bool, r: PendingReq?)
    requires e.Valid() && s in e.world.links && sep in e.world.seps && sep.stream == null
    modifies e`world, e`history, e`transaction, s`version, s`streams, s`req, s`prioQueue, s`reqQueue, sep
    ensures e.Valid() && fresh(stream) && stream.session == s && stream.lsep == sep && stream.rseid == rseid
    ensures e.Asks(r, DelayReport, stream, rseid) && !stream.abortInt && (attached ==> !stream.io)
    ensures attached <==> !badTransport && (hook == NoHook || hook == CallsBack(false)) && sent
    ensures Placed(old(e.world), stream)
    ensures e.world == if attached then ConfiguredWorld(Attach(old(e.world), stream), s, stream, r, ok)
                       else old(e.world)
  {
    r, attached := null, false;
    stream := NewStream(e, s, sep, rseid, delay && !badTransport);
    if badTransport || hook == Refuses {
      Discard(e, stream);
      return;
    }
    if hook == Defers { return; }
    attached := sent && hook != CallsBack(true);
    r := Accepted(e, s, stream, hook == CallsBack(true), sent, ok);
  }

  /** avdtp_setconf_cmd. */
  method SetconfCmd(e: Engine, s: Session, seid: Option<nat>, rseid: nat, delay: bool, badTransport: bool,
                    hook: ConfHook, sent: bool, ok: bool)
    returns (handled: bool, error: nat, sep: LocalSep?, stream: Stream?, attached: bool, r: PendingReq?)
    requires e.Valid() && s in e.world.links
    modifies e`world, e`history, e`transaction, s`version, s`streams, s`req, s`prioQueue, s`reqQueue, e.world.seps.Keys
    ensures e.Valid() && sep == if seid.Some? then BySeid(e.lseps, seid.value) else null
    ensures error ==
            if sep == null then BAD_ACP_SEID else if old(sep.stream) != null then SEP_IN_USE
            else if badTransport then BAD_MEDIA_TRANSPORT_FORMAT
            else if hook == Refuses || hook == CallsBack(true) then UNSUPPORTED_CONFIGURATION else 0
    ensures handled ==
              (seid.Some? && (sent || ((hook.CallsBack? || hook.Defers?) && error in {0, UNSUPPORTED_CONFIGURATION})))
    ensures attached <==> error == 0 && sent && hook != Defers
    ensures !attached ==> e.world == old(e.world)
    ensures attached ==> (
              && stream != null && fresh(stream) && stream.session == s && stream.lsep == sep && stream.rseid == rseid
              && !stream.io && !stream.abortInt
              && CanAttach(old(e.world), stream) && e.Asks(r, DelayReport, stream, rseid)
              && e.world == ConfiguredWorld(Attach(old(e.world), stream), s, stream, r, ok))
  {
    attached, r, stream, sep := false, null, null, null;
    if seid.None? { return false, BAD_ACP_SEID, null, null, false, null; }
    sep := FindLocalSep(e, seid.value);
    if sep == null { return sent, BAD_ACP_SEID, sep, null, false, null; }
    if sep.stream != null { return sent, SEP_IN_USE, sep, null, false, null; }
    LiveList(e.history, e.world);
    error := if badTransport then BAD_MEDIA_TRANSPORT_FORMAT
             else if hook == Refuses || hook == CallsBack(true) then UNSUPPORTED_CONFIGURATION else 0;
    handled := sent || (!badTransport && (hook.CallsBack? || hook.Defers?));
    stream, attached, r := SetconfSep(e, s, sep, rseid, delay, badTransport, hook, sent, ok);
  }

  // ----- Start and Suspend -----

  /** Why a Start or Suspend of `sep` is refused before the upper layer is asked, or 0. */
  ghost function StreamError(w: World, sep: LocalSep?, expected: SepState): nat {
    if sep == null || sep !in w.seps || w.seps[sep].stream == null then BAD_ACP_SEID
    else if w.seps[sep].state != expected then BAD_STATE else 0
  }

  /** The stream of `sep`, if it is not refused. */
  ghost function Startable(w: World, sep: LocalSep?, expected: SepState): (r: Stream?)
    ensures r == null <==> StreamError(w, sep, expected) != 0
  {
    if StreamError(w, sep, expected) != 0 then null else w.seps[sep].stream
  }

  /** An accepted command takes the SEP to another state, after a look at the own request. */
  method TakeState(e: Engine, s: Session, cmd: Signal, sep: LocalSep, stream: Stream, state: SepState)
    requires e.Valid() && s in e.world.links && sep in e.world.seps && sep.stream == stream
    requires state != Idle && state != Configured
    modifies e`world, e`history, s`req, sep`state, stream`starting, stream`startTimer, stream`openAcp
    ensures e.Valid() && e.world == Move(old(e.world), sep, state)
    ensures stream.starting == (old(stream.starting) && state != Open)
    ensures stream.startTimer == (old(stream.startTimer) && state == Open)
    ensures stream.openAcp == (old(stream.openAcp) && state != Streaming)
    ensures s.req == Collided(old(s.req), cmd, stream.rseid)
  {
    CheckCollision(e, s, cmd, stream);
    e.SetBusy(sep, state);
  }

  /** What an iteration of avdtp_start_cmd does with an OPEN SEP, which is marked even if the upper layer refuses. */
  method StartSep(e: Engine, s: Session, sep: LocalSep, stream: Stream, hook: nat)
    requires e.Valid() && s in e.world.links && sep in e.world.seps && sep.stream == stream && sep.state == Open
    modifies e`world, e`history, s`req, sep`state, stream`starting, stream`startTimer, stream`openAcp
    ensures e.Valid() && e.world == if hook == 0 then Move(old(e.world), sep, Streaming) else old(e.world)
    ensures stream.starting && (hook == 0 ==> !stream.openAcp && !stream.startTimer)
    ensures s.req == if hook == 0 then Collided(old(s.req), Start, stream.rseid) else old(s.req)
  {
    MarkStarting(stream);
    if hook == 0 { TakeState(e, s, Start, sep, stream, Streaming); }
  }

  method MarkStarting(stream: Stream)
    modifies stream`starting
    ensures stream.starting
  {
    stream.starting := true;
  }

  /** What an iteration of avdtp_suspend_cmd does, once it found a STREAMING SEP. */
  method SuspendSep(e: Engine, s: Session, sep: LocalSep, stream: Stream, hook: nat)
    requires e.Valid() && s in e.world.links && sep in e.world.seps && sep.stream == stream && sep.state == Streaming
    modifies e`world, e`history, s`req, sep`state, stream`starting, stream`startTimer, stream`openAcp
    ensures e.Valid() && e.world == if hook == 0 then Move(old(e.world), sep, Open) else old(e.world)
    ensures hook == 0 ==> !stream.starting
    ensures s.req == if hook == 0 then Collided(old(s.req), Suspend, stream.rseid) else old(s.req)
  {
    if hook == 0 { TakeState(e, s, Suspend, sep, stream, Open); }
  }

  /** The same on the objects. */
  lemma StreamErrorIs(e: Engine, sep: LocalSep?, expected: SepState)
    requires e.Valid() && (sep == null || sep in e.lseps)
    ensures StreamError(e.world, sep, expected) ==
            if sep == null || sep.stream == null then BAD_ACP_SEID else if sep.state != expected then BAD_STATE else 0
    ensures Startable(e.world, sep, expected) == if sep != null && sep.state == expected then sep.stream else null
  {
    LiveList(e.history, e.world);
  }

  /** What a Start or Suspend of one SEP, accepted by the upper layer if `hook` is 0, makes of the pointers. */
  ghost function Ordered(w: World, sep: LocalSep?, hook: nat, from: SepState, to: SepState): World {
    if StreamError(w, sep, from) == 0 && hook == 0 then Move(w, sep, to) else w
  }

  lemma TakenOnce(w: World, sep: LocalSep, from: SepState, to: SepState)
    requires StreamError(w, sep, from) == 0 && from != to
    ensures StreamError(Move(w, sep, to), sep, from) == BAD_STATE && StreamsIn(Move(w, sep, to)) == StreamsIn(w)
  {
    MoveStreams(w, sep, to);
  }

  /** One iteration of avdtp_start_cmd. */
  method StartOne(e: Engine, s: Session, seid: nat, hook: nat) returns (error: nat, stream: Stream?)
    requires e.Valid() && s in e.world.links
    modifies e`world, e`history, s`req, e.world.seps.Keys`state,
             StreamsIn(e.world)`starting, StreamsIn(e.world)`startTimer, StreamsIn(e.world)`openAcp
    ensures e.Valid() && stream == Startable(old(e.world), BySeid(e.lseps, seid), Open)
    ensures error == if stream == null then StreamError(old(e.world), BySeid(e.lseps, seid), Open) else hook
    ensures e.world == Ordered(old(e.world), BySeid(e.lseps, seid), hook, Open, Streaming)
    ensures s.req == if error == 0 then Collided(old(s.req), Start, stream.rseid) else old(s.req)
    ensures if stream != null then stream.starting else unchanged(StreamsIn(e.world)`starting)
  {
    stream := null;
    LiveList(e.history, e.world);
    var sep := FindLocalSep(e, seid);
    if sep == null || sep.stream == null { return BAD_ACP_SEID, null; }
    if sep.state != Open { return BAD_STATE, null; }
    stream := sep.stream;
    StartSep(e, s, sep, stream, hook);
    return hook, stream;
  }

  /** One iteration of avdtp_suspend_cmd. */
  method SuspendOne(e: Engine, s: Session, seid: nat, hook: nat) returns (error: nat, stream: Stream?)
    requires e.Valid() && s in e.world.links
    modifies e`world, e`history, s`req, e.world.seps.Keys`state,
             StreamsIn(e.world)`starting, StreamsIn(e.world)`startTimer, StreamsIn(e.world)`openAcp
    ensures e.Valid() && stream == Startable(old(e.world), BySeid(e.lseps, seid), Streaming)
    ensures error == if stream == null then StreamError(old(e.world), BySeid(e.lseps, seid), Streaming) else hook
    ensures e.world == Ordered(old(e.world), BySeid(e.lseps, seid), hook, Streaming, Open)
    ensures s.req == if error == 0 then Collided(old(s.req), Suspend, stream.rseid) else old(s.req)
  {
    stream := null;
    LiveList(e.history, e.world);
    var sep := FindLocalSep(e, seid);
    if sep == null || sep.stream == null { return BAD_ACP_SEID, null; }
    if sep.state != Streaming { return BAD_STATE, null; }
    stream := sep.stream;
    SuspendSep(e, s, sep, stream, hook);
    return hook, stream;
  }

  /** avdtp_start_cmd: every iteration looks up the first SEID of the command, so a second one finds it started. */
  method StartCmd(e: Engine, s: Session, seids: seq<nat>, hooks: seq<nat>, sent: bool)
    returns (handled: bool, error: nat, failed: nat, ghost stream: Stream?)
    requires e.Valid() && s in e.world.links && |hooks| == |seids|
    modifies e`world, e`history, s`req, e.world.seps.Keys`state,
             StreamsIn(e.world)`starting, StreamsIn(e.world)`startTimer, StreamsIn(e.world)`openAcp
    ensures e.Valid() && handled == (seids != [] && sent)
    ensures seids == [] ==> e.world == old(e.world) && s.req == old(s.req)
    ensures seids != [] ==> (
              var sep := BySeid(e.lseps, seids[0]);
              && stream == Startable(old(e.world), sep, Open)
              && error == (if stream == null then StreamError(old(e.world), sep, Open)
                           else if hooks[0] != 0 then hooks[0] else if |seids| == 1 then 0 else BAD_STATE)
              && e.world == Ordered(old(e.world), sep, hooks[0], Open, Streaming)
              && s.req == (if stream != null && hooks[0] == 0 then Collided(old(s.req), Start, stream.rseid)
                           else old(s.req))
              && (error != 0 ==> failed == if stream == null || hooks[0] != 0 then seids[0] else seids[1]))
    ensures seids != [] && stream != null ==> stream.starting
  {
    error, failed, stream := 0, 0, null;
    if seids == [] { return false, 0, 0, null; }
    ghost var w, sep := e.world, BySeid(e.lseps, seids[0]);
    var i := 0;
    while i < |seids|
      invariant i <= |seids| && i <= 1 && error == 0 && e.Valid()
      invariant i == 0 ==> e.world == w && s.req == old(s.req)
      invariant i == 1 ==>
                  && stream != null && stream == Startable(w, sep, Open) && hooks[0] == 0 && stream.starting
                  && StreamError(e.world, sep, Open) == BAD_STATE
                  && e.world == Move(w, sep, Streaming) && s.req == Collided(old(s.req), Start, stream.rseid)
                  && StreamsIn(e.world) == StreamsIn(w)
    {
      failed := seids[i];
      var its;
      error, its := StartOne(e, s, seids[0], hooks[i]);
      if i == 0 { stream := its; }
      if error != 0 { break; }
      TakenOnce(w, sep, Open, Streaming);
      i := i + 1;
    }
    handled := sent;
  }

  /** avdtp_suspend_cmd, with the same lookup. */
  method SuspendCmd(e: Engine, s: Session, seids: seq<nat>, hooks: seq<nat>, sent: bool)
    returns (handled: bool, error: nat, failed: nat, ghost stream: Stream?)
    requires e.Valid() && s in e.world.links && |hooks| == |seids|
    modifies e`world, e`history, s`req, e.world.seps.Keys`state,
             StreamsIn(e.world)`starting, StreamsIn(e.world)`startTimer, StreamsIn(e.world)`openAcp
    ensures e.Valid() && handled == (seids != [] && sent)
    ensures seids == [] ==> e.world == old(e.world) && s.req == old(s.req)
    ensures seids != [] ==> (
              var sep := BySeid(e.lseps, seids[0]);
              && stream == Startable(old(e.world), sep, Streaming)
              && error == (if stream == null then StreamError(old(e.world), sep, Streaming)
                           else if hooks[0] != 0 then hooks[0] else if |seids| == 1 then 0 else BAD_STATE)
              && e.world == Ordered(old(e.world), sep, hooks[0], Streaming, Open)
              && s.req == (if stream != null && hooks[0] == 0 then Collided(old(s.req), Suspend, stream.rseid)
                           else old(s.req))
              && (error != 0 ==> failed == if stream == null || hooks[0] != 0 then seids[0] else seids[1]))
  {
    error, failed, stream := 0, 0, null;
    if seids == [] { return false, 0, 0, null; }
    ghost var w, sep := e.world, BySeid(e.lseps, seids[0]);
    var i := 0;
    while i < |seids|
      invariant i <= |seids| && i <= 1 && error == 0 && e.Valid()
      invariant i == 0 ==> e.world == w && s.req == old(s.req)
      invariant i == 1 ==>
                  && stream != null && stream == Startable(w, sep, Streaming) && hooks[0] == 0
                  && StreamError(e.world, sep, Streaming) == BAD_STATE
                  && e.world == Move(w, sep, Open) && s.req == Collided(old(s.req), Suspend, stream.rseid)
                  && StreamsIn(e.world) == StreamsIn(w)
    {
      failed := seids[i];
      var its;
      error, its := SuspendOne(e, s, seids[0], hooks[i]);
      if i == 0 { stream := its; }
      if error != 0 { break; }
      TakenOnce(w, sep, Streaming, Open);
      i := i + 1;
    }
    handled := sent;
  }

  // ----- Open, Close, Abort -----

  /** An Open that was not refused. */
  method AcceptOpen(e: Engine, s: Session, stream: Stream, sent: bool)
    requires e.Valid() && CanOpen(e.world, s, stream)
    modifies e`world, e`history, s`req, s`pendingOpen, stream`openAcp, stream`timer
    ensures e.Valid() && e.world == if sent then SetOpening(old(e.world), s, stream) else old(e.world)
    ensures sent ==> stream.openAcp && stream.timer && s.pendingOpen == stream
    ensures s.req == Collided(old(s.req), OpenStream, stream.rseid)
  {
    CheckCollision(e, s, OpenStream, stream);
    if !sent { return; }
    AwaitTransport(stream);
    e.SetPending(s, stream);
  }

  method AwaitTransport(stream: Stream)
    modifies stream`openAcp, stream`timer
    ensures stream.openAcp && stream.timer
  {
    stream.openAcp := true;
    stream.timer := true;
  }

  /** avdtp_open_cmd: the SEP is looked up among those of all sessions. */
  method OpenCmd(e: Engine, s: Session, seid: Option<nat>, hook: nat, sent: bool)
    returns (handled: bool, error: nat, sep: LocalSep?, stream: Stream?)
    requires e.Valid() && s in e.world.links
    modifies e`world, e`history, s`req, s`pendingOpen, StreamsIn(e.world)`openAcp, StreamsIn(e.world)`timer
    ensures e.Valid() && handled == (seid.Some? && sent)
    ensures sep == if seid.Some? then BySeid(e.lseps, seid.value) else null
    ensures error == if sep == null then BAD_ACP_SEID else if sep.state != Configured then BAD_STATE else hook
    ensures stream != null <==> error == 0
    ensures stream != null ==> CanOpen(old(e.world), s, stream) && stream == sep.stream
    ensures stream != null && sent ==> stream.openAcp && stream.timer && s.pendingOpen == stream
    ensures e.world == if stream != null && sent then SetOpening(old(e.world), s, stream) else old(e.world)
    ensures s.req == if stream != null then Collided(old(s.req), OpenStream, stream.rseid) else old(s.req)
  {
    sep, stream := null, null;
    if seid.None? { return false, BAD_ACP_SEID, null, null; }
    LiveList(e.history, e.world);
    sep := FindLocalSep(e, seid.value);
    if sep == null { return sent, BAD_ACP_SEID, sep, null; }
    if sep.state != Configured { return sent, BAD_STATE, sep, null; }
    if hook != 0 { return sent, hook, sep, null; }
    LiveSep(e.history, e.world, sep);
    AcceptOpen(e, s, sep.stream, sent);
    return sent, 0, sep, sep.stream;
  }

  /** Why a Close is refused before the upper layer is asked, or 0. */
  ghost function CloseError(w: World, sep: LocalSep?): nat {
    if sep == null || sep !in w.seps || w.seps[sep].stream == null then BAD_ACP_SEID
    else if !Carries(w.seps[sep].state) then BAD_STATE else 0
  }

  /** An accepted Close: the state changes before the response is sent. */
  method CloseSep(e: Engine, s: Session, sep: LocalSep, stream: Stream, sent: bool)
    requires e.Valid() && s in e.world.links && sep in e.world.seps && sep.stream == stream
    modifies e`world, e`history, s`req, sep`state,
             stream`starting, stream`startTimer, stream`openAcp, stream`timer
    ensures e.Valid() && e.world == Move(old(e.world), sep, Closing)
    ensures stream.timer == (old(stream.timer) || sent) && !stream.startTimer
    ensures s.req == Collided(old(s.req), Close, stream.rseid)
  {
    TakeState(e, s, Close, sep, stream, Closing);
    AwaitClose(stream, sent);
  }

  method AwaitClose(stream: Stream, sent: bool)
    modifies stream`timer
    ensures stream.timer == (old(stream.timer) || sent)
  {
    if sent { stream.timer := true; }
  }

  /** avdtp_close_cmd. */
  method CloseCmd(e: Engine, s: Session, seid: Option<nat>, hook: nat, sent: bool)
    returns (handled: bool, error: nat, sep: LocalSep?, stream: Stream?)
    requires e.Valid() && s in e.world.links
    modifies e`world, e`history, s`req, e.world.seps.Keys`state, StreamsIn(e.world)`starting,
             StreamsIn(e.world)`startTimer, StreamsIn(e.world)`openAcp, StreamsIn(e.world)`timer
    ensures e.Valid() && handled == (seid.Some? && sent)
    ensures sep == if seid.Some? then BySeid(e.lseps, seid.value) else null
    ensures CloseError(old(e.world), sep) == 0 && hook == 0 <==> error == 0
    ensures error ==
            if sep == null || old(sep.stream) == null then BAD_ACP_SEID
            else if old(sep.state) != Open && old(sep.state) != Streaming then BAD_STATE else hook
    ensures stream != null <==> error == 0
    ensures stream != null ==> (
              && sep in old(e.world).seps && sep.stream == stream
              && stream.timer == (old(sep.stream.timer) || sent) && !stream.startTimer)
    ensures e.world == if stream != null then Move(old(e.world), sep, Closing) else old(e.world)
    ensures s.req == if stream != null then Collided(old(s.req), Close, stream.rseid) else old(s.req)
  {
    sep, stream := null, null;
    if seid.None? { return false, BAD_ACP_SEID, null, null; }
    LiveList(e.history, e.world);
    sep := FindLocalSep(e, seid.value);
    if sep == null || sep.stream == null { return sent, BAD_ACP_SEID, sep, null; }
    if sep.state != Open && sep.state != Streaming { return sent, BAD_STATE, sep, null; }
    if hook != 0 { return sent, hook, sep, null; }
    CloseSep(e, s, sep, sep.stream, sent);
    return sent, 0, sep, sep.stream;
  }

  /** An Abort of a SEP in use: the state changes once the response is sent. */
  method AbortSep(e: Engine, s: Session, sep: LocalSep, stream: Stream, sent: bool)
    requires e.Valid() && s in e.world.links && sep in e.world.seps && sep.stream == stream
    modifies e`world, e`history, s`req, sep`state, stream`starting, stream`startTimer, stream`openAcp
    ensures e.Valid() && e.world == if sent then Move(old(e.world), sep, Aborting) else old(e.world)
    ensures s.req == Collided(old(s.req), Abort, stream.rseid) && (sent ==> !stream.startTimer)
  {
    if sent {
      TakeState(e, s, Abort, sep, stream, Aborting);
    } else {
      CheckCollision(e, s, Abort, stream);
    }
  }

  /** avdtp_abort_cmd: an unknown or unused SEP is ignored; the state changes only once the response is sent. */
  method AbortCmd(e: Engine, s: Session, seid: Option<nat>, sent: bool)
    returns (handled: bool, sep: LocalSep?, stream: Stream?)
    requires e.Valid() && s in e.world.links
    modifies e`world, e`history, s`req, e.world.seps.Keys`state,
             StreamsIn(e.world)`starting, StreamsIn(e.world)`startTimer, StreamsIn(e.world)`openAcp
    ensures e.Valid() && sep == if seid.Some? then BySeid(e.lseps, seid.value) else null
    ensures stream == if sep == null then null else sep.stream
    ensures handled == (seid.Some? && (stream == null || sent))
    ensures stream != null ==> sep in old(e.world).seps
    ensures e.world == if stream != null && sent then Move(old(e.world), sep, Aborting) else old(e.world)
    ensures s.req == if stream != null then Collided(old(s.req), Abort, stream.rseid) else old(s.req)
  {
    sep, stream := null, null;
    if seid.None? { return false, null, null; }
    sep := FindLocalSep(e, seid.value);
    if sep == null || sep.stream == null { return true, sep, null; }
    LiveList(e.history, e.world);
    AbortSep(e, s, sep, sep.stream, sent);
    return sent, sep, sep.stream;
  }

  /** The end of session_cb for a command that was handled: a collision ends the own request. */
  method EndCollision(e: Engine, s: Session, ok: bool)
    requires e.Valid() && s in e.world.links
    modifies e`world, e`history, e`transaction, s`req, s`prioQueue, s`reqQueue
    ensures e.Valid()
    ensures e.world == if old(s.req.Some? && s.req.value.collided)
                       then Relink(old(e.world), s, Process(Finish(old(e.world).links[s]), ok)) else old(e.world)
  {
    if s.req.Some? && s.req.value.collided { Advance(e, s, ok); }
  }

  // ----- the transport channel -----

  method TakeChannel(stream: Stream)
    modifies stream`timer, stream`io, stream`watch
    ensures !stream.timer && stream.io && stream.watch
  {
    stream.timer := false;
    stream.io := true;
    stream.watch := true;
  }

  /** handle_transport_connect, with a channel. */
  method TransportConnect(e: Engine, s: Session, stream: Stream) returns (ghost w1: World)
    requires e.Valid() && s in e.world.links && s.pendingOpen == stream && stream.session == s
    modifies e`world, e`history, s`pendingOpen, stream.lsep`state, stream`io, stream`watch, stream`timer,
             stream`starting, stream`startTimer, stream`openAcp
    ensures e.Valid() && w1 == SetOpening(old(e.world), s, null)
    ensures stream.lsep in w1.seps && e.world == Move(w1, stream.lsep, Open)
    ensures stream.io && stream.watch && !stream.timer && !stream.starting
  {
    LivePending(e.history, e.world, s, stream);
    e.SetPending(s, null);
    w1 := e.world;
    TakeChannel(stream);
    e.SetBusy(stream.lsep, Open);
  }

  /** avdtp_stream_set_transport: only the stream its session waits for gets a channel. */
  method SetTransport(e: Engine, s: Session, stream: Stream) returns (accepted: bool, ghost w1: World)
    requires e.Valid() && s in e.world.links && stream.session == s
    modifies e`world, e`history, s`pendingOpen, stream.lsep`state, stream`io, stream`watch, stream`timer,
             stream`starting, stream`startTimer, stream`openAcp
    ensures e.Valid() && accepted == (old(s.pendingOpen) == stream)
    ensures !accepted ==> e.world == old(e.world) && stream.io == old(stream.io)
    ensures accepted ==> w1 == SetOpening(old(e.world), s, null)
    ensures accepted ==> stream.lsep in w1.seps && e.world == Move(w1, stream.lsep, Open) && stream.io
  {
    w1 := e.world;
    if stream != s.pendingOpen { return false, w1; }
    w1 := TransportConnect(e, s, stream);
    return true, w1;
  }

  method LoseChannel(stream: Stream, invalid: bool)
    modifies stream`io, stream`watch
    ensures !stream.watch && stream.io == (old(stream.io) && invalid)
  {
    if !invalid { CloseStream(stream); }
    stream.watch := false;
  }

  /**
    transport_cb: the channel of a stream is gone. While the session aborts the stream, the SEP keeps its
    state; that is the one case that leaves media without a channel.
   */
  method TransportCb(e: Engine, s: Session, stream: Stream, invalid: bool)
    requires e.Valid() && s in e.world.links && stream in s.streams
    modifies e`world, e`history, s`streams, s`pendingOpen, s`req, s`prioQueue, s`reqQueue, stream.lsep,
             stream`io, stream`watch, stream`timer, stream`startTimer
    ensures e.Valid() && CanDetach(old(e.world), stream)
    ensures e.world == if stream.abortInt then old(e.world) else Detach(old(e.world), stream)
    ensures !stream.watch && stream.io == (stream.abortInt && old(stream.io) && invalid)
  {
    LiveStream(e.history, e.world, s, stream);
    OnlyItsOwn(e, stream);
    LoseChannel(stream, invalid);
    if !stream.abortInt { e.SetIdle(s, stream.lsep, stream); }
  }
}
