/** Replies to the requests of a session, and the timers of its streams. */
module AvdtpReplies {
  import opened Prelude
  import opened AvdtpObjects
  import opened AvdtpRuns
  import opened AvdtpEngine
  import opened AvdtpInitiator
  import Q = AvdtpRequests

  /** The move to CONFIGURED; as a sink the session reports its delay. */
  method EnterConfigured(e: Engine, s: Session, stream: Stream, ok: bool) returns (r: PendingReq?)
    requires e.Valid() && s in e.world.links && stream in s.streams
    modifies e`world, e`history, e`transaction, s`req, s`prioQueue, s`reqQueue, stream.lsep`state, stream`delay
    ensures stream.lsep in old(e.world).seps
    ensures e.Valid() && e.world == e.Sent(Move(old(e.world), stream.lsep, Configured), s, r, true, ok)
    ensures e.Asks(r, DelayReport, stream, stream.rseid)
    ensures r != null <==> stream.lsep.sink && stream.delayReporting && s.version >= 0x0103 && !stream.abortInt
  {
    ghost var w := e.world;
    LiveStream(e.history, w, s, stream);
    r := e.ConfiguredTied(s, stream, ok);
    RecordEntered(e, w, s, stream, r, ok);
  }

  ghost method RecordEntered(e: Engine, w: World, s: Session, stream: Stream, r: PendingReq?, ok: bool)
    requires Leads(e.history, w) && s in w.links && stream in w.Streams(s) && (r != null ==> NewFor(w.links[s], r))
    requires stream.lsep in w.seps && e.world == ConfiguredWorld(w, s, stream, r, ok)
    modifies e`history
    ensures Leads(e.history, e.world)
  {
    var h := ConfiguredLeads(e.history, w, s, stream, r, ok);
    e.history := h;
  }

  // ----- accepted requests; `stream` is the stream of the outstanding request -----

  /** avdtp_set_configuration_resp. */
  method SetConfigurationResp(e: Engine, s: Session, stream: Stream, ok: bool) returns (r: PendingReq?)
    requires e.Valid() && s in e.world.links && s.ReqStream() == stream
    modifies e`world, e`history, e`transaction, s`req, s`prioQueue, s`reqQueue, stream.lsep`state, stream`delay
    ensures stream.lsep in old(e.world).seps
    ensures e.Valid() && e.world == e.Sent(Move(old(e.world), stream.lsep, Configured), s, r, true, ok)
    ensures e.Asks(r, DelayReport, stream, stream.rseid)
    ensures r != null <==> stream.lsep.sink && stream.delayReporting && s.version >= 0x0103 && !stream.abortInt
  {
    LiveLink(e.history, e.world, s);
    r := EnterConfigured(e, s, stream, ok);
  }

  /** avdtp_open_resp: now the session waits for the transport channel of the stream. */
  method OpenResp(e: Engine, s: Session, stream: Stream)
    requires e.Valid() && s in e.world.links && s.ReqStream() == stream
    modifies e`world, e`history, s`pendingOpen
    ensures e.Valid() && e.world == SetOpening(old(e.world), s, stream) && stream.session == s
  {
    LiveLink(e.history, e.world, s);
    LiveStream(e.history, e.world, s, stream);
    e.SetPending(s, stream);
  }

  /** avdtp_start_resp: the peer may have started the stream already. */
  method StartResp(e: Engine, s: Session, stream: Stream)
    requires e.Valid() && s in e.world.links && s.ReqStream() == stream
    modifies e`world, e`history, stream.lsep`state, stream`starting, stream`startTimer, stream`openAcp
    ensures stream.lsep in old(e.world).seps
    ensures e.Valid() && e.world == Move(old(e.world), stream.lsep, Streaming)
    ensures old(stream.lsep.state) != Streaming ==> !stream.openAcp && !stream.startTimer
  {
    LiveLink(e.history, e.world, s);
    LiveStream(e.history, e.world, s, stream);
    MoveNowhere(e.world, stream.lsep);
    if stream.lsep.state != Streaming { e.SetBusy(stream.lsep, Streaming); }
  }

  /** close_stream. */
  method CloseStream(stream: Stream)
    modifies stream`io
    ensures !stream.io
  {
    stream.io := false;
  }

  /** avdtp_close_resp: the initiator closes the transport channel. */
  method CloseResp(e: Engine, s: Session, stream: Stream)
    requires e.Valid() && s in e.world.links && s.ReqStream() == stream
    modifies e`world, e`history, stream.lsep`state, stream`starting, stream`startTimer, stream`openAcp, stream`io
    ensures stream.lsep in old(e.world).seps
    ensures e.Valid() && e.world == Move(old(e.world), stream.lsep, Closing)
    ensures !stream.io && !stream.startTimer
  {
    LiveLink(e.history, e.world, s);
    LiveStream(e.history, e.world, s, stream);
    e.SetBusy(stream.lsep, Closing);
    CloseStream(stream);
  }

  /** avdtp_suspend_resp. */
  method SuspendResp(e: Engine, s: Session, stream: Stream)
    requires e.Valid() && s in e.world.links && s.ReqStream() == stream
    modifies e`world, e`history, stream.lsep`state, stream`starting, stream`startTimer, stream`openAcp
    ensures stream.lsep in old(e.world).seps
    ensures e.Valid() && e.world == Move(old(e.world), stream.lsep, Open) && !stream.starting
  {
    LiveLink(e.history, e.world, s);
    LiveStream(e.history, e.world, s, stream);
    e.SetBusy(stream.lsep, Open);
  }

  /** avdtp_abort_resp: the stream is freed while its Abort is still outstanding. */
  method AbortResp(e: Engine, s: Session, stream: Stream) returns (ghost w1: World)
    requires e.Valid() && s in e.world.links && s.ReqStream() == stream
    modifies e`world, e`history, s`streams, s`pendingOpen, s`req, s`prioQueue, s`reqQueue, stream.lsep,
             stream`starting, stream`startTimer, stream`openAcp, stream`io, stream`watch, stream`timer
    ensures stream.lsep in old(e.world).seps && w1 == Move(old(e.world), stream.lsep, Aborting)
    ensures e.Valid() && CanDetach(w1, stream) && e.world == Detach(w1, stream) && stream.Quiet()
  {
    LiveLink(e.history, e.world, s);
    LiveStream(e.history, e.world, s, stream);
    e.SetBusy(stream.lsep, Aborting);
    w1 := e.world;
    e.SetIdle(s, stream.lsep, stream);
  }

  /** The requests that avdtp_discover_resp makes, for the end points it finds worth asking. */
  ghost predicate Inquiries(rs: seq<PendingReq>, seids: seq<nat>, version: nat) {
    && |rs| == |seids|
    && forall i | 0 <= i < |rs| ::
         rs[i].signal == CapabilitySignal(version) && rs[i].seid == seids[i] && rs[i].target == null
  }

  function CapabilitySignal(version: nat): Signal {
    if version >= 0x0103 then GetAllCapabilities else GetCapabilities
  }

  /** The loop of avdtp_discover_resp: the Discover is still outstanding, so every request is queued behind it. */
  method AskCapabilities(e: Engine, s: Session, seids: seq<nat>, ok: bool) returns (rs: seq<PendingReq>)
    requires e.Valid() && s in e.world.links && s.req.Some?
    modifies e`world, e`history, e`transaction, s`req, s`prioQueue, s`reqQueue
    ensures e.Valid() && e.world == Relink(old(e.world), s, Asked(old(e.world).links[s], rs))
    ensures Inquiries(rs, seids, s.version) && fresh(rs) && |rs| == |seids|
    ensures forall i | 0 <= i < |rs| ::
              && rs[i].signal == (if s.version >= 0x0103 then GetAllCapabilities else GetCapabilities)
              && rs[i].seid == seids[i] && rs[i].target == null
  {
    ghost var w, l := e.world, e.world.links[s];
    rs := [];
    AskedNone(l);
    MapSelf(w, s);
    var i := 0;
    while i < |seids|
      invariant i <= |seids| && Inquiries(rs, seids[..i], s.version) && fresh(rs)
      invariant e.Valid() && s.req.Some? && l.queues.out.Some?
      invariant e.world == Relink(w, s, Asked(l, rs))
    {
      var r := AskOne(e, s, seids[i], ok, w, l, rs);
      rs := rs + [r];
      i := i + 1;
    }
    assert seids[..i] == seids;
  }

  method AskOne(e: Engine, s: Session, seid: nat, ok: bool, ghost w: World, ghost l: Link, ghost rs: seq<PendingReq>)
    returns (r: PendingReq)
    requires e.Valid() && s in w.links && s.req.Some? && l.queues.out.Some? && e.world == Relink(w, s, Asked(l, rs))
    modifies e`world, e`history, e`transaction, s`req, s`prioQueue, s`reqQueue
    ensures e.Valid() && s.req.Some? && e.world == Relink(w, s, Asked(l, rs + [r]))
    ensures fresh(r) && r.signal == CapabilitySignal(s.version) && r.seid == seid && r.target == null
  {
    var success, q := e.Send(s, true, null, CapabilitySignal(s.version), seid, ok);
    r := q;
    AskedOneMore(l, rs, r, ok);
    RelinkTwice(w, s, Asked(l, rs), Asked(l, rs + [r]));
    assert s.Holds(e.world.links[s]);
  }

  lemma MapSelf(w: World, s: Session)
    requires s in w.links
    ensures Relink(w, s, w.links[s]) == w
  {
    assert w.links[s := w.links[s]] == w.links;
  }

  datatype Reply =
    | Accept(short: bool, seids: seq<nat>)   // `seids`: the end points of a Discover response that are asked
    | Reject(short: bool)
    | Other

  predicate IsCapability(signal: Signal) {
    signal == GetCapabilities || signal == GetAllCapabilities
  }

  /**
    What the acceptance of a request does to the pointers; `rs` are the requests it causes: those for
    the capabilities of end points, or a delay report.
   */
  ghost predicate Responds(w: World, w': World, s: Session, stream: Stream?, signal: Signal, rs: seq<PendingReq>,
                           ok: bool)
    requires s in w.links && (stream != null ==> CanDetach(w, stream))
  {
    if signal == Discover then w' == Relink(w, s, Asked(w.links[s], rs))
    else if stream == null then w' == w
    else match signal
      case SetConfiguration =>
        var w1 := Move(w, stream.lsep, Configured);
        w' == if rs == [] then w1 else Relink(w1, s, Submit(w1.links[s], rs[0], true, ok))
      case OpenStream => w' == SetOpening(w, s, stream)
      case Start => w' == Move(w, stream.lsep, Streaming)
      case Close => w' == Move(w, stream.lsep, Closing)
      case Suspend => w' == Move(w, stream.lsep, Open)
      case Abort => w' == Detach(Move(w, stream.lsep, Aborting), stream)
      case _ => w' == w
  }

  /** avdtp_parse_resp, for the request of a stream. */
  method ParseStreamResp(e: Engine, s: Session, signal: Signal, stream: Stream, ok: bool)
    returns (rs: seq<PendingReq>)
    requires e.Valid() && s in e.world.links && s.ReqStream() == stream && signal != Discover
    modifies e`world, e`history, e`transaction, s`streams, s`pendingOpen, s`req, s`prioQueue, s`reqQueue,
             stream, stream.lsep
    ensures CanDetach(old(e.world), stream)
    ensures e.Valid() && Responds(old(e.world), e.world, s, stream, signal, rs, ok)
    ensures signal == Close ==> !stream.io
    ensures fresh(rs) && |rs| <= 1 && forall r | r in rs :: r.signal == DelayReport && r.target == stream
  {
    rs := [];
    LiveLink(e.history, e.world, s);
    LiveStream(e.history, e.world, s, stream);
    match signal
    case SetConfiguration =>
      var r := SetConfigurationResp(e, s, stream, ok);
      if r != null { rs := [r]; }
    case OpenStream => OpenResp(e, s, stream);
    case Start => StartResp(e, s, stream);
    case Close => CloseResp(e, s, stream);
    case Suspend => SuspendResp(e, s, stream);
    case Abort =>
      ghost var w1 := AbortResp(e, s, stream);
    case _ =>
  }

  /** The end of session_cb: the outstanding request is done, the next one goes out. */
  method Advance(e: Engine, s: Session, ok: bool)
    requires e.Valid() && s in e.world.links
    modifies e`world, e`history, e`transaction, s`req, s`prioQueue, s`reqQueue
    ensures e.Valid() && e.world == Relink(old(e.world), s, Process(Finish(old(e.world).links[s]), ok))
    ensures old(s.req).Some? ==> e.world.links[s].queues == Q.Answer(old(e.world).links[s].queues, ok)
  {
    ghost var w := e.world;
    e.FreeReq(s);
    e.NextReq(s, ok);
    RelinkTwice(w, s, Finish(w.links[s]), Process(Finish(w.links[s]), ok));
  }

  /** Whether session_cb takes a message for the reply to the outstanding request. */
  predicate Fits(s: Session, transaction: nat, signal: Signal)
    reads s
  {
    s.req.Some? && s.req.value.transaction == transaction && s.req.value.r.signal == signal
  }

  /** Whether a reply is refused: one too short, and the reject of an Abort. */
  predicate Refused(reply: Reply, signal: Signal) {
    match reply
    case Accept(short, _) => short && IsCapability(signal)
    case Reject(short) => short || signal == Abort
    case Other => false
  }

  /** The part of session_cb that understands a reply; if it is refused the connection is lost. */
  method Understand(e: Engine, s: Session, reply: Reply, signal: Signal, stream: Stream?, ok: bool)
    returns (lost: bool, rs: seq<PendingReq>)
    requires e.Valid() && s in e.world.links && s.req.Some? && s.ReqStream() == stream
    modifies e`world, e`history, e`transaction, s`streams, s`pendingOpen, s`req, s`prioQueue, s`reqQueue,
             e.world.seps.Keys, s.streams
    ensures e.Valid() && lost == Refused(reply, signal) && fresh(rs)
    ensures stream != null ==> CanDetach(old(e.world), stream)
    ensures if lost then e.world == DetachMany(old(e.world), s, AllStreams(old(e.world), s))
            else if reply.Accept? then Responds(old(e.world), e.world, s, stream, signal, rs, ok)
            else e.world == old(e.world)
    ensures !lost && reply.Accept? && signal == Discover ==> Inquiries(rs, reply.seids, s.version)
    ensures !lost && reply.Reject? && stream != null && stream.lsep.confirms ==>
              (signal == Start ==> !stream.starting) && (signal == Close ==> !stream.closeInt)
  {
    rs := [];
    LiveLink(e.history, e.world, s);
    if stream != null { LiveStream(e.history, e.world, s, stream); }
    if Refused(reply, signal) {
      e.ConnectionLost(s);
      return true, rs;
    }
    match reply {
      case Accept(_, seids) =>
        if signal == Discover {
          rs := AskCapabilities(e, s, seids, ok);
        } else if stream != null {
          rs := ParseStreamResp(e, s, signal, stream, ok);
        }
      case Reject(_) =>
        if stream != null { RejectedFlags(stream, signal); }
      case Other =>
    }
    return false, rs;
  }

  /** session_cb, for the reply to the outstanding request: `w1` is the world once it is understood. */
  method TakeReply(e: Engine, s: Session, reply: Reply, signal: Signal, stream: Stream?, ok: bool, okNext: bool)
    returns (lost: bool, rs: seq<PendingReq>, ghost w1: World)
    requires e.Valid() && s in e.world.links && s.req.Some? && s.ReqStream() == stream
    modifies e`world, e`history, e`transaction, s`streams, s`pendingOpen, s`req, s`prioQueue, s`reqQueue,
             e.world.seps.Keys, s.streams
    ensures e.Valid() && lost == Refused(reply, signal) && fresh(rs)
    ensures stream != null ==> CanDetach(old(e.world), stream)
    ensures if lost then w1 == DetachMany(old(e.world), s, AllStreams(old(e.world), s))
            else if reply.Accept? then Responds(old(e.world), w1, s, stream, signal, rs, ok)
            else w1 == old(e.world)
    ensures !lost && reply.Accept? && signal == Discover ==> Inquiries(rs, reply.seids, s.version)
    ensures lost ==> e.world == w1
    ensures !lost ==> s in w1.links && e.world == Relink(w1, s, Process(Finish(w1.links[s]), okNext))
  {
    e.StopReqTimer(s);
    lost, rs := Understand(e, s, reply, signal, stream, ok);
    w1 := e.world;
    if !lost { Advance(e, s, okNext); }
  }

  /** session_cb, for any reply: only one with the label and the signal of the outstanding request is taken. */
  method SessionReply(e: Engine, s: Session, reply: Reply, transaction: nat, signal: Signal, ok: bool, okNext: bool)
    returns (fits: bool, lost: bool, rs: seq<PendingReq>, ghost w1: World, ghost stream: Stream?)
    requires e.Valid() && s in e.world.links
    modifies e`world, e`history, e`transaction, s`streams, s`pendingOpen, s`req, s`prioQueue, s`reqQueue,
             e.world.seps.Keys, s.streams
    ensures e.Valid() && fresh(rs) && stream == old(s.ReqStream())
    ensures fits == old(s.req.Some? && s.req.value.transaction == transaction && s.req.value.r.signal == signal)
    ensures !fits ==> e.world == old(e.world)
    ensures fits ==>
              (lost <==> (reply.Accept? && reply.short && (signal == GetCapabilities || signal == GetAllCapabilities))
                         || (reply.Reject? && (reply.short || signal == Abort)))
    ensures fits && stream != null ==> CanDetach(old(e.world), stream)
    ensures fits ==>
              if lost then w1 == DetachMany(old(e.world), s, AllStreams(old(e.world), s))
              else if reply.Accept? then Responds(old(e.world), w1, s, stream, signal, rs, ok)
              else w1 == old(e.world)
    ensures fits && lost ==> e.world == w1
    ensures fits && !lost && reply.Accept? && signal == Discover ==> Inquiries(rs, reply.seids, s.version)
    ensures fits && !lost ==> s in w1.links && e.world == Relink(w1, s, Process(Finish(w1.links[s]), okNext))
  {
    fits, lost, rs, w1, stream := Fits(s, transaction, signal), false, [], e.world, s.ReqStream();
    LiveLink(e.history, e.world, s);
    if fits { lost, rs, w1 := TakeReply(e, s, reply, signal, s.ReqStream(), ok, okNext); }
  }

  /** avdtp_parse_rej, which undoes what the request had announced. */
  method RejectedFlags(stream: Stream, signal: Signal)
    modifies stream`starting, stream`closeInt
    ensures stream.starting == (old(stream.starting) && !(signal == Start && stream.lsep.confirms))
    ensures stream.closeInt == (old(stream.closeInt) && !(signal == Close && stream.lsep.confirms))
  {
    if signal == Start && stream.lsep.confirms { stream.starting := false; }
    if signal == Close && stream.lsep.confirms { stream.closeInt := false; }
  }

  // ----- timers -----

  /** Starts the stream without waiting for the peer any longer. */
  method StartNow(e: Engine, s: Session, stream: Stream, ok: bool) returns (success: bool, r: PendingReq?)
    requires e.Valid() && s in e.world.links
    modifies e`world, e`history, e`transaction, s`req, s`prioQueue, s`reqQueue,
             stream`startTimer, stream`starting, stream`openAcp
    ensures e.Valid() && e.world == e.Sent(old(e.world), s, r, false, ok) && e.Asks(r, Start, stream, stream.rseid)
    ensures !stream.openAcp && (r != null <==> old(e.MayStart(s, stream)) && !stream.abortInt)
  {
    LetStart(stream);
    success, r := e.AvdtpStart(s, stream, ok);
  }

  /** start_timeout: the peer did not start the stream it opened, so the session does. */
  method StartTimeout(e: Engine, s: Session, stream: Stream, ok: bool) returns (success: bool, r: PendingReq?)
    requires e.Valid() && s in e.world.links
    modifies e`world, e`history, e`transaction, s`req, s`prioQueue, s`reqQueue,
             stream`startTimer, stream`starting, stream`openAcp
    ensures e.Valid() && e.world == e.Sent(old(e.world), s, r, false, ok) && e.Asks(r, Start, stream, stream.rseid)
    ensures !stream.openAcp && !stream.startTimer
    ensures r != null <==> old(e.MayStart(s, stream)) && !stream.abortInt
  {
    success, r := StartNow(e, s, stream, ok);
    StopStartTimer(stream);
  }

  method LetStart(stream: Stream)
    modifies stream`openAcp
    ensures !stream.openAcp
  {
    stream.openAcp := false;
  }

  method StopStartTimer(stream: Stream)
    modifies stream`startTimer
    ensures !stream.startTimer
  {
    stream.startTimer := false;
  }

  /** The first half of stream_open_timeout. */
  method GiveUpOpening(e: Engine, s: Session, stream: Stream)
    requires e.Valid() && s in e.world.links
    modifies e`world, e`history, s`pendingOpen, stream`timer
    ensures e.Valid() && e.world == SetOpening(old(e.world), s, null) && !stream.timer
  {
    StopTimer(stream);
    e.SetPending(s, null);
  }

  method StopTimer(stream: Stream)
    modifies stream`timer
    ensures !stream.timer
  {
    stream.timer := false;
  }

  /** stream_open_timeout: whatever the session waits for, it no longer does, and the stream is aborted. */
  method StreamOpenTimeout(e: Engine, s: Session, stream: Stream, ok: bool)
    returns (abort: PendingReq?, ghost w1: World, ghost w2: World, ghost cancels: bool, ghost target: Stream?)
    requires e.Valid() && s in e.world.links && stream.session == s
    modifies e`world, e`history, e`transaction, s`streams, s`pendingOpen, s`req, s`prioQueue, s`reqQueue,
             e.world.seps.Keys, s.streams, stream`abortInt, stream`timer
    ensures e.Valid() && w1 == SetOpening(old(e.world), s, null)
    ensures cancels == old(MayAbort(s, stream) && Pending(s, stream))
    ensures cancels ==>
              && target == Suspect(old(s.streams), old(s.req).value.r)
              && w2 == Relink(w1, s, Finish(w1.links[s]))
              && (abort != null <==> Abortable(old(s.streams), old(s.req).value.r, ok))
              && e.Asks(abort, Abort, target, old(s.req).value.r.seid)
              && (abort != null ==> e.world == Relink(w2, s, Submit(w2.links[s], abort, true, true)))
              && (abort == null ==> e.world == DetachMany(w2, s, AllStreams(w2, s)))
    ensures !cancels ==>
              && e.world == e.Sent(w1, s, abort, true, ok) && e.Asks(abort, Abort, stream, stream.rseid)
              && (abort != null <==> old(MayAbort(s, stream)))
  {
    GiveUpOpening(e, s, stream);
    w1 := e.world;
    abort, w2, cancels, target := AvdtpAbort(e, s, stream, ok);
  }

  /**
    stream_close_timeout: the session closes the channel the peer was to close. That leaves media
    without a channel exactly if the SEP is no longer on its way to be closed.
   */
  method StreamCloseTimeout(e: Engine, s: Session, stream: Stream)
    requires e.Valid() && s in e.world.links && stream in s.streams
    modifies stream`timer, stream`io
    ensures e.Valid() && !stream.timer && !stream.io
    ensures old(TransportSafe(e.world)) ==>
              (TransportSafe(e.world) <==> stream.lsep.state != Open && stream.lsep.state != Streaming)
  {
    LiveStream(e.history, e.world, s, stream);
    StopTimer(stream);
    CloseStream(stream);
    OnlyItsOwn(e, stream);
  }

  /** No other SEP has the stream. */
  lemma OnlyItsOwn(e: Engine, stream: Stream)
    requires e.Valid()
    ensures forall p | p in e.world.seps && p.stream == stream :: stream.lsep == p
  {
    forall p | p in e.world.seps && p.stream == stream
      ensures stream.lsep == p
    {
      LiveSep(e.history, e.world, p);
    }
  }
}
