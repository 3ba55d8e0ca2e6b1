/**
  What a session does on its own account: it configures, aborts and closes streams, and cancels
  requests. `ok` arguments are the outcomes of transmissions.
*/
module AvdtpInitiator {
  import opened Prelude
  import opened AvdtpObjects
  import opened AvdtpRuns
  import opened AvdtpEngine

  method FindStreamByRseid(s: Session, rseid: nat) returns (r: Stream?)
    ensures r == ByRseid(s.streams, rseid)
  {
    var i := 0;
    while i < |s.streams|
      invariant i <= |s.streams| && ByRseid(s.streams[i..], rseid) == ByRseid(s.streams, rseid)
    {
      if s.streams[i].rseid == rseid { return s.streams[i]; }
      i := i + 1;
    }
    return null;
  }

  // ----- cancelling -----

  /** The signals for which cancel_request does not try an Abort. */
  predicate Hopeless(signal: Signal) {
    signal == SetConfiguration || signal == Discover || signal == GetCapabilities || signal == Abort
  }

  /** The stream cancel_request takes a request to be about: it goes by SEID, not by `reqStream`. */
  function Suspect(streams: seq<Stream>, req: PendingReq): Stream? {
    if req.signal == Discover || req.seid == 0 then null else ByRseid(streams, req.seid)
  }

  /** Whether an Abort takes the place of the request. */
  predicate Abortable(streams: seq<Stream>, req: PendingReq, ok: bool) {
    Suspect(streams, req) != null && !Hopeless(req.signal) && ok
  }

  /** What cancel_request tells the stream, before it knows whether the Abort can be sent. */
  method MarkCancelled(stream: Stream, signal: Signal)
    modifies stream`abortInt, stream`starting, stream`closeInt
    ensures stream.abortInt
    ensures stream.starting == (old(stream.starting) && !(signal == Start && stream.lsep.confirms))
    ensures stream.closeInt == (old(stream.closeInt) && !(signal == Close && stream.lsep.confirms))
  {
    stream.abortInt := true;
    if signal == Start && stream.lsep.confirms { stream.starting := false; }
    if signal == Close && stream.lsep.confirms { stream.closeInt := false; }
  }

  /** The second half of cancel_request, with nothing outstanding. */
  method AbortInstead(e: Engine, s: Session, stream: Stream?, req: PendingReq, ok: bool) returns (abort: PendingReq?)
    requires e.Valid() && s in e.world.links && s.req.None? && (stream == null || stream in s.streams)
    modifies e`world, e`history, e`transaction, s`streams, s`pendingOpen, s`req, s`prioQueue, s`reqQueue,
             e.world.seps.Keys, s.streams
    ensures e.Valid() && e.Asks(abort, Abort, stream, req.seid)
    ensures abort != null <==> stream != null && !Hopeless(req.signal) && ok
    ensures abort == null ==> e.world == DetachMany(old(e.world), s, AllStreams(old(e.world), s))
    ensures abort != null ==> e.world == Relink(old(e.world), s, Submit(old(e.world).links[s], abort, true, true))
    ensures abort != null ==> (
              && stream.abortInt
              && stream.starting == old(stream.starting && !(req.signal == Start && stream.lsep.confirms))
              && stream.closeInt == old(stream.closeInt && !(req.signal == Close && stream.lsep.confirms)))
  {
    if stream != null { MarkCancelled(stream, req.signal); }
    if Hopeless(req.signal) || stream == null {
      e.ConnectionLost(s);
      return null;
    }
    ghost var w := e.world;
    var success;
    success, abort := e.Send(s, true, stream, Abort, req.seid, ok);
    if !success {
      RefusedSubmit(w, s, abort, true);
      e.ConnectionLost(s);
      return null;
    }
  }

  /**
    cancel_request: an Abort takes the place of the outstanding request, or the connection is given up.
    `w1` is the world once that request is freed.
   */
  method CancelRequest(e: Engine, s: Session, ok: bool)
    returns (abort: PendingReq?, ghost w1: World, ghost stream: Stream?)
    requires e.Valid() && s in e.world.links && s.req.Some?
    modifies e`world, e`history, e`transaction, s`streams, s`pendingOpen, s`req, s`prioQueue, s`reqQueue,
             e.world.seps.Keys, s.streams
    ensures e.Valid() && w1 == Relink(old(e.world), s, Finish(old(e.world).links[s]))
    ensures var req := old(s.req).value.r;
            && stream == (if req.signal == Discover || req.seid == 0 then null else ByRseid(old(s.streams), req.seid))
            && (abort != null <==>
                  && stream != null && ok && req.signal != SetConfiguration && req.signal != Discover
                  && req.signal != GetCapabilities && req.signal != Abort)
    ensures e.Asks(abort, Abort, stream, old(s.req).value.r.seid)
    ensures abort == null ==> e.world == DetachMany(w1, s, AllStreams(w1, s))
    ensures abort != null ==> e.world == Relink(w1, s, Submit(w1.links[s], abort, true, true)) && stream.abortInt
  {
    var req := s.req.value.r;
    var st := null;
    if req.signal != Discover && req.seid != 0 { st := FindStreamByRseid(s, req.seid); }
    stream := st;
    e.FreeReq(s);
    w1 := e.world;
    abort := AbortInstead(e, s, st, req, ok);
  }

  /** The request timer: the peer did not reply. */
  method RequestTimeout(e: Engine, s: Session, ok: bool)
    returns (abort: PendingReq?, ghost w1: World, ghost stream: Stream?)
    requires e.Valid() && s in e.world.links && s.req.Some?
    modifies e`world, e`history, e`transaction, s`streams, s`pendingOpen, s`req, s`prioQueue, s`reqQueue,
             e.world.seps.Keys, s.streams
    ensures e.Valid() && w1 == Relink(old(e.world), s, Finish(old(e.world).links[s]))
    ensures stream == Suspect(old(s.streams), old(s.req).value.r)
    ensures abort != null <==> Abortable(old(s.streams), old(s.req).value.r, ok)
    ensures e.Asks(abort, Abort, stream, old(s.req).value.r.seid)
    ensures abort == null ==> e.world == DetachMany(w1, s, AllStreams(w1, s))
    ensures abort != null ==> e.world == Relink(w1, s, Submit(w1.links[s], abort, true, true)) && stream.abortInt
  {
    abort, w1, stream := CancelRequest(e, s, ok);
  }

  // ----- aborting and closing -----

  /** The request of avdtp_abort. */
  method RequestAbort(e: Engine, s: Session, stream: Stream, ok: bool) returns (abort: PendingReq)
    requires e.Valid() && s in e.world.links && stream in s.streams
    modifies e`world, e`history, e`transaction, s`req, s`prioQueue, s`reqQueue, stream`abortInt
    ensures e.Valid() && e.world == e.Sent(old(e.world), s, abort, true, ok)
    ensures e.Asks(abort, Abort, stream, stream.rseid)
    ensures stream.abortInt == (old(stream.abortInt) || old(s.req).Some? || ok)
  {
    var success, r := e.Send(s, true, stream, Abort, stream.rseid, ok);
    abort := r;
    MarkAborting(stream, success);
  }

  method MarkAborting(stream: Stream, success: bool)
    modifies stream`abortInt
    ensures stream.abortInt == (old(stream.abortInt) || success)
  {
    if success { stream.abortInt := true; }
  }

  predicate MayAbort(s: Session, stream: Stream)
    reads s, stream.lsep
  {
    stream in s.streams && stream.lsep.state != Aborting
  }

  /** Whether the outstanding request, with its timer running, is one for this stream. */
  predicate Pending(s: Session, stream: Stream)
    reads s
  {
    s.req.Some? && s.req.value.timeout && s.req.value.stream == stream
  }

  /**
    avdtp_abort: it cancels an outstanding request for the stream, and else sends an Abort. `target` is
    the stream that an Abort asks for: when it cancels, the one that the SEID of the request names.
   */
  method AvdtpAbort(e: Engine, s: Session, stream: Stream, ok: bool)
    returns (abort: PendingReq?, ghost w1: World, ghost cancels: bool, ghost target: Stream?)
    requires e.Valid() && s in e.world.links
    modifies e`world, e`history, e`transaction, s`streams, s`pendingOpen, s`req, s`prioQueue, s`reqQueue,
             e.world.seps.Keys, s.streams, stream`abortInt
    ensures e.Valid()
    ensures cancels ==
            old(stream in s.streams && stream.lsep.state != Aborting
                && s.req.Some? && s.req.value.timeout && s.req.value.stream == stream)
    ensures cancels ==>
              && target == Suspect(old(s.streams), old(s.req).value.r)
              && w1 == Relink(old(e.world), s, Finish(old(e.world).links[s]))
              && (abort != null <==> Abortable(old(s.streams), old(s.req).value.r, ok))
              && e.Asks(abort, Abort, target, old(s.req).value.r.seid)
              && (abort != null ==> e.world == Relink(w1, s, Submit(w1.links[s], abort, true, true)))
              && (abort == null ==> e.world == DetachMany(w1, s, AllStreams(w1, s)))
    ensures !cancels ==>
              && e.world == e.Sent(old(e.world), s, abort, true, ok) && e.Asks(abort, Abort, stream, stream.rseid)
              && (abort != null <==> old(stream in s.streams && stream.lsep.state != Aborting))
              && stream.abortInt == (old(stream.abortInt) || (abort != null && (old(s.req).Some? || ok)))
  {
    cancels, w1, target := false, e.world, stream;
    if stream !in s.streams { return null, w1, false, target; }
    if stream.lsep.state == Aborting { return null, w1, false, target; }
    if s.req.Some? && s.req.value.timeout && s.req.value.stream == stream {
      abort, w1, target := CancelRequest(e, s, ok);
      return abort, w1, true, target;
    }
    abort := RequestAbort(e, s, stream, ok);
  }

  /** The request of avdtp_close. */
  method RequestClose(e: Engine, s: Session, stream: Stream, ok: bool) returns (success: bool, r: PendingReq?)
    requires e.Valid() && s in e.world.links && stream in s.streams
    modifies e`world, e`history, e`transaction, s`req, s`prioQueue, s`reqQueue, stream`closeInt
    ensures e.Valid() && e.world == e.Sent(old(e.world), s, r, false, ok) && e.Asks(r, Close, stream, stream.rseid)
    ensures r != null <==> !stream.abortInt
    ensures success == (r != null && (old(s.req).Some? || ok))
    ensures stream.closeInt == (old(stream.closeInt) || success)
  {
    success, r := e.Send(s, false, stream, Close, stream.rseid, ok);
    MarkClosing(stream, success);
  }

  method MarkClosing(stream: Stream, success: bool)
    modifies stream`closeInt
    ensures stream.closeInt == (old(stream.closeInt) || success)
  {
    if success { stream.closeInt := true; }
  }

  /** avdtp_close: immediately, and with a request for the stream outstanding, it aborts instead. */
  method AvdtpClose(e: Engine, s: Session, stream: Stream, immediate: bool, ok: bool)
    returns (r: PendingReq?, ghost w1: World, ghost aborts: bool, ghost cancels: bool, ghost target: Stream?)
    requires e.Valid() && s in e.world.links
    modifies e`world, e`history, e`transaction, s`streams, s`pendingOpen, s`req, s`prioQueue, s`reqQueue,
             e.world.seps.Keys, s.streams, stream`abortInt, stream`closeInt
    ensures e.Valid()
    ensures aborts <==> old(
              && stream in s.streams && stream.lsep.state in {Open, Streaming, Closing, Aborting} && !stream.closeInt
              && immediate && s.req.Some? && s.req.value.stream == stream)
    ensures cancels == (aborts && old(MayAbort(s, stream) && Pending(s, stream)))
    ensures cancels ==>
              && target == Suspect(old(s.streams), old(s.req).value.r)
              && w1 == Relink(old(e.world), s, Finish(old(e.world).links[s]))
              && (r != null <==> Abortable(old(s.streams), old(s.req).value.r, ok))
              && e.Asks(r, Abort, target, old(s.req).value.r.seid)
              && (r != null ==> e.world == Relink(w1, s, Submit(w1.links[s], r, true, true)))
              && (r == null ==> e.world == DetachMany(w1, s, AllStreams(w1, s)))
    ensures !cancels ==> e.world == e.Sent(old(e.world), s, r, aborts, ok)
    ensures !cancels ==> e.Asks(r, if aborts then Abort else Close, stream, stream.rseid)
    ensures aborts && !cancels ==> (r != null <==> old(MayAbort(s, stream)))
    ensures !aborts ==> (r != null <==> old(
              && stream in s.streams && stream.lsep.state in {Open, Streaming, Closing, Aborting} && !stream.closeInt
              && !stream.abortInt))
    ensures !aborts ==> stream.closeInt == (old(stream.closeInt) || (r != null && (old(s.req).Some? || ok)))
  {
    aborts, cancels, w1, target := false, false, e.world, stream;
    if stream !in s.streams { return null, w1, false, false, target; }
    if Rank(stream.lsep.state) < Rank(Open) || stream.closeInt { return null, w1, false, false, target; }
    if immediate && s.req.Some? && s.req.value.stream == stream {
      r, w1, cancels, target := AvdtpAbort(e, s, stream, ok);
      return r, w1, true, cancels, target;
    }
    var success;
    success, r := RequestClose(e, s, stream, ok);
  }

  // ----- configuring -----

  /** stream_free on a stream that never entered its SEP. */
  method FreeUnattached(e: Engine, stream: Stream)
    requires e.Tied() && stream.lsep in e.world.seps
    modifies e`world, stream.lsep`stream, stream.lsep`inuse, stream`io, stream`watch, stream`timer, stream`startTimer
    ensures e.Tied() && e.world == Vacate(old(e.world), stream.lsep) && stream.Quiet()
  {
    e.world := Vacate(e.world, stream.lsep);
    e.StreamFree(stream);
  }

  method SendConfiguration(e: Engine, s: Session, stream: Stream, ok: bool) returns (success: bool, r: PendingReq)
    requires e.Tied() && s in e.world.links && !stream.abortInt
    modifies e`world, e`transaction, s`req, s`prioQueue, s`reqQueue
    ensures e.Tied() && success == (old(s.req).Some? || ok)
    ensures e.Asks(r, SetConfiguration, stream, stream.rseid)
    ensures e.world == Relink(old(e.world), s, Submit(old(e.world).links[s], r, false, ok))
  {
    success, r := e.SendTied(s, false, stream, SetConfiguration, stream.rseid, ok);
  }

  /** The objects' side of avdtp_set_configuration, for the stream it has made. */
  method ConfigureTied(e: Engine, s: Session, stream: Stream, ok: bool)
    returns (success: bool, r: PendingReq, ghost w1: World)
    requires e.Tied() && Placed(e.world, stream) && stream.session == s && !stream.abortInt
    modifies e`world, e`transaction, s`streams, s`req, s`prioQueue, s`reqQueue,
             stream.lsep`stream, stream.lsep`inuse, stream`io, stream`watch, stream`timer, stream`startTimer
    ensures e.Tied() && success == (old(s.req).Some? || ok)
    ensures e.Asks(r, SetConfiguration, stream, stream.rseid)
    ensures w1 == Relink(old(e.world), s, Submit(old(e.world).links[s], r, false, ok))
    ensures Placed(w1, stream)
    ensures e.world == if success then Attach(w1, stream) else Vacate(old(e.world), stream.lsep)
  {
    ghost var w := e.world;
    success, r := SendConfiguration(e, s, stream, ok);
    w1 := e.world;
    if success {
      e.AttachTied(stream);
    } else {
      RefusedSubmit(w, s, r, false);
      FreeUnattached(e, stream);
    }
  }

  /**
    avdtp_set_configuration. The request is sent first, and only if it is accepted does the new stream
    enter the session and the SEP. The SEP is written in either case, so the pointers agree afterwards
    exactly if it was free.
   */
  method AvdtpSetConfiguration(e: Engine, s: Session, lsep: LocalSep, rseid: nat, delayReporting: bool, ok: bool)
    returns (success: bool, stream: Stream, r: PendingReq, ghost w1: World)
    requires e.Valid() && s in e.world.links && lsep in e.world.seps
    modifies e`world, e`history, e`transaction, s`streams, s`req, s`prioQueue, s`reqQueue, lsep`stream, lsep`inuse
    ensures e.Tied() && (old(lsep.stream) == null ==> e.Valid())
    ensures Agree(e.world) <==> old(lsep.stream) == null
    ensures success == (old(s.req).Some? || ok)
    ensures fresh(stream) && stream.session == s && stream.lsep == lsep && stream.rseid == rseid
    ensures stream.delayReporting == delayReporting && e.Asks(r, SetConfiguration, stream, rseid)
    ensures w1 == Relink(old(e.world), s, Submit(old(e.world).links[s], r, false, ok)) && Placed(w1, stream)
    ensures e.world == if success then Attach(w1, stream) else Vacate(old(e.world), lsep)
  {
    ghost var w := e.world;
    stream := new Stream(s, lsep, rseid, delayReporting);
    success, r, w1 := ConfigureTied(e, s, stream, ok);
    RecordConfigured(e, w, stream, r, ok, success);
  }

  /** The history goes on exactly if the SEP was free. */
  ghost method RecordConfigured(e: Engine, w: World, st: Stream, r: PendingReq, ok: bool, success: bool)
    requires Leads(e.history, w) && Placed(w, st) && st !in w.freed && st !in w.Streams(st.session) && r.target == st
    requires r !in w.links[st.session].queues.prio.accepted && r !in w.links[st.session].queues.normal.accepted
    requires var w1 := Relink(w, st.session, Submit(w.links[st.session], r, false, ok));
             Placed(w1, st) && e.world == if success then Attach(w1, st) else Vacate(w, st.lsep)
    modifies e`history
    ensures w.seps[st.lsep].stream == null ==> Leads(e.history, e.world)
    ensures Agree(e.world) <==> w.seps[st.lsep].stream == null
  {
    VacatedOutcome(e.history, w, st.lsep);
    ConfiguredOutcome(e.history, w, st, r, ok);
    if success && w.seps[st.lsep].stream == null {
      ConfigureLeads(e.history, w, st, r, ok);
      e.history := e.history.Then(Attach(w, st), Attached(st)).Then(e.world, Requested(st.session, r, false, ok));
    }
  }
}
