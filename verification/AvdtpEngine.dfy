/**
  The handlers of AVDTP sessions, streams and SEPs, on the objects they update in place.
  Outcomes of the socket and answers of the upper layer are parameters. The ghost field `world` says
  what each handler does to the pointers, in terms of `AvdtpObjects`, and `history` that it is made
  of the changes of `AvdtpRuns`: so everything proved there holds of the objects.
*/
module AvdtpEngine {
  import opened Prelude
  import opened AvdtpObjects
  import opened AvdtpRuns
  import Q = AvdtpRequests

  class Engine {
    var lseps: seq<LocalSep>   // the registered SEPs
    var transaction: nat       // label of the next request, of any session
    ghost var world: World     // what points at what
    ghost var history: History // how that came about

    /** `world` is what the objects say. */
    ghost predicate Tied()
      reads this`lseps, this`world, world.links.Keys, world.seps.Keys
    {
      && lseps == world.lseps
      && (forall s | s in world.links :: s.Holds(world.links[s]))
      && (forall p | p in world.seps :: SepView(p.state, p.stream, p.inuse) == world.seps[p])
    }

    ghost predicate Valid()
      reads this`lseps, this`world, this`history, world.links.Keys, world.seps.Keys
    {
      Tied() && Leads(history, world)
    }

    /** The pointers of valid objects agree, and their sessions conserve requests. */
    lemma ValidIsSound()
      requires Valid()
      ensures Sound(world)
    {
      HistorySound(history, world);
    }

    /** Every SEP that carries media, or is ready to, has a stream that holds a transport channel. */
    lemma SafeObjects()
      requires Tied()
      ensures TransportSafe(world) <==>
                forall p | p in world.seps && (p.state == Open || p.state == Streaming) ::
                  p.stream != null && p.stream.io
    {
      assert forall p | p in world.seps :: p.state == world.seps[p].state && p.stream == world.seps[p].stream;
    }

    constructor ()
      ensures Valid() && world == NoWorld
    {
      lseps, transaction := [], 0;
      world, history := NoWorld, NoHistory;
    }

    // ----- requests; `l` is what the session holds before -----

    /** send_req: queues `r` behind an outstanding request, else transmits it. */
    method SendReq(s: Session, priority: bool, r: PendingReq, ok: bool) returns (success: bool)
      modifies this`transaction, s`req, s`prioQueue, s`reqQueue
      ensures success == (old(s.req).Some? || ok)
      ensures s.req == if old(s.req).None? && ok then Some(Outstanding(r, r.target, old(transaction), true, false))
                       else old(s.req)
      ensures s.prioQueue == if old(s.req).Some? && priority then old(s.prioQueue) + [r] else old(s.prioQueue)
      ensures s.reqQueue == if old(s.req).Some? && !priority then old(s.reqQueue) + [r] else old(s.reqQueue)
      ensures transaction == if old(s.req).None? then (old(transaction) + 1) % 16 else old(transaction)
    {
      if s.req.Some? {
        if priority { s.prioQueue := s.prioQueue + [r]; } else { s.reqQueue := s.reqQueue + [r]; }
        return true;
      }
      var current := transaction;
      transaction := (transaction + 1) % 16;
      if !ok { return false; }
      s.req := Some(Outstanding(r, r.target, current, true, false));
      return true;
    }

    /** send_request: refuses requests to a stream being aborted, else creates and sends one. */
    method SendRequest(s: Session, priority: bool, stream: Stream?, signal: Signal, seid: nat, ok: bool, ghost l: Link)
      returns (success: bool, r: PendingReq?)
      requires s.Holds(l)
      modifies this`transaction, s`req, s`prioQueue, s`reqQueue
      ensures r == null <==> stream != null && stream.abortInt && signal != Abort
      ensures r == null ==> !success && s.Holds(l) && transaction == old(transaction)
      ensures r != null ==>
                && fresh(r) && r.signal == signal && r.seid == seid && r.target == stream
                && success == (old(s.req).Some? || ok)
                && s.Holds(Submit(l, r, priority, ok))
    {
      if stream != null && stream.abortInt && signal != Abort { return false, null; }
      r := new PendingReq(signal, seid, stream);
      success := SendReq(s, priority, r, ok);
    }

    /** process_queue: with nothing outstanding, the next request goes out. */
    method ProcessQueue(s: Session, ok: bool, ghost l: Link)
      requires s.Holds(l)
      modifies this`transaction, s`req, s`prioQueue, s`reqQueue
      ensures s.Holds(Process(l, ok))
    {
      if s.req.Some? { return; }
      var r;
      if s.prioQueue != [] {
        r := s.prioQueue[0];
        s.prioQueue := s.prioQueue[1..];
      } else if s.reqQueue != [] {
        r := s.reqQueue[0];
        s.reqQueue := s.reqQueue[1..];
      } else {
        return;
      }
      var success := SendReq(s, false, r, ok);
    }

    /** g_slist_find_custom with pending_req_cmp: the first request for `stream`, or the length. */
    method FindByStream(queue: seq<PendingReq>, stream: Stream) returns (i: nat)
      ensures i <= |queue| && (i < |queue| ==> queue[i].target == stream)
      ensures forall k | 0 <= k < i :: queue[k].target != stream
    {
      i := 0;
      while i < |queue| && queue[i].target != stream
        invariant i <= |queue| && forall k | 0 <= k < i :: queue[k].target != stream
      {
        i := i + 1;
      }
    }

    /** One of the two loops of cleanup_queue: removes, and frees, the requests for `stream`. */
    method RemoveByStream(queue: seq<PendingReq>, stream: Stream, ghost drop: set<PendingReq>)
      returns (rest: seq<PendingReq>)
      requires forall r | r in queue :: r.target == stream <==> r in drop
      ensures rest == Without(queue, drop)
    {
      rest := queue;
      var i: nat := FindByStream(rest, stream);
      while i < |rest|
        invariant i <= |rest| && (i < |rest| ==> rest[i].target == stream)
        invariant forall k | 0 <= k < i :: rest[k].target != stream
        invariant forall r | r in rest :: r in queue
        invariant Without(rest, drop) == Without(queue, drop)
        decreases |rest|
      {
        WithoutRemoved(rest, i, drop);
        rest := rest[..i] + rest[i + 1..];
        i := FindByStream(rest, stream);
      }
      WithoutNothing(rest, drop);
    }

    /** cleanup_queue: frees the requests that wait for `stream`. */
    method CleanupQueue(s: Session, stream: Stream, ghost l: Link)
      requires s.Holds(l)
      modifies s`prioQueue, s`reqQueue
      ensures s.Holds(l.(queues := Q.Cleanup(l.queues, Waiters(l, stream))))
    {
      s.prioQueue := RemoveByStream(s.prioQueue, stream, Waiters(l, stream));
      s.reqQueue := RemoveByStream(s.reqQueue, stream, Waiters(l, stream));
    }

    /** handle_unanswered_req, where its caller calls it: an outstanding Abort stays, without its stream. */
    method HandleUnansweredReq(s: Session, stream: Stream, ghost l: Link)
      requires s.Holds(l)
      modifies s`req
      ensures s.Holds(Unanswered(l, stream))
    {
      if s.req.None? || s.req.value.stream != stream { return; }
      if s.req.value.r.signal == Abort {
        s.req := Some(s.req.value.(stream := null));
        return;
      }
      s.req := None;
    }

    /** stream_free: the SEP lets go of the stream; its channel and event sources go. */
    method StreamFree(stream: Stream)
      modifies stream.lsep`inuse, stream.lsep`stream, stream`io, stream`watch, stream`timer, stream`startTimer
      ensures !stream.lsep.inuse && stream.lsep.stream == null
      ensures stream.Quiet()
    {
      stream.lsep.inuse := false;
      stream.lsep.stream := null;
      stream.timer := false;
      stream.startTimer := false;
      stream.io := false;
      stream.watch := false;
    }

    /** What a session does when `stream` goes away. */
    method DropStream(s: Session, stream: Stream, ghost l: Link)
      requires s.Holds(l)
      modifies s`streams, s`pendingOpen, s`req, s`prioQueue, s`reqQueue
      ensures s.Holds(Drop(l, stream))
    {
      ghost var l1 := if l.pendingOpen == stream then l.(pendingOpen := null) else l;
      if s.pendingOpen == stream { s.pendingOpen := null; }
      HandleUnansweredReq(s, stream, l1);
      CleanupQueue(s, stream, Unanswered(l1, stream));
      s.streams := Without<Stream>(s.streams, {stream});
    }

    /** The objects' side of `Move`. */
    method PutState(sep: LocalSep, state: SepState)
      requires Tied() && sep in world.seps
      modifies this`world, sep`state
      ensures Tied() && world == Move(old(world), sep, state) && sep.state == state
    {
      world := Move(world, sep, state);
      sep.state := state;
    }

    /** The objects' side of `Drop`. */
    method DropTied(s: Session, stream: Stream)
      requires Tied() && s in world.links
      modifies this`world, s`streams, s`pendingOpen, s`req, s`prioQueue, s`reqQueue
      ensures Tied() && world == Relink(old(world), s, Drop(old(world).links[s], stream))
    {
      ghost var l := world.links[s];
      ghost var l' := Drop(l, stream);
      world := world.(links := world.links[s := l']);
      DropStream(s, stream, l);
    }

    /** The objects' side of stream_free. */
    method FreeTied(sep: LocalSep, stream: Stream)
      requires Tied() && sep in world.seps && stream.lsep == sep && sep.state == Idle
      modifies this`world, sep`stream, sep`inuse, stream`io, stream`watch, stream`timer, stream`startTimer
      ensures Tied()
      ensures world == old(world).(seps := old(world).seps[sep := FreeSep], freed := old(world).freed + {stream})
      ensures stream.Quiet()
    {
      world := world.(seps := world.seps[sep := FreeSep], freed := world.freed + {stream});
      StreamFree(stream);
    }

    /** The objects' side of `Detach`. */
    method FreeIdle(s: Session, sep: LocalSep, stream: Stream)
      requires Tied() && CanDetach(world, stream) && stream.session == s && stream.lsep == sep
      modifies this`world, s`streams, s`pendingOpen, s`req, s`prioQueue, s`reqQueue, sep,
               stream`io, stream`watch, stream`timer, stream`startTimer
      ensures Tied()
      ensures world == Detach(old(world), stream)
      ensures stream.Quiet()
    {
      ghost var w := world;
      PutState(sep, Idle);
      DropTied(s, stream);
      FreeTied(sep, stream);
      DetachInSteps(w, stream);
    }

    /** The objects' side of `SetOpening`. */
    method OpeningTied(s: Session, pending: Stream?)
      requires Tied() && s in world.links
      modifies this`world, s`pendingOpen
      ensures Tied() && world == SetOpening(old(world), s, pending) && s.pendingOpen == pending
    {
      ghost var l := world.links[s].(pendingOpen := pending);
      world := world.(links := world.links[s := l]);
      s.pendingOpen := pending;
      assert s.Holds(l);
    }

    /** The objects' side of `Attach`. */
    method AttachTied(stream: Stream)
      requires Tied() && Placed(world, stream)
      modifies this`world, stream.session`streams, stream.lsep`stream, stream.lsep`inuse
      ensures Tied() && world == Attach(old(world), stream)
      ensures stream.session.streams == old(stream.session.streams) + [stream]
      ensures stream.lsep.stream == stream && stream.lsep.inuse
    {
      ghost var w, l := world, world.links[stream.session];
      ghost var l' := l.(streams := l.streams + [stream]);
      ghost var v := SepView(w.seps[stream.lsep].state, stream, true);
      world := w.(links := w.links[stream.session := l'], seps := w.seps[stream.lsep := v]);
      EnterSep(stream.lsep, stream);
      stream.session.streams := stream.session.streams + [stream];
      assert stream.session.Holds(l');
    }

    method EnterSep(sep: LocalSep, stream: Stream)
      modifies sep`stream, sep`inuse
      ensures sep.stream == stream && sep.inuse
    {
      sep.inuse := true;
      sep.stream := stream;
    }

    /** The outstanding request collided with the same command from the peer. */
    method CollideTied(s: Session)
      requires Tied() && s in world.links && s.req.Some?
      modifies s`req
      ensures Tied() && s.req == Some(old(s.req).value.(collided := true))
    {
      ghost var l := world.links[s];
      s.req := Some(s.req.value.(collided := true));
      assert s.Holds(l);
    }

    /** The timer of the outstanding request is removed. */
    method StopReqTimer(s: Session)
      requires Tied() && s in world.links && s.req.Some?
      modifies s`req
      ensures Tied() && s.req == Some(old(s.req).value.(timeout := false))
    {
      ghost var l := world.links[s];
      s.req := Some(s.req.value.(timeout := false));
      assert s.Holds(l);
    }

    /** The objects' side of a request. */
    method SendTied(s: Session, priority: bool, stream: Stream?, signal: Signal, seid: nat, ok: bool)
      returns (success: bool, r: PendingReq?)
      requires Tied() && s in world.links
      modifies this`world, this`transaction, s`req, s`prioQueue, s`reqQueue
      ensures Tied()
      ensures r == null <==> stream != null && stream.abortInt && signal != Abort
      ensures r == null ==> !success && world == old(world)
      ensures r != null ==>
                && fresh(r) && r.signal == signal && r.seid == seid && r.target == stream
                && success == (old(s.req).Some? || ok)
                && world == Relink(old(world), s, Submit(old(world).links[s], r, priority, ok))
    {
      ghost var l := world.links[s];
      success, r := SendRequest(s, priority, stream, signal, seid, ok, l);
      if r != null {
        ghost var l' := Submit(l, r, priority, ok);
        world := world.(links := world.links[s := l']);
      }
    }

    method FinishTied(s: Session)
      requires Tied() && s in world.links
      modifies this`world, s`req
      ensures Tied() && world == Relink(old(world), s, Finish(old(world).links[s])) && s.req.None?
    {
      ghost var l := Finish(world.links[s]);
      world := world.(links := world.links[s := l]);
      s.req := None;
      assert s.Holds(l);
    }

    method ProcessTied(s: Session, ok: bool)
      requires Tied() && s in world.links
      modifies this`world, this`transaction, s`req, s`prioQueue, s`reqQueue
      ensures Tied() && world == Relink(old(world), s, Process(old(world).links[s], ok))
    {
      ghost var l := world.links[s];
      ghost var l' := Process(l, ok);
      world := world.(links := world.links[s := l']);
      ProcessQueue(s, ok, l);
      assert s.Holds(l');
    }

    // ----- what a handler has sent -----

    /** The world after a request `r` was accepted, or after none was (null). */
    ghost function Sent(w: World, s: Session, r: PendingReq?, priority: bool, ok: bool): World
      requires s in w.links
    {
      if r == null then w else Relink(w, s, Submit(w.links[s], r, priority, ok))
    }

    /** `r` is null, or a request that did not exist before, with this content. */
    twostate predicate Asks(new r: PendingReq?, signal: Signal, new stream: Stream?, seid: nat) {
      r != null ==> fresh(r) && r.signal == signal && r.seid == seid && r.target == stream
    }

    // ----- state changes -----

    /** avdtp_sep_set_state to IDLE, for a SEP whose stream belongs to `s`: the stream is freed. */
    method SetIdle(s: Session, sep: LocalSep, stream: Stream)
      requires Valid() && s in world.links && sep in world.seps && sep.stream == stream && stream.session == s
      modifies this`world, this`history, s`streams, s`pendingOpen, s`req, s`prioQueue, s`reqQueue, sep,
               stream`io, stream`watch, stream`timer, stream`startTimer
      ensures Valid() && CanDetach(old(world), stream) && world == Detach(old(world), stream) && stream.Quiet()
    {
      ghost var w := world;
      LiveSep(history, w, sep);
      FreeIdle(s, sep, stream);
      DetachLeads(history, w, stream);
      history := history.Then(world, Detached(stream));
    }

    /** avdtp_sep_set_state to OPEN, STREAMING, CLOSING or ABORTING. */
    method SetBusy(sep: LocalSep, state: SepState)
      requires Valid() && sep in world.seps && sep.stream != null && state != Idle && state != Configured
      modifies this`world, this`history, sep`state, sep.stream`starting, sep.stream`startTimer, sep.stream`openAcp
      ensures Valid()
      ensures world == Move(old(world), sep, state)
      ensures sep.stream.starting == (old(sep.stream.starting) && state != Open)
      ensures sep.stream.startTimer == (old(sep.stream.startTimer) && state == Open)
      ensures sep.stream.openAcp == (old(sep.stream.openAcp) && state != Streaming)
    {
      MoveLeads(history, world, sep, state);
      BusyTied(sep, sep.stream, state);
      history := history.Then(world, Moved(sep, state));
    }

    method BusyTied(sep: LocalSep, stream: Stream, state: SepState)
      requires Tied() && sep in world.seps
      modifies this`world, sep`state, stream`starting, stream`startTimer, stream`openAcp
      ensures Tied() && world == Move(old(world), sep, state) && sep.state == state
      ensures stream.starting == (old(stream.starting) && state != Open)
      ensures stream.startTimer == (old(stream.startTimer) && state == Open)
      ensures stream.openAcp == (old(stream.openAcp) && state != Streaming)
    {
      PutState(sep, state);
      EnterState(stream, state);
    }

    method EnterState(stream: Stream, state: SepState)
      modifies stream`starting, stream`startTimer, stream`openAcp
      ensures stream.starting == (old(stream.starting) && state != Open)
      ensures stream.startTimer == (old(stream.startTimer) && state == Open)
      ensures stream.openAcp == (old(stream.openAcp) && state != Streaming)
    {
      if state == Open { stream.starting := false; } else { stream.startTimer := false; }
      if state == Streaming { stream.openAcp := false; }
    }

    // ----- requests -----

    /** send_request to a stream of the session, or to none. */
    method Send(s: Session, priority: bool, stream: Stream?, signal: Signal, seid: nat, ok: bool)
      returns (success: bool, r: PendingReq?)
      requires Valid() && s in world.links && (stream == null || stream in s.streams)
      modifies this`world, this`history, this`transaction, s`req, s`prioQueue, s`reqQueue
      ensures Valid() && world == Sent(old(world), s, r, priority, ok) && Asks(r, signal, stream, seid)
      ensures r == null <==> stream != null && stream.abortInt && signal != Abort
      ensures success == (r != null && (old(s.req).Some? || ok))
    {
      ghost var w := world;
      success, r := SendTied(s, priority, stream, signal, seid, ok);
      if r != null {
        SubmitLeads(history, w, s, r, priority, ok);
        history := history.Then(world, Requested(s, r, priority, ok));
      }
    }

    /** The outstanding request is done. */
    method FreeReq(s: Session)
      requires Valid() && s in world.links
      modifies this`world, this`history, s`req
      ensures Valid() && world == Relink(old(world), s, Finish(old(world).links[s])) && s.req.None?
    {
      FinishLeads(history, world, s);
      FinishTied(s);
      history := history.Then(world, Finished(s));
    }

    /** process_queue. */
    method NextReq(s: Session, ok: bool)
      requires Valid() && s in world.links
      modifies this`world, this`history, this`transaction, s`req, s`prioQueue, s`reqQueue
      ensures Valid() && world == Relink(old(world), s, Process(old(world).links[s], ok))
    {
      ProcessLeads(history, world, s, ok);
      ProcessTied(s, ok);
      history := history.Then(world, Processed(s, ok));
    }

    /** `pendingOpen` is set to a live stream, or cleared. */
    method SetPending(s: Session, pending: Stream?)
      requires Valid() && CanOpen(world, s, pending)
      modifies this`world, this`history, s`pendingOpen
      ensures Valid() && world == SetOpening(old(world), s, pending) && s.pendingOpen == pending
    {
      OpeningLeads(history, world, s, pending);
      OpeningTied(s, pending);
      history := history.Then(world, Opening(s, pending));
    }

    // ----- requests by the upper layer -----

    /** What avdtp_delay_report requires. */
    predicate MayReport(s: Session, stream: Stream)
      reads s, stream.lsep
    {
      && stream in s.streams && (stream.lsep.state == Configured || stream.lsep.state == Streaming)
      && stream.delayReporting && s.version >= 0x0103
    }

    /** avdtp_delay_report, on the objects. */
    method DelayReportTied(s: Session, stream: Stream, delay: nat, ok: bool) returns (success: bool, r: PendingReq?)
      requires Tied() && s in world.links
      modifies this`world, this`transaction, s`req, s`prioQueue, s`reqQueue, stream`delay
      ensures Tied() && world == Sent(old(world), s, r, true, ok) && Asks(r, DelayReport, stream, stream.rseid)
      ensures r != null <==> old(MayReport(s, stream)) && !stream.abortInt
      ensures success == (r != null && (old(s.req).Some? || ok))
      ensures stream.delay == if old(MayReport(s, stream)) then delay else old(stream.delay)
    {
      if stream !in s.streams { return false, null; }
      if stream.lsep.state != Configured && stream.lsep.state != Streaming { return false, null; }
      if !stream.delayReporting || s.version < 0x0103 { return false, null; }
      stream.delay := delay;
      success, r := SendTied(s, true, stream, DelayReport, stream.rseid, ok);
    }

    /** avdtp_delay_report. */
    method DelayReportTo(s: Session, stream: Stream, delay: nat, ok: bool) returns (success: bool, r: PendingReq?)
      requires Valid() && s in world.links
      modifies this`world, this`history, this`transaction, s`req, s`prioQueue, s`reqQueue, stream`delay
      ensures Valid() && world == Sent(old(world), s, r, true, ok) && Asks(r, DelayReport, stream, stream.rseid)
      ensures var may := (
                && stream in old(s.streams) && (stream.lsep.state == Configured || stream.lsep.state == Streaming)
                && stream.delayReporting && s.version >= 0x0103);
              && (r != null <==> may && !stream.abortInt) && stream.delay == (if may then delay else old(stream.delay))
      ensures success == (r != null && (old(s.req).Some? || ok))
    {
      ghost var w := world;
      success, r := DelayReportTied(s, stream, delay, ok);
      if r != null {
        SubmitLeads(history, w, s, r, true, ok);
        history := history.Then(world, Requested(s, r, true, ok));
      }
    }

    /** The move to CONFIGURED, on the objects; as a sink the session reports its delay. */
    method ConfiguredTied(s: Session, stream: Stream, ok: bool) returns (r: PendingReq?)
      requires Tied() && s in world.links && stream in s.streams && stream.lsep in world.seps
      modifies this`world, this`transaction, s`req, s`prioQueue, s`reqQueue, stream.lsep`state, stream`delay
      ensures Tied() && world == Sent(Move(old(world), stream.lsep, Configured), s, r, true, ok)
      ensures Asks(r, DelayReport, stream, stream.rseid)
      ensures r != null <==> stream.lsep.sink && stream.delayReporting && s.version >= 0x0103 && !stream.abortInt
    {
      PutState(stream.lsep, Configured);
      if !stream.lsep.sink { return null; }
      var success;
      success, r := DelayReportTied(s, stream, stream.delay, ok);
    }

    /** avdtp_open. */
    method AvdtpOpen(s: Session, stream: Stream, ok: bool) returns (success: bool, r: PendingReq?)
      requires Valid() && s in world.links
      modifies this`world, this`history, this`transaction, s`req, s`prioQueue, s`reqQueue
      ensures Valid() && world == Sent(old(world), s, r, false, ok) && Asks(r, OpenStream, stream, stream.rseid)
      ensures r != null <==>
                && stream in old(s.streams) && (stream.lsep.state == Idle || stream.lsep.state == Configured)
                && !stream.abortInt
      ensures success == (r != null && (old(s.req).Some? || ok))
    {
      if stream !in s.streams { return false, null; }
      if Rank(stream.lsep.state) > Rank(Configured) { return false, null; }
      success, r := Send(s, false, stream, OpenStream, stream.rseid, ok);
    }

    /** What avdtp_start requires of a stream that need not wait for the peer. */
    predicate MayStart(s: Session, stream: Stream)
      reads s, stream, stream.lsep
    {
      stream in s.streams && stream.lsep.state == Open && !stream.starting && !stream.closeInt
    }

    /** avdtp_start: as acceptor of the Open it waits for the peer first. */
    method AvdtpStart(s: Session, stream: Stream, ok: bool) returns (success: bool, r: PendingReq?)
      requires Valid() && s in world.links
      modifies this`world, this`history, this`transaction, s`req, s`prioQueue, s`reqQueue,
               stream`startTimer, stream`starting
      ensures Valid() && world == Sent(old(world), s, r, false, ok) && Asks(r, Start, stream, stream.rseid)
      ensures r != null <==>
                && old(stream in s.streams && stream.lsep.state == Open && !stream.starting && !stream.closeInt)
                && !stream.openAcp && !stream.abortInt
      ensures var waits := stream in old(s.streams) && stream.lsep.state == Open && stream.openAcp;
              && success == (waits || (r != null && (old(s.req).Some? || ok)))
              && stream.startTimer == (old(stream.startTimer) || waits)
              && stream.starting == (old(stream.starting) || (r != null && success))
    {
      if stream !in s.streams || stream.lsep.state != Open { return false, null; }
      if stream.openAcp {
        stream.startTimer := true;
        return true, null;
      }
      if stream.closeInt || stream.starting { return false, null; }
      success, r := RequestStart(s, stream, ok);
    }

    /** The request of avdtp_start. */
    method RequestStart(s: Session, stream: Stream, ok: bool) returns (success: bool, r: PendingReq?)
      requires Valid() && s in world.links && stream in s.streams
      modifies this`world, this`history, this`transaction, s`req, s`prioQueue, s`reqQueue, stream`starting
      ensures Valid() && world == Sent(old(world), s, r, false, ok) && Asks(r, Start, stream, stream.rseid)
      ensures (r == null <==> stream.abortInt) && success == (r != null && (old(s.req).Some? || ok))
      ensures stream.starting == (old(stream.starting) || success)
    {
      success, r := Send(s, false, stream, Start, stream.rseid, ok);
      Mark(stream, success);
    }

    method Mark(stream: Stream, success: bool)
      modifies stream`starting
      ensures stream.starting == (old(stream.starting) || success)
    {
      if success { stream.starting := true; }
    }

    /** avdtp_suspend. */
    method AvdtpSuspend(s: Session, stream: Stream, ok: bool) returns (success: bool, r: PendingReq?)
      requires Valid() && s in world.links
      modifies this`world, this`history, this`transaction, s`req, s`prioQueue, s`reqQueue
      ensures Valid() && world == Sent(old(world), s, r, false, ok) && Asks(r, Suspend, stream, stream.rseid)
      ensures r != null <==> (
                && stream in old(s.streams)
                && (stream.lsep.state == Streaming || stream.lsep.state == Closing || stream.lsep.state == Aborting)
                && !stream.closeInt && !stream.abortInt)
      ensures success == (r != null && (old(s.req).Some? || ok))
    {
      if stream !in s.streams { return false, null; }
      if Rank(stream.lsep.state) <= Rank(Open) || stream.closeInt { return false, null; }
      success, r := Send(s, false, stream, Suspend, stream.rseid, ok);
    }

    // ----- losing the connection -----

    /** release_stream, for a stream of `s`. */
    method ReleaseStream(s: Session, stream: Stream)
      requires Valid() && s in world.links && stream in s.streams
      modifies this`world, this`history, s`streams, s`pendingOpen, s`req, s`prioQueue, s`reqQueue, stream.lsep,
               stream`io, stream`watch, stream`timer, stream`startTimer
      ensures Valid() && CanDetach(old(world), stream) && world == Detach(old(world), stream)
      ensures stream.Quiet()
    {
      LiveStream(history, world, s, stream);
      SetIdle(s, stream.lsep, stream);
    }

    /** One step of the walk below: the streams of `gone` are gone already. */
    method ReleaseNext(s: Session, stream: Stream, ghost w: World, ghost gone: set<Stream>)
      requires Agree(w) && s in w.links && stream in w.Streams(s) && stream !in gone
      requires Valid() && world == DetachMany(w, s, gone)
      modifies this`world, this`history, s`streams, s`pendingOpen, s`req, s`prioQueue, s`reqQueue, stream.lsep,
               stream`io, stream`watch, stream`timer, stream`startTimer
      ensures Valid() && world == DetachMany(w, s, gone + {stream}) && stream.Quiet()
    {
      DetachOneMore(w, s, gone, stream);
      ReleaseStream(s, stream);
    }

    /** g_slist_foreach over the list whose nodes release_stream unlinks. */
    method ReleaseAll(s: Session, ghost w: World)
      requires Valid() && world == w && Agree(w) && s in w.links
      modifies this`world, this`history, s`streams, s`pendingOpen, s`req, s`prioQueue, s`reqQueue,
               w.seps.Keys, s.streams
      ensures Valid() && world == DetachMany(w, s, AllStreams(w, s))
    {
      var list := s.streams;
      ghost var gone: set<Stream> := {};
      DetachNone(w, s);
      var i := 0;
      while i < |list|
        invariant i <= |list| && gone == Elements(list[..i])
        invariant Valid() && world == DetachMany(w, s, gone)
      {
        ElementsOneMore(list, i);
        OwnerOf(w, s, list[i]);
        ReleaseNext(s, list[i], w, gone);
        gone := gone + {list[i]};
        i := i + 1;
      }
      assert list[..i] == list;
    }

    /** The list is dropped; nothing was left in it. */
    method DropList(s: Session)
      requires Tied() && s in world.links && world.Streams(s) == []
      modifies s`streams
      ensures Tied()
    {
      s.streams := [];
    }

    /** connection_lost. */
    method ConnectionLost(s: Session)
      requires Valid() && s in world.links
      modifies this`world, this`history, s`streams, s`pendingOpen, s`req, s`prioQueue, s`reqQueue,
               world.seps.Keys, s.streams
      ensures Valid() && world == DetachMany(old(world), s, AllStreams(old(world), s))
    {
      HistorySound(history, world);
      WithoutAll(s.streams, Elements(s.streams));
      ReleaseAll(s, world);
      DropList(s);
    }
  }
}
