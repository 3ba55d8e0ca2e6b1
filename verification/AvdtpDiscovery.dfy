/**
  Discovery of the peer's end points: when the callback of avdtp_discover is called, and when the
  source would call one that is not there. Callbacks are numbers; `accepted` and `fired` record
  which were taken and which were called.
*/
module AvdtpDiscovery {
  import opened Prelude
  import Q = AvdtpRequests

  /** The requests of a session, as far as discovery tells them apart; others are made for a stream. */
  datatype Kind = Discovery | Capabilities(seid: nat) | Else(stream: nat)

  /** The discover_callback of a session: the callback is filled in only once the call succeeded. */
  datatype Slot = Slot(cb: Option<nat>, id: bool)

  /** An entry of a Discover response, and whether a stream to it exists. */
  datatype Info = Info(seid: nat, inuse: bool, hasStream: bool)

  /** The slot of a session, whether the idle source is registered, and the callbacks so far. */
  datatype Book = Book(slot: Option<Slot>, source: bool, accepted: seq<nat>, fired: seq<nat>) {
    /** The callback that is still owed. */
    function Pending(): seq<nat> {
      if slot.Some? && slot.value.cb.Some? then [slot.value.cb.value] else []
    }

    /** Each callback taken was called, in order and once, except the one still owed. */
    predicate Linear() { accepted == fired + Pending() }

    /** The slot is taken, but by a call that failed. */
    predicate Hollow() { slot.Some? && slot.value.cb.None? }

    /** The idle source is registered exactly while a slot refers to it, which then has its callback. */
    predicate SourceOwned() {
      (source <==> slot.Some? && slot.value.id) && (source ==> slot.value.cb.Some?)
    }

    /** A call is taken; `idle` is whether the idle source will answer it. */
    function Take(cb: nat, idle: bool): Book {
      Book(Some(Slot(Some(cb), idle)), source || idle, accepted + [cb], fired)
    }

    /** finalize_discovery. */
    function Finalize(): Book {
      Book(None, source && !(slot.Some? && slot.value.id), accepted, fired + Pending())
    }

    /** avdtp_parse_rej: the callback is called, and nothing is done about an idle source. */
    function Refuse(): Book { Book(None, source, accepted, fired + Pending()) }

    /** process_discover, the idle source. */
    function Idle(): Book
      requires slot.Some?
    {
      Book(Some(slot.value.(id := false)), false, accepted, fired).Finalize()
    }
  }

  /**
    `armed` is whether the outstanding request can time out, `watched` whether the session still reads
    its channel, and `all` whether it asks by Get All Capabilities.
   */
  datatype State = State(book: Book, seps: seq<nat>, queues: Q.Queues<Kind>, armed: bool, watched: bool,
                         alive: bool, all: bool)
  {
    /** The outstanding request is one that discovery makes. */
    predicate Inquires() { queues.out.Some? && !queues.out.value.Else? }
  }

  function New(all: bool): State { State(Book(None, false, [], []), [], Q.Empty(), false, true, true, all) }

  // ----- the operations -----

  /** send_request. */
  function Send(d: State, r: Kind, priority: bool, ok: bool): State {
    var q := Q.Submit(d.queues, r, priority, ok);
    d.(queues := q, armed := d.armed || (d.queues.out.None? && ok))
  }

  /** avdtp_discover. */
  function Called(d: State, cb: nat, ok: bool): State {
    if d.book.slot.Some? then d
    else if d.seps != [] then d.(book := d.book.Take(cb, true))
    else if d.queues.out.Some? || ok then Send(d.(book := d.book.Take(cb, false)), Discovery, false, ok)
    else d.(book := d.book.(slot := Some(Slot(None, false))))
  }

  function Finalized(d: State): State { d.(book := d.book.Finalize()) }

  /** The end points known, and those asked for capabilities so far, after a Discover response. */
  function Learn(seps: seq<nat>, asked: seq<nat>, infos: seq<Info>): (r: (seq<nat>, seq<nat>))
    ensures (seps != [] ==> r.0 != []) && ((asked == [] || seps != []) ==> (r.1 == [] || r.0 != []))
    decreases |infos|
  {
    if infos == [] then (seps, asked)
    else
      var i := infos[0];
      if i.seid in seps then Learn(seps, asked + [i.seid], infos[1..])
      else if i.inuse && !i.hasStream then Learn(seps, asked, infos[1..])
      else Learn(seps + [i.seid], asked + [i.seid], infos[1..])
  }

  function Knows(d: State, seid: nat): State {
    if seid in d.seps then d else d.(seps := d.seps + [seid])
  }

  /** The requests for capabilities, behind the outstanding Discover. */
  function Asked(q: Q.Queues<Kind>, seids: seq<nat>): Q.Queues<Kind>
    decreases |seids|
  {
    if seids == [] then q else Asked(Q.Submit(q, Capabilities(seids[0]), true, true), seids[1..])
  }

  /** avdtp_discover_resp. */
  function Answered(d: State, infos: seq<Info>): State {
    var (seps, asked) := Learn(d.seps, [], infos);
    var d1 := d.(seps := seps, queues := Asked(d.queues, asked));
    if asked == [] then Finalized(d1) else d1
  }

  /** Whether the request that will go out next is one for capabilities. */
  predicate CapabilityNext(q: Q.Queues<Kind>) {
    if q.prio.waiting != [] then q.prio.waiting[0].Capabilities?
    else q.normal.waiting != [] && q.normal.waiting[0].Capabilities?
  }

  /** avdtp_parse_resp. */
  function Understood(d: State, infos: seq<Info>): State {
    match d.queues.out
    case Some(Discovery) => Answered(d, infos)
    case Some(Capabilities(_)) => if CapabilityNext(d.queues) then d else Finalized(d)
    case _ => d
  }

  /** avdtp_parse_rej. */
  function Refused(d: State): State {
    if d.Inquires() then d.(book := d.book.Refuse()) else d
  }

  /** The outstanding request is done, and the next one goes out. */
  function Next(d: State, ok: bool): State {
    var q := Q.Answer(d.queues, ok);
    d.(queues := q, armed := q.out.Some?)
  }

  /** What is left of the requests once all streams are gone. */
  function Orphans(q: Q.Queues<Kind>): set<Kind> {
    (set r | r in q.prio.waiting && r.Else?) + (set r | r in q.normal.waiting && r.Else?)
  }

  /** connection_lost; `keeps` is whether the outstanding request outlives its stream. */
  function Lost(d: State, keeps: bool): State {
    var q := if d.queues.out.Some? && d.queues.out.value.Else? && !keeps then Q.Release(d.queues) else d.queues;
    Finalized(d.(queues := Q.Cleanup(q, Orphans(q)), armed := d.armed && q.out.Some?))
  }

  /** request_timeout: an Abort to a stream takes the place of the request, or the connection is lost. */
  function Cancelled(d: State, abort: Option<nat>): State {
    match abort
    case Some(st) => d.(queues := Q.Cancel(d.queues, Else(st), true), armed := true)
    case None => Lost(d.(queues := Q.Release(d.queues)), false)
  }

  /** A stream is freed, and with it its requests. */
  function Dropped(d: State, st: nat, keeps: bool): State {
    var q := if d.queues.out == Some(Else(st)) && !keeps then Q.Release(d.queues) else d.queues;
    d.(queues := Q.Cleanup(q, {Else(st)}), armed := d.armed && q.out.Some?)
  }

  // ----- runs -----

  datatype Event =
    | Discover(cb: nat, ok: bool)
    | Requested(stream: nat, priority: bool, ok: bool)
    | Accept(infos: seq<Info>, ok: bool)       // `ok`: the next request could be transmitted
    | Reject(ok: bool)
    | Ignored(ok: bool)                        // a general reject, or a collision
    | HungUp(answered: bool, keeps: bool)      // session_cb fails, perhaps over the answer to a request
    | TimedOut(abort: Option<nat>)
    | StreamGone(stream: nat, keeps: bool)
    | IdleSource
    | End                                      // the last reference is dropped

  /**
    The channel is watched at a lower priority than idle sources have, so nothing is read while the idle
    source is registered. Discover and Get Capabilities are never replaced by an Abort.
   */
  predicate Possible(d: State, e: Event) {
    d.alive &&
    match e
    case Accept(_, _) => d.watched && !d.book.source && d.queues.out.Some?
    case Reject(_) => d.watched && !d.book.source && d.queues.out.Some?
    case Ignored(_) => d.watched && !d.book.source && d.queues.out.Some?
    case HungUp(answered, _) => d.watched && !d.book.source && (answered ==> d.queues.out.Some?)
    case TimedOut(abort) =>
      && d.armed && d.queues.out.Some?
      && (abort.Some? ==> d.queues.out.value.Else? || (d.queues.out.value.Capabilities? && d.all))
    case IdleSource => d.book.source
    case _ => true
  }

  /** The source calls a callback that is not there, or follows the session to a slot that is not there. */
  predicate Crashes(d: State, e: Event) {
    (e.Reject? && d.Inquires() && d.book.Hollow()) || (e.IdleSource? && d.book.slot.None?)
  }

  function Step(d: State, e: Event): State {
    match e
    case Discover(cb, ok) => Called(d, cb, ok)
    case Requested(st, priority, ok) => Send(d, Else(st), priority, ok)
    case Accept(infos, ok) => Next(Understood(d, infos), ok)
    case Reject(ok) => Next(Refused(d), ok)
    case Ignored(ok) => Next(d, ok)
    case HungUp(answered, keeps) => Lost(d.(armed := d.armed && !answered), keeps).(watched := false)
    case TimedOut(abort) => Cancelled(d, abort)
    case StreamGone(st, keeps) => Dropped(d, st, keeps)
    case IdleSource => if d.book.slot.Some? then d.(book := d.book.Idle()) else d
    case End => Finalized(d).(alive := false)
  }

  predicate PossibleRun(d: State, es: seq<Event>)
    decreases |es|, 1
  {
    es == [] || (PossibleRun(d, es[..|es| - 1]) && Possible(After(d, es[..|es| - 1]), es[|es| - 1]))
  }

  function After(d: State, es: seq<Event>): State
    decreases |es|, 0
  {
    if es == [] then d else Step(After(d, es[..|es| - 1]), es[|es| - 1])
  }

  // ----- what an event does to the slot -----

  /** An avdtp_discover that could not send. */
  predicate Fails(d: State, e: Event) {
    e.Discover? && d.book.slot.None? && d.seps == [] && d.queues.out.None? && !e.ok
  }

  /** The discovery ends, or is rejected. */
  predicate Ends(d: State, e: Event) {
    match e
    case Accept(infos, _) =>
      (d.queues.out == Some(Discovery) && Learn(d.seps, [], infos).1 == [])
      || (d.queues.out.Some? && d.queues.out.value.Capabilities? && !CapabilityNext(d.queues))
    case Reject(_) => d.Inquires()
    case HungUp(_, _) => true
    case TimedOut(abort) => abort.None?
    case IdleSource => true
    case End => true
    case _ => false
  }

  /** A discovery that ends; a reject does not see the idle source, and a dead slot is not followed. */
  function Ended(b: Book, e: Event): Book {
    if e.Reject? then b.Refuse() else if e.IdleSource? then (if b.slot.Some? then b.Idle() else b) else b.Finalize()
  }

  lemma StepBook(d: State, e: Event)
    ensures Step(d, e).book ==
            if e.Discover? then Called(d, e.cb, e.ok).book
            else if Ends(d, e) then Ended(d.book, e) else d.book
  {
  }

  lemma CalledBook(d: State, cb: nat, ok: bool)
    ensures Called(d, cb, ok).book ==
            if d.book.slot.Some? then d.book
            else if d.seps != [] || d.queues.out.Some? || ok then d.book.Take(cb, d.seps != [])
            else d.book.(slot := Some(Slot(None, false)))
  {
  }

  // ----- callbacks -----

  lemma EndedLinear(b: Book, e: Event)
    requires b.Linear() && b.SourceOwned() && (e.Reject? ==> !b.source)
    ensures Ended(b, e).Linear() && Ended(b, e).SourceOwned()
  {
    assert b.fired + b.Pending() + [] == b.fired + b.Pending();
  }

  lemma CalledLinear(d: State, cb: nat, ok: bool)
    requires d.book.Linear() && d.book.SourceOwned()
    ensures Called(d, cb, ok).book.Linear() && Called(d, cb, ok).book.SourceOwned()
  {
    CalledBook(d, cb, ok);
    if d.book.slot.None? { assert d.book.fired + [] == d.book.fired; }
  }

  lemma StepLinear(d: State, e: Event)
    requires d.book.Linear() && d.book.SourceOwned() && (Possible(d, e) || e.End?)
    ensures Step(d, e).book.Linear() && Step(d, e).book.SourceOwned()
  {
    StepBook(d, e);
    if e.Discover? { CalledLinear(d, e.cb, e.ok); } else { EndedLinear(d.book, e); }
  }

  /**
    In every reachable state each callback taken was called once, except one that is still owed, and the
    idle source has its slot.
   */
  lemma {:induction false} RunLinear(all: bool, es: seq<Event>)
    requires PossibleRun(New(all), es)
    ensures After(New(all), es).book.Linear() && After(New(all), es).book.SourceOwned()
    decreases |es|
  {
    if es != [] {
      var front := es[..|es| - 1];
      RunLinear(all, front);
      StepLinear(After(New(all), front), es[|es| - 1]);
    }
  }

  /** In every reachable state the request timer runs only for a request that is outstanding. */
  lemma {:induction false} TimerHasRequest(all: bool, es: seq<Event>)
    requires PossibleRun(New(all), es)
    ensures After(New(all), es).armed ==> After(New(all), es).queues.out.Some?
    decreases |es|
  {
    if es != [] {
      var front := es[..|es| - 1];
      TimerHasRequest(all, front);
      assert Possible(After(New(all), front), es[|es| - 1]);
    }
  }

  // ----- which calls are refused, and when the source crashes -----

  /** Event `i` of the run is a call that failed, or one that found the slot free. */
  ghost predicate FailsAt(all: bool, es: seq<Event>, i: nat)
    requires i < |es|
  {
    Fails(After(New(all), es[..i]), es[i])
  }

  ghost predicate ClaimsAt(all: bool, es: seq<Event>, i: nat)
    requires i < |es|
  {
    es[i].Discover? && After(New(all), es[..i]).book.slot.None?
  }

  /** None of the events after `i` ends a discovery. */
  ghost predicate Unended(all: bool, es: seq<Event>, i: nat) {
    forall k | i < k < |es| :: !Ends(After(New(all), es[..k]), es[k])
  }

  /** The last call that found the slot free failed, and nothing ended a discovery since. */
  ghost predicate FailedLast(all: bool, es: seq<Event>) {
    exists i | 0 <= i < |es| :: FailsAt(all, es, i) && Unended(all, es, i)
  }

  ghost predicate ClaimedLast(all: bool, es: seq<Event>) {
    exists i | 0 <= i < |es| :: ClaimsAt(all, es, i) && Unended(all, es, i)
  }

  lemma StepSlot(d: State, e: Event)
    requires d.book.SourceOwned() && Possible(d, e)
    ensures Step(d, e).book.Hollow() <==> Fails(d, e) || (d.book.Hollow() && !Ends(d, e))
    ensures Step(d, e).book.slot.Some? <==> (e.Discover? && d.book.slot.None?) || (d.book.slot.Some? && !Ends(d, e))
  {
    StepBook(d, e);
    if e.Discover? { CalledBook(d, e.cb, e.ok); }
  }

  /** What was true of an event before another one came is still true of it. */
  lemma OneMoreEvent(all: bool, es: seq<Event>, e: Event, i: nat)
    requires i < |es|
    ensures Unended(all, es + [e], i) <==> Unended(all, es, i) && !Ends(After(New(all), es), e)
    ensures FailsAt(all, es + [e], i) <==> FailsAt(all, es, i)
    ensures ClaimsAt(all, es + [e], i) <==> ClaimsAt(all, es, i)
  {
    var es' := es + [e];
    assert forall k | 0 <= k <= |es| :: es'[..k] == es[..k];
    assert es'[..|es|] == es && es'[|es|] == e;
    if Unended(all, es', i) {
      assert !Ends(After(New(all), es'[..|es|]), es'[|es|]);
      forall k | i < k < |es|
        ensures !Ends(After(New(all), es[..k]), es[k])
      {
        assert es'[..k] == es[..k] && es'[k] == es[k];
      }
    }
  }

  lemma LastEvent(all: bool, es: seq<Event>, e: Event)
    ensures FailedLast(all, es + [e]) <==>
              Fails(After(New(all), es), e) || (FailedLast(all, es) && !Ends(After(New(all), es), e))
    ensures ClaimedLast(all, es + [e]) <==>
              (e.Discover? && After(New(all), es).book.slot.None?)
              || (ClaimedLast(all, es) && !Ends(After(New(all), es), e))
  {
    var es' := es + [e];
    assert es'[..|es|] == es && es'[|es|] == e;
    assert Unended(all, es', |es|);
    forall i | 0 <= i < |es|
      ensures Unended(all, es', i) <==> Unended(all, es, i) && !Ends(After(New(all), es), e)
      ensures FailsAt(all, es', i) <==> FailsAt(all, es, i)
      ensures ClaimsAt(all, es', i) <==> ClaimsAt(all, es, i)
    {
      OneMoreEvent(all, es, e, i);
    }
  }

  /** In every reachable state the slot is taken exactly if a call found it free and nothing ended a discovery since. */
  lemma {:induction false} SlotTaken(all: bool, es: seq<Event>)
    requires PossibleRun(New(all), es)
    ensures After(New(all), es).book.slot.Some? <==> ClaimedLast(all, es)
    ensures After(New(all), es).book.Hollow() <==> FailedLast(all, es)
    decreases |es|
  {
    if es != [] {
      var front, e := es[..|es| - 1], es[|es| - 1];
      assert front + [e] == es;
      SlotTaken(all, front);
      RunLinear(all, front);
      StepSlot(After(New(all), front), e);
      LastEvent(all, front, e);
    }
  }

  /** An avdtp_discover is refused exactly then, whether the last call was taken or failed. */
  lemma RefusedExactly(all: bool, es: seq<Event>, cb: nat, ok: bool)
    requires PossibleRun(New(all), es)
    ensures var d := After(New(all), es);
            Called(d, cb, ok) == d <==> ClaimedLast(all, es)
  {
    SlotTaken(all, es);
    CalledBook(After(New(all), es), cb, ok);
  }

  /**
    The source crashes exactly by a reject of its Discover, or of a request for capabilities, if the last
    call that found the slot free failed, and nothing ended a discovery since.
   */
  lemma CrashesExactly(all: bool, es: seq<Event>, e: Event)
    requires PossibleRun(New(all), es + [e])
    ensures var d := After(New(all), es);
            Crashes(d, e) <==> e.Reject? && d.Inquires() && FailedLast(all, es)
  {
    assert (es + [e])[..|es|] == es;
    SlotTaken(all, es);
    RunLinear(all, es);
  }

  /** No event of the run is such a reject. */
  ghost predicate NoLateReject(all: bool, es: seq<Event>) {
    forall j | 0 <= j < |es| ::
      !(es[j].Reject? && After(New(all), es[..j]).Inquires() && FailedLast(all, es[..j]))
  }

  lemma {:induction false} PrefixPossible(all: bool, es: seq<Event>, n: nat)
    requires PossibleRun(New(all), es) && n <= |es|
    ensures PossibleRun(New(all), es[..n])
    decreases |es|
  {
    if n == |es| {
      assert es[..n] == es;
    } else {
      PrefixPossible(all, es[..|es| - 1], n);
      assert es[..|es| - 1][..n] == es[..n];
    }
  }

  lemma PrefixThenOne(all: bool, es: seq<Event>, j: nat)
    requires PossibleRun(New(all), es) && j < |es|
    ensures PossibleRun(New(all), es[..j] + [es[j]])
  {
    PrefixPossible(all, es, j + 1);
    LastOfPrefix(es, j);
    SamePossible(all, es[..j + 1], es[..j] + [es[j]]);
  }

  lemma LastOfPrefix<T>(s: seq<T>, j: nat)
    requires j < |s|
    ensures s[..j + 1] == s[..j] + [s[j]]
  {
  }

  lemma SamePossible(all: bool, a: seq<Event>, b: seq<Event>)
    requires a == b && PossibleRun(New(all), a)
    ensures PossibleRun(New(all), b)
  {
  }

  lemma CrashesAt(all: bool, es: seq<Event>, j: nat)
    requires PossibleRun(New(all), es) && j < |es|
    ensures Crashes(After(New(all), es[..j]), es[j]) <==>
            es[j].Reject? && After(New(all), es[..j]).Inquires() && FailedLast(all, es[..j])
  {
    PrefixThenOne(all, es, j);
    CrashesExactly(all, es[..j], es[j]);
  }

  /** A run crashes nowhere exactly if none of its events is such a reject. */
  lemma CrashFree(all: bool, es: seq<Event>)
    requires PossibleRun(New(all), es)
    ensures NoLateReject(all, es) <==> forall j | 0 <= j < |es| :: !Crashes(After(New(all), es[..j]), es[j])
  {
    forall j | 0 <= j < |es|
      ensures Crashes(After(New(all), es[..j]), es[j]) <==>
              es[j].Reject? && After(New(all), es[..j]).Inquires() && FailedLast(all, es[..j])
    {
      CrashesAt(all, es, j);
    }
  }

  lemma NothingOwed(b: Book)
    requires b.Linear() && b.slot.None?
    ensures b.fired == b.accepted
  {
    assert b.fired + [] == b.fired;
  }

  lemma AfterOne(d: State, es: seq<Event>, e: Event)
    ensures After(d, es + [e]) == Step(After(d, es), e)
    ensures PossibleRun(d, es + [e]) <==> PossibleRun(d, es) && Possible(After(d, es), e)
  {
    assert (es + [e])[..|es|] == es;
  }

  lemma LinearAtTheEnd(all: bool, es: seq<Event>)
    requires PossibleRun(New(all), es)
    ensures var b := Step(After(New(all), es), End).book; b.fired == b.accepted && b.slot.None? && !b.source
  {
    RunLinear(all, es);
    StepLinear(After(New(all), es), End);
    NothingOwed(Step(After(New(all), es), End).book);
  }

  /**
    Linearity: when the session is gone, exactly the callbacks that avdtp_discover took were called, each
    once and in order, whatever ended each discovery, if nothing crashed before.
   */
  lemma EachCallbackFiresOnce(all: bool, es: seq<Event>)
    requires PossibleRun(New(all), es) && NoLateReject(all, es) && After(New(all), es).alive
    ensures PossibleRun(New(all), es + [End])
    ensures forall j | 0 <= j < |es| :: !Crashes(After(New(all), es[..j]), es[j])
    ensures var b := After(New(all), es + [End]).book; b.fired == b.accepted && b.slot.None? && !b.source
  {
    CrashFree(all, es);
    AfterOne(New(all), es, End);
    LinearAtTheEnd(all, es);
  }

  // ----- what a response and a loss leave -----

  function Seids(infos: seq<Info>): (r: seq<nat>)
    ensures |r| == |infos|
  {
    seq(|infos|, i requires 0 <= i < |infos| => infos[i].seid)
  }

  /** An entry that makes an end point known: one that is free, or in use by a stream of this session. */
  predicate Welcome(i: Info) { !i.inuse || i.hasStream }

  ghost predicate Learns(infos: seq<Info>, x: nat) { exists i :: i in infos && i.seid == x && Welcome(i) }

  ghost predicate Asks(seps: seq<nat>, infos: seq<Info>, x: nat) {
    exists i :: i in infos && i.seid == x && (x in seps || Welcome(i))
  }

  lemma LearnsFirst(infos: seq<Info>, x: nat)
    requires infos != []
    ensures Learns(infos, x) <==> (infos[0].seid == x && Welcome(infos[0])) || Learns(infos[1..], x)
  {
    assert infos == [infos[0]] + infos[1..];
  }

  lemma AsksFirst(seps: seq<nat>, infos: seq<Info>, x: nat)
    requires infos != []
    ensures Asks(seps, infos, x) <==>
              (infos[0].seid == x && (x in seps || Welcome(infos[0]))) || Asks(seps, infos[1..], x)
  {
    assert infos == [infos[0]] + infos[1..];
  }

  lemma {:induction false} LearnKnown(seps: seq<nat>, asked: seq<nat>, infos: seq<Info>)
    ensures var known := Learn(seps, asked, infos).0;
            && |seps| <= |known| && known[..|seps|] == seps && (NoDup(seps) ==> NoDup(known))
            && (forall x :: x in known <==> x in seps || Learns(infos, x))
    decreases |infos|
  {
    if infos != [] {
      forall x { LearnsFirst(infos, x); }
      var i := infos[0];
      if i.seid in seps {
        LearnKnown(seps, asked + [i.seid], infos[1..]);
      } else if !Welcome(i) {
        LearnKnown(seps, asked, infos[1..]);
      } else {
        LearnKnown(seps + [i.seid], asked + [i.seid], infos[1..]);
        var known := Learn(seps, asked, infos).0;
        assert known[..|seps|] == known[..|seps| + 1][..|seps|];
      }
    }
  }

  lemma {:induction false} LearnAsked(seps: seq<nat>, asked: seq<nat>, infos: seq<Info>) returns (more: seq<nat>)
    ensures Learn(seps, asked, infos).1 == asked + more && Subsequence(more, Seids(infos))
    ensures forall x :: x in more <==> Asks(seps, infos, x)
    decreases |infos|
  {
    if infos == [] {
      more := [];
      assert asked + [] == asked;
    } else {
      var i, rest := infos[0], infos[1..];
      forall x { AsksFirst(seps, infos, x); }
      assert Seids(infos)[1..] == Seids(rest);
      if i.seid !in seps && !Welcome(i) {
        more := LearnAsked(seps, asked, rest);
        Skips(more, Seids(infos));
      } else {
        var next := if i.seid in seps then seps else seps + [i.seid];
        var tail := LearnAsked(next, asked + [i.seid], rest);
        assert asked + [i.seid] + tail == asked + ([i.seid] + tail);
        more := [i.seid] + tail;
        forall x
          ensures x in more <==> Asks(seps, infos, x)
        {
          assert x != i.seid ==> (Asks(next, rest, x) <==> Asks(seps, rest, x));
        }
      }
    }
  }

  lemma Skips(a: seq<nat>, b: seq<nat>)
    requires b != [] && Subsequence(a, b[1..])
    ensures Subsequence(a, b)
  {
    if a != [] && a[0] == b[0] { SubsequenceTail(a, b[1..]); }
  }

  /** The requests for capabilities are queued in order, behind the priority requests. */
  lemma {:induction false} AskedExact(q: Q.Queues<Kind>, seids: seq<nat>)
    requires q.out.Some?
    ensures var q' := Asked(q, seids);
            && q'.out == q.out && q'.normal == q.normal
            && |q'.prio.waiting| == |q.prio.waiting| + |seids| && q'.prio.waiting[..|q.prio.waiting|] == q.prio.waiting
            && forall i | 0 <= i < |seids| :: q'.prio.waiting[|q.prio.waiting| + i] == Capabilities(seids[i])
    decreases |seids|
  {
    if seids != [] {
      var q1 := Q.Submit(q, Capabilities(seids[0]), true, true);
      AskedExact(q1, seids[1..]);
      var w := Asked(q, seids).prio.waiting;
      assert w[..|q.prio.waiting|] == w[..|q1.prio.waiting|][..|q.prio.waiting|];
      assert w[|q.prio.waiting|] == w[..|q1.prio.waiting|][|q.prio.waiting|];
    }
  }

  /**
    A Discover response makes known, behind those that are, exactly the end points that are free or in use by a
    stream of this session.
   */
  lemma AnsweredKnown(d: State, infos: seq<Info>)
    ensures var d' := Answered(d, infos);
            && |d.seps| <= |d'.seps| && d'.seps[..|d.seps|] == d.seps && (NoDup(d.seps) ==> NoDup(d'.seps))
            && (forall x :: x in d'.seps <==>
                  x in d.seps || exists i :: i in infos && i.seid == x && (!i.inuse || i.hasStream))
  {
    LearnKnown(d.seps, [], infos);
    forall x
      ensures Learns(infos, x) <==> exists i :: i in infos && i.seid == x && (!i.inuse || i.hasStream)
    {
    }
  }

  lemma AsksAre(seps: seq<nat>, infos: seq<Info>) returns (asked: seq<nat>)
    ensures asked == Learn(seps, [], infos).1 && Subsequence(asked, Seids(infos))
    ensures forall x :: x in asked <==>
              exists i :: i in infos && i.seid == x && (x in seps || !i.inuse || i.hasStream)
  {
    asked := LearnAsked(seps, [], infos);
    assert [] + asked == asked;
    forall x
      ensures Asks(seps, infos, x) <==> exists i :: i in infos && i.seid == x && (x in seps || !i.inuse || i.hasStream)
    {
    }
  }

  /** It asks those, and those known before, in order, behind all priority requests; without any, discovery ends. */
  lemma AnsweredAsks(d: State, infos: seq<Info>) returns (asked: seq<nat>)
    requires d.queues.out == Some(Discovery)
    ensures Subsequence(asked, Seids(infos))
    ensures forall x :: x in asked <==>
              exists i :: i in infos && i.seid == x && (x in d.seps || !i.inuse || i.hasStream)
    ensures var d' := Answered(d, infos); var n := |d.queues.prio.waiting|;
            && |d'.queues.prio.waiting| == n + |asked| && d'.queues.prio.waiting[..n] == d.queues.prio.waiting
            && (forall i | 0 <= i < |asked| :: d'.queues.prio.waiting[n + i] == Capabilities(asked[i]))
            && d'.queues.out == d.queues.out && d'.queues.normal == d.queues.normal
            && d'.book == (if asked == [] then d.book.Finalize() else d.book)
  {
    asked := AsksAre(d.seps, infos);
    AskedExact(d.queues, asked);
  }

  ghost predicate OnlyWithout(before: seq<Kind>, after: seq<Kind>, gone: Kind -> bool) {
    && (forall r :: r in after <==> r in before && !gone(r)) && Subsequence(after, before)
  }

  lemma CleanupExact(q: Q.Queues<Kind>, drop: set<Kind>, gone: Kind -> bool)
    requires forall r | r in q.prio.waiting || r in q.normal.waiting :: r in drop <==> gone(r)
    ensures var q' := Q.Cleanup(q, drop);
            && q'.out == q.out && OnlyWithout(q.prio.waiting, q'.prio.waiting, gone)
            && OnlyWithout(q.normal.waiting, q'.normal.waiting, gone)
  {
    WithoutIsSubsequence(q.prio.waiting, drop);
    WithoutIsSubsequence(q.normal.waiting, drop);
  }

  /** The loss of the connection takes the requests of streams along, and leaves those of discovery. */
  lemma LostExact(d: State, keeps: bool)
    ensures var q := Lost(d, keeps).queues;
            && OnlyWithout(d.queues.prio.waiting, q.prio.waiting, (r: Kind) => r.Else?)
            && OnlyWithout(d.queues.normal.waiting, q.normal.waiting, (r: Kind) => r.Else?)
            && q.out == (if d.queues.out.Some? && d.queues.out.value.Else? && !keeps then None else d.queues.out)
  {
    var q := if d.queues.out.Some? && d.queues.out.value.Else? && !keeps then Q.Release(d.queues) else d.queues;
    CleanupExact(q, Orphans(q), (r: Kind) => r.Else?);
  }

  /** The end of a stream takes its requests along, and no others. */
  lemma DroppedExact(d: State, st: nat, keeps: bool)
    ensures var q := Dropped(d, st, keeps).queues;
            && OnlyWithout(d.queues.prio.waiting, q.prio.waiting, (r: Kind) => r == Else(st))
            && OnlyWithout(d.queues.normal.waiting, q.normal.waiting, (r: Kind) => r == Else(st))
            && q.out == (if d.queues.out == Some(Else(st)) && !keeps then None else d.queues.out)
    ensures Dropped(d, st, keeps).book == d.book && Dropped(d, st, keeps).seps == d.seps
  {
    var q := if d.queues.out == Some(Else(st)) && !keeps then Q.Release(d.queues) else d.queues;
    CleanupExact(q, {Else(st)}, (r: Kind) => r == Else(st));
  }

  // ----- which reply about capabilities is the last -----

  predicate NoCapabilities(s: seq<Kind>) { forall r | r in s :: !r.Capabilities? }

  /** Requests for capabilities come first. */
  predicate CapabilitiesFirst(s: seq<Kind>) {
    s == [] || (if s[0].Capabilities? then CapabilitiesFirst(s[1..]) else NoCapabilities(s))
  }

  /** Requests for capabilities come in one block. */
  predicate OneBlock(s: seq<Kind>) {
    s == [] || (if s[0].Capabilities? then CapabilitiesFirst(s) else OneBlock(s[1..]))
  }

  /** How the queues are ordered, whatever is outstanding; `known` is whether an end point is known. */
  ghost predicate Ranked(q: Q.Queues<Kind>, known: bool) {
    && OneBlock(q.prio.waiting) && NoCapabilities(q.normal.waiting) && (forall r | r in q.prio.waiting :: !r.Discovery?)
    && (!known ==> NoCapabilities(q.prio.waiting))
  }

  ghost predicate Tidy(q: Q.Queues<Kind>, known: bool) {
    && Ranked(q, known)
    && (q.out == Some(Discovery) ==> NoCapabilities(q.prio.waiting))
    && (q.out.Some? && q.out.value.Capabilities? ==> known && CapabilitiesFirst(q.prio.waiting))
  }

  lemma {:induction false} BlockTail(s: seq<Kind>, r: Kind)
    requires !r.Capabilities?
    ensures OneBlock(s) ==> OneBlock(s + [r])
    ensures CapabilitiesFirst(s) ==> CapabilitiesFirst(s + [r])
  {
    if s == [] {
      assert s + [r] == [r] && [r][1..] == [];
    } else {
      assert (s + [r])[0] == s[0] && (s + [r])[1..] == s[1..] + [r];
      BlockTail(s[1..], r);
    }
  }

  lemma {:induction false} BlockThinned(s: seq<Kind>, drop: set<Kind>)
    requires forall r | r in drop :: r.Else?
    ensures OneBlock(s) ==> OneBlock(Without(s, drop))
    ensures CapabilitiesFirst(s) ==> CapabilitiesFirst(Without(s, drop))
  {
    if s == [] {
    } else if s[0] in drop {
      BlockThinned(s[1..], drop);
      assert Without(s, drop) == Without(s[1..], drop);
      if CapabilitiesFirst(s) { FirstWithout(Without(s, drop)); }
    } else {
      BlockThinned(s[1..], drop);
      assert Without(s, drop)[0] == s[0] && Without(s, drop)[1..] == Without(s[1..], drop);
    }
  }

  lemma FirstWithout(s: seq<Kind>)
    requires NoCapabilities(s)
    ensures CapabilitiesFirst(s) && OneBlock(s)
  {
    if s != [] { NoneIsBlock(s); }
  }

  lemma {:induction false} NoneIsBlock(s: seq<Kind>)
    requires NoCapabilities(s)
    ensures OneBlock(s)
  {
    if s != [] { NoneIsBlock(s[1..]); }
  }

  lemma {:induction false} FirstIsBlock(s: seq<Kind>)
    requires CapabilitiesFirst(s)
    ensures OneBlock(s) && (s != [] ==> CapabilitiesFirst(s[1..]))
  {
    if s != [] && !s[0].Capabilities? {
      NoneIsBlock(s);
      FirstWithout(s[1..]);
    }
  }

  /** The block is still one when more requests for capabilities are added to it. */
  lemma {:induction false} BlockGrows(s: seq<Kind>, c: Kind)
    requires c.Capabilities?
    ensures (forall r | r in s :: r.Capabilities?) ==> CapabilitiesFirst(s + [c])
    ensures OneBlock(s) && s != [] && s[|s| - 1].Capabilities? ==> OneBlock(s + [c])
    ensures NoCapabilities(s) ==> OneBlock(s + [c])
    ensures CapabilitiesFirst(s) && s != [] && s[|s| - 1].Capabilities? ==> CapabilitiesFirst(s + [c])
  {
    if s == [] {
      assert s + [c] == [c] && [c][1..] == [];
    } else {
      assert (s + [c])[0] == s[0] && (s + [c])[1..] == s[1..] + [c];
      BlockGrows(s[1..], c);
      if |s| > 1 { assert s[1..][|s| - 2] == s[|s| - 1]; } else { assert s[1..] == []; }
    }
  }

  lemma SubmitTidy(q: Q.Queues<Kind>, known: bool, r: Kind, priority: bool, ok: bool)
    requires Tidy(q, known) && !r.Capabilities? && (r.Discovery? ==> !priority && !known)
    ensures Tidy(Q.Submit(q, r, priority, ok), known)
  {
    BlockTail(q.prio.waiting, r);
  }

  lemma {:induction false} AskedRanked(q: Q.Queues<Kind>, seids: seq<nat>)
    requires q.out.Some? && OneBlock(q.prio.waiting)
    requires NoCapabilities(q.prio.waiting) || q.prio.waiting[|q.prio.waiting| - 1].Capabilities?
    requires forall r | r in q.prio.waiting :: !r.Discovery?
    ensures var q' := Asked(q, seids);
            && OneBlock(q'.prio.waiting) && q'.normal.waiting == q.normal.waiting && q'.out == q.out
            && (forall r | r in q'.prio.waiting :: !r.Discovery?)
    decreases |seids|
  {
    if seids != [] {
      BlockGrows(q.prio.waiting, Capabilities(seids[0]));
      AskedRanked(Q.Submit(q, Capabilities(seids[0]), true, true), seids[1..]);
    }
  }

  lemma ReleaseTidy(q: Q.Queues<Kind>, known: bool)
    requires Ranked(q, known)
    ensures Tidy(Q.Release(q), known)
  {
  }

  lemma ProcessTidy(q: Q.Queues<Kind>, known: bool, ok: bool)
    requires Tidy(q, known)
    ensures Tidy(Q.Process(q, ok), known)
  {
    if q.out.None? && q.prio.waiting != [] {
      if q.prio.waiting[0].Capabilities? { FirstIsBlock(q.prio.waiting); FirstIsBlock(q.prio.waiting[1..]); }
    }
  }

  lemma AnswerTidy(q: Q.Queues<Kind>, known: bool, ok: bool)
    requires Ranked(q, known) && q.out.Some?
    ensures Tidy(Q.Answer(q, ok), known)
  {
    ReleaseTidy(q, known);
    ProcessTidy(Q.Release(q), known, ok);
  }

  lemma CleanupTidy(q: Q.Queues<Kind>, known: bool, drop: set<Kind>)
    requires Tidy(q, known) && forall r | r in drop :: r.Else?
    ensures Tidy(Q.Cleanup(q, drop), known)
  {
    BlockThinned(q.prio.waiting, drop);
  }

  lemma LostTidy(d: State, keeps: bool)
    requires Tidy(d.queues, d.seps != [])
    ensures Tidy(Lost(d, keeps).queues, d.seps != [])
  {
    ReleaseTidy(d.queues, d.seps != []);
    var q := if d.queues.out.Some? && d.queues.out.value.Else? && !keeps then Q.Release(d.queues) else d.queues;
    CleanupTidy(q, d.seps != [], Orphans(q));
  }

  lemma AnsweredRanked(d: State, infos: seq<Info>)
    requires Tidy(d.queues, d.seps != []) && d.queues.out == Some(Discovery)
    ensures var d' := Answered(d, infos); Ranked(d'.queues, d'.seps != []) && d'.queues.out.Some?
  {
    AskedRanked(d.queues, Learn(d.seps, [], infos).1);
    if Learn(d.seps, [], infos).1 == [] { assert Asked(d.queues, []) == d.queues; }
  }

  lemma AcceptTidy(d: State, infos: seq<Info>, ok: bool)
    requires Tidy(d.queues, d.seps != []) && d.queues.out.Some?
    ensures var d' := Next(Understood(d, infos), ok); Tidy(d'.queues, d'.seps != [])
  {
    if d.queues.out == Some(Discovery) { AnsweredRanked(d, infos); }
    AnswerTidy(Understood(d, infos).queues, Understood(d, infos).seps != [], ok);
  }

  lemma CancelTidy(d: State, abort: Option<nat>)
    requires Tidy(d.queues, d.seps != []) && d.queues.out.Some?
    ensures Tidy(Cancelled(d, abort).queues, d.seps != [])
  {
    ReleaseTidy(d.queues, d.seps != []);
    if abort.Some? {
      SubmitTidy(Q.Release(d.queues), d.seps != [], Else(abort.value), true, true);
    } else {
      LostTidy(d.(queues := Q.Release(d.queues)), false);
    }
  }

  lemma DroppedTidy(d: State, st: nat, keeps: bool)
    requires Tidy(d.queues, d.seps != [])
    ensures Tidy(Dropped(d, st, keeps).queues, d.seps != [])
  {
    ReleaseTidy(d.queues, d.seps != []);
    var q := if d.queues.out == Some(Else(st)) && !keeps then Q.Release(d.queues) else d.queues;
    CleanupTidy(q, d.seps != [], {Else(st)});
  }

  lemma CalledTidy(d: State, cb: nat, ok: bool)
    requires Tidy(d.queues, d.seps != [])
    ensures Tidy(Called(d, cb, ok).queues, Called(d, cb, ok).seps != [])
  {
    if d.seps == [] { SubmitTidy(d.queues, false, Discovery, false, ok); }
  }

  lemma ReadTidy(d: State, e: Event)
    requires Tidy(d.queues, d.seps != []) && Possible(d, e) && (e.Accept? || e.Reject? || e.Ignored? || e.HungUp?)
    ensures Tidy(Step(d, e).queues, Step(d, e).seps != [])
  {
    match e
    case Accept(infos, ok) => AcceptTidy(d, infos, ok);
    case Reject(ok) => AnswerTidy(d.queues, d.seps != [], ok);
    case Ignored(ok) => AnswerTidy(d.queues, d.seps != [], ok);
    case HungUp(answered, keeps) => LostTidy(d.(armed := d.armed && !answered), keeps);
  }

  lemma StepTidy(d: State, e: Event)
    requires Tidy(d.queues, d.seps != []) && Possible(d, e)
    ensures Tidy(Step(d, e).queues, Step(d, e).seps != [])
  {
    match e
    case Discover(cb, ok) => CalledTidy(d, cb, ok);
    case Requested(st, priority, ok) => SubmitTidy(d.queues, d.seps != [], Else(st), priority, ok);
    case TimedOut(abort) => CancelTidy(d, abort);
    case StreamGone(st, keeps) => DroppedTidy(d, st, keeps);
    case IdleSource =>
    case End =>
    case _ => ReadTidy(d, e);
  }

  lemma {:induction false} RunTidy(all: bool, es: seq<Event>)
    requires PossibleRun(New(all), es)
    ensures Tidy(After(New(all), es).queues, After(New(all), es).seps != [])
    decreases |es|
  {
    if es != [] {
      RunTidy(all, es[..|es| - 1]);
      StepTidy(After(New(all), es[..|es| - 1]), es[|es| - 1]);
    }
  }

  /** Requests for capabilities that come first leave none behind the first other one. */
  lemma FirstOrNone(s: seq<Kind>)
    requires CapabilitiesFirst(s) && s != [] && !s[0].Capabilities?
    ensures NoCapabilities(s)
  {
  }

  /**
    The source ends discovery when the request that goes out next is not one for capabilities. In every
    reachable state that is so exactly if none of them waits any longer: no other request comes between them.
   */
  lemma EndsWithLastCapability(all: bool, es: seq<Event>, infos: seq<Info>, ok: bool)
    requires PossibleRun(New(all), es + [Accept(infos, ok)])
    requires After(New(all), es).queues.out.value.Capabilities?
    ensures var d := After(New(all), es);
            Ends(d, Accept(infos, ok)) <==>
              forall r | r in d.queues.prio.waiting + d.queues.normal.waiting :: !r.Capabilities?
  {
    AfterOne(New(all), es, Accept(infos, ok));
    RunTidy(all, es);
    var s := After(New(all), es).queues.prio.waiting;
    if s != [] && !s[0].Capabilities? { FirstOrNone(s); }
  }

  // ----- the crash, concretely -----

  const BEFORE := [Requested(1, false, true), Discover(10, true), TimedOut(None)]
  const AFTER := [Discover(11, false), Requested(2, false, true), Accept([], true)]

  lemma ExampleStarts()
    ensures var d1 := Step(New(true), Requested(1, false, true));
            var d2 := Step(d1, Discover(10, true));
            var d := Step(d2, TimedOut(None));
            && Possible(New(true), Requested(1, false, true)) && Possible(d1, Discover(10, true))
            && Possible(d2, TimedOut(None))
            && d.book == Book(None, false, [10], [10]) && d.seps == [] && d.watched && d.alive
            && d.queues.out.None? && d.queues.prio.waiting == [] && d.queues.normal.waiting == [Discovery]
  {
  }

  lemma ExampleGoesOn(d: State)
    requires d.book == Book(None, false, [10], [10]) && d.seps == [] && d.watched && d.alive
    requires d.queues.out.None? && d.queues.prio.waiting == [] && d.queues.normal.waiting == [Discovery]
    ensures var d1 := Step(d, Discover(11, false));
            var d2 := Step(d1, Requested(2, false, true));
            var d3 := Step(d2, Accept([], true));
            && Possible(d, Discover(11, false)) && Possible(d1, Requested(2, false, true))
            && Possible(d2, Accept([], true)) && Possible(d3, Reject(true)) && Crashes(d3, Reject(true))
  {
  }

  lemma ThreeEvents(d: State, e1: Event, e2: Event, e3: Event)
    requires Possible(d, e1) && Possible(Step(d, e1), e2) && Possible(Step(Step(d, e1), e2), e3)
    ensures PossibleRun(d, [e1, e2, e3]) && After(d, [e1, e2, e3]) == Step(Step(Step(d, e1), e2), e3)
  {
    TwoEvents(d, e1, e2);
    assert [e1, e2] + [e3] == [e1, e2, e3];
    AfterOne(d, [e1, e2], e3);
  }

  lemma TwoEvents(d: State, e1: Event, e2: Event)
    requires Possible(d, e1) && Possible(Step(d, e1), e2)
    ensures PossibleRun(d, [e1, e2]) && After(d, [e1, e2]) == Step(Step(d, e1), e2)
  {
    assert [] + [e1] == [e1] && [e1] + [e2] == [e1, e2];
    AfterOne(d, [], e1);
    AfterOne(d, [e1], e2);
  }

  lemma {:induction false} AfterBoth(d: State, a: seq<Event>, b: seq<Event>)
    requires PossibleRun(d, a) && PossibleRun(After(d, a), b)
    ensures PossibleRun(d, a + b) && After(d, a + b) == After(After(d, a), b)
    decreases |b|
  {
    if b == [] {
      assert a + b == a;
    } else {
      var front := b[..|b| - 1];
      AfterBoth(d, a, front);
      assert a + b == a + front + [b[|b| - 1]];
      AfterOne(d, a + front, b[|b| - 1]);
    }
  }

  lemma ThenOne(d: State, a: seq<Event>, b: seq<Event>, e: Event)
    requires PossibleRun(d, a) && PossibleRun(After(d, a), b) && Possible(After(After(d, a), b), e)
    ensures PossibleRun(d, a + b + [e]) && After(d, a + b) == After(After(d, a), b)
  {
    AfterBoth(d, a, b);
    AfterOne(d, a + b, e);
  }

  /**
    A Discover waits behind a request that times out. It outlives the loss of the connection, and the next
    call fails to send; then it goes out behind another request after all, and is rejected.
   */
  lemma CrashExample()
    ensures PossibleRun(New(true), BEFORE + AFTER + [Reject(true)])
    ensures Crashes(After(New(true), BEFORE + AFTER), Reject(true))
  {
    ExampleStarts();
    ThreeEvents(New(true), BEFORE[0], BEFORE[1], BEFORE[2]);
    ExampleGoesOn(After(New(true), BEFORE));
    ThreeEvents(After(New(true), BEFORE), AFTER[0], AFTER[1], AFTER[2]);
    ThenOne(New(true), BEFORE, AFTER, Reject(true));
  }

  // ----- the session -----

  lemma {:induction false} AskedOneMore(q: Q.Queues<Kind>, seids: seq<nat>, seid: nat)
    ensures Asked(q, seids + [seid]) == Q.Submit(Asked(q, seids), Capabilities(seid), true, true)
    decreases |seids|
  {
    if seids == [] {
      assert [] + [seid] == [seid] && [seid][1..] == [];
    } else {
      assert (seids + [seid])[1..] == seids[1..] + [seid];
      AskedOneMore(Q.Submit(q, Capabilities(seids[0]), true, true), seids[1..], seid);
    }
  }

  class Discoverer {
    var slot: Option<Slot>
    var source: bool
    var seps: seq<nat>
    var out: Option<Kind>
    var prio: seq<Kind>
    var normal: seq<Kind>
    ghost var d: State

    ghost predicate Valid()
      reads this
    {
      && slot == d.book.slot && source == d.book.source && seps == d.seps && d.book.SourceOwned()
      && out == d.queues.out && prio == d.queues.prio.waiting && normal == d.queues.normal.waiting
    }

    constructor (all: bool)
      ensures Valid() && d == New(all)
    {
      slot, source, seps := None, false, [];
      out, prio, normal := None, [], [];
      d := New(all);
    }

    /** send_request. */
    method SendRequest(r: Kind, priority: bool, ok: bool) returns (success: bool)
      requires Valid()
      modifies `out, `prio, `normal, `d
      ensures Valid() && d == Send(old(d), r, priority, ok) && success == (old(out).Some? || ok)
    {
      d := Send(d, r, priority, ok);
      if out.Some? {
        if priority { prio := prio + [r]; } else { normal := normal + [r]; }
        return true;
      }
      if ok { out := Some(r); }
      return ok;
    }

    /** avdtp_discover; the result is whether the call was taken. */
    method Discover(cb: nat, ok: bool) returns (taken: bool)
      requires Valid()
      modifies this
      ensures Valid() && d == Called(old(d), cb, ok)
      ensures taken <==> d.book.accepted == old(d).book.accepted + [cb]
    {
      if slot.Some? { return false; }
      ghost var b := d.book;
      slot := Some(Slot(None, false));
      if seps != [] {
        slot := Some(Slot(Some(cb), false));
        source := true;
        slot := Some(slot.value.(id := true));
        d := d.(book := b.Take(cb, true));
        return true;
      }
      d := d.(book := b.(slot := slot));
      taken := SendRequest(Discovery, false, ok);
      if taken {
        slot := Some(Slot(Some(cb), false));
        d := d.(book := b.Take(cb, false));
      }
    }

    /** finalize_discovery; `call` is the callback it calls. */
    method Finalize() returns (call: Option<nat>)
      requires Valid()
      modifies `slot, `source, `d
      ensures Valid() && d == Finalized(old(d))
      ensures d.book.fired == old(d).book.fired + (if call.Some? then [call.value] else [])
    {
      d := Finalized(d);
      if slot.None? { return None; }
      var discover := slot.value;
      slot := None;
      if discover.id { source := false; }
      return discover.cb;
    }

    /** One entry of a Discover response. */
    method LearnOne(info: Info) returns (asks: bool)
      requires Valid() && out.Some?
      modifies `seps, `out, `prio, `normal, `d
      ensures Valid() && out.Some? && asks == (info.seid in old(seps) || !info.inuse || info.hasStream)
      ensures d == if asks then Knows(Send(old(d), Capabilities(info.seid), true, true), info.seid) else old(d)
    {
      if info.seid !in seps {
        if info.inuse && !info.hasStream { return false; }
        seps := seps + [info.seid];
        d := d.(seps := seps);
      }
      var success := SendRequest(Capabilities(info.seid), true, true);
      return true;
    }

    /** All of them. */
    method LearnAll(infos: seq<Info>) returns (pending: bool)
      requires Valid() && out.Some?
      modifies `seps, `out, `prio, `normal, `d
      ensures var (known, asked) := Learn(old(seps), [], infos);
              && Valid() && pending == (asked != [])
              && d == old(d).(seps := known, queues := Asked(old(d).queues, asked))
    {
      pending := false;
      ghost var asked: seq<nat> := [];
      var i := 0;
      assert infos[0..] == infos;
      while i < |infos|
        invariant i <= |infos| && Valid() && out.Some? && pending == (asked != [])
        invariant Learn(old(seps), [], infos) == Learn(seps, asked, infos[i..])
        invariant d == old(d).(seps := seps, queues := Asked(old(d).queues, asked))
      {
        assert infos[i..][1..] == infos[i + 1..];
        AskedOneMore(old(d).queues, asked, infos[i].seid);
        var asks := LearnOne(infos[i]);
        if asks { pending, asked := true, asked + [infos[i].seid]; }
        i := i + 1;
      }
    }

    /** avdtp_discover_resp: requests wait behind the Discover, so none of them fails. */
    method DiscoverResp(infos: seq<Info>)
      requires Valid() && out == Some(Discovery)
      modifies this
      ensures Valid() && d == Understood(old(d), infos)
    {
      var pending := LearnAll(infos);
      if !pending { var call := Finalize(); }
    }

    /** The end of avdtp_parse_resp for a request for capabilities. */
    method CapabilitiesResp() returns (ended: bool)
      requires Valid() && out.Some? && out.value.Capabilities?
      modifies this
      ensures Valid() && d == Understood(old(d), []) && ended == !CapabilityNext(old(d).queues)
    {
      var next := if prio != [] then Some(prio[0]) else if normal != [] then Some(normal[0]) else None;
      ended := !(next.Some? && next.value.Capabilities?);
      if ended { var call := Finalize(); }
    }

    /** avdtp_parse_rej for Discover and the requests for capabilities; it crashes if the slot has no callback. */
    method DiscoverRej() returns (crashed: bool, call: Option<nat>)
      requires Valid() && !source && out.Some? && !out.value.Else?
      modifies this
      ensures crashed == old(d).book.Hollow() && (crashed ==> d == old(d) && call.None?)
      ensures !crashed ==> Valid() && d == Refused(old(d))
      ensures !crashed ==> d.book.fired == old(d).book.fired + (if call.Some? then [call.value] else [])
    {
      if slot.None? {
        assert d.book.fired + [] == d.book.fired;
        d := Refused(d);
        return false, None;
      }
      if slot.value.cb.None? { return true, None; }
      call := slot.value.cb;
      slot := None;
      d := Refused(d);
      return false, call;
    }

    /** process_discover: the idle source always finds its slot. */
    method ProcessDiscover() returns (call: nat)
      requires Valid() && source
      modifies this
      ensures Valid() && d == Step(old(d), IdleSource)
      ensures d.book.fired == old(d).book.fired + [call]
    {
      slot := Some(slot.value.(id := false));
      source := false;
      d := d.(book := d.book.(slot := slot, source := false));
      var cb := Finalize();
      call := cb.value;
    }
  }
}
