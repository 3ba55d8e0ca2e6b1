/**
  The request machine of an AVDTP session: at most one request outstanding, a priority queue
  and a normal queue behind it. `R` is whatever identifies a request.

  Each class of requests is a lane, which also records which of its requests were accepted,
  and in which order they went on the wire.
*/
module AvdtpRequests {
  import opened Prelude

  datatype Lane<!R(==)> = Lane(waiting: seq<R>, accepted: seq<R>, sent: seq<R>) {
    /** Accepted, and queued. */
    function Push(r: R): Lane<R> { Lane(waiting + [r], accepted + [r], sent) }

    /** Accepted, and transmitted at once. */
    function Direct(r: R): Lane<R> { Lane(waiting, accepted + [r], sent + [r]) }

    /** The head leaves the queue, and is transmitted if `ok`. */
    function Pop(ok: bool): Lane<R>
      requires waiting != []
    {
      Lane(waiting[1..], accepted, if ok then sent + [waiting[0]] else sent)
    }

    function Thin(drop: set<R>): Lane<R> { this.(waiting := Without(waiting, drop)) }

    function Clear(): Lane<R> { this.(waiting := []) }

    /** What was sent, and then what still waits, follows the order of acceptance. */
    predicate Ordered() { Subsequence(sent + waiting, accepted) }
  }

  datatype Queues<!R(==)> = Queues(out: Option<R>, prio: Lane<R>, normal: Lane<R>, freed: multiset<R>) {
    predicate Waiting() { prio.waiting != [] || normal.waiting != [] }

    function LaneOf(priority: bool): Lane<R> { if priority then prio else normal }

    function WithLane(priority: bool, l: Lane<R>): Queues<R> {
      if priority then this.(prio := l) else this.(normal := l)
    }

    function OutSet(): multiset<R> {
      match out
      case None => multiset{}
      case Some(r) => multiset{r}
    }

    /** Every place a request can be in. */
    function Placed(): multiset<R> {
      multiset(prio.waiting) + multiset(normal.waiting) + freed + OutSet()
    }

    function Accepted(): multiset<R> { multiset(prio.accepted) + multiset(normal.accepted) }

    function Sent(): multiset<R> { multiset(prio.sent) + multiset(normal.sent) }
  }

  function Empty<R>(): Queues<R> {
    Queues(None, Lane([], [], []), Lane([], [], []), multiset{})
  }

  // ----- the operations -----

  /** send_request: queue behind an outstanding request, else transmit; `ok` is the outcome of that. */
  function Submit<R>(q: Queues<R>, r: R, priority: bool, ok: bool): Queues<R> {
    if q.out.Some? then q.WithLane(priority, q.LaneOf(priority).Push(r))
    else if ok then q.WithLane(priority, q.LaneOf(priority).Direct(r)).(out := Some(r))
    else q
  }

  /** process_queue: the next request leaves its queue and is transmitted, or freed if that fails. */
  function Process<R>(q: Queues<R>, ok: bool): Queues<R> {
    if q.out.Some? || !q.Waiting() then q
    else
      var priority := q.prio.waiting != [];
      var head := q.LaneOf(priority).waiting[0];
      var q1 := q.WithLane(priority, q.LaneOf(priority).Pop(ok));
      if ok then q1.(out := Some(head)) else q1.(freed := q.freed + multiset{head})
  }

  /** The outstanding request is freed and nothing takes its place. */
  function Release<R>(q: Queues<R>): Queues<R> {
    q.(out := None, freed := q.freed + q.OutSet())
  }

  /** A reply, or a collision: the outstanding request is done, the next one goes out. */
  function Answer<R>(q: Queues<R>, ok: bool): Queues<R> {
    if q.out.None? then q else Process(Release(q), ok)
  }

  /** cleanup_queue: the requests in `drop` leave both queues. */
  function Cleanup<R>(q: Queues<R>, drop: set<R>): Queues<R> {
    q.(prio := q.prio.Thin(drop), normal := q.normal.Thin(drop),
       freed := q.freed + Dropped(q.prio.waiting, drop) + Dropped(q.normal.waiting, drop))
  }

  /** cancel_request on a stream: an Abort is transmitted at once in place of the outstanding request. */
  function Cancel<R>(q: Queues<R>, abort: R, ok: bool): Queues<R> {
    if q.out.None? then q else Submit(Release(q), abort, true, ok)
  }

  /** avdtp_free. */
  function FreeAll<R>(q: Queues<R>): Queues<R> {
    Queues(None, q.prio.Clear(), q.normal.Clear(),
           q.freed + q.OutSet() + multiset(q.prio.waiting) + multiset(q.normal.waiting))
  }

  // ----- runs -----

  datatype Event<!R(==)> =
    | Submitted(r: R, priority: bool, ok: bool)
    | Answered(ok: bool)
    | Unanswered                 // the stream of the outstanding request went away
    | CleanedUp(drop: set<R>)    // the same for queued requests
    | Cancelled(abort: R, ok: bool)
    | Freed

  function Step<R>(q: Queues<R>, e: Event<R>): Queues<R> {
    match e
    case Submitted(r, p, ok) => Submit(q, r, p, ok)
    case Answered(ok) => Answer(q, ok)
    case Unanswered => Release(q)
    case CleanedUp(drop) => Cleanup(q, drop)
    case Cancelled(a, ok) => Cancel(q, a, ok)
    case Freed => FreeAll(q)
  }

  /** Requests are allocated when they are submitted, so each submission brings a new one. */
  predicate Fresh<R>(q: Queues<R>, e: Event<R>) {
    match e
    case Submitted(r, _, _) => r !in q.Accepted()
    case Cancelled(a, _) => a !in q.Accepted()
    case _ => true
  }

  function Run<R>(q: Queues<R>, es: seq<Event<R>>): Queues<R>
    decreases |es|
  {
    if es == [] then q else Run(Step(q, es[0]), es[1..])
  }

  ghost predicate FreshRun<R>(q: Queues<R>, es: seq<Event<R>>)
    decreases |es|
  {
    es == [] || (Fresh(q, es[0]) && FreshRun(Step(q, es[0]), es[1..]))
  }

  // ----- conservation -----

  /** No accepted request is lost, duplicated or sent twice. */
  ghost predicate Conserved<R>(q: Queues<R>) {
    && q.Placed() == q.Accepted()
    && NoDup(q.prio.accepted + q.normal.accepted)
    && SentOrWaiting(q.prio) && SentOrWaiting(q.normal)
  }

  ghost predicate SentOrWaiting<R>(l: Lane<R>) {
    multiset(l.sent) + multiset(l.waiting) <= multiset(l.accepted)
  }

  lemma HeadAndRest<R>(s: seq<R>)
    requires s != []
    ensures multiset(s) == multiset{s[0]} + multiset(s[1..])
  {
    assert s == [s[0]] + s[1..];
  }

  lemma AcceptKeepsNoDup<R>(a: seq<R>, b: seq<R>, r: R)
    requires NoDup(a + b) && r !in multiset(a) + multiset(b)
    ensures NoDup(a + [r] + b) && NoDup(a + (b + [r]))
  {
    assert forall i | 0 <= i < |a| :: a[i] == (a + b)[i];
    assert forall i | 0 <= i < |b| :: b[i] == (a + b)[|a| + i];
    assert r !in a && r !in b;
  }

  lemma OneMore<R>(s: seq<R>, r: R)
    ensures multiset(s + [r]) == multiset(s) + multiset{r}
  {
  }

  lemma QueuePlaces<R>(q: Queues<R>, r: R, priority: bool)
    requires q.out.Some?
    ensures Submit(q, r, priority, true).Placed() == q.Placed() + multiset{r}
  {
    OneMore(q.LaneOf(priority).waiting, r);
  }

  lemma SubmitAccepts<R>(q: Queues<R>, r: R, priority: bool, ok: bool)
    requires q.out.Some? || ok
    ensures Submit(q, r, priority, ok).Accepted() == q.Accepted() + multiset{r}
  {
    OneMore(q.LaneOf(priority).accepted, r);
  }

  lemma SubmitPlaces<R>(q: Queues<R>, r: R, priority: bool, ok: bool)
    requires q.out.Some? || ok
    ensures Submit(q, r, priority, ok).Placed() == q.Placed() + multiset{r}
    ensures Submit(q, r, priority, ok).Accepted() == q.Accepted() + multiset{r}
  {
    SubmitAccepts(q, r, priority, ok);
    if q.out.Some? { QueuePlaces(q, r, priority); }
  }

  lemma SubmitConserves<R>(q: Queues<R>, r: R, priority: bool, ok: bool)
    requires Conserved(q) && r !in q.Accepted()
    ensures Conserved(Submit(q, r, priority, ok))
  {
    AcceptKeepsNoDup(q.prio.accepted, q.normal.accepted, r);
    if q.out.Some? || ok { SubmitPlaces(q, r, priority, ok); }
  }

  /** Popping moves the head from the queue to the sent log, or out of the lane. */
  lemma PopMoves<R>(l: Lane<R>, ok: bool)
    requires l.waiting != []
    ensures multiset(l.Pop(ok).waiting) + multiset{l.waiting[0]} == multiset(l.waiting)
    ensures SentOrWaiting(l) ==> SentOrWaiting(l.Pop(ok))
  {
    HeadAndRest(l.waiting);
  }

  /** Moving `h` from `a` to `freed`, or out, leaves the sum as it is. */
  lemma MoveOne<R>(a: multiset<R>, rest: multiset<R>, h: R, b: multiset<R>, freed: multiset<R>)
    requires rest + multiset{h} == a
    ensures rest + b + freed + multiset{h} == a + b + freed
    ensures b + rest + freed + multiset{h} == b + a + freed
    ensures rest + b + (freed + multiset{h}) == a + b + freed
    ensures b + rest + (freed + multiset{h}) == b + a + freed
  {
  }

  lemma ProcessPlaces<R>(q: Queues<R>, ok: bool)
    ensures Process(q, ok).Placed() == q.Placed() && Process(q, ok).Accepted() == q.Accepted()
  {
    if q.out.None? && q.Waiting() {
      var p := q.prio.waiting != [];
      var l, other := q.LaneOf(p), multiset(q.LaneOf(!p).waiting);
      PopMoves(l, ok);
      MoveOne(multiset(l.waiting), multiset(l.Pop(ok).waiting), l.waiting[0], other, q.freed);
    }
  }

  lemma ProcessConserves<R>(q: Queues<R>, ok: bool)
    requires Conserved(q)
    ensures Conserved(Process(q, ok))
  {
    ProcessPlaces(q, ok);
    if q.out.None? && q.Waiting() { PopMoves(q.LaneOf(q.prio.waiting != []), ok); }
  }

  lemma CleanupConserves<R>(q: Queues<R>, drop: set<R>)
    requires Conserved(q)
    ensures Conserved(Cleanup(q, drop))
  {
    WithoutSplit(q.prio.waiting, drop);
    WithoutSplit(q.normal.waiting, drop);
  }

  lemma ReleaseConserves<R>(q: Queues<R>)
    requires Conserved(q)
    ensures Conserved(Release(q)) && Release(q).Accepted() == q.Accepted()
  {
    assert Release(q).Placed() == q.Placed();
  }

  lemma StepConserves<R>(q: Queues<R>, e: Event<R>)
    requires Conserved(q) && Fresh(q, e)
    ensures Conserved(Step(q, e))
  {
    ReleaseConserves(q);
    match e
    case Submitted(r, p, ok) => SubmitConserves(q, r, p, ok);
    case Answered(ok) => ProcessConserves(Release(q), ok);
    case Unanswered =>
    case CleanedUp(drop) => CleanupConserves(q, drop);
    case Cancelled(a, ok) => SubmitConserves(Release(q), a, true, ok);
    case Freed =>
  }

  /** Conservation over every run: whatever fails, times out or is torn down in between. */
  lemma {:induction false} RunConserves<R>(q: Queues<R>, es: seq<Event<R>>)
    requires Conserved(q) && FreshRun(q, es)
    ensures Conserved(Run(q, es))
    decreases |es|
  {
    if es != [] {
      StepConserves(q, es[0]);
      RunConserves(Step(q, es[0]), es[1..]);
    }
  }

  lemma {:induction false} CountInNoDup<R>(s: seq<R>, r: R)
    requires NoDup(s)
    ensures multiset(s)[r] == if r in s then 1 else 0
  {
    if s != [] {
      assert s == [s[0]] + s[1..];
      CountInNoDup(s[1..], r);
    }
  }

  /** Conservation, for a single request: it is in exactly one place, once, and was transmitted at most once. */
  lemma InOnePlace<R>(q: Queues<R>, r: R)
    requires Conserved(q) && r in q.prio.accepted + q.normal.accepted
    ensures (if q.out == Some(r) then 1 else 0)
            + multiset(q.prio.waiting)[r] + multiset(q.normal.waiting)[r] + q.freed[r] == 1
    ensures q.Sent()[r] <= 1
  {
    CountInNoDup(q.prio.accepted + q.normal.accepted, r);
    assert multiset(q.prio.accepted + q.normal.accepted) == q.Accepted();
  }

  /**
    After every run from a new session, each accepted request is outstanding, in one of the two
    queues, or freed: in exactly one of these, once; and it was transmitted at most once.
   */
  lemma EachRequestInOnePlace<R>(es: seq<Event<R>>, r: R)
    requires FreshRun(Empty(), es)
    requires r in Run(Empty(), es).prio.accepted + Run(Empty(), es).normal.accepted
    ensures var q := Run(Empty(), es);
            && (if q.out == Some(r) then 1 else 0)
               + multiset(q.prio.waiting)[r] + multiset(q.normal.waiting)[r] + q.freed[r] == 1
            && q.Sent()[r] <= 1
  {
    RunConserves(Empty(), es);
    InOnePlace(Run(Empty(), es), r);
  }

  lemma FreeAllFrees<R>(q: Queues<R>)
    requires Conserved(q)
    ensures FreeAll(q).freed == q.Accepted() == FreeAll(q).Accepted()
  {
  }

  /** When the session is freed nothing is left: exactly the accepted requests were freed. */
  lemma AllFreedAtTheEnd<R>(es: seq<Event<R>>)
    requires FreshRun(Empty(), es)
    ensures var q := FreeAll(Run(Empty(), es));
            q.freed == q.Accepted() && q.out.None? && !q.Waiting()
  {
    RunConserves(Empty(), es);
    FreeAllFrees(Run(Empty(), es));
  }

  // ----- order -----

  /** Within each class, what was sent and then what still waits follow the order of acceptance. */
  predicate Ordered<R>(q: Queues<R>) {
    q.prio.Ordered() && q.normal.Ordered()
  }

  /**
    What breaks the order: a request transmitted at once although others of its class wait. It is
    the Abort of a cancel, or a submission while nothing is outstanding and the queue was left behind.
   */
  predicate Overtakes<R>(q: Queues<R>, e: Event<R>) {
    match e
    case Submitted(_, p, ok) => ok && q.out.None? && q.LaneOf(p).waiting != []
    case Cancelled(_, ok) => ok && q.out.Some? && q.prio.waiting != []
    case _ => false
  }

  /** A new request may go behind its queue, and may go out at once only if that queue is empty. */
  lemma AcceptOrder<R>(l: Lane<R>, r: R)
    requires l.Ordered() && NoDup(l.accepted + [r])
    ensures l.Push(r).Ordered()
    ensures l.Direct(r).Ordered() <==> l.waiting == []
  {
    SubsequenceSelf([r]);
    SubsequenceConcat(l.sent + l.waiting, l.accepted, [r], [r]);
    assert l.sent + (l.waiting + [r]) == l.sent + l.waiting + [r];
    if l.waiting == [] {
      assert l.sent + [r] + l.waiting == l.sent + (l.waiting + [r]);
    } else {
      NothingAfterLast(l.sent, r, l.waiting, l.accepted);
    }
  }

  /** Any subsequence of the waiting requests may stay. */
  lemma ThinOrder<R>(l: Lane<R>, waiting: seq<R>)
    requires l.Ordered() && Subsequence(waiting, l.waiting)
    ensures l.(waiting := waiting).Ordered()
  {
    SubsequenceSelf(l.sent);
    SubsequenceConcat(l.sent, l.sent, waiting, l.waiting);
    SubsequenceTransitive(l.sent + waiting, l.sent + l.waiting, l.accepted);
  }

  lemma PopOrder<R>(l: Lane<R>, ok: bool)
    requires l.Ordered() && l.waiting != []
    ensures l.Pop(ok).Ordered()
  {
    assert l.sent + [l.waiting[0]] + l.waiting[1..] == l.sent + l.waiting;
    SubsequenceSelf(l.waiting);
    SubsequenceTail(l.waiting, l.waiting);
    ThinOrder(l, l.waiting[1..]);
  }

  lemma NoDupParts<R>(a: seq<R>, b: seq<R>)
    requires NoDup(a + b)
    ensures NoDup(a) && NoDup(b)
  {
    assert forall i | 0 <= i < |a| :: a[i] == (a + b)[i];
    assert forall i | 0 <= i < |b| :: b[i] == (a + b)[|a| + i];
  }

  lemma SubmitOrder<R>(q: Queues<R>, r: R, priority: bool, ok: bool)
    requires Conserved(q) && r !in q.Accepted() && Ordered(q)
    ensures Ordered(Submit(q, r, priority, ok)) <==> !Overtakes(q, Submitted(r, priority, ok))
  {
    AcceptKeepsNoDup(q.prio.accepted, q.normal.accepted, r);
    NoDupParts(q.prio.accepted + [r], q.normal.accepted);
    NoDupParts(q.prio.accepted, q.normal.accepted + [r]);
    AcceptOrder(q.LaneOf(priority), r);
  }

  lemma ProcessOrder<R>(q: Queues<R>, ok: bool)
    requires Ordered(q)
    ensures Ordered(Process(q, ok))
  {
    if q.Waiting() { PopOrder(q.LaneOf(q.prio.waiting != []), ok); }
  }

  lemma CleanupOrder<R>(q: Queues<R>, drop: set<R>)
    requires Ordered(q)
    ensures Ordered(Cleanup(q, drop))
  {
    WithoutIsSubsequence(q.prio.waiting, drop);
    WithoutIsSubsequence(q.normal.waiting, drop);
    ThinOrder(q.prio, Without(q.prio.waiting, drop));
    ThinOrder(q.normal, Without(q.normal.waiting, drop));
  }

  /** Order survives a step exactly when the step overtakes nothing. */
  lemma StepOrder<R>(q: Queues<R>, e: Event<R>)
    requires Conserved(q) && Fresh(q, e) && Ordered(q)
    ensures Ordered(Step(q, e)) <==> !Overtakes(q, e)
  {
    match e
    case Submitted(r, p, ok) => SubmitOrder(q, r, p, ok);
    case Answered(ok) => ProcessOrder(Release(q), ok);
    case Unanswered =>
    case CleanedUp(drop) => CleanupOrder(q, drop);
    case Cancelled(a, ok) =>
      StepConserves(q, Unanswered);
      SubmitOrder(Release(q), a, true, ok);
    case Freed =>
      ThinOrder(q.prio, []);
      ThinOrder(q.normal, []);
  }

  // ----- wake-ups and priority -----

  /** Requests wait only behind an outstanding one. */
  predicate Awake<R>(q: Queues<R>) {
    q.Waiting() ==> q.out.Some?
  }

  /** What leaves requests waiting with nothing outstanding to wake them up. */
  predicate Strands<R>(q: Queues<R>, e: Event<R>) {
    match e
    case Answered(ok) => q.out.Some? && !ok && |q.prio.waiting| + |q.normal.waiting| > 1
    case Unanswered => q.Waiting()
    case Cancelled(_, ok) => !ok && q.Waiting()
    case _ => false
  }

  lemma AnswerAwake<R>(q: Queues<R>, ok: bool)
    requires Awake(q)
    ensures Awake(Answer(q, ok)) <==> !Strands(q, Answered(ok))
  {
    if q.Waiting() {
      var l := q.LaneOf(q.prio.waiting != []);
      assert |l.Pop(ok).waiting| == |l.waiting| - 1;
    }
  }

  lemma CleanupAwake<R>(q: Queues<R>, drop: set<R>)
    requires Awake(q)
    ensures Awake(Cleanup(q, drop))
  {
    if !q.Waiting() {
      assert Without(q.prio.waiting, drop) == [] && Without(q.normal.waiting, drop) == [];
    }
  }

  /** Exactly these strand requests: a failed transmission, and teardown of the outstanding one. */
  lemma StepAwake<R>(q: Queues<R>, e: Event<R>)
    requires Awake(q)
    ensures Awake(Step(q, e)) <==> !Strands(q, e)
  {
    match e
    case Answered(ok) => AnswerAwake(q, ok);
    case CleanedUp(drop) => CleanupAwake(q, drop);
    case _ =>
  }

  /** While requests wait only behind an outstanding one, a normal one goes out only if no priority one waits. */
  lemma PriorityFirst<R>(q: Queues<R>, e: Event<R>)
    requires Awake(q) && q.prio.waiting != []
    ensures Step(q, e).normal.sent == q.normal.sent
  {
  }

  /** A run whose steps never overtake and never strand. */
  ghost predicate Smooth<R>(q: Queues<R>, es: seq<Event<R>>)
    decreases |es|
  {
    es == [] || (!Overtakes(q, es[0]) && !Strands(q, es[0]) && Smooth(Step(q, es[0]), es[1..]))
  }

  /** Order and wake-ups over every run that meets neither of the two exceptions on its way. */
  lemma {:induction false} SmoothRun<R>(q: Queues<R>, es: seq<Event<R>>)
    requires Conserved(q) && Ordered(q) && Awake(q) && FreshRun(q, es) && Smooth(q, es)
    ensures Ordered(Run(q, es)) && Awake(Run(q, es))
    decreases |es|
  {
    if es != [] {
      StepConserves(q, es[0]);
      StepOrder(q, es[0]);
      StepAwake(q, es[0]);
      SmoothRun(Step(q, es[0]), es[1..]);
    }
  }

  // ----- first in, first out -----

  /** The requests of a class that an event takes out of their queue unsent. */
  ghost function LostBy<R>(q: Queues<R>, e: Event<R>, priority: bool): set<R> {
    var waiting := q.LaneOf(priority).waiting;
    match e
    case Answered(ok) =>
      if q.out.Some? && !ok && waiting != [] && (priority || q.prio.waiting == []) then {waiting[0]} else {}
    case CleanedUp(drop) => set r | r in waiting && r in drop
    case Freed => Elements(waiting)
    case _ => {}
  }

  ghost function Lost<R>(q: Queues<R>, es: seq<Event<R>>, priority: bool): set<R>
    decreases |es|
  {
    if es == [] then {} else LostBy(q, es[0], priority) + Lost(Step(q, es[0]), es[1..], priority)
  }

  /** First in, first out: what was sent and then what waits is what was accepted, except `lost`. */
  predicate Fifo<R>(l: Lane<R>, lost: set<R>) {
    l.sent + l.waiting == Without(l.accepted, lost) && forall r | r in lost :: r in l.accepted
  }

  lemma PushFifo<R>(l: Lane<R>, lost: set<R>, r: R)
    requires Fifo(l, lost) && r !in l.accepted
    ensures Without(l.accepted + [r], lost) == l.sent + (l.waiting + [r])
    ensures Fifo(l.Push(r), lost)
  {
    WithoutConcat(l.accepted, [r], lost);
    assert Without([r], lost) == [r];
    assert l.sent + (l.waiting + [r]) == l.sent + l.waiting + [r];
  }

  /** A new request goes behind the others, or out; out, it is in its place only if none waits. */
  lemma AcceptFifo<R>(l: Lane<R>, lost: set<R>, r: R)
    requires Fifo(l, lost) && r !in l.accepted
    ensures Fifo(l.Push(r), lost)
    ensures Fifo(l.Direct(r), lost) <==> l.waiting == []
  {
    PushFifo(l, lost, r);
    if l.waiting == [] {
      assert l.sent + [r] + l.waiting == l.sent + (l.waiting + [r]);
    } else {
      assert l.waiting[0] in l.sent + l.waiting;
      assert (l.sent + [r] + l.waiting)[|l.sent|] != (l.sent + (l.waiting + [r]))[|l.sent|];
    }
  }

  /** Requests that leave their queue unsent are the only ones missing. */
  lemma DropFifo<R>(l: Lane<R>, lost: set<R>, drop: set<R>)
    requires Fifo(l, lost) && NoDup(l.accepted) && forall r | r in drop :: r in l.waiting
    ensures Fifo(l.(waiting := Without(l.waiting, drop)), lost + drop)
  {
    WithoutTwice(l.accepted, lost, drop);
    WithoutConcat(l.sent, l.waiting, drop);
    WithoutNoDup(l.accepted, lost);
    SentIsGone(l.sent, l.waiting);
    WithoutNothing(l.sent, drop);
    forall r | r in drop
      ensures r in l.accepted
    {
      assert r in l.sent + l.waiting;
    }
  }

  lemma SentIsGone<R>(sent: seq<R>, waiting: seq<R>)
    requires NoDup(sent + waiting)
    ensures forall r | r in sent :: r !in waiting
  {
    forall i, j | 0 <= i < |sent| && 0 <= j < |waiting|
      ensures sent[i] != waiting[j]
    {
      assert (sent + waiting)[i] != (sent + waiting)[|sent| + j];
    }
  }

  lemma PopFifo<R>(l: Lane<R>, lost: set<R>, ok: bool)
    requires Fifo(l, lost) && NoDup(l.accepted) && l.waiting != []
    ensures Fifo(l.Pop(ok), if ok then lost else lost + {l.waiting[0]})
  {
    if ok {
      assert l.sent + [l.waiting[0]] + l.waiting[1..] == l.sent + l.waiting;
    } else {
      var h := l.waiting[0];
      DropFifo(l, lost, {h});
      WithoutNoDup(l.accepted, lost);
      NoDupParts(l.sent, l.waiting);
      assert h !in l.waiting[1..];
      WithoutNothing(l.waiting[1..], {h});
      assert Without(l.waiting, {h}) == l.waiting[1..];
    }
  }

  lemma ProcessFifo<R>(q: Queues<R>, ok: bool, p: bool, lost: set<R>)
    requires Fifo(q.LaneOf(p), lost) && NoDup(q.LaneOf(p).accepted) && q.out.Some?
    ensures Fifo(Answer(q, ok).LaneOf(p), lost + LostBy(q, Answered(ok), p))
  {
    var l := q.LaneOf(p);
    Unions(lost, {}, {});
    if l.waiting != [] && (p || q.prio.waiting == []) {
      PopFifo(l, lost, ok);
    }
  }

  /** Order is kept exactly by the steps that overtake nothing, whatever fails or is torn down. */
  lemma StepFifo<R>(q: Queues<R>, e: Event<R>, p: bool, lost: set<R>)
    requires Conserved(q) && Fresh(q, e) && Fifo(q.LaneOf(p), lost)
    ensures !Overtakes(q, e) ==> Fifo(Step(q, e).LaneOf(p), lost + LostBy(q, e, p))
  {
    var l := q.LaneOf(p);
    NoDupParts(q.prio.accepted, q.normal.accepted);
    Unions(lost, {}, {});
    match e
    case Submitted(r, _, _) => AcceptFifo(l, lost, r);
    case Answered(ok) => if q.out.Some? { ProcessFifo(q, ok, p, lost); }
    case Unanswered =>
    case CleanedUp(drop) => CleanupFifo(l, lost, drop);
    case Cancelled(a, _) => AcceptFifo(l, lost, a);
    case Freed =>
      DropFifo(l, lost, Elements(l.waiting));
      WithoutAll(l.waiting, Elements(l.waiting));
  }

  lemma CleanupFifo<R>(l: Lane<R>, lost: set<R>, drop: set<R>)
    requires Fifo(l, lost) && NoDup(l.accepted)
    ensures Fifo(l.Thin(drop), lost + set r | r in l.waiting && r in drop)
  {
    var hit := set r | r in l.waiting && r in drop;
    DropFifo(l, lost, hit);
    SameWithout(l.waiting, drop, hit);
  }

  lemma {:induction false} SameWithout<R>(s: seq<R>, a: set<R>, b: set<R>)
    requires forall r | r in s :: r in a <==> r in b
    ensures Without(s, a) == Without(s, b)
  {
    if s != [] { SameWithout(s[1..], a, b); }
  }

  ghost predicate NeverOvertakes<R>(q: Queues<R>, es: seq<Event<R>>)
    decreases |es|
  {
    es == [] || (!Overtakes(q, es[0]) && NeverOvertakes(Step(q, es[0]), es[1..]))
  }

  lemma Unions<R>(a: set<R>, b: set<R>, c: set<R>)
    ensures a + b + c == a + (b + c) && a + {} == a && {} + a == a
  {
  }

  lemma {:induction false} RunFifo<R>(q: Queues<R>, es: seq<Event<R>>, p: bool, lost: set<R>)
    requires Conserved(q) && FreshRun(q, es) && NeverOvertakes(q, es) && Fifo(q.LaneOf(p), lost)
    ensures Fifo(Run(q, es).LaneOf(p), lost + Lost(q, es, p))
    decreases |es|
  {
    if es == [] {
      Unions(lost, {}, {});
    } else {
      StepConserves(q, es[0]);
      StepFifo(q, es[0], p, lost);
      RunFifo(Step(q, es[0]), es[1..], p, lost + LostBy(q, es[0], p));
      Unions(lost, LostBy(q, es[0], p), Lost(Step(q, es[0]), es[1..], p));
    }
  }

  /**
    Each class is first in, first out, over every run from a new session that never overtakes: what was
    sent and then what waits is what was accepted, in order, except what left its queue unsent.
   */
  lemma RunIsFifo<R>(es: seq<Event<R>>, p: bool)
    requires FreshRun(Empty(), es) && NeverOvertakes(Empty(), es)
    ensures var l := Run(Empty(), es).LaneOf(p);
            l.sent + l.waiting == Without(l.accepted, Lost(Empty(), es, p))
  {
    RunFifo(Empty(), es, p, {});
    Unions(Lost(Empty(), es, p), {}, {});
  }

  /** The lost wake-up, concretely: the outstanding request is dropped with its stream and one waits for ever. */
  lemma StrandedExample()
    ensures var q := Run<int>(Empty(), [Submitted(1, false, true), Submitted(2, false, true), Unanswered]);
            q.out.None? && q.normal.waiting == [2]
  {
    var es := [Submitted(1, false, true), Submitted(2, false, true), Unanswered];
    var q1 := Step<int>(Empty(), es[0]);
    var q2 := Step(q1, es[1]);
    assert es[1..][1..] == [Unanswered];
    assert Run(q2, [Unanswered]) == Run(Step(q2, Unanswered), []);
    assert Run(q1, es[1..]) == Run(q2, es[1..][1..]);
  }
}
