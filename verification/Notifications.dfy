/** The notification extension: pushes take tickets, their fetches run one at a time on a queue, a
    queued fetch that a newer push has superseded is skipped, and each push is completed once, by its
    own run or by the expiry callback. */
module Notifications {
  import opened Wrappers

  type PushId = nat

  /** What a push is completed with. */
  datatype Content = Original | Rewritten | PhoneLocked

  datatype Stage = Received | Ticketed | Enqueued | Begun | Working | Finishing(content: Content) | Firing | Over

  /** `slot` is the content handler; whoever empties it calls it. */
  datatype Push = Push(
    stage: Stage,
    ticket: nat,
    ticketAt: nat,
    beganAt: nat,
    passed: bool,
    best: Content,
    slot: bool,
    workerHolds: Option<Content>,
    expiryHolds: Option<Content>,
    fired: seq<Content>)

  datatype State = State(
    generation: nat,
    shownLockedBanner: bool,
    queue: seq<PushId>,
    running: Option<PushId>,
    pushes: map<PushId, Push>,
    now: nat)

  const INITIAL := State(0, false, [], None, map[], 0)

  /** How a run that was not skipped went. */
  datatype Outcome = LockedSinceBoot | NoKeyOrContainer | NothingNew | Messages

  /** The steps between which other threads may run. didReceive is Receive, Ticket, Enqueue; a run is
      Begin, Check, Work, WorkerTake, WorkerFire; expiry is ExpiryTake, ExpiryFire. */
  datatype Event =
    | Receive(p: PushId)
    | Ticket(p: PushId)
    | Enqueue(p: PushId)
    | Begin
    | Check
    | Work(outcome: Outcome)
    | WorkerTake
    | WorkerFire
    | ExpiryTake(p: PushId)
    | ExpiryFire(p: PushId)

  predicate AtStage(s: State, p: PushId, stage: Stage) {
    p in s.pushes && s.pushes[p].stage == stage
  }

  predicate RunningAt(s: State, stage: Stage) {
    s.running.Some? && AtStage(s, s.running.value, stage)
  }

  function Set(s: State, p: PushId, push: Push): State {
    s.(pushes := s.pushes[p := push])
  }

  /** The content a run finishes with, the banner being claimed by the first locked run. */
  function Finished(s: State, outcome: Outcome, best: Content): Content {
    match outcome
    case LockedSinceBoot => if s.shownLockedBanner then best else PhoneLocked
    case NoKeyOrContainer => best
    case NothingNew => best
    case Messages => Rewritten
  }

  /** The event itself, before the clock moves on. An event that cannot happen changes nothing. */
  function Act(s: State, e: Event): State {
    match e
    case Receive(p) =>
      if p in s.pushes then s
      else Set(s, p, Push(Received, 0, 0, 0, false, Original, true, None, None, []))
    case Ticket(p) =>
      if !AtStage(s, p, Received) then s
      else Set(s, p, s.pushes[p].(stage := Ticketed, ticket := s.generation + 1, ticketAt := s.now))
           .(generation := s.generation + 1)
    case Enqueue(p) =>
      if !AtStage(s, p, Ticketed) then s
      else Set(s, p, s.pushes[p].(stage := Enqueued)).(queue := s.queue + [p])
    case Begin =>
      if s.running.Some? || s.queue == [] || s.queue[0] !in s.pushes then s
      else Set(s, s.queue[0], s.pushes[s.queue[0]].(stage := Begun, beganAt := s.now))
           .(queue := s.queue[1..], running := Some(s.queue[0]))
    case Check =>
      if !RunningAt(s, Begun) then s
      else
        var p := s.running.value;
        if s.pushes[p].ticket < s.generation
        then Set(s, p, s.pushes[p].(stage := Finishing(s.pushes[p].best)))
        else Set(s, p, s.pushes[p].(stage := Working, passed := true))
    case Work(outcome) =>
      if !RunningAt(s, Working) then s
      else
        var p := s.running.value;
        Set(s, p, s.pushes[p].(stage := Finishing(Finished(s, outcome, s.pushes[p].best)),
                               best := if outcome.Messages? then Rewritten else s.pushes[p].best))
        .(shownLockedBanner := s.shownLockedBanner || outcome.LockedSinceBoot?)
    case WorkerTake =>
      if s.running.None? || s.running.value !in s.pushes || !s.pushes[s.running.value].stage.Finishing? then s
      else
        var p := s.running.value;
        var push := s.pushes[p];
        Set(s, p, push.(stage := Firing, slot := false,
                        workerHolds := if push.slot then Some(push.stage.content) else None))
    case WorkerFire =>
      if !RunningAt(s, Firing) then s
      else
        var p := s.running.value;
        var push := s.pushes[p];
        Set(s, p, push.(stage := Over, workerHolds := None,
                        fired := if push.workerHolds.Some? then push.fired + [push.workerHolds.value] else push.fired))
        .(running := None)
    case ExpiryTake(p) =>
      if p !in s.pushes || !s.pushes[p].slot then s
      else Set(s, p, s.pushes[p].(slot := false, expiryHolds := Some(s.pushes[p].best)))
    case ExpiryFire(p) =>
      if p !in s.pushes || s.pushes[p].expiryHolds.None? then s
      else Set(s, p, s.pushes[p].(expiryHolds := None, fired := s.pushes[p].fired + [s.pushes[p].expiryHolds.value]))
  }

  function Step(s: State, e: Event): State {
    Act(s, e).(now := s.now + 1)
  }

  function Run(s: State, events: seq<Event>): State
    decreases events
  {
    if events == [] then s else Run(Step(s, events[0]), events[1..])
  }

  // ---- Invariants ----

  function Ones(b: bool): nat {
    if b then 1 else 0
  }

  /** The handler is in its slot, in one thread's hands, or has been called: exactly one of these. */
  predicate HandlerOnce(push: Push) {
    Ones(push.slot) + Ones(push.workerHolds.Some?) + Ones(push.expiryHolds.Some?) + |push.fired| == 1
  }

  predicate HasTicket(push: Push) {
    !push.stage.Received?
  }

  predicate IsChecked(push: Push) {
    push.stage.Working? || push.stage.Finishing? || push.stage.Firing? || push.stage.Over?
  }

  /** A push is past its own taking of the handler. */
  predicate IsTaken(push: Push) {
    push.stage.Firing? || push.stage.Over?
  }

  predicate PushOk(s: State, push: Push) {
    && HandlerOnce(push)
    && (IsTaken(push) ==> !push.slot)
    && (push.workerHolds.Some? ==> push.stage.Firing?)
    && (HasTicket(push) ==> 1 <= push.ticket <= s.generation && push.ticketAt < s.now)
    && (push.stage.Begun? || IsChecked(push) ==> push.ticketAt < push.beganAt < s.now)
    && (IsChecked(push) && !push.passed ==> push.ticket < s.generation)
    && (push.passed ==> IsChecked(push))
  }

  /** Tickets count up in time, and no two pushes share one. */
  predicate InOrder(p: Push, q: Push) {
    HasTicket(p) && HasTicket(q) ==> (p.ticket < q.ticket <==> p.ticketAt < q.ticketAt)
  }

  predicate Waits(s: State, p: PushId) {
    p in s.queue
  }

  predicate IsBusy(stage: Stage) {
    stage.Begun? || stage.Working? || stage.Finishing? || stage.Firing?
  }

  predicate IsNewest(s: State, p: PushId) {
    p in s.pushes && HasTicket(s.pushes[p]) && s.pushes[p].ticket == s.generation
  }

  ghost predicate PushesOk(s: State) {
    forall p | p in s.pushes :: PushOk(s, s.pushes[p])
  }

  ghost predicate TicketsInOrder(s: State) {
    && (forall p, q | p in s.pushes && q in s.pushes :: InOrder(s.pushes[p], s.pushes[q]))
    && (s.generation > 0 ==> exists p :: IsNewest(s, p))
  }

  ghost predicate QueueOk(s: State) {
    && (forall i | 0 <= i < |s.queue| :: AtStage(s, s.queue[i], Enqueued))
    && (forall p | AtStage(s, p, Enqueued) :: Waits(s, p))
    && (forall i, j | 0 <= i < j < |s.queue| :: s.queue[i] != s.queue[j])
  }

  ghost predicate WorkerOk(s: State) {
    && (s.running.Some? ==> s.running.value in s.pushes && IsBusy(s.pushes[s.running.value].stage))
    && (forall p | p in s.pushes && IsBusy(s.pushes[p].stage) :: s.running == Some(p))
  }

  ghost predicate Inv(s: State) {
    PushesOk(s) && TicketsInOrder(s) && QueueOk(s) && WorkerOk(s)
  }

  predicate HeadWaits(s: State) {
    s.queue != [] ==> AtStage(s, s.queue[0], Enqueued)
  }

  predicate IsIntake(e: Event) {
    e.Receive? || e.Ticket? || e.Enqueue? || e.Begin?
  }

  predicate IsExpiry(e: Event) {
    e.ExpiryTake? || e.ExpiryFire?
  }

  lemma IntakePush(s: State, e: Event, p: PushId)
    requires p in s.pushes && PushOk(s, s.pushes[p]) && HeadWaits(s) && IsIntake(e)
    ensures p in Step(s, e).pushes && PushOk(Step(s, e), Step(s, e).pushes[p])
  {
  }

  lemma CheckedPush(s: State, e: Event, p: PushId)
    requires p in s.pushes && PushOk(s, s.pushes[p]) && (e.Check? || e.Work?)
    ensures p in Step(s, e).pushes && PushOk(Step(s, e), Step(s, e).pushes[p])
  {
  }

  lemma CompletedPush(s: State, e: Event, p: PushId)
    requires p in s.pushes && PushOk(s, s.pushes[p]) && (e.WorkerTake? || e.WorkerFire?)
    ensures p in Step(s, e).pushes && PushOk(Step(s, e), Step(s, e).pushes[p])
  {
  }

  lemma ExpiredPush(s: State, e: Event, p: PushId)
    requires p in s.pushes && PushOk(s, s.pushes[p]) && IsExpiry(e)
    ensures p in Step(s, e).pushes && PushOk(Step(s, e), Step(s, e).pushes[p])
  {
  }

  lemma PushStep(s: State, e: Event, p: PushId)
    requires p in s.pushes && PushOk(s, s.pushes[p]) && HeadWaits(s)
    ensures p in Step(s, e).pushes && PushOk(Step(s, e), Step(s, e).pushes[p])
  {
    if IsIntake(e) {
      IntakePush(s, e, p);
    } else if IsExpiry(e) {
      ExpiredPush(s, e, p);
    } else if e.Check? || e.Work? {
      CheckedPush(s, e, p);
    } else {
      CompletedPush(s, e, p);
    }
  }

  lemma StepKeepsPushes(s: State, e: Event)
    requires PushesOk(s) && HeadWaits(s)
    ensures PushesOk(Step(s, e))
  {
    forall p | p in Step(s, e).pushes ensures PushOk(Step(s, e), Step(s, e).pushes[p]) {
      if p in s.pushes {
        PushStep(s, e, p);
      }
    }
  }

  /** A ticket, once taken, stays, and is only taken by Ticket. */
  lemma TicketStep(s: State, e: Event, p: PushId)
    requires p in Step(s, e).pushes && HeadWaits(s)
    ensures var after := Step(s, e).pushes[p];
            HasTicket(after) ==>
              if e == Ticket(p) && AtStage(s, p, Received)
              then after.ticket == s.generation + 1 && after.ticketAt == s.now
              else p in s.pushes && HasTicket(s.pushes[p])
                   && after.ticket == s.pushes[p].ticket && after.ticketAt == s.pushes[p].ticketAt
  {
  }

  lemma NewestStays(s: State, e: Event, p: PushId)
    requires IsNewest(s, p) && HeadWaits(s)
    requires !(e.Ticket? && AtStage(s, e.p, Received))
    ensures IsNewest(Step(s, e), p)
  {
  }

  lemma StepKeepsTickets(s: State, e: Event)
    requires PushesOk(s) && TicketsInOrder(s) && HeadWaits(s)
    ensures TicketsInOrder(Step(s, e))
  {
    var after := Step(s, e);
    if e.Ticket? && AtStage(s, e.p, Received) {
      assert IsNewest(after, e.p);
    } else if s.generation > 0 {
      var p :| IsNewest(s, p);
      NewestStays(s, e, p);
    }
    forall p, q | p in after.pushes && q in after.pushes ensures InOrder(after.pushes[p], after.pushes[q]) {
      TicketStep(s, e, p);
      TicketStep(s, e, q);
      assert p in s.pushes && q in s.pushes ==> InOrder(s.pushes[p], s.pushes[q]);
    }
  }

  lemma IntakeKeepsWorker(s: State, e: Event)
    requires WorkerOk(s) && QueueOk(s) && IsIntake(e)
    ensures WorkerOk(Step(s, e))
  {
  }

  lemma RunKeepsWorker(s: State, e: Event)
    requires WorkerOk(s) && !IsIntake(e) && !IsExpiry(e)
    ensures WorkerOk(Step(s, e))
  {
  }

  lemma ExpiryKeepsWorker(s: State, e: Event)
    requires WorkerOk(s) && IsExpiry(e)
    ensures WorkerOk(Step(s, e))
  {
  }

  lemma StepKeepsWorker(s: State, e: Event)
    requires WorkerOk(s) && QueueOk(s)
    ensures WorkerOk(Step(s, e))
  {
    if IsIntake(e) {
      IntakeKeepsWorker(s, e);
    } else if IsExpiry(e) {
      ExpiryKeepsWorker(s, e);
    } else {
      RunKeepsWorker(s, e);
    }
  }

  /** Everything but Enqueue and Begin leaves the queue and the enqueued pushes alone. */
  lemma SameQueue(s: State, t: State)
    requires QueueOk(s) && t.queue == s.queue
    requires forall p :: AtStage(t, p, Enqueued) <==> AtStage(s, p, Enqueued)
    ensures QueueOk(t)
  {
    forall p | AtStage(t, p, Enqueued) ensures Waits(t, p) {
      assert AtStage(s, p, Enqueued) && Waits(s, p);
    }
  }

  lemma StepKeepsQueue(s: State, e: Event)
    requires QueueOk(s)
    ensures QueueOk(Step(s, e))
  {
    match e
    case Enqueue(p) => EnqueueKeepsQueue(s, p);
    case Begin => BeginKeepsQueue(s);
    case _ => SameQueue(s, Step(s, e));
  }

  lemma EnqueueKeepsQueue(s: State, p: PushId)
    requires QueueOk(s)
    ensures QueueOk(Step(s, Enqueue(p)))
  {
    var after := Step(s, Enqueue(p));
    if AtStage(s, p, Ticketed) {
      assert forall q :: AtStage(after, q, Enqueued) <==> q == p || AtStage(s, q, Enqueued);
      forall q | AtStage(after, q, Enqueued) ensures Waits(after, q) {
        assert q != p ==> Waits(s, q);
      }
    } else {
      SameQueue(s, after);
    }
  }

  lemma BeginKeepsQueue(s: State)
    requires QueueOk(s)
    ensures QueueOk(Step(s, Begin))
  {
    var after := Step(s, Begin);
    if s.running.None? && s.queue != [] {
      var head := s.queue[0];
      assert AtStage(s, head, Enqueued);
      assert forall q :: AtStage(after, q, Enqueued) <==> q != head && AtStage(s, q, Enqueued);
      forall q | AtStage(after, q, Enqueued) ensures Waits(after, q) {
        assert Waits(s, q);
        var i :| 0 <= i < |s.queue| && s.queue[i] == q;
        assert after.queue[i - 1] == q;
      }
    } else {
      SameQueue(s, after);
    }
  }

  lemma StepKeepsInv(s: State, e: Event)
    requires Inv(s)
    ensures Inv(Step(s, e))
  {
    StepKeepsPushes(s, e);
    StepKeepsTickets(s, e);
    StepKeepsQueue(s, e);
    StepKeepsWorker(s, e);
  }

  lemma {:induction false} RunKeepsInv(s: State, events: seq<Event>)
    requires Inv(s)
    ensures Inv(Run(s, events))
    decreases events
  {
    if events != [] {
      StepKeepsInv(s, events[0]);
      RunKeepsInv(Step(s, events[0]), events[1..]);
    }
  }

  // ---- When everything has run ----

  /** Every push received so far is enqueued, the queue is empty, and no callback is half way through. */
  ghost predicate Quiet(s: State) {
    && s.queue == [] && s.running.None?
    && (forall p | p in s.pushes ::
          !s.pushes[p].stage.Received? && !s.pushes[p].stage.Ticketed? && s.pushes[p].expiryHolds.None?)
  }

  /** A run that was not skipped and began after the push took its ticket. */
  predicate Covered(s: State, p: PushId, q: PushId)
    requires p in s.pushes
  {
    q in s.pushes && s.pushes[q].passed && s.pushes[q].beganAt > s.pushes[p].ticketAt
  }

  ghost predicate CoversAll(s: State, q: PushId) {
    forall p | p in s.pushes :: Covered(s, p, q)
  }

  /** However pushes, runs and expiry interleave: once quiet, one run covers every push, skipped or not,
      and each push was completed exactly once. */
  lemma QuietIsCovered(events: seq<Event>)
    requires Quiet(Run(INITIAL, events)) && Run(INITIAL, events).pushes != map[]
    ensures var s := Run(INITIAL, events);
            && (exists q :: CoversAll(s, q))
            && (forall p | p in s.pushes :: |s.pushes[p].fired| == 1)
  {
    RunKeepsInv(INITIAL, events);
    var s := Run(INITIAL, events);
    forall p | p in s.pushes ensures s.pushes[p].stage.Over? && |s.pushes[p].fired| == 1 {
      assert AtStage(s, p, Enqueued) ==> Waits(s, p);
    }
    var any :| any in s.pushes;
    assert s.generation > 0;
    var q :| IsNewest(s, q);
    forall p | p in s.pushes ensures Covered(s, p, q) {
      assert InOrder(s.pushes[q], s.pushes[p]);
    }
    assert CoversAll(s, q);
  }

  /** At no time is a handler called twice, or called by one thread while another holds it. */
  lemma NeverTwice(events: seq<Event>, p: PushId)
    requires p in Run(INITIAL, events).pushes
    ensures HandlerOnce(Run(INITIAL, events).pushes[p])
  {
    RunKeepsInv(INITIAL, events);
  }

  // ---- The locked-phone banner ----

  predicate ShowsBanner(push: Push) {
    || push.stage == Finishing(PhoneLocked) || push.workerHolds == Some(PhoneLocked) || PhoneLocked in push.fired
  }

  predicate BestIsNoBanner(push: Push) {
    push.best != PhoneLocked && push.expiryHolds != Some(PhoneLocked)
  }

  ghost predicate OneBanner(s: State) {
    && (forall p | p in s.pushes :: BestIsNoBanner(s.pushes[p]))
    && (forall p | p in s.pushes && ShowsBanner(s.pushes[p]) :: s.shownLockedBanner)
    && (forall p, q | p in s.pushes && q in s.pushes && p != q ::
          !(ShowsBanner(s.pushes[p]) && ShowsBanner(s.pushes[q])))
  }

  lemma FireKeepsBanner(s: State, e: Event, p: PushId)
    requires p in s.pushes && BestIsNoBanner(s.pushes[p])
    requires e.WorkerFire? || e.ExpiryFire?
    ensures p in Step(s, e).pushes && BestIsNoBanner(Step(s, e).pushes[p])
    ensures ShowsBanner(Step(s, e).pushes[p]) ==> ShowsBanner(s.pushes[p])
  {
  }

  /** Only a locked run that claims the banner makes a push show it. */
  lemma BannerStep(s: State, e: Event, p: PushId)
    requires p in s.pushes && BestIsNoBanner(s.pushes[p])
    ensures p in Step(s, e).pushes && BestIsNoBanner(Step(s, e).pushes[p])
    ensures ShowsBanner(Step(s, e).pushes[p]) ==>
              ShowsBanner(s.pushes[p]) ||
              (s.running == Some(p) && e == Work(LockedSinceBoot)
               && !s.shownLockedBanner && Step(s, e).shownLockedBanner)
  {
    if e.WorkerFire? || e.ExpiryFire? {
      FireKeepsBanner(s, e, p);
    }
  }

  lemma StepKeepsOneBanner(s: State, e: Event)
    requires Inv(s) && OneBanner(s)
    ensures OneBanner(Step(s, e))
  {
    forall p | p in Step(s, e).pushes
      ensures BestIsNoBanner(Step(s, e).pushes[p])
      ensures ShowsBanner(Step(s, e).pushes[p]) ==>
                (p in s.pushes && ShowsBanner(s.pushes[p])) ||
                (s.running == Some(p) && !s.shownLockedBanner && Step(s, e).shownLockedBanner)
    {
      if p in s.pushes {
        BannerStep(s, e, p);
      }
    }
    assert s.shownLockedBanner ==> Step(s, e).shownLockedBanner;
  }

  lemma {:induction false} RunKeepsOneBanner(s: State, events: seq<Event>)
    requires Inv(s) && OneBanner(s)
    ensures OneBanner(Run(s, events))
    decreases events
  {
    if events != [] {
      StepKeepsInv(s, events[0]);
      StepKeepsOneBanner(s, events[0]);
      RunKeepsOneBanner(Step(s, events[0]), events[1..]);
    }
  }

  /** At most one push per process is completed with the locked-phone banner, in every run. */
  lemma AtMostOneBanner(events: seq<Event>, p: PushId, q: PushId)
    requires p in Run(INITIAL, events).pushes && q in Run(INITIAL, events).pushes && p != q
    ensures var s := Run(INITIAL, events);
            && !(PhoneLocked in s.pushes[p].fired && PhoneLocked in s.pushes[q].fired)
            && (PhoneLocked in s.pushes[p].fired ==> s.shownLockedBanner)
  {
    RunKeepsOneBanner(INITIAL, events);
  }

  // ---- The code ----

  /** The process-wide state; each method is one lock-guarded section. */
  class SharedState {
    var generation: nat
    var shownLockedBanner: bool

    constructor ()
      ensures Models(INITIAL)
    {
      generation, shownLockedBanner := 0, false;
    }

    ghost predicate Models(s: State)
      reads this
    {
      generation == s.generation && shownLockedBanner == s.shownLockedBanner
    }

    method NextTicket(ghost s: State, ghost p: PushId) returns (ticket: nat)
      requires Models(s) && AtStage(s, p, Received)
      modifies this`generation
      ensures Models(Step(s, Ticket(p))) && ticket == Step(s, Ticket(p)).pushes[p].ticket
      ensures generation == old(generation) + 1 == ticket
    {
      generation := generation + 1;
      return generation;
    }

    method IsStale(ticket: nat) returns (stale: bool)
      ensures stale <==> ticket < generation
    {
      return ticket < generation;
    }

    /** True the first time it is called in this process. */
    method ClaimLockedBanner() returns (first: bool)
      modifies this`shownLockedBanner
      ensures shownLockedBanner && first == !old(shownLockedBanner)
    {
      var wasShown := shownLockedBanner;
      shownLockedBanner := true;
      return !wasShown;
    }
  }

  /** One push's content handler and best attempt. */
  class NotificationService {
    const shared: SharedState
    var contentHandler: bool
    var bestAttempt: Content
    ghost var delivered: seq<Content>

    constructor (state: SharedState)
      ensures shared == state && contentHandler && bestAttempt == Original && delivered == []
    {
      shared := state;
      contentHandler, bestAttempt, delivered := true, Original, [];
    }

    ghost predicate Models(s: State, p: PushId)
      reads this
    {
      && p in s.pushes
      && contentHandler == s.pushes[p].slot && bestAttempt == s.pushes[p].best && delivered == s.pushes[p].fired
    }

    /** Atomically empty the slot; whoever finds it empty does nothing. */
    method Finish(content: Content)
      modifies this`contentHandler, this`delivered
      ensures !contentHandler
      ensures delivered == if old(contentHandler) then old(delivered) + [content] else old(delivered)
    {
      var handler := contentHandler;
      contentHandler := false;
      if handler {
        delivered := delivered + [content];
      }
    }

    method ServiceExtensionTimeWillExpire(ghost s: State, ghost p: PushId)
      requires Models(s, p) && s.pushes[p].expiryHolds.None?
      modifies this`contentHandler, this`delivered
      ensures Models(Step(Step(s, ExpiryTake(p)), ExpiryFire(p)), p)
      ensures !contentHandler
      ensures delivered == if old(contentHandler) then old(delivered) + [bestAttempt] else old(delivered)
    {
      Finish(bestAttempt);
    }

    /** A run from its staleness check to the call of its handler. */
    method RunFetch(ticket: nat, outcome: Outcome, ghost s: State, ghost p: PushId)
      requires shared.Models(s) && Models(s, p)
      requires s.running == Some(p) && s.pushes[p].stage.Begun? && s.pushes[p].ticket == ticket
      requires s.pushes[p].workerHolds.None?
      modifies this`contentHandler, this`bestAttempt, this`delivered, shared`shownLockedBanner
      ensures var after := Run(s, [Check, Work(outcome), WorkerTake, WorkerFire]);
              Models(after, p) && shared.Models(after) && after.running.None?
      ensures !contentHandler && (!old(contentHandler) ==> delivered == old(delivered))
      ensures old(contentHandler) && (ticket < shared.generation || outcome.NoKeyOrContainer? || outcome.NothingNew?)
              ==> delivered == old(delivered) + [old(bestAttempt)]
      ensures old(contentHandler) && ticket >= shared.generation && outcome.Messages?
              ==> delivered == old(delivered) + [Rewritten]
      ensures old(contentHandler) && ticket >= shared.generation && outcome.LockedSinceBoot?
              ==> delivered == old(delivered)
                               + [if old(shared.shownLockedBanner) then old(bestAttempt) else PhoneLocked]
      ensures bestAttempt == if ticket >= shared.generation && outcome.Messages? then Rewritten else old(bestAttempt)
      ensures shared.shownLockedBanner <==>
              old(shared.shownLockedBanner) || (ticket >= shared.generation && outcome.LockedSinceBoot?)
    {
      FetchOutcome(s, p, outcome);
      var stale := shared.IsStale(ticket);
      if stale {
        Finish(bestAttempt);
        return;
      }
      match outcome {
        case LockedSinceBoot =>
          var showBanner := shared.ClaimLockedBanner();
          Finish(if showBanner then PhoneLocked else bestAttempt);
        case NoKeyOrContainer => Finish(bestAttempt);
        case NothingNew => Finish(bestAttempt);
        case Messages =>
          bestAttempt := Rewritten;
          Finish(bestAttempt);
      }
    }
  }

  lemma FirstHalf(s: State, p: PushId, outcome: Outcome)
    requires s.running == Some(p) && p in s.pushes && s.pushes[p].stage.Begun? && s.pushes[p].workerHolds.None?
    ensures var worked := Step(Step(s, Check), Work(outcome));
            var push := s.pushes[p];
            var stale := push.ticket < s.generation;
            var best := if !stale && outcome.Messages? then Rewritten else push.best;
            && worked.running == Some(p) && p in worked.pushes
            && worked.pushes[p].stage == Finishing(if stale then push.best else Finished(s, outcome, push.best))
            && worked.pushes[p].best == best
            && worked.pushes[p].slot == push.slot && worked.pushes[p].fired == push.fired
            && worked.generation == s.generation
            && worked.shownLockedBanner == (s.shownLockedBanner || (!stale && outcome.LockedSinceBoot?))
  {
  }

  lemma SecondHalf(s: State, p: PushId)
    requires s.running == Some(p) && p in s.pushes && s.pushes[p].stage.Finishing?
    ensures var after := Step(Step(s, WorkerTake), WorkerFire);
            var push := s.pushes[p];
            && after.running.None? && p in after.pushes && !after.pushes[p].slot
            && after.pushes[p].fired == (if push.slot then push.fired + [push.stage.content] else push.fired)
            && after.pushes[p].best == push.best
            && after.generation == s.generation && after.shownLockedBanner == s.shownLockedBanner
  {
  }

  /** What a run that nothing interrupts comes to. */
  lemma FetchOutcome(s: State, p: PushId, outcome: Outcome)
    requires s.running == Some(p) && p in s.pushes && s.pushes[p].stage.Begun? && s.pushes[p].workerHolds.None?
    ensures var after := Run(s, [Check, Work(outcome), WorkerTake, WorkerFire]);
            var push := s.pushes[p];
            var stale := push.ticket < s.generation;
            var content :=
              if !stale && outcome.Messages? then Rewritten
              else if !stale && outcome.LockedSinceBoot? && !s.shownLockedBanner then PhoneLocked
              else push.best;
            && after.running.None? && p in after.pushes && !after.pushes[p].slot
            && after.pushes[p].fired == (if push.slot then push.fired + [content] else push.fired)
            && after.pushes[p].best == (if !stale && outcome.Messages? then Rewritten else push.best)
            && after.generation == s.generation
            && after.shownLockedBanner == (s.shownLockedBanner || (!stale && outcome.LockedSinceBoot?))
  {
    RunFour(s, Check, Work(outcome), WorkerTake, WorkerFire);
    FirstHalf(s, p, outcome);
    SecondHalf(Step(Step(s, Check), Work(outcome)), p);
  }

  lemma RunFour(s: State, a: Event, b: Event, c: Event, d: Event)
    ensures Run(s, [a, b, c, d]) == Step(Step(Step(Step(s, a), b), c), d)
  {
    assert [a, b, c, d][1..] == [b, c, d] && [b, c, d][1..] == [c, d] && [c, d][1..] == [d] && [d][1..] == [];
    assert Run(s, [a, b, c, d]) == Run(Step(s, a), [b, c, d]);
    assert Run(Step(s, a), [b, c, d]) == Run(Step(Step(s, a), b), [c, d]);
    assert Run(Step(Step(s, a), b), [c, d]) == Run(Step(Step(Step(s, a), b), c), [d]);
  }
}
