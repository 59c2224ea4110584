/** The background sender of read marks: queue, debounce, drain, send, and merge back on failure,
    interleaved with new marks, with failed sends that did go out, and with late or repeated delivery. */
module ReadSync {
  import opened Powers
  import opened Wrappers
  import opened ReadMarks

  type Marks = map<ConversationId, nat>

  const RETRY_INITIAL := 5
  const RETRY_MAX := 300

  function Max(a: nat, b: nat): nat {
    if a < b then b else a
  }

  function MergeMark(pending: Marks, conv: ConversationId, upTo: nat): Marks {
    pending[conv := if conv in pending then Max(pending[conv], upTo) else upTo]
  }

  function MergeAll(pending: Marks, marks: Marks): Marks {
    map c | c in pending.Keys + marks.Keys ::
      if c !in marks then pending[c] else if c !in pending then marks[c] else Max(pending[c], marks[c])
  }

  function BuildSyncRead(me: string, marks: Marks): set<ReadMark> {
    set c | c in marks && MarkFor(me, c, marks[c]).Some? :: MarkFor(me, c, marks[c]).value
  }

  // ---- The machine ----

  datatype Phase = Parked | Debouncing | Sending(marks: Marks) | BackingOff

  /** `mailbox` is what the server holds for the other device, `delivered` every mark it applied. */
  datatype State = State(
    pending: Marks,
    phase: Phase,
    backoff: nat,
    mailbox: set<set<ReadMark>>,
    delivered: set<ReadMark>,
    queued: seq<Mark>,
    failures: nat)

  const INITIAL := State(map[], Parked, RETRY_INITIAL, {}, {}, [], 0)

  datatype Event =
    | Queue(conv: ConversationId, upTo: int)
    | Wake
    | Drain
    | SendOk
    | SendFailed(reached: bool)
    | BackoffOver
    | Deliver(sync: set<ReadMark>, again: bool)

  /** `did:local:` identities have no other devices. */
  predicate IsLocal(me: string) {
    "did:local:" <= me
  }

  function Post(s: State, sync: set<ReadMark>): State {
    if sync == {} then s else s.(mailbox := s.mailbox + {sync})
  }

  function NextBackoff(b: nat): nat {
    if 2 * b < RETRY_MAX then 2 * b else RETRY_MAX
  }

  /** An event that cannot happen in `s` leaves it as it is. */
  function Step(me: string, s: State, e: Event): State {
    match e
    case Queue(conv, upTo) =>
      if IsLocal(me) || upTo < 0 then s
      else s.(pending := MergeMark(s.pending, conv, upTo), queued := s.queued + [Mark(conv, upTo)])
    case Wake =>
      if s.phase.Parked? && s.pending != map[] then s.(phase := Debouncing) else s
    case Drain =>
      if !s.phase.Debouncing? then s
      else s.(pending := map[], phase := if s.pending == map[] then Parked else Sending(s.pending))
    case SendOk =>
      if !s.phase.Sending? then s
      else Post(s, BuildSyncRead(me, s.phase.marks)).(phase := Parked, backoff := RETRY_INITIAL, failures := 0)
    case SendFailed(reached) =>
      if !s.phase.Sending? || BuildSyncRead(me, s.phase.marks) == {} then s
      else (if reached then Post(s, BuildSyncRead(me, s.phase.marks)) else s)
           .(pending := MergeAll(s.pending, s.phase.marks), phase := BackingOff)
    case BackoffOver =>
      if !s.phase.BackingOff? then s
      else s.(phase := Parked, backoff := NextBackoff(s.backoff), failures := s.failures + 1)
    case Deliver(sync, again) =>
      if sync !in s.mailbox then s
      else s.(delivered := s.delivered + sync, mailbox := if again then s.mailbox else s.mailbox - {sync})
  }

  function Run(me: string, s: State, events: seq<Event>): State
    decreases events
  {
    if events == [] then s else Run(me, Step(me, s, events[0]), events[1..])
  }

  // ---- Conservation ----

  predicate Reaches(marks: Marks, conv: ConversationId, t: int) {
    conv in marks && t <= marks[conv]
  }

  predicate InFlight(s: State, conv: ConversationId, t: int) {
    s.phase.Sending? && Reaches(s.phase.marks, conv, t)
  }

  ghost predicate InMailbox(me: string, s: State, conv: ConversationId, t: int) {
    exists sync :: sync in s.mailbox && Carries(me, sync, conv, t)
  }

  /** The mark level of a conversation, as the set of times some copy of a mark reaches. */
  ghost predicate Held(me: string, s: State, conv: ConversationId, t: int) {
    Reaches(s.pending, conv, t) || InFlight(s, conv, t) || InMailbox(me, s, conv, t)
    || Carries(me, s.delivered, conv, t)
  }

  /** max(pending, in flight, on the server, delivered) is the highest mark ever queued: the two sides
      reach the same times. A conversation without a mark is never synced at all. */
  ghost predicate Conserved(me: string, s: State) {
    && (forall conv, t: int | Mappable(me, conv) :: Held(me, s, conv, t) <==> AnyCovers(s.queued, conv, t))
    && (forall conv, t: int | !Mappable(me, conv) ::
          !Carries(me, s.delivered, conv, t) && !InMailbox(me, s, conv, t))
  }

  /** The delay after k failures in a row. */
  function Backoff(k: nat): nat {
    if 5 * Pow2(k) < 300 then 5 * Pow2(k) else 300
  }

  ghost predicate Inv(me: string, s: State) {
    Conserved(me, s) && s.backoff == Backoff(s.failures)
  }

  /** The wire carries exactly the mappable part of the drained marks, each at its own level. */
  lemma BuiltCarries(me: string, marks: Marks, conv: ConversationId, t: int)
    ensures Carries(me, BuildSyncRead(me, marks), conv, t) <==> Mappable(me, conv) && Reaches(marks, conv, t)
  {
    if Mappable(me, conv) && Reaches(marks, conv, t) {
      MarkForAnyTime(me, conv, marks[conv]);
      var m := MarkFor(me, conv, marks[conv]).value;
      MarkNamesItsConversation(me, conv, m);
      assert m in BuildSyncRead(me, marks);
    }
    if Carries(me, BuildSyncRead(me, marks), conv, t) {
      BuiltFrom(me, marks, conv, t);
    }
  }

  lemma BuiltFrom(me: string, marks: Marks, conv: ConversationId, t: int)
    requires Carries(me, BuildSyncRead(me, marks), conv, t)
    ensures Mappable(me, conv) && Reaches(marks, conv, t)
  {
    var m :| m in BuildSyncRead(me, marks) && ConversationOf(me, m.target) == conv && t <= m.upTo;
    var c :| c in marks && MarkFor(me, c, marks[c]).Some? && MarkFor(me, c, marks[c]).value == m;
    MarkForAnyTime(me, c, marks[c]);
    MarkNamesItsConversation(me, c, m);
  }

  lemma MarkForAnyTime(me: string, conv: ConversationId, t: nat)
    ensures Mappable(me, conv) <==> MarkFor(me, conv, t).Some?
    ensures Mappable(me, conv) ==> MarkFor(me, conv, t).value.upTo == t
  {
  }

  lemma PostHolds(me: string, s: State, marks: Marks, conv: ConversationId, t: int)
    ensures InMailbox(me, Post(s, BuildSyncRead(me, marks)), conv, t) <==>
            InMailbox(me, s, conv, t) || (Mappable(me, conv) && Reaches(marks, conv, t))
  {
    var sync := BuildSyncRead(me, marks);
    var after := Post(s, sync);
    BuiltCarries(me, marks, conv, t);
    if InMailbox(me, after, conv, t) {
      var x :| x in after.mailbox && Carries(me, x, conv, t);
      assert x in s.mailbox || x == sync;
    }
    if Carries(me, sync, conv, t) {
      assert sync in after.mailbox;
    }
    if InMailbox(me, s, conv, t) {
      var x :| x in s.mailbox && Carries(me, x, conv, t);
      assert x in after.mailbox;
    }
  }

  lemma DeliverHolds(me: string, s: State, sync: set<ReadMark>, again: bool, conv: ConversationId, t: int)
    requires sync in s.mailbox
    ensures var after := Step(me, s, Deliver(sync, again));
            && (InMailbox(me, after, conv, t) || Carries(me, after.delivered, conv, t) <==>
                InMailbox(me, s, conv, t) || Carries(me, s.delivered, conv, t))
            && (InMailbox(me, after, conv, t) ==> InMailbox(me, s, conv, t))
  {
    var after := Step(me, s, Deliver(sync, again));
    CarriesUnion(me, s.delivered, sync, conv, t);
    if InMailbox(me, s, conv, t) {
      var x :| x in s.mailbox && Carries(me, x, conv, t);
      assert x in after.mailbox || x == sync;
    }
  }

  lemma QueueHolds(me: string, s: State, conv: ConversationId, upTo: nat, c: ConversationId, t: int)
    requires !IsLocal(me)
    ensures var after := Step(me, s, Queue(conv, upTo));
            && (Held(me, after, c, t) <==> Held(me, s, c, t) || Covers(Mark(conv, upTo), c, t))
            && (AnyCovers(after.queued, c, t) <==> AnyCovers(s.queued, c, t) || Covers(Mark(conv, upTo), c, t))
            && (InMailbox(me, after, c, t) <==> InMailbox(me, s, c, t))
  {
    var after := Step(me, s, Queue(conv, upTo));
    assert Mark(conv, upTo) in after.queued;
    assert forall m :: m in after.queued <==> m in s.queued || m == Mark(conv, upTo);
  }

  lemma StepKeepsInv(me: string, s: State, e: Event)
    requires Inv(me, s)
    ensures Inv(me, Step(me, s, e))
  {
    var after := Step(me, s, e);
    forall c, t: int
      ensures Mappable(me, c) ==> (Held(me, after, c, t) <==> AnyCovers(after.queued, c, t))
      ensures !Mappable(me, c) ==> !Carries(me, after.delivered, c, t) && !InMailbox(me, after, c, t)
    {
      StepHolds(me, s, e, c, t);
    }
  }

  /** The step neither loses nor invents a copy of a mark. */
  ghost predicate StaysHeld(me: string, after: State, c: ConversationId, t: int) {
    if Mappable(me, c) then Held(me, after, c, t) <==> AnyCovers(after.queued, c, t)
    else !Carries(me, after.delivered, c, t) && !InMailbox(me, after, c, t)
  }

  lemma SendHolds(me: string, s: State, e: Event, c: ConversationId, t: int)
    requires Conserved(me, s) && (e.SendOk? || e.SendFailed?)
    ensures StaysHeld(me, Step(me, s, e), c, t)
  {
    if s.phase.Sending? {
      PostHolds(me, s, s.phase.marks, c, t);
    }
  }

  /** Draining moves marks, and the other local steps move none. */
  lemma LocalHolds(me: string, s: State, e: Event, c: ConversationId, t: int)
    requires Conserved(me, s) && (e.Wake? || e.Drain? || e.BackoffOver?)
    ensures StaysHeld(me, Step(me, s, e), c, t)
  {
  }

  lemma StepHolds(me: string, s: State, e: Event, c: ConversationId, t: int)
    requires Conserved(me, s)
    ensures StaysHeld(me, Step(me, s, e), c, t)
  {
    match e
    case Queue(conv, upTo) =>
      if !IsLocal(me) && upTo >= 0 {
        QueueHolds(me, s, conv, upTo, c, t);
      }
    case Deliver(sync, again) =>
      if sync in s.mailbox {
        DeliverHolds(me, s, sync, again, c, t);
      }
    case SendOk => SendHolds(me, s, e, c, t);
    case SendFailed(_) => SendHolds(me, s, e, c, t);
    case _ => LocalHolds(me, s, e, c, t);
  }

  lemma {:induction false} RunKeepsInv(me: string, s: State, events: seq<Event>)
    requires Inv(me, s)
    ensures Inv(me, Run(me, s, events))
    decreases events
  {
    if events != [] {
      StepKeepsInv(me, s, events[0]);
      RunKeepsInv(me, Step(me, s, events[0]), events[1..]);
    }
  }

  /** Over every interleaving, no mark is lost and none is invented, and the retry delay is
      min(5 * 2^k, 300) seconds after k failures in a row. */
  lemma EveryRunConserves(me: string, events: seq<Event>)
    ensures Inv(me, Run(me, INITIAL, events))
  {
    RunKeepsInv(me, INITIAL, events);
  }

  // ---- What the other device ends up with ----

  predicate Quiet(s: State) {
    s.pending == map[] && !s.phase.Sending? && s.mailbox == {}
  }

  /** Once everything is sent and delivered, the other device has read exactly what the queued marks
      read when applied one by one in any order; other conversations are as they were. */
  lemma QuietDeviceIsExact(me: string, events: seq<Event>, rows: seq<Row>, anyOrder: seq<Mark>, i: nat)
    requires var s := Run(me, INITIAL, events);
             Quiet(s) && multiset(anyOrder) == multiset(s.queued)
    requires i < |rows|
    ensures var after := ApplySyncRead(me, rows, Run(me, INITIAL, events).delivered);
            after[i] == if Mappable(me, rows[i].conv) then ApplyEach(rows, anyOrder)[i] else rows[i]
  {
    var s := Run(me, INITIAL, events);
    EveryRunConserves(me, events);
    ApplyEachReads(rows, anyOrder, i);
    assert forall m :: m in anyOrder <==> m in multiset(anyOrder);
    assert forall m :: m in s.queued <==> m in multiset(s.queued);
    var c, t := rows[i].conv, rows[i].sentAt;
    assert Mappable(me, c) ==> (Held(me, s, c, t) <==> AnyCovers(s.queued, c, t));
    assert AnyCovers(s.queued, c, t) <==> AnyCovers(anyOrder, c, t);
  }

  // ---- The loop's own code ----

  datatype Fate = Accepted | Failed(reached: bool)

  function QueueEvents(marks: seq<(ConversationId, int)>): seq<Event> {
    seq(|marks|, i requires 0 <= i < |marks| => Queue(marks[i].0, marks[i].1))
  }

  /** Nothing to send exactly when no drained mark is mappable. */
  lemma NothingToSend(me: string, marks: Marks)
    ensures BuildSyncRead(me, marks) == {} <==> forall c | c in marks :: !Mappable(me, c)
  {
    forall c | c in marks ensures Mappable(me, c) <==> MarkFor(me, c, marks[c]).Some? {
      MarkForAnyTime(me, c, marks[c]);
    }
    if c :| c in marks && Mappable(me, c) {
      assert MarkFor(me, c, marks[c]).value in BuildSyncRead(me, marks);
    }
  }

  /** What one pass of the loop adds to a run once it drained `marks`. */
  function OutcomeEvents(me: string, marks: Marks, fate: Fate): seq<Event> {
    if fate.Accepted? || BuildSyncRead(me, marks) == {} then [SendOk]
    else [SendFailed(fate.reached), BackoffOver]
  }

  lemma {:induction false} RunConcat(me: string, s: State, a: seq<Event>, b: seq<Event>)
    ensures Run(me, s, a + b) == Run(me, Run(me, s, a), b)
    decreases a
  {
    if a == [] {
      assert a + b == b;
    } else {
      assert (a + b)[1..] == a[1..] + b;
      RunConcat(me, Step(me, s, a[0]), a[1..], b);
    }
  }

  lemma RunTwo(me: string, s: State, a: Event, b: Event)
    ensures Run(me, s, [a, b]) == Step(me, Step(me, s, a), b)
  {
    assert [a, b][1..] == [b] && [b][1..] == [];
    assert Run(me, s, [a, b]) == Run(me, Step(me, s, a), [b]);
  }

  lemma QueueNext(me: string, s: State, marks: seq<(ConversationId, int)>, i: nat)
    requires i < |marks|
    ensures Run(me, s, QueueEvents(marks[..i + 1])) ==
              Step(me, Run(me, s, QueueEvents(marks[..i])), Queue(marks[i].0, marks[i].1))
  {
    assert QueueEvents(marks[..i + 1]) == QueueEvents(marks[..i]) + [Queue(marks[i].0, marks[i].1)];
    RunConcat(me, s, QueueEvents(marks[..i]), [Queue(marks[i].0, marks[i].1)]);
  }

  lemma PassRun(me: string, s: State, queued: seq<Event>, outcome: seq<Event>)
    ensures Run(me, s, [Drain] + queued + outcome) == Run(me, Run(me, Step(me, s, Drain), queued), outcome)
  {
    RunConcat(me, s, [Drain], queued);
    RunConcat(me, s, [Drain] + queued, outcome);
  }

  predicate IsAt(marks: Marks, c: ConversationId, t: nat) {
    c in marks && marks[c] == t
  }

  lemma RunOne(me: string, s: State, e: Event)
    ensures Run(me, s, [e]) == Step(me, s, e)
  {
    assert [e][1..] == [];
  }

  lemma OutcomeSettles(me: string, s: State, marks: Marks, fate: Fate)
    requires s.phase == Sending(marks)
    ensures var after := Run(me, s, OutcomeEvents(me, marks, fate));
            && after.phase.Parked?
            && if fate.Accepted? || BuildSyncRead(me, marks) == {}
               then after.pending == s.pending && after.backoff == RETRY_INITIAL
               else after.pending == MergeAll(s.pending, marks) && after.backoff == NextBackoff(s.backoff)
  {
    if fate.Accepted? || BuildSyncRead(me, marks) == {} {
      RunOne(me, s, SendOk);
    } else {
      RunTwo(me, s, SendFailed(fate.reached), BackoffOver);
    }
  }

  class ReadSyncTask {
    const did: string
    var pendingReadMarks: Marks
    var backoff: nat

    constructor (me: string)
      ensures did == me && pendingReadMarks == map[] && backoff == 5
    {
      did := me;
      pendingReadMarks := map[];
      backoff := RETRY_INITIAL;
    }

    method Merge(conv: ConversationId, upTo: nat)
      modifies this`pendingReadMarks
      ensures pendingReadMarks == MergeMark(old(pendingReadMarks), conv, upTo)
      ensures conv in pendingReadMarks && upTo <= pendingReadMarks[conv]
      ensures conv in old(pendingReadMarks) ==> old(pendingReadMarks)[conv] <= pendingReadMarks[conv]
      ensures pendingReadMarks[conv] == upTo || IsAt(old(pendingReadMarks), conv, pendingReadMarks[conv])
      ensures pendingReadMarks - {conv} == old(pendingReadMarks) - {conv}
    {
      if conv !in pendingReadMarks {
        pendingReadMarks := pendingReadMarks[conv := upTo];
      }
      if pendingReadMarks[conv] < upTo {
        pendingReadMarks := pendingReadMarks[conv := upTo];
      }
    }

    method QueueReadSync(conv: ConversationId, upTo: int, ghost s: State)
      requires s.pending == pendingReadMarks
      modifies this`pendingReadMarks
      ensures pendingReadMarks == Step(did, s, Queue(conv, upTo)).pending
      ensures "did:local:" <= did || upTo < 0 ==> pendingReadMarks == old(pendingReadMarks)
      ensures !("did:local:" <= did) && upTo >= 0 ==>
                && conv in pendingReadMarks && upTo <= pendingReadMarks[conv]
                && (pendingReadMarks[conv] == upTo || IsAt(old(pendingReadMarks), conv, pendingReadMarks[conv]))
      ensures forall c | c in old(pendingReadMarks) ::
                c in pendingReadMarks && old(pendingReadMarks)[c] <= pendingReadMarks[c]
      ensures pendingReadMarks - {conv} == old(pendingReadMarks) - {conv}
    {
      if IsLocal(did) || upTo < 0 {
        return;
      }
      Merge(conv, upTo);
    }

    /** Failed marks go back one at a time, in no particular order. */
    method MergeBack(marks: Marks)
      modifies this`pendingReadMarks
      ensures pendingReadMarks == MergeAll(old(pendingReadMarks), marks)
      ensures forall c | c in marks :: c in pendingReadMarks && marks[c] <= pendingReadMarks[c]
      ensures forall c | c in old(pendingReadMarks) ::
                c in pendingReadMarks && old(pendingReadMarks)[c] <= pendingReadMarks[c]
      ensures forall c | c in pendingReadMarks ::
                IsAt(marks, c, pendingReadMarks[c]) || IsAt(old(pendingReadMarks), c, pendingReadMarks[c])
    {
      var todo := marks.Keys;
      while todo != {}
        invariant todo <= marks.Keys
        invariant pendingReadMarks == MergeAll(old(pendingReadMarks), marks - todo)
        decreases todo
      {
        var conv :| conv in todo;
        Merge(conv, marks[conv]);
        todo := todo - {conv};
      }
      assert marks - {} == marks;
    }

    /** Without a mappable mark there is nothing to send, and that counts as sent. */
    method SendReadMarks(marks: Marks, fate: Fate) returns (ok: bool)
      ensures ok <==> fate.Accepted? || forall c | c in marks :: !Mappable(did, c)
    {
      NothingToSend(did, marks);
      if BuildSyncRead(did, marks) == {} {
        return true;
      }
      return fate.Accepted?;
    }

    /** What other threads queue while a send is in progress. */
    method QueueMeanwhile(meanwhile: seq<(ConversationId, int)>, ghost s: State)
      requires s.phase.Sending? && s.pending == pendingReadMarks == map[]
      modifies this`pendingReadMarks
      ensures Run(did, s, QueueEvents(meanwhile)).pending == pendingReadMarks
      ensures forall c | c in pendingReadMarks :: (c, pendingReadMarks[c]) in meanwhile
      ensures forall i | 0 <= i < |meanwhile| && !("did:local:" <= did) && meanwhile[i].1 >= 0 ::
                meanwhile[i].0 in pendingReadMarks && meanwhile[i].1 <= pendingReadMarks[meanwhile[i].0]
    {
      ghost var cur := s;
      for i := 0 to |meanwhile|
        invariant cur == Run(did, s, QueueEvents(meanwhile[..i])) && cur.pending == pendingReadMarks
        invariant forall c | c in pendingReadMarks :: (c, pendingReadMarks[c]) in meanwhile[..i]
        invariant forall k | 0 <= k < i && !("did:local:" <= did) && meanwhile[k].1 >= 0 ::
                    meanwhile[k].0 in pendingReadMarks && meanwhile[k].1 <= pendingReadMarks[meanwhile[k].0]
      {
        ghost var before := pendingReadMarks;
        QueueReadSync(meanwhile[i].0, meanwhile[i].1, cur);
        QueueNext(did, s, meanwhile, i);
        assert meanwhile[..i + 1] == meanwhile[..i] + [meanwhile[i]];
        forall c | c in pendingReadMarks ensures (c, pendingReadMarks[c]) in meanwhile[..i + 1] {
          if c != meanwhile[i].0 {
            assert c in pendingReadMarks - {meanwhile[i].0};
            assert (c, before[c]) in meanwhile[..i];
          }
        }
        cur := Step(did, cur, Queue(meanwhile[i].0, meanwhile[i].1));
      }
      assert meanwhile[..|meanwhile|] == meanwhile;
    }

    /** The send's outcome: a reset delay, or the marks back and a doubled one. */
    method Settle(marks: Marks, fate: Fate, ghost s: State) returns (ghost after: State)
      requires s.phase == Sending(marks) && s.pending == pendingReadMarks && s.backoff == backoff
      modifies this
      ensures after == Run(did, s, OutcomeEvents(did, marks, fate))
      ensures pendingReadMarks == after.pending && backoff == after.backoff && after.phase.Parked?
      ensures var failed := fate.Failed? && exists c :: c in marks && Mappable(did, c);
              && (failed ==> forall c | c in marks :: c in pendingReadMarks && marks[c] <= pendingReadMarks[c])
              && backoff == (if !failed then 5 else if 2 * old(backoff) < 300 then 2 * old(backoff) else 300)
              && (forall c | c in pendingReadMarks ::
                    || (failed && IsAt(marks, c, pendingReadMarks[c]))
                    || IsAt(old(pendingReadMarks), c, pendingReadMarks[c]))
              && (forall c | c in old(pendingReadMarks) ::
                    c in pendingReadMarks && old(pendingReadMarks)[c] <= pendingReadMarks[c])
    {
      NothingToSend(did, marks);
      after := Run(did, s, OutcomeEvents(did, marks, fate));
      OutcomeSettles(did, s, marks, fate);
      var ok := SendReadMarks(marks, fate);
      if ok {
        backoff := RETRY_INITIAL;
      } else {
        MergeBack(marks);
        backoff := if backoff * 2 < RETRY_MAX then backoff * 2 else RETRY_MAX;
      }
    }

    /** One pass from the end of the debounce: drain, send, and on failure merge back and wait, with
        `meanwhile` queued by other threads while the send is in progress. A failed pass keeps every
        drained mark at its level or higher; a pass that sent leaves only what was queued meanwhile. */
    method Pass(meanwhile: seq<(ConversationId, int)>, fate: Fate, ghost s: State) returns (ghost after: State)
      requires s.phase.Debouncing? && s.pending == pendingReadMarks && s.backoff == backoff
      requires pendingReadMarks != map[]
      modifies this
      ensures after == Run(did, s, [Drain] + QueueEvents(meanwhile) + OutcomeEvents(did, old(pendingReadMarks), fate))
      ensures pendingReadMarks == after.pending && backoff == after.backoff && after.phase.Parked?
      ensures var failed := fate.Failed? && exists c :: c in old(pendingReadMarks) && Mappable(did, c);
              && (failed ==> forall c | c in old(pendingReadMarks) ::
                    c in pendingReadMarks && old(pendingReadMarks)[c] <= pendingReadMarks[c])
              && backoff == (if !failed then 5 else if 2 * old(backoff) < 300 then 2 * old(backoff) else 300)
              && (forall c | c in pendingReadMarks ::
                    || (failed && IsAt(old(pendingReadMarks), c, pendingReadMarks[c]))
                    || (c, pendingReadMarks[c]) in meanwhile)
      ensures forall i | 0 <= i < |meanwhile| && !("did:local:" <= did) && meanwhile[i].1 >= 0 ::
                meanwhile[i].0 in pendingReadMarks && meanwhile[i].1 <= pendingReadMarks[meanwhile[i].0]
      ensures fate == Failed(false) ==> after.mailbox == s.mailbox
      ensures fate != Failed(false) ==>
                forall c | c in old(pendingReadMarks) && Mappable(did, c) ::
                  InMailbox(did, after, c, old(pendingReadMarks)[c])
    {
      var marks := pendingReadMarks;
      pendingReadMarks := map[];
      ghost var drained := Step(did, s, Drain);
      ghost var sending := Run(did, drained, QueueEvents(meanwhile));
      QueueingKeepsTheRest(did, drained, QueueEvents(meanwhile));
      QueueMeanwhile(meanwhile, drained);
      after := Settle(marks, fate, sending);
      PassRun(did, s, QueueEvents(meanwhile), OutcomeEvents(did, marks, fate));
      OutcomeInMailbox(did, sending, marks, fate);
    }
  }

  lemma {:induction false} QueueingKeepsTheRest(me: string, s: State, events: seq<Event>)
    requires forall e | e in events :: e.Queue?
    ensures var after := Run(me, s, events);
            after.phase == s.phase && after.backoff == s.backoff && after.mailbox == s.mailbox
    decreases events
  {
    if events != [] {
      assert events[0].Queue?;
      QueueingKeepsTheRest(me, Step(me, s, events[0]), events[1..]);
    }
  }

  /** What reaches the server: nothing after a send that failed before it got there, and otherwise every
      mappable mark at its level. */
  lemma OutcomeInMailbox(me: string, s: State, marks: Marks, fate: Fate)
    requires s.phase == Sending(marks)
    ensures var after := Run(me, s, OutcomeEvents(me, marks, fate));
            && (fate == Failed(false) ==> after.mailbox == s.mailbox)
            && (fate != Failed(false) ==>
                  forall c | c in marks && Mappable(me, c) :: InMailbox(me, after, c, marks[c]))
  {
    NothingToSend(me, marks);
    var sync := BuildSyncRead(me, marks);
    RunOne(me, s, SendOk);
    RunTwo(me, s, SendFailed(true), BackoffOver);
    RunTwo(me, s, SendFailed(false), BackoffOver);
    var after := Run(me, s, OutcomeEvents(me, marks, fate));
    if fate != Failed(false) {
      forall c | c in marks && Mappable(me, c) ensures InMailbox(me, after, c, marks[c]) {
        BuiltCarries(me, marks, c, marks[c]);
        assert sync in after.mailbox;
      }
    }
  }
}
