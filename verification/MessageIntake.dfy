/** Receiving messages over a connection that drops and a process that crashes, when decrypting a message
    uses up its key for good: which messages can still reach the durable store, and exactly what makes
    one unable to. */
module MessageIntake {
  datatype Message = Message(id: nat, isGroup: bool)

  /** A sender's chain in one group. */
  type SenderKey = nat
  type Sender = nat

  /** What decryption makes of a message. A group message is read with its sender's key, from the
      iteration on at which that key was first installed. */
  datatype Ratchet = Ratchet(
    opens: Message -> bool,
    keyOf: Message -> SenderKey,
    iterationOf: Message -> nat,
    senderOf: SenderKey -> Sender)

  type Keys = map<SenderKey, nat>

  datatype Handling =
    | Free
    | Fetched(m: Message)
    | Opened(m: Message)
    | Handled(m: Message)

  /** Durable: `store`, `buffered`, `keys`, and `spent`, the messages whose keys the ratchets have used up.
      In memory: `inbox`, `handling`, and `recovered`, buffered messages that a retry has opened and not
      yet stored. `sent`, `rejected`, `skipped` (handled under a fault) and `pruned` (their row grew too
      old) are history. */
  datatype State = State(
    sent: set<Message>,
    server: set<Message>,
    connected: bool,
    inbox: seq<Message>,
    handling: Handling,
    acks: set<Message>,
    store: set<Message>,
    buffered: set<Message>,
    recovered: set<Message>,
    keys: Keys,
    spent: set<Message>,
    rejected: set<Message>,
    skipped: set<Message>,
    pruned: set<Message>)

  const INITIAL := State({}, {}, false, [], Free, {}, {}, {}, {}, map[], {}, {}, {}, {})

  /** What may go wrong apart from the message: its decryption fails for want of something else, having
      used up the key or not, or its row cannot be inserted. */
  datatype Fault = NoFault | CannotDecrypt(spends: bool) | CannotBuffer

  /** `aged` are the rows that inserting a row prunes. */
  datatype Event =
    | Accepted(m: Message)
    | Connect
    | Pushed(m: Message)
    | Take
    | Decrypt(fault: Fault, aged: set<Message>)
    | Persist(saved: bool)
    | Ack
    | AckArrives(m: Message)
    | AckLost(m: Message)
    | Disconnect
    | Crash
    | KeyInstalled(k: SenderKey, from: nat)
    | RetryOpen(m: Message)
    | RetryDelete(m: Message)
    | RetryDrop(m: Message)
    | RetryPersist(m: Message, saved: bool)

  /** The key held has moved past the message. */
  predicate IsBehind(r: Ratchet, keys: Keys, m: Message) {
    m.isGroup && r.keyOf(m) in keys && r.iterationOf(m) < keys[r.keyOf(m)]
  }

  predicate Readable(r: Ratchet, keys: Keys, m: Message) {
    m.isGroup ==> r.keyOf(m) in keys && keys[r.keyOf(m)] <= r.iterationOf(m)
  }

  predicate OpensNow(r: Ratchet, keys: Keys, spent: set<Message>, m: Message) {
    Readable(r, keys, m) && m !in spent
  }

  /** Refused as a duplicate, now and for ever. */
  predicate IsRefused(r: Ratchet, keys: Keys, spent: set<Message>, m: Message) {
    IsBehind(r, keys, m) || m in spent
  }

  /** A chain that is held already stays as it is. */
  function Installed(keys: Keys, k: SenderKey, from: nat): Keys {
    if k in keys then keys else keys[k := from]
  }

  function Decrypted(r: Ratchet, s: State, m: Message, fault: Fault, aged: set<Message>): State {
    if !r.opens(m) then s.(rejected := s.rejected + {m}, handling := Handled(m))
    else if fault.CannotDecrypt? then
      s.(skipped := s.skipped + {m}, handling := Handled(m),
         spent := if fault.spends && Readable(r, s.keys, m) then s.spent + {m} else s.spent)
    else if OpensNow(r, s.keys, s.spent, m) then s.(spent := s.spent + {m}, handling := Opened(m))
    else if !m.isGroup then s.(handling := Handled(m))
    else if fault.CannotBuffer? then s.(skipped := s.skipped + {m}, handling := Handled(m))
    else s.(buffered := s.buffered - aged + {m}, pruned := s.pruned + (s.buffered * aged - {m}), handling := Handled(m))
  }

  /** An event that cannot happen in `s` leaves it as it is. */
  function Step(r: Ratchet, s: State, e: Event): State {
    match e
    case Accepted(m) => if m in s.sent then s else s.(sent := s.sent + {m}, server := s.server + {m})
    case Connect => if s.connected then s else s.(connected := true)
    case Pushed(m) => if s.connected && m in s.server then s.(inbox := s.inbox + [m]) else s
    case Take =>
      if s.handling.Free? && s.inbox != [] then s.(handling := Fetched(s.inbox[0]), inbox := s.inbox[1..]) else s
    case Decrypt(fault, aged) => if s.handling.Fetched? then Decrypted(r, s, s.handling.m, fault, aged) else s
    case Persist(saved) =>
      if !s.handling.Opened? then s
      else s.(store := if saved then s.store + {s.handling.m} else s.store, handling := Handled(s.handling.m))
    case Ack =>
      if !s.handling.Handled? then s
      else s.(acks := if s.connected then s.acks + {s.handling.m} else s.acks, handling := Free)
    case AckArrives(m) => if m in s.acks then s.(server := s.server - {m}) else s
    case AckLost(m) => s.(acks := s.acks - {m})
    case Disconnect => s.(connected := false, inbox := [])
    case Crash => s.(connected := false, inbox := [], handling := Free, recovered := {})
    case KeyInstalled(k, from) => s.(keys := Installed(s.keys, k, from))
    case RetryOpen(m) =>
      if m in s.buffered && OpensNow(r, s.keys, s.spent, m)
      then s.(spent := s.spent + {m}, recovered := s.recovered + {m}) else s
    case RetryDelete(m) => if m in s.recovered then s.(buffered := s.buffered - {m}) else s
    case RetryDrop(m) => if IsRefused(r, s.keys, s.spent, m) then s.(buffered := s.buffered - {m}) else s
    case RetryPersist(m, saved) =>
      if m !in s.recovered then s
      else s.(recovered := s.recovered - {m}, store := if saved then s.store + {m} else s.store)
  }

  function Run(r: Ratchet, s: State, events: seq<Event>): State
    decreases events
  {
    if events == [] then s else Run(r, Step(r, s, events[0]), events[1..])
  }

  // ---- Invariants ----

  ghost predicate AllSent(s: State) {
    && s.server <= s.sent && s.acks <= s.sent && s.buffered <= s.sent && s.spent <= s.sent
    && (forall m | m in s.inbox :: m in s.sent)
    && (!s.handling.Free? ==> s.handling.m in s.sent)
  }

  /** A message is opened once, and is then in one place. */
  ghost predicate OpenedOnce(s: State) {
    && s.store <= s.spent && s.recovered <= s.spent && s.recovered !! s.store
    && (s.handling.Opened? ==> s.handling.m in s.spent && s.handling.m !in s.store && s.handling.m !in s.recovered)
  }

  ghost predicate Sorted(r: Ratchet, s: State) {
    && (forall m | m in s.spent :: r.opens(m) && Readable(r, s.keys, m))
    && (forall m | m in s.buffered :: r.opens(m) && m.isGroup)
    && (forall m | m in s.rejected :: !r.opens(m))
  }

  /** Dealt with on this device, one way or another. */
  predicate IsDealtWith(r: Ratchet, s: State, m: Message) {
    m in s.rejected || m in s.spent || m in s.buffered || m in s.skipped || m in s.pruned || IsBehind(r, s.keys, m)
  }

  ghost predicate AckedWhenDealtWith(r: Ratchet, s: State) {
    && (forall m | m in s.acks :: IsDealtWith(r, s, m))
    && (s.handling.Handled? ==> IsDealtWith(r, s, s.handling.m))
    && (forall m | m in s.sent :: m in s.server || IsDealtWith(r, s, m))
  }

  ghost predicate Inv(r: Ratchet, s: State) {
    && AllSent(s) && OpenedOnce(s) && Sorted(r, s) && AckedWhenDealtWith(r, s)
    && (!s.connected ==> s.inbox == [])
  }

  lemma DecryptKeepsSent(r: Ratchet, s: State, fault: Fault, aged: set<Message>)
    requires AllSent(s)
    ensures AllSent(Step(r, s, Decrypt(fault, aged)))
  {
  }

  lemma StepKeepsSent(r: Ratchet, s: State, e: Event)
    requires AllSent(s)
    ensures AllSent(Step(r, s, e))
  {
    if e.Decrypt? {
      DecryptKeepsSent(r, s, e.fault, e.aged);
    } else {
      assert forall m | m in Step(r, s, e).inbox :: m in s.inbox || m in s.server;
    }
  }

  lemma StepKeepsOnce(r: Ratchet, s: State, e: Event)
    requires OpenedOnce(s)
    ensures OpenedOnce(Step(r, s, e))
  {
  }

  lemma DecryptKeepsSorted(r: Ratchet, s: State, fault: Fault, aged: set<Message>)
    requires Sorted(r, s)
    ensures Sorted(r, Step(r, s, Decrypt(fault, aged)))
  {
  }

  lemma StepKeepsSorted(r: Ratchet, s: State, e: Event)
    requires Sorted(r, s)
    ensures Sorted(r, Step(r, s, e))
  {
    if e.Decrypt? {
      DecryptKeepsSorted(r, s, e.fault, e.aged);
    }
  }

  lemma DealtWithStays(r: Ratchet, s: State, e: Event, m: Message)
    requires OpenedOnce(s) && IsDealtWith(r, s, m)
    ensures IsDealtWith(r, Step(r, s, e), m)
  {
  }

  lemma HandledIsDealtWith(r: Ratchet, s: State, e: Event)
    requires Sorted(r, s) && OpenedOnce(s) && AckedWhenDealtWith(r, s)
    ensures var after := Step(r, s, e); after.handling.Handled? ==> IsDealtWith(r, after, after.handling.m)
  {
    if s.handling.Handled? {
      DealtWithStays(r, s, e, s.handling.m);
    }
  }

  lemma StepKeepsAcks(r: Ratchet, s: State, e: Event)
    requires Sorted(r, s) && OpenedOnce(s) && AckedWhenDealtWith(r, s)
    ensures AckedWhenDealtWith(r, Step(r, s, e))
  {
    var after := Step(r, s, e);
    HandledIsDealtWith(r, s, e);
    forall m | m in after.acks ensures IsDealtWith(r, after, m) {
      assert m in s.acks || s.handling == Handled(m);
      DealtWithStays(r, s, e, m);
    }
    forall m | m in after.sent && m !in after.server ensures IsDealtWith(r, after, m) {
      assert m in s.sent && (m !in s.server || m in s.acks);
      DealtWithStays(r, s, e, m);
    }
  }

  lemma StepKeepsInv(r: Ratchet, s: State, e: Event)
    requires Inv(r, s)
    ensures Inv(r, Step(r, s, e))
  {
    StepKeepsSent(r, s, e);
    StepKeepsOnce(r, s, e);
    StepKeepsSorted(r, s, e);
    StepKeepsAcks(r, s, e);
  }

  lemma {:induction false} RunKeepsInv(r: Ratchet, s: State, events: seq<Event>)
    requires Inv(r, s)
    ensures Inv(r, Run(r, s, events))
    decreases events
  {
    if events != [] {
      StepKeepsInv(r, s, events[0]);
      RunKeepsInv(r, Step(r, s, events[0]), events[1..]);
    }
  }

  // ---- Which messages can still be stored ----

  predicate InHand(s: State, m: Message) {
    s.handling == Opened(m) || m in s.recovered
  }

  /** A copy that is still to be decrypted. */
  predicate HasSealedCopy(s: State, m: Message) {
    m in s.server || m in s.inbox || s.handling == Fetched(m) || m in s.buffered
  }

  /** Stored, in hand, or sealed somewhere with its key not used up and not moved past it. */
  predicate IsAlive(r: Ratchet, s: State, m: Message) {
    || m in s.store
    || InHand(s, m)
    || (!IsRefused(r, s.keys, s.spent, m) && HasSealedCopy(s, m))
  }

  predicate IsLost(r: Ratchet, s: State, m: Message) {
    m in s.sent && !IsAlive(r, s, m)
  }

  lemma LostStep(r: Ratchet, s: State, e: Event, m: Message)
    requires Inv(r, s) && IsLost(r, s, m)
    ensures IsLost(r, Step(r, s, e), m)
  {
  }

  /** A lost message is never stored, whatever is redelivered, retried or installed. */
  lemma {:induction false} LostForGood(r: Ratchet, s: State, events: seq<Event>, m: Message)
    requires Inv(r, s) && IsLost(r, s, m)
    ensures IsLost(r, Run(r, s, events), m) && m !in Run(r, s, events).store
    decreases events
  {
    if events != [] {
      StepKeepsInv(r, s, events[0]);
      LostStep(r, s, events[0], m);
      LostForGood(r, Step(r, s, events[0]), events[1..], m);
    }
  }

  // ---- The causes of loss ----

  /** Its key used up and its text gone: a crash with it in hand, a save that failed, or a decryption that
      failed afterwards. */
  predicate DiesInHand(r: Ratchet, s: State, e: Event, m: Message) {
    || (e.Crash? && InHand(s, m))
    || (e == Persist(false) && s.handling == Opened(m))
    || (e == RetryPersist(m, false) && m in s.recovered)
    || (e.Decrypt? && e.fault == CannotDecrypt(true) && s.handling == Fetched(m) && OpensNow(r, s.keys, s.spent, m))
  }

  /** Its sender's key is first installed from a later iteration, or was before it arrived. */
  predicate IsPassedByKey(r: Ratchet, s: State, e: Event, m: Message) {
    || (e == Accepted(m) && IsBehind(r, s.keys, m))
    || (e.KeyInstalled? && m in s.sent && m !in s.spent && m.isGroup
        && r.keyOf(m) == e.k && e.k !in s.keys && r.iterationOf(m) < e.from)
  }

  /** Decrypting the fetched message inserts a row for it. */
  predicate Inserts(r: Ratchet, s: State, fault: Fault) {
    && s.handling.Fetched? && r.opens(s.handling.m) && s.handling.m.isGroup && fault.NoFault?
    && !OpensNow(r, s.keys, s.spent, s.handling.m)
  }

  /** Never opened, it loses the last sealed copy: with the connection or the process that held it, under a
      fault while it is handled, by pruning, or because the server deletes what was acked. */
  predicate LosesLastCopy(r: Ratchet, s: State, e: Event, m: Message) {
    && m in s.sent && m !in s.spent
    && match e {
         case Crash => (m in s.inbox || s.handling == Fetched(m)) && m !in s.server && m !in s.buffered
         case Disconnect => m in s.inbox && m !in s.server && m !in s.buffered && s.handling != Fetched(m)
         case Decrypt(fault, aged) =>
           && m !in s.server && m !in s.inbox
           && if s.handling == Fetched(m)
              then m !in s.buffered && (fault.CannotDecrypt? || (fault.CannotBuffer? && !Readable(r, s.keys, m)))
              else m in s.buffered && m in aged && Inserts(r, s, fault)
         case AckArrives(x) =>
           x == m && m in s.acks && m in s.server && m !in s.inbox && m !in s.buffered && s.handling != Fetched(m)
         case _ => false
       }
  }

  predicate IsCause(r: Ratchet, s: State, e: Event, m: Message) {
    DiesInHand(r, s, e, m) || IsPassedByKey(r, s, e, m) || LosesLastCopy(r, s, e, m)
  }

  lemma HandCauses(r: Ratchet, s: State, e: Event, m: Message)
    requires Inv(r, s) && r.opens(m) && (m in s.store || InHand(s, m))
    ensures IsLost(r, Step(r, s, e), m) <==> IsCause(r, s, e, m)
  {
  }

  lemma SealedCauses(r: Ratchet, s: State, e: Event, m: Message)
    requires Inv(r, s) && r.opens(m) && m in s.sent
    requires !IsRefused(r, s.keys, s.spent, m) && HasSealedCopy(s, m)
    requires !e.Decrypt?
    ensures IsLost(r, Step(r, s, e), m) <==> IsCause(r, s, e, m)
  {
  }

  lemma DecryptCauses(r: Ratchet, s: State, fault: Fault, aged: set<Message>, m: Message)
    requires Inv(r, s) && r.opens(m) && m in s.sent
    requires !IsRefused(r, s.keys, s.spent, m) && HasSealedCopy(s, m)
    ensures IsLost(r, Step(r, s, Decrypt(fault, aged)), m) <==> IsCause(r, s, Decrypt(fault, aged), m)
  {
  }

  lemma ArrivalCauses(r: Ratchet, s: State, e: Event, m: Message)
    requires Inv(r, s) && r.opens(m) && m !in s.sent
    ensures IsLost(r, Step(r, s, e), m) <==> IsCause(r, s, e, m)
  {
  }

  /** An event loses a message exactly when it is one of the causes. */
  lemma LossesHaveCauses(r: Ratchet, s: State, e: Event, m: Message)
    requires Inv(r, s) && r.opens(m) && !IsLost(r, s, m)
    ensures IsLost(r, Step(r, s, e), m) <==> IsCause(r, s, e, m)
  {
    if m !in s.sent {
      ArrivalCauses(r, s, e, m);
    } else if m in s.store || InHand(s, m) {
      HandCauses(r, s, e, m);
    } else if e.Decrypt? {
      DecryptCauses(r, s, e.fault, e.aged, m);
    } else {
      SealedCauses(r, s, e, m);
    }
  }

  /** Event i of the run is a cause for the message. */
  predicate CausedAt(r: Ratchet, s: State, events: seq<Event>, m: Message, i: nat) {
    i < |events| && IsCause(r, Run(r, s, events[..i]), events[i], m)
  }

  lemma CausedLater(r: Ratchet, s: State, events: seq<Event>, m: Message, i: nat)
    requires events != []
    ensures CausedAt(r, s, events, m, i + 1) <==> CausedAt(r, Step(r, s, events[0]), events[1..], m, i)
  {
    if i + 1 <= |events| {
      assert events[..i + 1][1..] == events[1..][..i];
    }
  }

  lemma {:induction false} LostFrom(r: Ratchet, s: State, events: seq<Event>, m: Message)
    requires Inv(r, s) && r.opens(m) && !IsLost(r, s, m)
    ensures IsLost(r, Run(r, s, events), m) <==> exists i: nat :: CausedAt(r, s, events, m, i)
    decreases events
  {
    if events != [] {
      var e, rest := events[0], events[1..];
      var next := Step(r, s, e);
      StepKeepsInv(r, s, e);
      LossesHaveCauses(r, s, e, m);
      assert Run(r, s, events[..0]) == s;
      if IsCause(r, s, e, m) {
        LostForGood(r, next, rest, m);
        assert CausedAt(r, s, events, m, 0);
      } else {
        LostFrom(r, next, rest, m);
        forall i: nat | CausedAt(r, next, rest, m, i) ensures CausedAt(r, s, events, m, i + 1) {
          CausedLater(r, s, events, m, i);
        }
        forall i: nat | CausedAt(r, s, events, m, i) ensures CausedAt(r, next, rest, m, i - 1) {
          assert i > 0;
          CausedLater(r, s, events, m, i - 1);
        }
      }
    }
  }

  /** Over every run: a message that was accepted and opens is lost if and only if some event of the run
      was a cause of its loss in the state it met. */
  lemma LostExactly(r: Ratchet, events: seq<Event>, m: Message)
    requires r.opens(m)
    ensures IsLost(r, Run(r, INITIAL, events), m) <==> exists i: nat :: CausedAt(r, INITIAL, events, m, i)
  {
    LostFrom(r, INITIAL, events, m);
  }

  /** What became of a lost message: opened and not stored, passed by its key, or handled under a fault or
      pruned and then acked or dropped. */
  lemma LostIsOnRecord(r: Ratchet, events: seq<Event>, m: Message)
    requires r.opens(m) && IsLost(r, Run(r, INITIAL, events), m)
    ensures var s := Run(r, INITIAL, events);
            || (m in s.spent && m !in s.store && !InHand(s, m))
            || (IsBehind(r, s.keys, m) && m !in s.spent)
            || (m in s.skipped || m in s.pruned)
  {
    RunKeepsInv(r, INITIAL, events);
  }

  // ---- Alive means that it can still be stored ----

  lemma {:induction false} RunConcat(r: Ratchet, s: State, a: seq<Event>, b: seq<Event>)
    ensures Run(r, s, a + b) == Run(r, Run(r, s, a), b)
    decreases a
  {
    if a == [] {
      assert a + b == b;
    } else {
      assert (a + b)[1..] == a[1..] + b;
      RunConcat(r, Step(r, s, a[0]), a[1..], b);
    }
  }

  lemma RunAppend(r: Ratchet, s: State, events: seq<Event>, e: Event)
    ensures Run(r, s, events + [e]) == Step(r, Run(r, s, events), e)
  {
    RunConcat(r, s, events, [e]);
    assert [e][1..] == [];
  }

  lemma RunOne(r: Ratchet, s: State, e: Event)
    ensures Run(r, s, [e]) == Step(r, s, e)
  {
    assert [e][1..] == [];
  }

  lemma RunTwo(r: Ratchet, s: State, a: Event, b: Event)
    ensures Run(r, s, [a, b]) == Step(r, Step(r, s, a), b)
  {
    RunOne(r, s, a);
    RunAppend(r, s, [a], b);
    assert [a] + [b] == [a, b];
  }

  const SERVE: seq<Event> := [Decrypt(NoFault, {}), Persist(true), Ack]

  function Served(r: Ratchet, s: State): State {
    Step(r, Step(r, Step(r, s, Decrypt(NoFault, {})), Persist(true)), Ack)
  }

  lemma RunServe(r: Ratchet, s: State)
    ensures Run(r, s, SERVE) == Served(r, s)
  {
    var a, b, c: Event := Decrypt(NoFault, {}), Persist(true), Ack;
    RunOne(r, s, a);
    RunAppend(r, s, [a], b);
    RunAppend(r, s, [a] + [b], c);
    assert [a] + [b] + [c] == SERVE;
  }

  lemma DecryptServes(r: Ratchet, s: State, m: Message)
    requires r.opens(m) && OpensNow(r, s.keys, s.spent, m)
    ensures var after := Step(r, s, Decrypt(NoFault, {}));
            && !after.handling.Fetched? && after.inbox == s.inbox && after.keys == s.keys && after.store == s.store
            && (if s.handling == Fetched(m) then after.handling == Opened(m) else m !in after.spent)
  {
  }

  lemma FinishServes(r: Ratchet, s: State)
    requires !s.handling.Fetched?
    ensures var after := Step(r, Step(r, s, Persist(true)), Ack);
            && after.handling.Free? && after.inbox == s.inbox && after.keys == s.keys && after.spent == s.spent
            && (s.handling.Opened? ==> s.handling.m in after.store)
  {
  }

  /** Whatever is being handled can be handled to its end; a message that opens now is then stored or
      untouched. */
  lemma ServeFrees(r: Ratchet, s: State, m: Message)
    requires r.opens(m) && OpensNow(r, s.keys, s.spent, m)
    ensures var after := Served(r, s);
            && after.handling.Free? && after.inbox == s.inbox && after.keys == s.keys
            && (if s.handling == Fetched(m) then m in after.store else m !in after.spent)
  {
    DecryptServes(r, s, m);
    FinishServes(r, Step(r, s, Decrypt(NoFault, {})));
  }

  /** A message in the inbox is reached by handling those before it. */
  lemma {:induction false} InboxCanBeStored(r: Ratchet, s: State, m: Message, i: nat) returns (events: seq<Event>)
    requires Inv(r, s) && r.opens(m) && OpensNow(r, s.keys, s.spent, m)
    requires i < |s.inbox| && s.inbox[i] == m
    ensures m in Run(r, s, events).store
    decreases i
  {
    RunKeepsInv(r, s, SERVE);
    RunServe(r, s);
    ServeFrees(r, s, m);
    if s.handling == Fetched(m) {
      return SERVE;
    }
    RunAppend(r, s, SERVE, Take);
    events := SERVE + [Take];
    var taken := Run(r, s, events);
    StepKeepsInv(r, Run(r, s, SERVE), Take);
    var rest;
    if taken.handling == Fetched(m) {
      RunServe(r, taken);
      ServeFrees(r, taken, m);
      rest := SERVE;
    } else {
      rest := InboxCanBeStored(r, taken, m, i - 1);
    }
    RunConcat(r, s, events, rest);
    events := events + rest;
  }

  lemma ServerCanBeStored(r: Ratchet, s: State, m: Message) returns (events: seq<Event>)
    requires Inv(r, s) && r.opens(m) && OpensNow(r, s.keys, s.spent, m) && m in s.server
    ensures m in Run(r, s, events).store
  {
    RunOne(r, s, Connect);
    RunAppend(r, s, [Connect], Pushed(m));
    events := [Connect] + [Pushed(m)];
    var pushed := Run(r, s, events);
    RunKeepsInv(r, s, events);
    assert pushed.inbox[|pushed.inbox| - 1] == m;
    var rest := InboxCanBeStored(r, pushed, m, |pushed.inbox| - 1);
    RunConcat(r, s, events, rest);
    events := events + rest;
  }

  lemma BufferCanBeStored(r: Ratchet, s: State, m: Message) returns (events: seq<Event>)
    requires OpensNow(r, s.keys, s.spent, m) && m in s.buffered
    ensures m in Run(r, s, events).store
  {
    RunOne(r, s, RetryOpen(m));
    RunAppend(r, s, [RetryOpen(m)], RetryPersist(m, true));
    events := [RetryOpen(m)] + [RetryPersist(m, true)];
  }

  lemma SealedCanBeStored(r: Ratchet, s: State, m: Message) returns (events: seq<Event>)
    requires Inv(r, s) && r.opens(m) && OpensNow(r, s.keys, s.spent, m) && HasSealedCopy(s, m)
    ensures m in Run(r, s, events).store
  {
    if m in s.buffered {
      events := BufferCanBeStored(r, s, m);
    } else if s.handling == Fetched(m) {
      RunServe(r, s);
      ServeFrees(r, s, m);
      events := SERVE;
    } else if m in s.server {
      events := ServerCanBeStored(r, s, m);
    } else {
      var i :| 0 <= i < |s.inbox| && s.inbox[i] == m;
      events := InboxCanBeStored(r, s, m, i);
    }
  }

  lemma AliveCanBeStored(r: Ratchet, s: State, m: Message) returns (events: seq<Event>)
    requires Inv(r, s) && r.opens(m) && IsAlive(r, s, m)
    ensures m in Run(r, s, events).store
  {
    if m in s.store {
      events := [];
    } else if s.handling == Opened(m) {
      RunOne(r, s, Persist(true));
      events := [Persist(true)];
    } else if m in s.recovered {
      RunOne(r, s, RetryPersist(m, true));
      events := [RetryPersist(m, true)];
    } else {
      var key := KeyInstalled(r.keyOf(m), 0);
      RunOne(r, s, key);
      StepKeepsInv(r, s, key);
      events := SealedCanBeStored(r, Step(r, s, key), m);
      RunConcat(r, s, [key], events);
      events := [key] + events;
    }
  }

  /** Lost means what it says: a message that was accepted and opens can still reach the store, by some
      course of events, if and only if it is not lost. */
  lemma LostMeansNeverStored(r: Ratchet, s: State, m: Message)
    requires Inv(r, s) && r.opens(m) && m in s.sent
    ensures !IsLost(r, s, m) <==> exists events :: m in Run(r, s, events).store
  {
    if IsLost(r, s, m) {
      forall events ensures m !in Run(r, s, events).store {
        LostForGood(r, s, events, m);
      }
    } else {
      var events := AliveCanBeStored(r, s, m);
      assert m in Run(r, s, events).store;
    }
  }

  // ---- What never goes wrong ----

  /** What is stored never goes away again. */
  lemma {:induction false} StoredStays(r: Ratchet, s: State, events: seq<Event>)
    ensures s.store <= Run(r, s, events).store
    decreases events
  {
    if events != [] {
      StoredStays(r, Step(r, s, events[0]), events[1..]);
    }
  }

  /** With nothing left on the server, in the buffer or under way, the history is exactly the messages
      that open and met no cause of loss, each once however often it was delivered. */
  lemma DrainedStoreIsExact(r: Ratchet, events: seq<Event>, m: Message)
    requires var s := Run(r, INITIAL, events);
             s.server == {} && s.buffered == {} && s.recovered == {} && s.inbox == [] && s.handling.Free?
    ensures var s := Run(r, INITIAL, events);
            m in s.store <==> m in s.sent && r.opens(m) && !(exists i: nat :: CausedAt(r, INITIAL, events, m, i))
  {
    RunKeepsInv(r, INITIAL, events);
    if r.opens(m) {
      LostExactly(r, events, m);
    }
  }

  /** Nothing is in hand when the process dies, no fault, no pruning, and sender keys cover their chains. */
  predicate IsHarmless(s: State, e: Event) {
    match e
    case Crash => s.recovered == {} && !s.handling.Opened?
    case Decrypt(fault, aged) => fault.NoFault? && aged == {}
    case Persist(saved) => saved
    case RetryPersist(_, saved) => saved
    case KeyInstalled(_, from) => from == 0
    case _ => true
  }

  ghost predicate HarmlessRun(r: Ratchet, s: State, events: seq<Event>)
    decreases events
  {
    events == [] || (IsHarmless(s, events[0]) && HarmlessRun(r, Step(r, s, events[0]), events[1..]))
  }

  ghost predicate Unharmed(s: State) {
    && s.skipped == {} && s.pruned == {}
    && (forall k | k in s.keys :: s.keys[k] == 0)
    && OpenedAreKept(s)
  }

  lemma HarmlessStep(r: Ratchet, s: State, e: Event)
    requires Unharmed(s) && IsHarmless(s, e)
    ensures Unharmed(Step(r, s, e))
  {
    KeptStep(r, s, e);
  }

  /** Persisting before acking pays: a crash between fetching and decrypting, or after the save and before
      the ack, a lost or late ack, a dropped connection and any number of redeliveries lose nothing. */
  lemma {:induction false} SafeRunLosesNothing(r: Ratchet, s: State, events: seq<Event>)
    requires Inv(r, s) && Unharmed(s) && HarmlessRun(r, s, events)
    ensures var after := Run(r, s, events);
            forall m | m in after.sent && r.opens(m) ::
              m in after.store || InHand(after, m) || (m !in after.spent && (m in after.server || m in after.buffered))
    decreases events
  {
    if events != [] {
      StepKeepsInv(r, s, events[0]);
      HarmlessStep(r, s, events[0]);
      SafeRunLosesNothing(r, Step(r, s, events[0]), events[1..]);
    }
  }

  predicate EndsNoHand(s: State, e: Event) {
    && (e.Crash? ==> s.recovered == {} && !s.handling.Opened?)
    && e != Persist(false) && (e.RetryPersist? ==> e.saved)
    && (e.Decrypt? ==> e.fault != CannotDecrypt(true))
  }

  ghost predicate NothingDropped(r: Ratchet, s: State, events: seq<Event>)
    decreases events
  {
    events == [] || (EndsNoHand(s, events[0]) && NothingDropped(r, Step(r, s, events[0]), events[1..]))
  }

  ghost predicate OpenedAreKept(s: State) {
    forall m | m in s.spent :: m in s.store || InHand(s, m)
  }

  lemma KeptStep(r: Ratchet, s: State, e: Event)
    requires OpenedAreKept(s) && EndsNoHand(s, e)
    ensures OpenedAreKept(Step(r, s, e))
  {
  }

  /** Unless the process dies or a write fails with a message in hand, every message once opened, on
      delivery or in a retry, is stored or still in hand. */
  lemma {:induction false} OpenedIsKept(r: Ratchet, s: State, events: seq<Event>)
    requires OpenedAreKept(s) && NothingDropped(r, s, events)
    ensures OpenedAreKept(Run(r, s, events))
    decreases events
  {
    if events != [] {
      KeptStep(r, s, events[0]);
      OpenedIsKept(r, Step(r, s, events[0]), events[1..]);
    }
  }

  // ---- The losses are real ----

  /** The message fetched from the server, with its key held or not. */
  function OnArrival(r: Ratchet, m: Message, keyed: bool): State {
    INITIAL.(sent := {m}, server := {m}, connected := true, handling := Fetched(m),
             keys := if keyed then map[r.keyOf(m) := 0] else map[])
  }

  lemma ArrivesFromNothing(r: Ratchet, m: Message, keyed: bool) returns (events: seq<Event>)
    ensures Run(r, INITIAL, events) == OnArrival(r, m, keyed)
  {
    events := if keyed then [KeyInstalled(r.keyOf(m), 0)] else [];
    RunOne(r, INITIAL, KeyInstalled(r.keyOf(m), 0));
    RunAppend(r, INITIAL, events, Accepted(m));
    events := events + [Accepted(m)];
    RunAppend(r, INITIAL, events, Connect);
    events := events + [Connect];
    RunAppend(r, INITIAL, events, Pushed(m));
    events := events + [Pushed(m)];
    RunAppend(r, INITIAL, events, Take);
    events := events + [Take];
  }

  /** Every message that opens is lost to a crash between its decryption and its save, though the server
      still holds it: the redelivery is refused and acked away. */
  lemma CrashLosesOpened(r: Ratchet, m: Message) returns (events: seq<Event>)
    requires r.opens(m)
    ensures var s := Run(r, INITIAL, events); IsLost(r, s, m) && m in s.server
  {
    events := ArrivesFromNothing(r, m, true);
    RunAppend(r, INITIAL, events, Decrypt(NoFault, {}));
    events := events + [Decrypt(NoFault, {})];
    RunAppend(r, INITIAL, events, Crash);
    events := events + [Crash];
  }

  /** A group message whose key is missing, in the buffer and nowhere else. */
  lemma BufferedOnArrival(r: Ratchet, m: Message) returns (events: seq<Event>)
    requires m.isGroup && r.opens(m)
    ensures var s := Run(r, INITIAL, events);
            && s.sent == {m} && s.server == {} && s.connected && s.inbox == [] && s.handling.Free?
            && s.buffered == {m} && s.store == s.spent == s.recovered == {} && s.keys == map[]
  {
    events := ArrivesFromNothing(r, m, false);
    RunAppend(r, INITIAL, events, Decrypt(NoFault, {}));
    events := events + [Decrypt(NoFault, {})];
    RunAppend(r, INITIAL, events, Ack);
    events := events + [Ack];
    RunAppend(r, INITIAL, events, AckArrives(m));
    events := events + [AckArrives(m)];
  }

  /** Opened by the retry, its row deleted or not yet. */
  lemma OpenedByRetry(r: Ratchet, m: Message, deleted: bool) returns (events: seq<Event>)
    requires m.isGroup && r.opens(m)
    ensures var s := Run(r, INITIAL, events);
            && s.sent == {m} && s.server == {} && s.store == {} && s.spent == s.recovered == {m} && s.inbox == []
            && s.buffered == if deleted then {} else {m}
  {
    events := BufferedOnArrival(r, m);
    RunAppend(r, INITIAL, events, KeyInstalled(r.keyOf(m), 0));
    events := events + [KeyInstalled(r.keyOf(m), 0)];
    RunAppend(r, INITIAL, events, RetryOpen(m));
    events := events + [RetryOpen(m)];
    if deleted {
      RunAppend(r, INITIAL, events, RetryDelete(m));
      events := events + [RetryDelete(m)];
    }
  }

  /** Every group message that opens is lost to a crash inside the retry, its row deleted or not. */
  lemma CrashLosesInRetry(r: Ratchet, m: Message, deleted: bool) returns (events: seq<Event>)
    requires m.isGroup && r.opens(m)
    ensures var s := Run(r, INITIAL, events);
            IsLost(r, s, m) && s.server == {} && s.buffered == if deleted then {} else {m}
  {
    events := OpenedByRetry(r, m, deleted);
    RunAppend(r, INITIAL, events, Crash);
    events := events + [Crash];
  }

  /** Every group message that opens is lost when another waits too and its own row has grown too old. */
  lemma PruningLoses(r: Ratchet, m: Message, other: Message) returns (events: seq<Event>)
    requires m.isGroup && r.opens(m) && other.isGroup && r.opens(other) && m != other
    ensures var s := Run(r, INITIAL, events); IsLost(r, s, m) && m in s.pruned && s.buffered == {other}
  {
    events := BufferedOnArrival(r, m);
    RunAppend(r, INITIAL, events, Accepted(other));
    events := events + [Accepted(other)];
    RunAppend(r, INITIAL, events, Pushed(other));
    events := events + [Pushed(other)];
    RunAppend(r, INITIAL, events, Take);
    events := events + [Take];
    RunAppend(r, INITIAL, events, Decrypt(NoFault, {m}));
    events := events + [Decrypt(NoFault, {m})];
  }

  /** A key that is installed from a later iteration never opens what waited for it. */
  lemma LateKeyLoses(r: Ratchet, m: Message) returns (events: seq<Event>)
    requires m.isGroup && r.opens(m)
    ensures var s := Run(r, INITIAL, events); IsLost(r, s, m) && m in s.buffered
  {
    events := BufferedOnArrival(r, m);
    RunAppend(r, INITIAL, events, KeyInstalled(r.keyOf(m), r.iterationOf(m) + 1));
    events := events + [KeyInstalled(r.keyOf(m), r.iterationOf(m) + 1)];
  }

  /** Every message that opens is lost when a fault that is not its own makes the loop ack it away. */
  lemma FaultLoses(r: Ratchet, m: Message) returns (events: seq<Event>)
    requires r.opens(m)
    ensures var s := Run(r, INITIAL, events); IsLost(r, s, m) && m in s.skipped && s.spent == {} && s.server == {}
  {
    events := ArrivesFromNothing(r, m, true);
    RunAppend(r, INITIAL, events, Decrypt(CannotDecrypt(false), {}));
    events := events + [Decrypt(CannotDecrypt(false), {})];
    RunAppend(r, INITIAL, events, Ack);
    events := events + [Ack];
    RunAppend(r, INITIAL, events, AckArrives(m));
    events := events + [AckArrives(m)];
  }

  // ---- The receive loop's handling of one delivery ----

  /** The steps of one delivery in the loop's order: decrypt, persist, and only then ack. */
  function Delivered(r: Ratchet, s: State, fault: Fault, aged: set<Message>, saved: bool): State {
    Step(r, Step(r, Step(r, s, Decrypt(fault, aged)), Persist(saved)), Ack)
  }

  class Receiver {
    const ratchet: Ratchet
    var store: set<Message>
    var buffered: set<Message>
    var keys: Keys
    var spent: set<Message>
    var acked: set<Message>
    var connected: bool

    constructor (r: Ratchet)
      ensures ratchet == r && Models(INITIAL)
    {
      ratchet := r;
      store, buffered, keys, spent, acked, connected := {}, {}, map[], {}, {}, false;
    }

    ghost predicate Models(s: State)
      reads this
    {
      && store == s.store && buffered == s.buffered && keys == s.keys && spent == s.spent
      && acked == s.acks && connected == s.connected
    }

    method SendAck(m: Message)
      modifies this`acked
      ensures acked == if connected then old(acked) + {m} else old(acked)
    {
      if connected {
        acked := acked + {m};
      }
    }

    /** A failed save is logged; the caller acks regardless. */
    method ProcessDecrypted(m: Message, saved: bool)
      modifies this`store
      ensures store == if saved then old(store) + {m} else old(store)
    {
      if saved {
        store := store + {m};
      }
    }

    /** Opening a message writes the advanced ratchet; a message opened before is refused. */
    method Open(m: Message, fault: Fault) returns (ok: bool)
      requires ratchet.opens(m)
      modifies this`spent
      ensures ok <==> !fault.CannotDecrypt? && OpensNow(ratchet, keys, old(spent), m)
      ensures spent == if ok || (fault == CannotDecrypt(true) && Readable(ratchet, keys, m))
                       then old(spent) + {m} else old(spent)
    {
      if !Readable(ratchet, keys, m) || (m in spent && !fault.CannotDecrypt?) {
        return false;
      }
      if fault == CannotDecrypt(false) {
        return false;
      }
      spent := spent + {m};
      return !fault.CannotDecrypt?;
    }

    method HandleDirectMessage(m: Message, fault: Fault, saved: bool, ghost s: State)
      requires Models(s) && s.handling == Fetched(m) && !m.isGroup
      modifies this
      ensures Models(Delivered(ratchet, s, fault, {}, saved))
      ensures var read := ratchet.opens(m) && m !in old(spent) && !fault.CannotDecrypt?;
              && store == (if read && saved then old(store) + {m} else old(store))
              && (read ==> m in spent) && buffered == old(buffered)
              && acked == (if connected then old(acked) + {m} else old(acked))
      ensures m in acked && m !in old(acked) ==>
                m in store || !ratchet.opens(m) || m in old(spent) || fault.CannotDecrypt? || !saved
    {
      var decrypted := false;
      if ratchet.opens(m) {
        decrypted := Open(m, fault);
      }
      if !decrypted {
        SendAck(m);
        return;
      }
      ProcessDecrypted(m, saved);
      SendAck(m);
    }

    /** The insertion may fail; one that succeeds prunes the rows that are too old. */
    method BufferUndecryptable(m: Message, fault: Fault, aged: set<Message>)
      modifies this`buffered
      ensures buffered == if fault.CannotBuffer? then old(buffered) else old(buffered) - aged + {m}
    {
      if fault.CannotBuffer? {
        return;
      }
      buffered := buffered - aged + {m};
    }

    method HandleGroupMessage(m: Message, fault: Fault, aged: set<Message>, saved: bool, ghost s: State)
      requires Models(s) && s.handling == Fetched(m) && m.isGroup
      modifies this
      ensures Models(Delivered(ratchet, s, fault, aged, saved))
      ensures var key := ratchet.keyOf(m);
              var readable := key in keys && keys[key] <= ratchet.iterationOf(m) && m !in old(spent);
              var read := ratchet.opens(m) && readable && !fault.CannotDecrypt?;
              && store == (if read && saved then old(store) + {m} else old(store))
              && buffered == (if ratchet.opens(m) && !readable && fault.NoFault?
                              then old(buffered) - aged + {m} else old(buffered))
              && (read ==> m in spent)
              && acked == (if connected then old(acked) + {m} else old(acked))
      ensures m in acked && m !in old(acked) ==>
                m in store || m in buffered || !ratchet.opens(m) || !fault.NoFault? || !saved
    {
      var decrypted := false;
      if ratchet.opens(m) {
        decrypted := Open(m, fault);
        if !decrypted && !fault.CannotDecrypt? {
          BufferUndecryptable(m, fault, aged);
        }
      }
      if decrypted {
        ProcessDecrypted(m, saved);
      }
      SendAck(m);
    }

    /** One buffered row: opened, deleted and returned; deleted when it is refused as a duplicate; left when
        its key is still missing. */
    method RetryRow(row: Message, ghost s: State) returns (ok: bool, ghost events: seq<Event>)
      requires Models(s) && row in buffered && row.isGroup && ratchet.opens(row)
      modifies this`buffered, this`spent
      ensures Models(Run(ratchet, s, events))
      ensures ok <==> OpensNow(ratchet, keys, old(spent), row)
      ensures Run(ratchet, s, events).recovered == if ok then s.recovered + {row} else s.recovered
      ensures spent == if ok then old(spent) + {row} else old(spent)
      ensures buffered == if ok || IsRefused(ratchet, keys, old(spent), row)
                          then old(buffered) - {row} else old(buffered)
      ensures ratchet.keyOf(row) !in keys && row !in old(spent) ==> row in buffered
      ensures ratchet.keyOf(row) in keys ==>
                && row !in buffered
                && (ok || ratchet.iterationOf(row) < keys[ratchet.keyOf(row)] || row in old(spent))
    {
      ok := Open(row, NoFault);
      if ok {
        buffered := buffered - {row};
        RunTwo(ratchet, s, RetryOpen(row), RetryDelete(row));
        events := [RetryOpen(row), RetryDelete(row)];
      } else {
        if IsRefused(ratchet, keys, spent, row) {
          buffered := buffered - {row};
        }
        RunOne(ratchet, s, RetryDrop(row));
        events := [RetryDrop(row)];
      }
    }

    predicate FromSender(m: Message, sender: Sender) {
      ratchet.senderOf(ratchet.keyOf(m)) == sender
    }

    /** Every buffered row of the sender. */
    method RetryPending(sender: Sender, ghost s: State) returns (recovered: set<Message>, ghost events: seq<Event>)
      requires Models(s) && s.recovered == {} && forall m | m in buffered :: m.isGroup && ratchet.opens(m)
      modifies this`buffered, this`spent
      ensures Models(Run(ratchet, s, events)) && Run(ratchet, s, events).recovered == recovered
      ensures recovered == set m | m in old(buffered) && FromSender(m, sender) && OpensNow(ratchet, keys, old(spent), m)
      ensures spent == old(spent) + recovered
      ensures forall m :: m in buffered <==>
                && m in old(buffered)
                && !(FromSender(m, sender) && (m in recovered || IsRefused(ratchet, keys, old(spent), m)))
    {
      recovered, events := {}, [];
      var rows := set m | m in buffered && FromSender(m, sender);
      var todo := rows;
      while todo != {}
        invariant todo <= rows && todo <= buffered
        invariant Models(Run(ratchet, s, events)) && Run(ratchet, s, events).recovered == recovered
        invariant recovered == set m | m in rows - todo && OpensNow(ratchet, keys, old(spent), m)
        invariant spent == old(spent) + recovered
        invariant forall m :: m in buffered <==>
                    && m in old(buffered)
                    && !(m in rows - todo && (m in recovered || IsRefused(ratchet, keys, old(spent), m)))
        decreases todo
      {
        var row :| row in todo;
        todo := todo - {row};
        assert row !in recovered;
        ghost var more;
        var ok;
        ok, more := RetryRow(row, Run(ratchet, s, events));
        if ok {
          recovered := recovered + {row};
        }
        RunConcat(ratchet, s, events, more);
        events := events + more;
      }
    }

    /** What a retry gave is stored one by one, `saves` saying which writes succeed. */
    method StoreRecovered(recovered: set<Message>, saves: Message -> bool, ghost s: State)
      returns (ghost events: seq<Event>)
      requires Models(s) && s.recovered == recovered
      modifies this`store
      ensures Models(Run(ratchet, s, events)) && Run(ratchet, s, events).recovered == {}
      ensures store == old(store) + set m | m in recovered && saves(m)
    {
      events := [];
      var todo := recovered;
      while todo != {}
        invariant todo <= recovered
        invariant Models(Run(ratchet, s, events)) && Run(ratchet, s, events).recovered == todo
        invariant store == old(store) + set m | m in recovered - todo && saves(m)
        decreases todo
      {
        var m :| m in todo;
        ProcessDecrypted(m, saves(m));
        todo := todo - {m};
        RunAppend(ratchet, s, events, RetryPersist(m, saves(m)));
        events := events + [RetryPersist(m, saves(m))];
      }
    }

    /** A sender key arrives: it is installed, the sender's rows are retried, and what they gave is
        stored. A crash at any point in between cuts the events short. */
    method HandleSenderKey(k: SenderKey, from: nat, saves: Message -> bool, ghost s: State)
      returns (ghost events: seq<Event>)
      requires Models(s) && s.recovered == {} && forall m | m in buffered :: m.isGroup && ratchet.opens(m)
      modifies this`keys, this`buffered, this`spent, this`store
      ensures Models(Run(ratchet, s, events)) && Run(ratchet, s, events).recovered == {}
      ensures keys == Installed(old(keys), k, from)
      ensures var read := set m | m in old(buffered) && FromSender(m, ratchet.senderOf(k))
                                    && OpensNow(ratchet, keys, old(spent), m);
              && spent == old(spent) + read
              && store == old(store) + (set m | m in read && saves(m))
      ensures k in keys && (k in old(keys) ==> keys[k] == old(keys)[k]) && (k !in old(keys) ==> keys[k] == from)
      ensures forall m | m in old(buffered) && ratchet.senderOf(ratchet.keyOf(m)) == ratchet.senderOf(k)
                         && ratchet.keyOf(m) in keys && keys[ratchet.keyOf(m)] <= ratchet.iterationOf(m)
                         && m !in old(spent) && saves(m) :: m in store && m !in buffered
      ensures forall m | m in old(buffered) && ratchet.keyOf(m) !in keys && m !in old(spent) :: m in buffered
      ensures forall m :: m in buffered <==>
                && m in old(buffered)
                && !(FromSender(m, ratchet.senderOf(k))
                     && (OpensNow(ratchet, keys, old(spent), m) || IsRefused(ratchet, keys, old(spent), m)))
    {
      if k !in keys {
        keys := keys[k := from];
      }
      ghost var installed := Step(ratchet, s, KeyInstalled(k, from));
      ghost var retried, stored;
      var recovered;
      recovered, retried := RetryPending(ratchet.senderOf(k), installed);
      stored := StoreRecovered(recovered, saves, Run(ratchet, installed, retried));
      events := [KeyInstalled(k, from)] + (retried + stored);
      RunConcat(ratchet, installed, retried, stored);
      assert events[1..] == retried + stored;
    }
  }
}
