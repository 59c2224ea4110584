/** Delivery receipts and echoes of one's own messages, against the order sending < sent < delivered <
    read in which a message may only rise. */
module DeliveryStatus {
  type ConversationId = string
  type Did = string

  datatype Status = Sending | Sent | Delivered | Read | Failed

  /** `failed` ranks below everything: it is an error state, not progress. */
  function Rank(s: Status): int {
    match s
    case Sending => 0
    case Sent => 1
    case Delivered => 2
    case Read => 3
    case Failed => -1
  }

  /** The status number a receipt carries; anything outside the known range reads as sent. */
  function StatusOf(code: int): Status {
    if code == 0 then Sending
    else if code == 1 then Sent
    else if code == 2 then Delivered
    else if code == 3 then Read
    else if code == 4 then Failed
    else Sent
  }

  datatype Message = Message(id: string, sender: Did, sentAt: int, status: Status)

  datatype Event =
    | Receipt(conv: ConversationId, sentAt: int, code: int)
    | Echo(conv: ConversationId, me: Did, sentAt: int, serverId: string)

  type Store = map<ConversationId, seq<Message>>

  function OnReceipt(m: Message, sentAt: int, code: int): Message {
    if m.sentAt != sentAt then m
    else
      var incoming := StatusOf(code);
      if incoming == Failed then
        if Rank(m.status) <= Rank(Sent) then m.(status := Failed) else m
      else if Rank(incoming) > Rank(m.status) then m.(status := incoming)
      else m
  }

  function OnEcho(m: Message, me: Did, sentAt: int, serverId: string): Message {
    if m.sentAt == sentAt && m.sender == me && (m.status == Sending || m.status == Sent)
    then m.(status := Delivered, id := "server-" + serverId)
    else m
  }

  function OnEvent(m: Message, conv: ConversationId, e: Event): Message {
    if e.conv != conv then m
    else match e
      case Receipt(_, sentAt, code) => OnReceipt(m, sentAt, code)
      case Echo(_, me, sentAt, serverId) => OnEcho(m, me, sentAt, serverId)
  }

  function OnEvents(m: Message, conv: ConversationId, events: seq<Event>): Message
    decreases events
  {
    if events == [] then m
    else OnEvent(OnEvents(m, conv, events[..|events| - 1]), conv, events[|events| - 1])
  }

  // ---- Receipts alone: the maximum, in whatever order ----

  predicate Concerns(e: Event, conv: ConversationId, sentAt: int) {
    e.Receipt? && e.conv == conv && e.sentAt == sentAt
  }

  predicate AllReceipts(events: seq<Event>) {
    forall e | e in events :: e.Receipt?
  }

  /** Some receipt for this very message has a status of at least this rank. */
  predicate SomeAtLeast(m: Message, conv: ConversationId, events: seq<Event>, rank: int) {
    exists e :: e in events && Concerns(e, conv, m.sentAt) && Rank(StatusOf(e.code)) >= rank
  }

  predicate SomeFailed(m: Message, conv: ConversationId, events: seq<Event>) {
    exists e :: e in events && Concerns(e, conv, m.sentAt) && StatusOf(e.code) == Failed
  }

  predicate IsTop(s: Status, m: Message, conv: ConversationId, events: seq<Event>) {
    && (s == m.status || exists e :: e in events && Concerns(e, conv, m.sentAt) && StatusOf(e.code) == s)
    && Rank(m.status) <= Rank(s)
    && (forall e | e in events && Concerns(e, conv, m.sentAt) :: Rank(StatusOf(e.code)) <= Rank(s))
  }

  /** One more receipt moves the top to the higher of the two, unless it is a failure that takes effect. */
  lemma TopAfterOne(m: Message, conv: ConversationId, front: seq<Event>, before: Message, last: Event)
    requires last.Receipt? && before.sentAt == m.sentAt
    requires IsTop(before.status, m, conv, front)
    requires Concerns(last, conv, m.sentAt) && StatusOf(last.code) == Failed ==> Rank(before.status) >= Rank(Delivered)
    ensures IsTop(OnEvent(before, conv, last).status, m, conv, front + [last])
  {
    var after := OnEvent(before, conv, last).status;
    if after != before.status {
      assert last in front + [last];
    } else if after != m.status {
      var e :| e in front && Concerns(e, conv, m.sentAt) && StatusOf(e.code) == after;
      assert e in front + [last];
    }
  }

  /** Without a failure for this very message, the final status is the highest-ranked of the start and
      the receipts for it. */
  lemma {:induction false} ReceiptsTakeTheTop(m: Message, conv: ConversationId, events: seq<Event>)
    requires AllReceipts(events) && !SomeFailed(m, conv, events)
    ensures IsTop(OnEvents(m, conv, events).status, m, conv, events)
    decreases events
  {
    if events != [] {
      var front, last := events[..|events| - 1], events[|events| - 1];
      assert events == front + [last];
      ReceiptsTakeTheTop(m, conv, front);
      OnlyStatusMoves(m, conv, front);
      TopAfterOne(m, conv, front, OnEvents(m, conv, front), last);
    }
  }

  /** The final status is the start or that of some receipt for this very message. */
  lemma {:induction false} StatusIsReceived(m: Message, conv: ConversationId, events: seq<Event>)
    requires AllReceipts(events)
    ensures var s := OnEvents(m, conv, events).status;
            s == m.status || exists e :: e in events && Concerns(e, conv, m.sentAt) && StatusOf(e.code) == s
    decreases events
  {
    if events != [] {
      var front, last := events[..|events| - 1], events[|events| - 1];
      assert events == front + [last];
      StatusIsReceived(m, conv, front);
      OnlyStatusMoves(m, conv, front);
      if OnEvents(m, conv, events).status != OnEvents(m, conv, front).status {
        assert last in events;
      }
    }
  }

  /** Failures and all: once the start or a receipt is at least delivered, the top is the outcome. */
  lemma {:induction false} DeliveredTakesTheTop(m: Message, conv: ConversationId, events: seq<Event>)
    requires AllReceipts(events)
    requires Rank(m.status) >= Rank(Delivered) || SomeAtLeast(m, conv, events, Rank(Delivered))
    ensures IsTop(OnEvents(m, conv, events).status, m, conv, events)
    decreases events
  {
    if events != [] {
      var front, last := events[..|events| - 1], events[|events| - 1];
      assert events == front + [last];
      OnlyStatusMoves(m, conv, front);
      if Rank(m.status) >= Rank(Delivered) || SomeAtLeast(m, conv, front, Rank(Delivered)) {
        DeliveredTakesTheTop(m, conv, front);
        TopAfterOne(m, conv, front, OnEvents(m, conv, front), last);
      } else {
        StatusIsReceived(m, conv, front);
        assert last in events;
      }
    }
  }

  /** One read receipt, number 3, and the message ends read, whatever else arrives and in whatever order. */
  lemma ReadReceiptWins(m: Message, conv: ConversationId, events: seq<Event>, e: Event)
    requires AllReceipts(events) && e in events && e == Receipt(conv, m.sentAt, 3)
    ensures OnEvents(m, conv, events) == Message(m.id, m.sender, m.sentAt, Read)
  {
    DeliveredTakesTheTop(m, conv, events);
    OnlyStatusMoves(m, conv, events);
  }

  /** A delivery receipt, number 2, and none of number 3, and a message not yet read ends delivered. */
  lemma DeliveryReceiptWins(m: Message, conv: ConversationId, events: seq<Event>, e: Event)
    requires AllReceipts(events) && e in events && e == Receipt(conv, m.sentAt, 2)
    requires m.status != Read && Receipt(conv, m.sentAt, 3) !in events
    ensures OnEvents(m, conv, events) == Message(m.id, m.sender, m.sentAt, Delivered)
  {
    DeliveredTakesTheTop(m, conv, events);
    OnlyStatusMoves(m, conv, events);
    forall r | r in events && Concerns(r, conv, m.sentAt) ensures r.code != 3 {
      assert r == Receipt(conv, m.sentAt, r.code);
    }
  }

  lemma TopIsUnique(s: Status, t: Status, m: Message, conv: ConversationId, events: seq<Event>)
    requires IsTop(s, m, conv, events) && IsTop(t, m, conv, events)
    ensures s == t
  {
  }

  /** Nothing but failures: they take effect on whatever is not yet delivered. */
  lemma {:induction false} FailuresAlone(m: Message, conv: ConversationId, events: seq<Event>)
    requires AllReceipts(events) && !SomeAtLeast(m, conv, events, Rank(Sending))
    ensures OnEvents(m, conv, events).status ==
              if SomeFailed(m, conv, events) && Rank(m.status) <= Rank(Sent) then Failed else m.status
    decreases events
  {
    if events != [] {
      var front, last := events[..|events| - 1], events[|events| - 1];
      assert events == front + [last];
      assert forall e | e in front :: e in events;
      assert last in events;
      FailuresAlone(m, conv, front);
      OnlyStatusMoves(m, conv, front);
    }
  }

  lemma {:induction false} OnlyStatusMoves(m: Message, conv: ConversationId, events: seq<Event>)
    requires AllReceipts(events)
    ensures OnEvents(m, conv, events).(status := m.status) == m
    decreases events
  {
    if events != [] {
      assert forall e | e in events[..|events| - 1] :: e in events;
      OnlyStatusMoves(m, conv, events[..|events| - 1]);
    }
  }

  /** The same receipts, in any order and however often each. */
  predicate SameReceipts(a: seq<Event>, b: seq<Event>) {
    (forall e | e in a :: e in b) && (forall e | e in b :: e in a)
  }

  ghost predicate OrderFree(m: Message, conv: ConversationId, events: seq<Event>) {
    forall other | SameReceipts(events, other) :: OnEvents(m, conv, other) == OnEvents(m, conv, events)
  }

  /** No failure for this message, nothing but failures for it, or a message that is delivered anyway. */
  predicate SettledByReceipts(m: Message, conv: ConversationId, events: seq<Event>) {
    || !SomeFailed(m, conv, events)
    || !SomeAtLeast(m, conv, events, Rank(Sending))
    || Rank(m.status) >= Rank(Delivered)
    || SomeAtLeast(m, conv, events, Rank(Delivered))
  }

  lemma SameOutcome(m: Message, conv: ConversationId, a: seq<Event>, b: seq<Event>)
    requires AllReceipts(a) && SameReceipts(a, b) && SettledByReceipts(m, conv, a)
    ensures OnEvents(m, conv, a) == OnEvents(m, conv, b)
  {
    OnlyStatusMoves(m, conv, a);
    OnlyStatusMoves(m, conv, b);
    if !SomeFailed(m, conv, a) {
      ReceiptsTakeTheTop(m, conv, a);
      ReceiptsTakeTheTop(m, conv, b);
      TopIsUnique(OnEvents(m, conv, a).status, OnEvents(m, conv, b).status, m, conv, a);
    } else if Rank(m.status) >= Rank(Delivered) || SomeAtLeast(m, conv, a, Rank(Delivered)) {
      DeliveredTakesTheTop(m, conv, a);
      DeliveredTakesTheTop(m, conv, b);
      TopIsUnique(OnEvents(m, conv, a).status, OnEvents(m, conv, b).status, m, conv, a);
    } else {
      FailuresAlone(m, conv, a);
      FailuresAlone(m, conv, b);
    }
  }

  lemma OneMoreEvent(m: Message, conv: ConversationId, events: seq<Event>, e: Event)
    ensures OnEvents(m, conv, events + [e]) == OnEvent(OnEvents(m, conv, events), conv, e)
  {
    assert (events + [e])[..|events|] == events;
  }

  /** Appending a failure, and after it a receipt again, tells two orders apart. */
  lemma AppendedFailure(m: Message, conv: ConversationId, events: seq<Event>, failed: Event, plain: Event)
    requires AllReceipts(events) && Rank(OnEvents(m, conv, events).status) <= Rank(Sent)
    requires Concerns(failed, conv, m.sentAt) && StatusOf(failed.code) == Failed
    requires Concerns(plain, conv, m.sentAt) && StatusOf(plain.code) != Failed
    ensures OnEvents(m, conv, events + [failed]).status == Failed
    ensures OnEvents(m, conv, events + [failed] + [plain]).status == StatusOf(plain.code)
  {
    OnlyStatusMoves(m, conv, events);
    OneMoreEvent(m, conv, events, failed);
    OneMoreEvent(m, conv, events + [failed], plain);
  }

  lemma SameWithCopies(events: seq<Event>, a: Event, b: Event)
    requires a in events && b in events
    ensures SameReceipts(events, events + [a]) && SameReceipts(events, events + [a] + [b])
  {
  }

  lemma DifferentOrders(m: Message, conv: ConversationId, events: seq<Event>, x: seq<Event>, y: seq<Event>)
    requires SameReceipts(events, x) && SameReceipts(events, y)
    requires OnEvents(m, conv, x).status != OnEvents(m, conv, y).status
    ensures !OrderFree(m, conv, events)
  {
  }

  lemma TwoOutcomes(m: Message, conv: ConversationId, events: seq<Event>)
    requires AllReceipts(events) && !SettledByReceipts(m, conv, events)
    ensures !OrderFree(m, conv, events)
  {
    var failed :| failed in events && Concerns(failed, conv, m.sentAt) && StatusOf(failed.code) == Failed;
    var plain :| plain in events && Concerns(plain, conv, m.sentAt) && Rank(StatusOf(plain.code)) >= Rank(Sending);
    assert Rank(OnEvents(m, conv, events).status) <= Rank(Sent) by { StatusIsReceived(m, conv, events); }
    AppendedFailure(m, conv, events, failed, plain);
    SameWithCopies(events, failed, plain);
    DifferentOrders(m, conv, events, events + [failed], events + [failed] + [plain]);
  }

  /** Exactly when the order and repetition of receipts do not matter. */
  lemma ReceiptsAreOrderFree(m: Message, conv: ConversationId, events: seq<Event>)
    requires AllReceipts(events)
    ensures OrderFree(m, conv, events) <==> SettledByReceipts(m, conv, events)
  {
    if SettledByReceipts(m, conv, events) {
      forall other | SameReceipts(events, other) ensures OnEvents(m, conv, other) == OnEvents(m, conv, events) {
        SameOutcome(m, conv, events, other);
      }
    } else {
      TwoOutcomes(m, conv, events);
    }
  }

  /** What breaks it: a failure before `sent` is forgotten, after it it stays. */
  lemma FailedIsOrderSensitive()
    ensures var m := Message("m", "me", 7, Sending);
            var sent, failed := Receipt("c", 7, 1), Receipt("c", 7, 4);
            OnEvents(m, "c", [failed, sent]).status == Sent && OnEvents(m, "c", [sent, failed]).status == Failed
  {
    var m := Message("m", "me", 7, Sending);
    var sent, failed := Receipt("c", 7, 1), Receipt("c", 7, 4);
    assert [failed, sent][..1] == [failed] && [sent, failed][..1] == [sent];
    assert [failed][..0] == [] && [sent][..0] == [];
    assert OnEvents(m, "c", [failed]).status == Failed && OnEvents(m, "c", [sent]).status == Sent;
  }

  // ---- With everything mixed in ----

  /** Once delivered, a message only rises; read is final. */
  lemma {:induction false} DeliveredNeverDrops(m: Message, conv: ConversationId, events: seq<Event>)
    requires Rank(m.status) >= Rank(Delivered)
    ensures Rank(OnEvents(m, conv, events).status) >= Rank(m.status)
    decreases events
  {
    if events != [] {
      DeliveredNeverDrops(m, conv, events[..|events| - 1]);
    }
  }

  /** A rank that falls falls because of a `failed` receipt, and from below delivered. */
  lemma OnlyFailureLowers(m: Message, conv: ConversationId, e: Event)
    ensures Rank(OnEvent(m, conv, e).status) < Rank(m.status) <==>
            Concerns(e, conv, m.sentAt) && StatusOf(e.code) == Failed && (m.status == Sending || m.status == Sent)
  {
  }

  // ---- The code ----

  function ListOf(store: Store, conv: ConversationId): seq<Message> {
    if conv in store then store[conv] else []
  }

  function MapEvent(ms: seq<Message>, conv: ConversationId, e: Event): seq<Message> {
    seq(|ms|, i requires 0 <= i < |ms| => OnEvent(ms[i], conv, e))
  }

  function MapEvents(ms: seq<Message>, conv: ConversationId, events: seq<Event>): seq<Message> {
    seq(|ms|, i requires 0 <= i < |ms| => OnEvents(ms[i], conv, events))
  }

  /** Every stored message after `events`; conversations that are not loaded stay absent. */
  function StoreAfter(store: Store, events: seq<Event>): Store {
    map conv | conv in store :: MapEvents(store[conv], conv, events)
  }

  function StoreAfterEvent(store: Store, e: Event): Store {
    if e.conv in store then store[e.conv := MapEvent(store[e.conv], e.conv, e)] else store
  }

  lemma StoreAfterNothing(store: Store)
    ensures StoreAfter(store, []) == store
  {
    assert forall conv | conv in store :: MapEvents(store[conv], conv, []) == store[conv];
  }

  lemma StoreAfterOneMore(store: Store, events: seq<Event>, e: Event)
    ensures StoreAfter(store, events + [e]) == StoreAfterEvent(StoreAfter(store, events), e)
  {
    var before, after := StoreAfter(store, events), StoreAfter(store, events + [e]);
    forall conv | conv in store
      ensures after[conv] == if conv == e.conv then MapEvent(before[conv], conv, e) else before[conv]
    {
      forall i | 0 <= i < |store[conv]|
        ensures OnEvents(store[conv][i], conv, events + [e]) == OnEvent(OnEvents(store[conv][i], conv, events), conv, e)
      {
        OneMoreEvent(store[conv][i], conv, events, e);
      }
    }
  }

  class MessageStore {
    var messagesByConversation: Store

    constructor (store: Store)
      ensures messagesByConversation == store
    {
      messagesByConversation := store;
    }

    /** What one receipt does to the loaded messages of its conversation. Number 3 makes a message of that
        time read; 2 lifts it to delivered, any number but 0, 2, 3 and 4 to sent, 0 from failed to sending;
        4 fails it unless it was delivered. */
    method ApplyUpdate(update: Event)
      requires update.Receipt?
      modifies this
      ensures messagesByConversation == StoreAfterEvent(old(messagesByConversation), update)
      ensures messagesByConversation.Keys == old(messagesByConversation).Keys
      ensures forall c | c in old(messagesByConversation) && c != update.conv ::
                messagesByConversation[c] == old(messagesByConversation)[c]
      ensures update.conv in old(messagesByConversation) ==>
                var was, after := old(messagesByConversation)[update.conv], messagesByConversation[update.conv];
                && |after| == |was|
                && forall i | 0 <= i < |was| ::
                     var s := was[i].status;
                     after[i] == was[i].(status :=
                       if was[i].sentAt != update.sentAt then s
                       else if update.code == 3 then Read
                       else if update.code == 2 then if s == Read then Read else Delivered
                       else if update.code == 0 then if s == Failed then Sending else s
                       else if update.code == 4 then if s == Delivered || s == Read then s else Failed
                       else if s == Failed || s == Sending then Sent else s)
    {
      if update.conv in messagesByConversation {
        var msgs := messagesByConversation[update.conv];
        var incoming := StatusOf(update.code);
        var moved := seq(|msgs|, j requires 0 <= j < |msgs| =>
          var m := msgs[j];
          if m.sentAt != update.sentAt then m
          else if incoming == Failed then
            if Rank(m.status) <= Rank(Sent) then m.(status := Failed) else m
          else if Rank(incoming) > Rank(m.status) then m.(status := incoming)
          else m);
        assert moved == MapEvent(msgs, update.conv, update);
        messagesByConversation := messagesByConversation[update.conv := moved];
      }
    }

    method ApplyDeliveryStatusUpdates(updates: seq<Event>)
      requires AllReceipts(updates)
      modifies this
      ensures messagesByConversation == StoreAfter(old(messagesByConversation), updates)
    {
      StoreAfterNothing(messagesByConversation);
      assert updates[..0] == [];
      for i := 0 to |updates|
        invariant messagesByConversation == StoreAfter(old(messagesByConversation), updates[..i])
      {
        assert updates[i] in updates;
        assert updates[..i + 1] == updates[..i] + [updates[i]];
        StoreAfterOneMore(old(messagesByConversation), updates[..i], updates[i]);
        ApplyUpdate(updates[i]);
      }
      assert updates[..|updates|] == updates;
    }

    /** The echo of a message sent by this very account updates it in place. */
    method HandleEcho(conv: ConversationId, me: Did, sentAt: int, serverId: string)
      modifies this
      ensures messagesByConversation == old(messagesByConversation)[conv :=
                MapEvent(ListOf(old(messagesByConversation), conv), conv, Echo(conv, me, sentAt, serverId))]
      ensures conv in messagesByConversation
      ensures forall c | c != conv :: c in messagesByConversation <==> c in old(messagesByConversation)
      ensures forall c | c in old(messagesByConversation) && c != conv ::
                messagesByConversation[c] == old(messagesByConversation)[c]
      ensures conv !in old(messagesByConversation) ==> messagesByConversation[conv] == []
      ensures conv in old(messagesByConversation) ==>
                var was, after := old(messagesByConversation)[conv], messagesByConversation[conv];
                && |after| == |was|
                && forall i | 0 <= i < |was| ::
                     after[i] ==
                       if was[i].sentAt == sentAt && was[i].sender == me && (was[i].status in {Sending, Sent})
                       then Message("server-" + serverId, me, sentAt, Delivered) else was[i]
    {
      var msgs := ListOf(messagesByConversation, conv);
      var echoed := seq(|msgs|, j requires 0 <= j < |msgs| =>
        var m := msgs[j];
        if m.sentAt == sentAt && m.sender == me && (m.status == Sending || m.status == Sent)
        then m.(status := Delivered, id := "server-" + serverId) else m);
      assert echoed == MapEvent(msgs, conv, Echo(conv, me, sentAt, serverId));
      messagesByConversation := messagesByConversation[conv := echoed];
    }
  }
}
