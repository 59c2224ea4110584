/** Opening a conversation: its unread messages are flipped to read in the UI, the threshold that is
    persisted, and what that threshold makes of the identity's other devices. */
module MarkRead {
  import opened Wrappers
  import opened ReadMarks
  import opened ReadSync

  datatype Message = Message(sentAt: int, sender: string, readAt: Option<int>)

  predicate Unread(me: string, m: Message) {
    m.readAt.None? && m.sender != me
  }

  function Flip(me: string, now: int, m: Message): Message {
    if Unread(me, m) then m.(readAt := Some(now)) else m
  }

  function FlipAll(me: string, now: int, ms: seq<Message>): seq<Message> {
    seq(|ms|, i requires 0 <= i < |ms| => Flip(me, now, ms[i]))
  }

  function UnreadSentAts(me: string, ms: seq<Message>): seq<int>
    decreases ms
  {
    if ms == [] then []
    else UnreadSentAts(me, ms[..|ms| - 1])
         + if Unread(me, ms[|ms| - 1]) then [ms[|ms| - 1].sentAt] else []
  }

  lemma {:induction false} UnreadAreListed(me: string, ms: seq<Message>, i: nat)
    requires i < |ms| && Unread(me, ms[i])
    ensures ms[i].sentAt in UnreadSentAts(me, ms)
  {
    if i < |ms| - 1 {
      UnreadAreListed(me, ms[..|ms| - 1], i);
    }
  }

  /** The sent-at times of the messages that are unread and somebody else's, and no other. */
  ghost predicate ListsUnread(times: seq<int>, me: string, ms: seq<Message>) {
    forall t :: t in times <==> exists m :: m in ms && m.readAt.None? && m.sender != me && m.sentAt == t
  }

  lemma {:induction false} ListedAreUnread(me: string, ms: seq<Message>)
    ensures ListsUnread(UnreadSentAts(me, ms), me, ms)
    decreases ms
  {
    if ms != [] {
      var front, last := ms[..|ms| - 1], ms[|ms| - 1];
      ListedAreUnread(me, front);
      assert ms == front + [last];
      forall t ensures t in UnreadSentAts(me, ms) <==>
          exists m :: m in ms && m.readAt.None? && m.sender != me && m.sentAt == t
      {
        assert t in UnreadSentAts(me, ms) <==> t in UnreadSentAts(me, front) || (Unread(me, last) && last.sentAt == t);
        if m :| m in ms && m.readAt.None? && m.sender != me && m.sentAt == t {
          assert m in front || m == last;
        }
      }
    }
  }

  function MaxOf(least: int, xs: seq<int>): (m: int)
    ensures least <= m && (m == least || m in xs)
    ensures forall x | x in xs :: x <= m
    decreases xs
  {
    if xs == [] then least
    else
      var front := MaxOf(least, xs[..|xs| - 1]);
      assert xs == xs[..|xs| - 1] + [xs[|xs| - 1]];
      if front < xs[|xs| - 1] then xs[|xs| - 1] else front
  }

  /** The threshold persisted: the later of the clock and the latest message that flips. */
  function Threshold(me: string, now: int, ms: seq<Message>): int {
    MaxOf(now, UnreadSentAts(me, ms))
  }

  lemma ThresholdCovers(me: string, now: int, ms: seq<Message>, i: nat)
    requires i < |ms| && Unread(me, ms[i])
    ensures now <= Threshold(me, now, ms) && ms[i].sentAt <= Threshold(me, now, ms)
  {
    UnreadAreListed(me, ms, i);
  }

  class Messaging {
    var messagesByConversation: map<ConversationId, seq<Message>>

    constructor ()
      ensures messagesByConversation == map[]
    {
      messagesByConversation := map[];
    }

    /** `upTo` is the threshold persisted, None when nothing flipped; `receipts` the sent-at times
        acknowledged to the sender. Neither clock is trusted: `now` may be behind every message. */
    method MarkAllMessagesRead(conv: ConversationId, me: string, now: int)
      returns (upTo: Option<int>, receipts: seq<int>)
      modifies this
      ensures conv !in old(messagesByConversation) ==>
                messagesByConversation == old(messagesByConversation) && upTo == None && receipts == []
      ensures conv in old(messagesByConversation) ==>
                && messagesByConversation
                     == old(messagesByConversation)[conv := FlipAll(me, now, old(messagesByConversation)[conv])]
                && receipts == UnreadSentAts(me, old(messagesByConversation)[conv])
                && (upTo.None? <==> forall m | m in old(messagesByConversation)[conv] :: !Unread(me, m))
      ensures conv in old(messagesByConversation) ==>
                var was, after := old(messagesByConversation)[conv], messagesByConversation[conv];
                && |after| == |was|
                && (forall i | 0 <= i < |was| ::
                      after[i] == if was[i].readAt.None? && was[i].sender != me
                                  then Message(was[i].sentAt, was[i].sender, Some(now)) else was[i])
                && (forall m | m in after :: m.readAt.Some? || m.sender == me)
      ensures forall c | c in old(messagesByConversation) && c != conv ::
                c in messagesByConversation && messagesByConversation[c] == old(messagesByConversation)[c]
      ensures conv in old(messagesByConversation) ==>
                ListsUnread(receipts, me, old(messagesByConversation)[conv])
      ensures upTo.Some? ==> upTo.value == Threshold(me, now, old(messagesByConversation)[conv])
      ensures upTo.Some? ==> now <= upTo.value && (upTo.value == now || upTo.value in receipts)
      ensures upTo.Some? ==> forall m | m in old(messagesByConversation)[conv] && Unread(me, m) ::
                m.sentAt <= upTo.value
    {
      if conv !in messagesByConversation {
        return None, [];
      }
      var msgs := messagesByConversation[conv];
      var changed, updated := false, [];
      receipts := [];
      for i := 0 to |msgs|
        invariant updated == FlipAll(me, now, msgs[..i])
        invariant receipts == UnreadSentAts(me, msgs[..i])
        invariant changed <==> exists k | 0 <= k < i :: Unread(me, msgs[k])
      {
        assert msgs[..i + 1][..i] == msgs[..i];
        if Unread(me, msgs[i]) {
          changed := true;
          receipts := receipts + [msgs[i].sentAt];
          updated := updated + [msgs[i].(readAt := Some(now))];
        } else {
          updated := updated + [msgs[i]];
        }
      }
      assert msgs[..|msgs|] == msgs;
      ListedAreUnread(me, msgs);
      if changed {
        messagesByConversation := messagesByConversation[conv := updated];
        var max := MaxOf(now, receipts);
        upTo := Some(max);
        forall k | 0 <= k < |msgs| && Unread(me, msgs[k]) ensures msgs[k].sentAt <= max {
          UnreadAreListed(me, msgs, k);
        }
      } else {
        upTo := None;
        assert updated == msgs;
        assert messagesByConversation[conv := msgs] == messagesByConversation;
      }
    }
  }

  // ---- From the persisted threshold to the other device ----

  predicate NewlyRead(row: Row, conv: ConversationId, upTo: int) {
    row.conv == conv && row.sentAt <= upTo && !row.read
  }

  /** mark_messages_read queues a mark only when it changed some stored row. */
  function MarkEvents(own: seq<Row>, conv: ConversationId, upTo: int): (events: seq<Event>) {
    if exists i :: 0 <= i < |own| && NewlyRead(own[i], conv, upTo) then [Queue(conv, upTo)] else []
  }

  function QueuedOne(me: string, e: Event): seq<Mark> {
    if e.Queue? && !IsLocal(me) && e.upTo >= 0 then [Mark(e.conv, e.upTo)] else []
  }

  /** The marks that a run's events queue. */
  function QueuedBy(me: string, events: seq<Event>): seq<Mark>
    decreases events
  {
    if events == [] then [] else QueuedOne(me, events[0]) + QueuedBy(me, events[1..])
  }

  lemma QueuedStep(me: string, s: State, e: Event)
    ensures Step(me, s, e).queued == s.queued + QueuedOne(me, e)
  {
  }

  lemma {:induction false} QueueHistory(me: string, s: State, events: seq<Event>)
    ensures Run(me, s, events).queued == s.queued + QueuedBy(me, events)
    decreases events
  {
    if events != [] {
      var e, rest := events[0], events[1..];
      QueueHistory(me, Step(me, s, e), rest);
      QueuedStep(me, s, e);
      assert s.queued + QueuedOne(me, e) + QueuedBy(me, rest) == s.queued + (QueuedOne(me, e) + QueuedBy(me, rest));
    }
  }

  lemma {:induction false} QueuedByConcat(me: string, a: seq<Event>, b: seq<Event>)
    ensures QueuedBy(me, a + b) == QueuedBy(me, a) + QueuedBy(me, b)
    decreases a
  {
    if a == [] {
      assert a + b == b;
    } else {
      assert (a + b)[1..] == a[1..] + b;
      QueuedByConcat(me, a[1..], b);
    }
  }

  lemma MarkQueued(me: string, own: seq<Row>, conv: ConversationId, upTo: int, t: int)
    requires !IsLocal(me)
    ensures AnyCovers(QueuedBy(me, MarkEvents(own, conv, upTo)), conv, t) <==>
              0 <= upTo && t <= upTo && exists i :: 0 <= i < |own| && NewlyRead(own[i], conv, upTo)
  {
    var events := MarkEvents(own, conv, upTo);
    if events != [] {
      assert events == [Queue(conv, upTo)] && events[1..] == [];
      if 0 <= upTo {
        assert QueuedBy(me, events) == [Mark(conv, upTo)];
        assert Mark(conv, upTo) in QueuedBy(me, events);
      } else {
        assert QueuedBy(me, events) == [];
      }
    }
  }

  lemma AnyCoversConcat(a: seq<Mark>, b: seq<Mark>, conv: ConversationId, t: int)
    ensures AnyCovers(a + b, conv, t) <==> AnyCovers(a, conv, t) || AnyCovers(b, conv, t)
  {
  }

  /** Every mark a quiet run queued is on the other device, and no other. */
  lemma QuietReads(me: string, events: seq<Event>, other: seq<Row>, k: nat)
    requires Quiet(Run(me, INITIAL, events))
    requires k < |other| && Mappable(me, other[k].conv)
    ensures ApplySyncRead(me, other, Run(me, INITIAL, events).delivered)[k].read <==>
              other[k].read || AnyCovers(QueuedBy(me, events), other[k].conv, other[k].sentAt)
  {
    EveryRunConserves(me, events);
    QueueHistory(me, INITIAL, events);
    var s := Run(me, INITIAL, events);
    assert Held(me, s, other[k].conv, other[k].sentAt) <==> AnyCovers(s.queued, other[k].conv, other[k].sentAt);
    assert s.queued == QueuedBy(me, events);
  }

  /** Exactly which of the other device's messages an opened conversation clears, whatever was queued
      before and after: a mark is queued only if some stored row up to the threshold was still unread, so a
      message whose own row was read already gets there by another such row or another mark. */
  lemma OpeningReachesExactly(
      me: string, own: seq<Row>, conv: ConversationId, upTo: int,
      before: seq<Event>, after: seq<Event>, other: seq<Row>, k: nat)
    requires !IsLocal(me) && Mappable(me, conv)
    requires Quiet(Run(me, INITIAL, before + MarkEvents(own, conv, upTo) + after))
    requires k < |other| && other[k].conv == conv
    ensures var s := Run(me, INITIAL, before + MarkEvents(own, conv, upTo) + after);
            ApplySyncRead(me, other, s.delivered)[k].read <==>
              || other[k].read
              || (0 <= upTo && other[k].sentAt <= upTo && exists i :: 0 <= i < |own| && NewlyRead(own[i], conv, upTo))
              || AnyCovers(QueuedBy(me, before) + QueuedBy(me, after), conv, other[k].sentAt)
  {
    var mark := MarkEvents(own, conv, upTo);
    var t := other[k].sentAt;
    QuietReads(me, before + mark + after, other, k);
    QueuedByConcat(me, before + mark, after);
    QueuedByConcat(me, before, mark);
    MarkQueued(me, own, conv, upTo, t);
    AnyCoversConcat(QueuedBy(me, before) + QueuedBy(me, mark), QueuedBy(me, after), conv, t);
    AnyCoversConcat(QueuedBy(me, before), QueuedBy(me, mark), conv, t);
    AnyCoversConcat(QueuedBy(me, before), QueuedBy(me, after), conv, t);
  }

  // ---- This device's own rows ----

  /** The stored rows, the marks other devices sent, and the sender of marks. */
  datatype Device = Device(rows: seq<Row>, inbound: set<ReadMark>, sync: State)

  const FRESH_DEVICE := Device([], {}, INITIAL)

  /** MarkMessagesRead is the one place marks are queued; Inbound is a SyncRead of another device. */
  datatype DeviceEvent =
    | Stored(conv: ConversationId, sentAt: int)
    | MarkMessagesRead(conv: ConversationId, upTo: int)
    | Inbound(marks: set<ReadMark>)
    | Sync(e: Event)

  function ReadUpTo(rows: seq<Row>, conv: ConversationId, upTo: int): (after: seq<Row>)
    ensures |after| == |rows|
  {
    seq(|rows|, i requires 0 <= i < |rows| =>
      if NewlyRead(rows[i], conv, upTo) then rows[i].(read := true) else rows[i])
  }

  function DeviceStep(me: string, d: Device, e: DeviceEvent): Device {
    match e
    case Stored(conv, sentAt) => d.(rows := d.rows + [Row(conv, sentAt, false)])
    case MarkMessagesRead(conv, upTo) =>
      d.(rows := ReadUpTo(d.rows, conv, upTo), sync := Run(me, d.sync, MarkEvents(d.rows, conv, upTo)))
    case Inbound(marks) => d.(rows := ApplySyncRead(me, d.rows, marks), inbound := d.inbound + marks)
    case Sync(e) => if e.Queue? then d else d.(sync := Step(me, d.sync, e))
  }

  function DeviceRun(me: string, d: Device, events: seq<DeviceEvent>): Device
    decreases events
  {
    if events == [] then d else DeviceRun(me, DeviceStep(me, d, events[0]), events[1..])
  }

  /** Whoever read a row, either this device queued a mark that covers it or another device sent one. */
  predicate IsAnnounced(me: string, d: Device, conv: ConversationId, t: int) {
    AnyCovers(d.sync.queued, conv, t) || Carries(me, d.inbound, conv, t)
  }

  ghost predicate DeviceInv(me: string, d: Device) {
    && Inv(me, d.sync)
    && forall row | row in d.rows && row.read && row.sentAt >= 0 :: IsAnnounced(me, d, row.conv, row.sentAt)
  }

  lemma MarkEventQueues(me: string, d: Device, conv: ConversationId, upTo: int)
    ensures Run(me, d.sync, MarkEvents(d.rows, conv, upTo))
         == if MarkEvents(d.rows, conv, upTo) == [] then d.sync else Step(me, d.sync, Queue(conv, upTo))
  {
    assert [Queue(conv, upTo)][1..] == [];
  }

  /** What is announced stays announced. */
  lemma AnnouncedStays(me: string, d: Device, e: DeviceEvent, conv: ConversationId, t: int)
    requires IsAnnounced(me, d, conv, t)
    ensures IsAnnounced(me, DeviceStep(me, d, e), conv, t)
  {
    var after := DeviceStep(me, d, e);
    if e.MarkMessagesRead? {
      MarkEventQueues(me, d, e.conv, e.upTo);
    }
    assert d.sync.queued <= after.sync.queued;
    if Carries(me, d.inbound, conv, t) && e.Inbound? {
      CarriesUnion(me, d.inbound, e.marks, conv, t);
    }
  }

  /** A row that this event turns read is announced by it. */
  lemma NewlyReadIsAnnounced(me: string, d: Device, e: DeviceEvent, i: nat)
    requires !IsLocal(me) && i < |d.rows| && d.rows[i].sentAt >= 0 && !d.rows[i].read
    requires DeviceStep(me, d, e).rows[i].read
    ensures IsAnnounced(me, DeviceStep(me, d, e), d.rows[i].conv, d.rows[i].sentAt)
  {
    var after := DeviceStep(me, d, e);
    match e
    case MarkMessagesRead(conv, upTo) =>
      MarkEventQueues(me, d, conv, upTo);
      assert NewlyRead(d.rows[i], conv, upTo);
      assert Mark(conv, upTo) in after.sync.queued;
    case Inbound(marks) => CarriesUnion(me, d.inbound, marks, d.rows[i].conv, d.rows[i].sentAt);
  }

  lemma RowsStay(me: string, d: Device, e: DeviceEvent, i: nat)
    requires i < |d.rows|
    ensures var after := DeviceStep(me, d, e).rows;
            && i < |after| && after[i].conv == d.rows[i].conv && after[i].sentAt == d.rows[i].sentAt
            && (d.rows[i].read ==> after[i].read)
  {
  }

  lemma DeviceStepKeepsInv(me: string, d: Device, e: DeviceEvent)
    requires !IsLocal(me) && DeviceInv(me, d)
    ensures DeviceInv(me, DeviceStep(me, d, e))
  {
    var after := DeviceStep(me, d, e);
    match e {
      case MarkMessagesRead(conv, upTo) =>
        MarkEventQueues(me, d, conv, upTo);
        StepKeepsInv(me, d.sync, Queue(conv, upTo));
      case Sync(step) => StepKeepsInv(me, d.sync, step);
      case _ =>
    }
    forall i | 0 <= i < |after.rows| && after.rows[i].read && after.rows[i].sentAt >= 0
      ensures IsAnnounced(me, after, after.rows[i].conv, after.rows[i].sentAt)
    {
      if i < |d.rows| {
        RowsStay(me, d, e, i);
        if d.rows[i].read {
          assert d.rows[i] in d.rows;
          AnnouncedStays(me, d, e, d.rows[i].conv, d.rows[i].sentAt);
        } else {
          NewlyReadIsAnnounced(me, d, e, i);
        }
      }
    }
  }

  lemma {:induction false} DeviceRunKeepsInv(me: string, d: Device, events: seq<DeviceEvent>)
    requires !IsLocal(me) && DeviceInv(me, d)
    ensures DeviceInv(me, DeviceRun(me, d, events))
    decreases events
  {
    if events != [] {
      DeviceStepKeepsInv(me, d, events[0]);
      DeviceRunKeepsInv(me, DeviceStep(me, d, events[0]), events[1..]);
    }
  }

  lemma {:induction false} AnnouncedForGood(me: string, d: Device, events: seq<DeviceEvent>,
                                            conv: ConversationId, t: int)
    requires IsAnnounced(me, d, conv, t)
    ensures IsAnnounced(me, DeviceRun(me, d, events), conv, t)
    decreases events
  {
    if events != [] {
      AnnouncedStays(me, d, events[0], conv, t);
      AnnouncedForGood(me, DeviceStep(me, d, events[0]), events[1..], conv, t);
    }
  }

  /** In every run of this device: a row that is read here is covered by a mark this device queued or by
      one another device sent; and once the queue is quiet, all that was queued is read there. */
  lemma ReadRowsReachOtherDevice(me: string, events: seq<DeviceEvent>, j: nat, other: seq<Row>, k: nat)
    requires var d := DeviceRun(me, FRESH_DEVICE, events);
             !IsLocal(me) && Quiet(d.sync) && j < |d.rows| && d.rows[j].read && d.rows[j].sentAt >= 0
    requires var row := DeviceRun(me, FRESH_DEVICE, events).rows[j];
             k < |other| && other[k].conv == row.conv && other[k].sentAt == row.sentAt && Mappable(me, row.conv)
    ensures var d := DeviceRun(me, FRESH_DEVICE, events);
            || ApplySyncRead(me, other, d.sync.delivered)[k].read
            || Carries(me, d.inbound, other[k].conv, other[k].sentAt)
  {
    DeviceRunKeepsInv(me, FRESH_DEVICE, events);
    var d := DeviceRun(me, FRESH_DEVICE, events);
    assert d.rows[j] in d.rows;
    QueuedIsDelivered(me, d.sync, other, k);
  }

  /** A quiet sender has read there exactly what it queued. */
  lemma QueuedIsDelivered(me: string, s: State, other: seq<Row>, k: nat)
    requires Inv(me, s) && Quiet(s) && k < |other| && Mappable(me, other[k].conv)
    ensures ApplySyncRead(me, other, s.delivered)[k].read <==>
              other[k].read || AnyCovers(s.queued, other[k].conv, other[k].sentAt)
  {
    assert Held(me, s, other[k].conv, other[k].sentAt) <==> AnyCovers(s.queued, other[k].conv, other[k].sentAt);
  }

  /** From the UI to the other device: a message that opening the conversation flips and that is stored,
      read or not, is read there once the queue is quiet, whatever the sender's clock said and whatever
      else was stored, marked, lost, retried or delivered around it; or the other device itself sent a
      mark that covers it. */
  lemma FlippedReachesOtherDevice(
      me: string, now: int, ui: seq<Message>, i: nat, conv: ConversationId,
      before: seq<DeviceEvent>, j: nat, after: seq<DeviceEvent>, other: seq<Row>, k: nat)
    requires !IsLocal(me) && Mappable(me, conv)
    requires i < |ui| && Unread(me, ui[i]) && ui[i].sentAt >= 0
    requires var rows := DeviceRun(me, FRESH_DEVICE, before).rows;
             j < |rows| && rows[j].conv == conv && rows[j].sentAt == ui[i].sentAt
    requires k < |other| && other[k].conv == conv && other[k].sentAt == ui[i].sentAt
    requires Quiet(Opened(me, now, ui, conv, before, after).sync)
    ensures var d := Opened(me, now, ui, conv, before, after);
            || ApplySyncRead(me, other, d.sync.delivered)[k].read
            || Carries(me, d.inbound, conv, ui[i].sentAt)
  {
    var d := DeviceRun(me, FRESH_DEVICE, before);
    var e := MarkMessagesRead(conv, Threshold(me, now, ui));
    var marked := DeviceStep(me, d, e);
    ThresholdCovers(me, now, ui, i);
    DeviceRunKeepsInv(me, FRESH_DEVICE, before);
    DeviceStepKeepsInv(me, d, e);
    DeviceRunKeepsInv(me, marked, after);
    assert marked.rows[j] in marked.rows;
    AnnouncedForGood(me, marked, after, conv, ui[i].sentAt);
    QueuedIsDelivered(me, Opened(me, now, ui, conv, before, after).sync, other, k);
  }

  /** The device once the conversation was opened between `before` and `after`. */
  function Opened(me: string, now: int, ui: seq<Message>, conv: ConversationId,
                  before: seq<DeviceEvent>, after: seq<DeviceEvent>): Device
  {
    var d := DeviceStep(me, DeviceRun(me, FRESH_DEVICE, before), MarkMessagesRead(conv, Threshold(me, now, ui)));
    DeviceRun(me, d, after)
  }

  /** The second case is real: what another device's mark reads here is queued nowhere, and opening the
      conversation then queues nothing either, so a row that reached that device after its mark stays
      unread there. */
  lemma InboundQueuesNothing(me: string, conv: ConversationId, t: nat, upTo: nat, mark: ReadMark)
    requires ConversationOf(me, mark.target) == conv && t <= mark.upTo && t <= upTo
    ensures var d := DeviceRun(me, FRESH_DEVICE, [Stored(conv, t), Inbound({mark}), MarkMessagesRead(conv, upTo)]);
            && d.rows == [Row(conv, t, true)] && d.sync == INITIAL && Quiet(d.sync)
            && ApplySyncRead(me, [Row(conv, t, false)], d.sync.delivered) == [Row(conv, t, false)]
  {
    var a, b, c: DeviceEvent := Stored(conv, t), Inbound({mark}), MarkMessagesRead(conv, upTo);
    assert [a, b, c][1..] == [b, c] && [b, c][1..] == [c] && [c][1..] == [];
    var stored := DeviceStep(me, FRESH_DEVICE, a);
    var synced := DeviceStep(me, stored, b);
    assert mark in {mark};
    assert synced.rows == [Row(conv, t, true)];
    assert MarkEvents(synced.rows, conv, upTo) == [];
    assert ReadUpTo(synced.rows, conv, upTo) == synced.rows;
    assert DeviceRun(me, FRESH_DEVICE, [a, b, c]) == DeviceRun(me, stored, [b, c]);
    assert DeviceRun(me, stored, [b, c]) == DeviceRun(me, synced, [c]);
    assert DeviceRun(me, synced, [c]) == DeviceStep(me, synced, c);
  }
}
