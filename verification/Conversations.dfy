/** The conversation list while reloads, freshly opened conversations and inbound messages interleave:
    one load at a time, with at most one more owed. */
module Conversations {
  import opened Wrappers
  import opened Inbox

  // ---- The machine ----

  /** A load in progress: when it began, whose accounts it reads, and whether its body is over, by a merge
      or by an exception. */
  datatype Load = Load(start: nat, accounts: seq<AccountId>, settled: bool)

  /** `now` counts events; `requests` and `starts` record when reloads were asked for and begun. */
  datatype State = State(
    accounts: seq<AccountId>,
    rows: seq<Row>,
    pending: set<ConversationId>,
    inFlight: bool,
    queued: bool,
    loads: seq<Load>,
    now: nat,
    requests: set<nat>,
    starts: seq<nat>)

  const INITIAL := State([], [], {}, false, false, [], 0, {}, [])

  datatype Event =
    | Request
    | Arrive(k: nat, loaded: seq<seq<Summary>>)
    | Rejected(k: nat)
    | Finally(k: nat)
    | SignedIn(accounts: seq<AccountId>)
    | OpenDm(account: AccountId, recipient: string)
    | OpenGroup(group: string, account: AccountId)
    | InboundDm(account: AccountId, sender: string, date: int)
    | InboundGroup(group: string, account: AccountId, date: int)
    | LeftGroup(id: ConversationId)

  function FindDm(rows: seq<Row>, account: AccountId, recipient: string): (r: Option<Row>)
    ensures r.Some? ==> r.value in rows && r.value.account == account && r.value.recipient == Some(recipient)
    ensures r.None? ==> forall x | x in rows :: !(x.account == account && x.recipient == Some(recipient))
    decreases rows
  {
    if rows == [] then None
    else if rows[0].account == account && rows[0].recipient == Some(recipient) then Some(rows[0])
    else FindDm(rows[1..], account, recipient)
  }

  function FindId(rows: seq<Row>, id: ConversationId): (r: Option<Row>)
    ensures r.Some? ==> r.value in rows && r.value.id == id
    ensures r.None? ==> id !in Ids(rows)
    decreases rows
  {
    if rows == [] then None
    else if rows[0].id == id then Some(rows[0])
    else FindId(rows[1..], id)
  }

  function DmRow(account: AccountId, recipient: string, date: Option<int>): Row {
    Row(DmId(account, recipient), account, false, Some(recipient), date)
  }

  function GroupRow(group: string, account: AccountId, date: Option<int>): Row {
    Row(GroupId(group), account, true, None, date)
  }

  /** Beginning a load; with nobody signed in it empties the list and is over at once. */
  function Start(s: State): State {
    s.(inFlight := true,
       loads := s.loads + [Load(s.now, s.accounts, s.accounts == [])],
       starts := s.starts + [s.now],
       rows := if s.accounts == [] then [] else s.rows)
  }

  function WithPending(s: State, r: Row, atFront: bool): State {
    s.(rows := if atFront then [r] + s.rows else s.rows + [r], pending := s.pending + {r.id})
  }

  /** The event itself, before the clock moves on. An event that cannot happen changes nothing. */
  function Act(s: State, e: Event): State {
    match e
    case Request =>
      var asked := s.(requests := s.requests + {s.now});
      if s.inFlight then asked.(queued := true) else Start(asked)
    case Arrive(k, loaded) =>
      if k >= |s.loads| || s.loads[k].settled || |loaded| != |s.loads[k].accounts| then s
      else
        var entries := AllEntries(s.loads[k].accounts, loaded);
        s.(rows := Merge(entries, s.rows, s.pending),
           pending := s.pending - Ids(Kept(entries)),
           loads := s.loads[k := s.loads[k].(settled := true)])
    case Rejected(k) =>
      if k >= |s.loads| || s.loads[k].settled then s else s.(loads := s.loads[k := s.loads[k].(settled := true)])
    case Finally(k) =>
      if k >= |s.loads| || !s.loads[k].settled then s
      else
        var over := s.(inFlight := false, loads := s.loads[..k] + s.loads[k + 1..]);
        if s.queued then Start(over.(queued := false)) else over
    case SignedIn(accounts) => s.(accounts := accounts)
    case OpenDm(account, recipient) =>
      if FindDm(s.rows, account, recipient).Some? then s
      else WithPending(s, DmRow(account, recipient, None), false)
    case OpenGroup(group, account) =>
      if FindId(s.rows, GroupId(group)).Some? then s
      else WithPending(s, GroupRow(group, account, None), false)
    case InboundDm(account, sender, date) =>
      if FindId(s.rows, DmId(account, sender)).Some? then Dated(s, DmId(account, sender), date)
      else WithPending(s, DmRow(account, sender, Some(date)), true)
    case InboundGroup(group, account, date) =>
      if FindId(s.rows, GroupId(group)).Some? then Dated(s, GroupId(group), date)
      else WithPending(s, GroupRow(group, account, Some(date)), true)
    case LeftGroup(id) => s.(pending := s.pending + {id})
  }

  /** Where the first row of that id stands, or the length. */
  function FindIndex(rows: seq<Row>, id: ConversationId): (i: nat)
    ensures i <= |rows| && (i < |rows| ==> rows[i].id == id)
    ensures forall j | 0 <= j < i :: rows[j].id != id
    decreases rows
  {
    if rows == [] || rows[0].id == id then 0 else 1 + FindIndex(rows[1..], id)
  }

  /** The row of an inbound message takes its date. */
  function Dated(s: State, id: ConversationId, date: int): State {
    var i := FindIndex(s.rows, id);
    if i == |s.rows| then s else s.(rows := s.rows[i := s.rows[i].(date := Some(date))])
  }

  function Step(s: State, e: Event): State {
    Act(s, e).(now := s.now + 1)
  }

  function Run(s: State, events: seq<Event>): State
    decreases events
  {
    if events == [] then s else Run(Step(s, events[0]), events[1..])
  }

  // ---- What the run may assume of the accounts and their stores ----

  ghost predicate GoodEvent(all: set<AccountId>, s: State, e: Event) {
    match e
    case Arrive(k, loaded) =>
      k < |s.loads| && |loaded| == |s.loads[k].accounts| ==> GoodLoad(s.loads[k].accounts, loaded)
    case SignedIn(accounts) => forall a | a in accounts :: a in all
    case OpenDm(account, _) => account in all
    case InboundDm(account, _, _) => account in all
    case _ => true
  }

  ghost predicate GoodRun(all: set<AccountId>, s: State, events: seq<Event>)
    decreases events
  {
    events == [] || (GoodEvent(all, s, events[0]) && GoodRun(all, Step(s, events[0]), events[1..]))
  }

  // ---- Invariants ----

  /** One load at a time, and `queued` says that somebody asked since it began. */
  ghost predicate Coalesced(s: State) {
    && (s.inFlight <==> |s.loads| == 1) && |s.loads| <= 1
    && (s.inFlight ==> s.starts != [] && s.loads[0].start == s.starts[|s.starts| - 1])
    && (s.queued <==> s.inFlight && exists r :: r in s.requests && r > s.starts[|s.starts| - 1])
    && (!s.inFlight ==> forall r | r in s.requests :: s.starts != [] && r <= s.starts[|s.starts| - 1])
  }

  /** The i-th load answers a request made since the load before it began. */
  ghost predicate Answers(requests: set<nat>, starts: seq<nat>, i: nat)
    requires i < |starts|
  {
    exists r :: r in requests && r <= starts[i] && (i > 0 ==> r > starts[i - 1])
  }

  ghost predicate Justified(requests: set<nat>, starts: seq<nat>) {
    && (forall i | 0 <= i < |starts| :: Answers(requests, starts, i))
    && (forall i, j | 0 <= i < j < |starts| :: starts[i] < starts[j])
  }

  ghost predicate InThePast(s: State) {
    && (forall r | r in s.requests :: r < s.now)
    && (forall i | 0 <= i < |s.starts| :: s.starts[i] < s.now)
  }

  ghost predicate Timed(s: State) {
    Coalesced(s) && Justified(s.requests, s.starts) && InThePast(s)
  }

  ghost predicate GoodRows(all: set<AccountId>, s: State) {
    && UniqueIds(s.rows) && (forall r | r in s.rows :: GoodRow(all, r))
    && (forall a | a in s.accounts :: a in all)
    && (forall k | 0 <= k < |s.loads| :: forall a | a in s.loads[k].accounts :: a in all)
  }

  ghost predicate Inv(all: set<AccountId>, s: State) {
    Timed(s) && GoodRows(all, s)
  }

  lemma MoreRequests(requests: set<nat>, more: set<nat>, starts: seq<nat>)
    requires Justified(requests, starts)
    ensures Justified(requests + more, starts)
  {
    forall i | 0 <= i < |starts| ensures Answers(requests + more, starts, i) {
      assert Answers(requests, starts, i);
      var r :| r in requests && r <= starts[i] && (i > 0 ==> r > starts[i - 1]);
      assert r in requests + more;
    }
  }

  lemma OneMoreStart(requests: set<nat>, starts: seq<nat>, now: nat, r: nat)
    requires Justified(requests, starts) && forall i | 0 <= i < |starts| :: starts[i] < now
    requires r in requests && r <= now && (starts != [] ==> r > starts[|starts| - 1])
    ensures Justified(requests, starts + [now])
  {
    forall i | 0 <= i < |starts + [now]| ensures Answers(requests, starts + [now], i) {
      if i < |starts| {
        assert Answers(requests, starts, i);
      } else {
        assert r <= (starts + [now])[i];
      }
    }
  }

  lemma RequestKeepsTiming(s: State)
    requires Timed(s)
    ensures Timed(Step(s, Request))
  {
    assert s.now in s.requests + {s.now};
    MoreRequests(s.requests, {s.now}, s.starts);
    if !s.inFlight {
      OneMoreStart(s.requests + {s.now}, s.starts, s.now, s.now);
    }
  }

  lemma FinallyKeepsTiming(s: State, k: nat)
    requires Timed(s)
    requires k < |s.loads| && s.loads[k].settled
    ensures Timed(Step(s, Finally(k)))
  {
    assert s.loads[..0] + s.loads[1..] == [];
    if s.queued {
      var r :| r in s.requests && r > s.starts[|s.starts| - 1];
      OneMoreStart(s.requests, s.starts, s.now, r);
    }
  }

  /** Timing is about requests and loads only. */
  lemma SameTiming(s: State, t: State)
    requires Timed(s)
    requires t.requests == s.requests && t.starts == s.starts && t.now == s.now + 1
    requires t.inFlight == s.inFlight && t.queued == s.queued
    requires |t.loads| == |s.loads| && forall k | 0 <= k < |s.loads| :: t.loads[k].start == s.loads[k].start
    ensures Timed(t)
  {
  }

  lemma RowEventsKeepLoads(s: State, e: Event)
    requires !e.Request? && !e.Arrive? && !e.Rejected? && !e.Finally?
    ensures var t := Step(s, e);
            && t.requests == s.requests && t.starts == s.starts && t.now == s.now + 1
            && t.inFlight == s.inFlight && t.queued == s.queued && t.loads == s.loads
  {
  }

  lemma StepKeepsTiming(s: State, e: Event)
    requires Timed(s)
    ensures Timed(Step(s, e))
  {
    match e
    case Request => RequestKeepsTiming(s);
    case Finally(k) =>
      if k < |s.loads| && s.loads[k].settled {
        FinallyKeepsTiming(s, k);
      } else {
        SameTiming(s, Step(s, e));
      }
    case Arrive(_, _) => SameTiming(s, Step(s, e));
    case Rejected(_) => SameTiming(s, Step(s, e));
    case _ =>
      RowEventsKeepLoads(s, e);
      SameTiming(s, Step(s, e));
  }

  lemma ArriveKeepsRows(all: set<AccountId>, s: State, k: nat, loaded: seq<seq<Summary>>)
    requires Scoped(all) && GoodRows(all, s) && GoodEvent(all, s, Arrive(k, loaded))
    ensures GoodRows(all, Act(s, Arrive(k, loaded)))
  {
    if k < |s.loads| && !s.loads[k].settled && |loaded| == |s.loads[k].accounts| {
      MergeIsExact(all, s.loads[k].accounts, loaded, s.rows, s.pending);
    }
  }

  lemma OpenKeepsRows(all: set<AccountId>, s: State, e: Event)
    requires Scoped(all) && GoodRows(all, s) && GoodEvent(all, s, e)
    requires e.OpenDm? || e.OpenGroup?
    ensures GoodRows(all, Act(s, e))
  {
    match e
    case OpenDm(account, recipient) =>
      if FindDm(s.rows, account, recipient).None? {
        NoSuchDm(all, s.rows, account, recipient);
        NewRowIsGood(all, s, DmRow(account, recipient, None), false);
      }
    case OpenGroup(group, account) =>
      if FindId(s.rows, GroupId(group)).None? {
        NewRowIsGood(all, s, GroupRow(group, account, None), false);
      }
  }

  lemma InboundKeepsRows(all: set<AccountId>, s: State, e: Event)
    requires GoodRows(all, s) && GoodEvent(all, s, e)
    requires e.InboundDm? || e.InboundGroup?
    ensures GoodRows(all, Act(s, e))
  {
    match e
    case InboundDm(account, sender, date) =>
      if FindId(s.rows, DmId(account, sender)).None? {
        NewRowIsGood(all, s, DmRow(account, sender, Some(date)), true);
      } else {
        DatedIsGood(all, s, DmId(account, sender), date);
      }
    case InboundGroup(group, account, date) =>
      if FindId(s.rows, GroupId(group)).None? {
        NewRowIsGood(all, s, GroupRow(group, account, Some(date)), true);
      } else {
        DatedIsGood(all, s, GroupId(group), date);
      }
  }

  lemma StepKeepsRows(all: set<AccountId>, s: State, e: Event)
    requires Scoped(all) && GoodRows(all, s) && GoodEvent(all, s, e)
    ensures GoodRows(all, Step(s, e))
  {
    match e
    case Arrive(k, loaded) => ArriveKeepsRows(all, s, k, loaded);
    case OpenDm(_, _) => OpenKeepsRows(all, s, e);
    case OpenGroup(_, _) => OpenKeepsRows(all, s, e);
    case InboundDm(_, _, _) => InboundKeepsRows(all, s, e);
    case InboundGroup(_, _, _) => InboundKeepsRows(all, s, e);
    case _ =>
  }

  lemma NewRowIsGood(all: set<AccountId>, s: State, r: Row, atFront: bool)
    requires GoodRows(all, s) && GoodRow(all, r) && r.id !in Ids(s.rows)
    ensures GoodRows(all, WithPending(s, r, atFront))
  {
    assert forall i | 0 <= i < |s.rows| :: s.rows[i].id in Ids(s.rows);
  }

  lemma DatedIsGood(all: set<AccountId>, s: State, id: ConversationId, date: int)
    requires GoodRows(all, s)
    ensures GoodRows(all, Dated(s, id, date))
  {
    var after := Dated(s, id, date);
    forall i | 0 <= i < |s.rows| ensures after.rows[i].id == s.rows[i].id && GoodRow(all, after.rows[i]) {
      assert s.rows[i] in s.rows;
    }
    assert forall r | r in after.rows :: GoodRow(all, r);
  }

  /** No row of that account and recipient, so no row of that id. */
  lemma NoSuchDm(all: set<AccountId>, rows: seq<Row>, account: AccountId, recipient: string)
    requires Scoped(all) && account in all && (forall r | r in rows :: GoodRow(all, r))
    requires FindDm(rows, account, recipient).None?
    ensures DmId(account, recipient) !in Ids(rows)
  {
    forall r | r in rows ensures r.id != DmId(account, recipient) {
      DmIdTellsAccount(all, account, account, recipient, "");
      if !r.isGroup {
        DmIdTellsAccount(all, r.account, account, r.recipient.value, recipient);
      }
    }
  }

  lemma {:induction false} RunKeepsInv(all: set<AccountId>, s: State, events: seq<Event>)
    requires Scoped(all) && Inv(all, s) && GoodRun(all, s, events)
    ensures Inv(all, Run(s, events))
    decreases events
  {
    if events != [] {
      StepKeepsTiming(s, events[0]);
      StepKeepsRows(all, s, events[0]);
      RunKeepsInv(all, Step(s, events[0]), events[1..]);
    }
  }

  /** In every run: loads never overlap, and once none is in flight every request was followed by a
      load that began no earlier; each load answers a request newer than the load before, so all the
      requests made during one load cost one more; and no conversation is listed twice. */
  lemma EveryRun(all: set<AccountId>, events: seq<Event>)
    requires Scoped(all) && GoodRun(all, INITIAL, events)
    ensures var s := Run(INITIAL, events);
            && |s.loads| <= 1
            && (!s.inFlight ==> forall r | r in s.requests :: exists i :: 0 <= i < |s.starts| && r <= s.starts[i])
            && (forall i | 0 <= i < |s.starts| :: Answers(s.requests, s.starts, i))
            && UniqueIds(s.rows)
  {
    RunKeepsInv(all, INITIAL, events);
    var s := Run(INITIAL, events);
    if !s.inFlight {
      forall r | r in s.requests ensures exists i :: 0 <= i < |s.starts| && r <= s.starts[i] {
        assert r <= s.starts[|s.starts| - 1];
      }
    }
  }

  /** A load that ends starts one follow-up if anybody asked while it ran, and none otherwise. */
  lemma OneFollowUp(s: State)
    requires Coalesced(s) && s.inFlight && s.loads[0].settled
    ensures var after := Step(s, Finally(0));
            && after.starts ==
                 (if exists r :: r in s.requests && r > s.loads[0].start then s.starts + [s.now] else s.starts)
            && !after.queued
  {
  }

  /** What the end of a load's body makes of the list. */
  lemma ArrivalIsExact(all: set<AccountId>, s: State, loaded: seq<seq<Summary>>)
    requires Scoped(all) && Inv(all, s) && GoodEvent(all, s, Arrive(0, loaded))
    requires s.inFlight && !s.loads[0].settled && |loaded| == |s.loads[0].accounts|
    ensures var entries := AllEntries(s.loads[0].accounts, loaded);
            var dbIds := set e | e in entries :: e.summary.id;
            var after := Step(s, Arrive(0, loaded));
            && (forall r | r in s.rows && r.id !in dbIds :: r in after.rows <==> r.id in s.pending)
            && Ids(after.rows) == dbIds + (set r | r in s.rows && r.id in s.pending :: r.id)
            && after.pending == s.pending - dbIds
            && NewestFirst(after.rows)
  {
    MergeIsExact(all, s.loads[0].accounts, loaded, s.rows, s.pending);
    MergedIds(all, s.loads[0].accounts, loaded, s.rows, s.pending);
    var kept := Kept(AllEntries(s.loads[0].accounts, loaded));
    assert forall r | r in kept :: r.id in Ids(kept);
  }

  /** A group that was left keeps its row through the load that finds no store reporting it. */
  lemma LeftGroupStays(all: set<AccountId>, s: State, r: Row, loaded: seq<seq<Summary>>)
    requires Scoped(all) && Inv(all, s) && GoodEvent(all, s, Arrive(0, loaded)) && r in s.rows
    requires s.inFlight && !s.loads[0].settled && |loaded| == |s.loads[0].accounts|
    requires forall e | e in AllEntries(s.loads[0].accounts, loaded) :: e.summary.id != r.id
    ensures r in Step(Step(s, LeftGroup(r.id)), Arrive(0, loaded)).rows
  {
    StepKeepsTiming(s, LeftGroup(r.id));
    StepKeepsRows(all, s, LeftGroup(r.id));
    ArrivalIsExact(all, Step(s, LeftGroup(r.id)), loaded);
  }

  // ---- The code ----

  class ConversationList {
    var accounts: seq<AccountId>
    var conversations: seq<Row>
    var pendingConversations: set<ConversationId>
    var reloadInFlight: bool
    var reloadQueued: bool

    constructor ()
      ensures Models(INITIAL)
    {
      accounts, conversations, pendingConversations := [], [], {};
      reloadInFlight, reloadQueued := false, false;
    }

    ghost predicate Models(s: State)
      reads this
    {
      && accounts == s.accounts && conversations == s.rows && pendingConversations == s.pending
      && reloadInFlight == s.inFlight && reloadQueued == s.queued
    }

    /** The synchronous front of loadConversationsFromStore. */
    method BeginLoad()
      modifies this
      ensures conversations == if accounts == [] then [] else old(conversations)
      ensures accounts == old(accounts) && pendingConversations == old(pendingConversations)
      ensures reloadInFlight && reloadQueued == old(reloadQueued)
    {
      reloadInFlight := true;
      if |accounts| == 0 {
        conversations := [];
      }
    }

    method ReloadConversations(ghost s: State)
      requires Models(s)
      modifies this
      ensures Models(Step(s, Request))
      ensures accounts == old(accounts) && pendingConversations == old(pendingConversations) && reloadInFlight
      ensures old(reloadInFlight) ==> reloadQueued && conversations == old(conversations)
      ensures !old(reloadInFlight) ==> reloadQueued == old(reloadQueued)
      ensures !old(reloadInFlight) ==> conversations == if accounts == [] then [] else old(conversations)
    {
      if reloadInFlight {
        reloadQueued := true;
        return;
      }
      BeginLoad();
    }

    /** The `finally` of a load. */
    method LoadSettled(ghost s: State, k: nat)
      requires Models(s) && k < |s.loads| && s.loads[k].settled
      modifies this
      ensures Models(Step(s, Finally(k)))
      ensures accounts == old(accounts) && pendingConversations == old(pendingConversations)
      ensures reloadInFlight == old(reloadQueued) && !reloadQueued
      ensures conversations == if old(reloadQueued) && accounts == [] then [] else old(conversations)
    {
      reloadInFlight := false;
      if reloadQueued {
        reloadQueued := false;
        BeginLoad();
      }
    }

    /** The inner loop over one account's summaries. */
    static method AddRows(front: seq<Row>, seen: set<ConversationId>, account: AccountId, summaries: seq<Summary>,
                          ghost before: seq<Entry>)
      returns (all: seq<Row>, groupSeen: set<ConversationId>)
      requires front == Kept(before) && Tracks(seen, before)
      ensures all == Kept(before + EntriesOf(account, summaries))
      ensures Tracks(groupSeen, before + EntriesOf(account, summaries))
      ensures AddsRows(front, all, account, summaries)
    {
      all, groupSeen := front, seen;
      assert DoneAt(before, account, summaries, 0) == before;
      for j := 0 to |summaries|
        invariant Walked(all, groupSeen, DoneAt(before, account, summaries, j))
      {
        var s := summaries[j];
        WalkNext(all, groupSeen, before, account, summaries, j);
        if !(IsGroupSummary(s) && s.id in groupSeen) {
          if IsGroupSummary(s) {
            groupSeen := groupSeen + {s.id};
          }
          all := all + [RowOf(Entry(account, s))];
        }
      }
      assert summaries[..|summaries|] == summaries;
      KeptAdds(before, account, summaries);
    }

    /** The rows of every account's summaries, shared groups once. */
    static method BuildRows(forAccounts: seq<AccountId>, loaded: seq<seq<Summary>>)
      returns (all: seq<Row>, ghost sources: seq<Source>)
      requires |loaded| == |forAccounts|
      ensures all == Kept(AllEntries(forAccounts, loaded))
      ensures AreRowsOf(all, sources, forAccounts, loaded)
    {
      all := [];
      var groupSeen: set<ConversationId> := {};
      for i := 0 to |forAccounts|
        invariant all == Kept(AllEntries(forAccounts[..i], loaded[..i]))
        invariant Tracks(groupSeen, AllEntries(forAccounts[..i], loaded[..i]))
      {
        assert forAccounts[..i + 1][..i] == forAccounts[..i] && loaded[..i + 1][..i] == loaded[..i];
        all, groupSeen := AddRows(all, groupSeen, forAccounts[i], loaded[i], AllEntries(forAccounts[..i], loaded[..i]));
      }
      assert forAccounts[..|forAccounts|] == forAccounts && loaded[..|loaded|] == loaded;
      sources := KeptRows(forAccounts, loaded);
    }

    /** A conversation some store reports is no longer pending. */
    method ForgetPersisted(dbIds: set<ConversationId>)
      modifies this`pendingConversations
      ensures pendingConversations == old(pendingConversations) - dbIds
    {
      var todo := dbIds;
      while todo != {}
        invariant todo <= dbIds
        invariant pendingConversations == old(pendingConversations) - (dbIds - todo)
        decreases todo
      {
        var id :| id in todo;
        pendingConversations := pendingConversations - {id};
        todo := todo - {id};
      }
      assert dbIds - {} == dbIds;
    }

    /** The rest of loadConversationsFromStore, once every account has answered. */
    method FinishLoad(loaded: seq<seq<Summary>>, ghost s: State, ghost k: nat, forAccounts: seq<AccountId>)
      returns (ghost stored: seq<Row>, ghost sources: seq<Source>, ghost inMemory: seq<Row>, ghost held: seq<nat>)
      requires Models(s) && k < |s.loads| && !s.loads[k].settled
      requires s.loads[k].accounts == forAccounts && |loaded| == |forAccounts|
      modifies this
      ensures Models(Step(s, Arrive(k, loaded)))
      ensures AreRowsOf(stored, sources, forAccounts, loaded)
      ensures AreHeld(held, old(conversations), Ids(stored), old(pendingConversations))
      ensures |inMemory| == |held| && forall h | 0 <= h < |held| :: inMemory[h] == old(conversations)[held[h]]
      ensures IsSorted(stored + inMemory, conversations)
      ensures pendingConversations == old(pendingConversations) - Ids(stored)
      ensures accounts == old(accounts) && reloadInFlight == old(reloadInFlight) && reloadQueued == old(reloadQueued)
    {
      var all;
      all, sources := BuildRows(forAccounts, loaded);
      stored := all;
      var dbIds := Ids(all);
      ForgetPersisted(dbIds);
      inMemory, held := MergeSpelledOut(all, conversations, old(pendingConversations));
      var preserved := Preserved(conversations, dbIds, pendingConversations);
      conversations := SortByDate(all + preserved);
    }

    /** A group that was left is kept across loads, whatever its store reports. */
    method LeaveGroup(id: ConversationId, ghost s: State)
      requires Models(s)
      modifies this`pendingConversations
      ensures Models(Step(s, LeftGroup(id)))
      ensures pendingConversations == old(pendingConversations) + {id}
    {
      pendingConversations := pendingConversations + {id};
    }

    method FindOrCreateDMConversation(recipient: string, account: AccountId, ghost s: State) returns (conv: Row)
      requires Models(s)
      modifies this
      ensures Models(Step(s, OpenDm(account, recipient)))
      ensures conv in conversations && conv.account == account && conv.recipient == Some(recipient)
      ensures if exists r :: r in old(conversations) && r.account == account && r.recipient == Some(recipient)
              then conversations == old(conversations) && pendingConversations == old(pendingConversations)
              else
                && conv == Row("dm-" + account + "-" + recipient, account, false, Some(recipient), None)
                && conversations == old(conversations) + [conv]
                && pendingConversations == old(pendingConversations) + {conv.id}
    {
      var existing := FindDm(conversations, account, recipient);
      if existing.Some? {
        return existing.value;
      }
      conv := DmRow(account, recipient, None);
      pendingConversations := pendingConversations + {conv.id};
      conversations := conversations + [conv];
    }

    method FindOrCreateGroupConversation(group: string, account: AccountId, ghost s: State) returns (conv: Row)
      requires Models(s)
      modifies this
      ensures Models(Step(s, OpenGroup(group, account)))
      ensures conv in conversations && conv.id == "group-" + group
      ensures if exists r :: r in old(conversations) && r.id == "group-" + group
              then conversations == old(conversations) && pendingConversations == old(pendingConversations)
              else
                && conv == Row("group-" + group, account, true, None, None)
                && conversations == old(conversations) + [conv]
                && pendingConversations == old(pendingConversations) + {conv.id}
    {
      var existing := FindId(conversations, GroupId(group));
      if existing.Some? {
        return existing.value;
      }
      conv := GroupRow(group, account, None);
      pendingConversations := pendingConversations + {conv.id};
      conversations := conversations + [conv];
    }

    /** What a message from somebody else does to the list. */
    method HandleIncomingMessage(account: AccountId, sender: string, group: Option<string>, date: int, ghost s: State)
      requires Models(s)
      modifies this
      ensures Models(Step(s, if group.Some? then InboundGroup(group.value, account, date)
                             else InboundDm(account, sender, date)))
      ensures var id := match group case Some(g) => "group-" + g case None => "dm-" + account + "-" + sender;
              if exists r :: r in old(conversations) && r.id == id then
                && pendingConversations == old(pendingConversations)
                && exists i :: 0 <= i < |old(conversations)| && old(conversations)[i].id == id
                     && conversations == old(conversations)[i := old(conversations)[i].(date := Some(date))]
              else
                var isGroup := group.Some?;
                var recipient := if isGroup then None else Some(sender);
                && conversations == [Row(id, account, isGroup, recipient, Some(date))] + old(conversations)
                && pendingConversations == old(pendingConversations) + {id}
    {
      var conv := if group.Some? then GroupRow(group.value, account, Some(date))
                  else DmRow(account, sender, Some(date));
      var i := FindIndex(conversations, conv.id);
      if i < |conversations| {
        assert conversations[i] in conversations;
        conversations := conversations[i := conversations[i].(date := Some(date))];
      } else {
        pendingConversations := pendingConversations + {conv.id};
        conversations := [conv] + conversations;
      }
    }
  }

  /** `seen` holds the groups that `entries` surfaced. */
  ghost predicate Tracks(seen: set<ConversationId>, entries: seq<Entry>) {
    forall id :: id in seen <==> SeenGroup(entries, id)
  }

  /** The entries walked once the first `j` summaries of an account are done. */
  ghost function DoneAt(before: seq<Entry>, account: AccountId, summaries: seq<Summary>, j: nat): seq<Entry>
    requires j <= |summaries|
  {
    before + EntriesOf(account, summaries[..j])
  }

  ghost predicate Walked(all: seq<Row>, seen: set<ConversationId>, entries: seq<Entry>) {
    all == Kept(entries) && Tracks(seen, entries)
  }

  lemma WalkNext(all: seq<Row>, seen: set<ConversationId>, before: seq<Entry>, account: AccountId,
                 summaries: seq<Summary>, j: nat)
    requires j < |summaries| && Walked(all, seen, DoneAt(before, account, summaries, j))
    ensures var e, next := Entry(account, summaries[j]), DoneAt(before, account, summaries, j + 1);
            if !IsGroupSummary(e.summary) then Walked(all + [RowOf(e)], seen, next)
            else if e.summary.id in seen then Walked(all, seen, next)
            else Walked(all + [RowOf(e)], seen + {e.summary.id}, next)
  {
    var done, e := DoneAt(before, account, summaries, j), Entry(account, summaries[j]);
    assert DoneAt(before, account, summaries, j + 1) == done + [e] by {
      assert summaries[..j + 1] == summaries[..j] + [summaries[j]];
    }
    KeptNext(done, e);
    SeenNext(done, e, seen);
    if e.summary.id in seen {
      assert seen + {e.summary.id} == seen;
    }
  }

  ghost predicate IsRowOfSome(account: AccountId, summaries: seq<Summary>, r: Row) {
    exists s :: s in summaries && IsRowFor(account, s, r)
  }

  /** Behind the rows there were, each row is one of the account's summaries. */
  ghost predicate AddsRows(front: seq<Row>, all: seq<Row>, account: AccountId, summaries: seq<Summary>) {
    front <= all && forall k | |front| <= k < |all| :: IsRowOfSome(account, summaries, all[k])
  }

  lemma AddsMore(front: seq<Row>, all: seq<Row>, account: AccountId, summaries: seq<Summary>, s: Summary, r: Row)
    requires AddsRows(front, all, account, summaries) && IsRowFor(account, s, r)
    ensures AddsRows(front, all, account, summaries + [s])
    ensures AddsRows(front, all + [r], account, summaries + [s])
  {
    forall k | |front| <= k < |all| ensures IsRowOfSome(account, summaries + [s], all[k]) {
      assert IsRowOfSome(account, summaries, all[k]);
      var x :| x in summaries && IsRowFor(account, x, all[k]);
      assert x in summaries + [s];
    }
    assert s in summaries + [s];
  }

  lemma {:induction false} KeptAdds(before: seq<Entry>, account: AccountId, summaries: seq<Summary>)
    ensures AddsRows(Kept(before), Kept(before + EntriesOf(account, summaries)), account, summaries)
    decreases summaries
  {
    if summaries == [] {
      assert before + EntriesOf(account, summaries) == before;
    } else {
      var n := |summaries| - 1;
      var front, e := summaries[..n], Entry(account, summaries[n]);
      KeptAdds(before, account, front);
      assert before + EntriesOf(account, summaries) == before + EntriesOf(account, front) + [e];
      KeptNext(before + EntriesOf(account, front), e);
      RowOfSpelledOut(e);
      AddsMore(Kept(before), Kept(before + EntriesOf(account, front)), account, front, summaries[n], RowOf(e));
      assert summaries == front + [summaries[n]];
    }
  }

  lemma KeptNext(done: seq<Entry>, e: Entry)
    ensures Kept(done + [e]) ==
      if IsGroupSummary(e.summary) && SeenGroup(done, e.summary.id) then Kept(done) else Kept(done) + [RowOf(e)]
  {
    assert (done + [e])[..|done|] == done;
  }

  lemma SeenNext(done: seq<Entry>, e: Entry, seen: set<ConversationId>)
    requires Tracks(seen, done)
    ensures Tracks(if IsGroupSummary(e.summary) then seen + {e.summary.id} else seen, done + [e])
  {
    if IsGroupSummary(e.summary) {
      assert e in done + [e];
    }
    forall id ensures SeenGroup(done + [e], id) <==>
        SeenGroup(done, id) || (IsGroupSummary(e.summary) && e.summary.id == id)
    {
    }
  }
}
