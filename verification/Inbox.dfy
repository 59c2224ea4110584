/** One load of the merged inbox: the rows every account's store reports, shared groups once, plus the
    rows that exist only in memory so far, newest first. */
module Inbox {
  import opened Wrappers

  type AccountId = string
  type ConversationId = string

  datatype Summary = Summary(id: ConversationId, groupTitle: Option<string>, date: Option<int>)

  datatype Row = Row(
    id: ConversationId,
    account: AccountId,
    isGroup: bool,
    recipient: Option<string>,
    date: Option<int>)

  /** What one account's store reported. */
  datatype Entry = Entry(account: AccountId, summary: Summary)

  // ---- Conversation ids ----

  function DmId(account: AccountId, recipient: string): ConversationId {
    "dm-" + account + "-" + recipient
  }

  function GroupId(group: string): ConversationId {
    "group-" + group
  }

  predicate HasGroupId(id: ConversationId) {
    "group-" <= id
  }

  predicate IsGroupSummary(s: Summary) {
    s.groupTitle.Some? || HasGroupId(s.id)
  }

  function RecipientOf(id: ConversationId, account: AccountId): Option<string> {
    var prefix := "dm-" + account + "-";
    if prefix <= id then Some(id[|prefix|..]) else None
  }

  /** No account id is another one continued after a dash, so a DM id tells its account. */
  ghost predicate Scoped(accounts: set<AccountId>) {
    forall a, b | a in accounts && b in accounts && a != b :: !(a + "-" <= b)
  }

  lemma SharedTextIsPrefix(a: AccountId, b: AccountId, x: string, y: string)
    requires a + "-" + x == b + "-" + y && |a| < |b|
    ensures a + "-" <= b
  {
    assert (a + "-" + x)[..|a| + 1] == a + "-";
    assert (b + "-" + y)[..|a| + 1] == b[..|a| + 1];
  }

  lemma DmIdTellsAccount(accounts: set<AccountId>, a: AccountId, b: AccountId, x: string, y: string)
    requires Scoped(accounts) && a in accounts && b in accounts
    ensures DmId(a, x) == DmId(b, y) <==> a == b && x == y
    ensures !HasGroupId(DmId(a, x))
  {
    var s, t := DmId(a, x), DmId(b, y);
    assert s[0] == 'd';
    if s == t {
      assert s[3..] == a + "-" + x && t[3..] == b + "-" + y;
      if |a| < |b| {
        SharedTextIsPrefix(a, b, x, y);
      } else if |b| < |a| {
        SharedTextIsPrefix(b, a, y, x);
      } else {
        assert (a + "-" + x)[..|a|] == a && (b + "-" + y)[..|b|] == b;
        assert (a + "-" + x)[|a| + 1..] == x && (b + "-" + y)[|b| + 1..] == y;
      }
    }
  }

  // ---- The rows of the stores ----

  function RowOf(e: Entry): Row {
    var isGroup := IsGroupSummary(e.summary);
    Row(e.summary.id, e.account, isGroup,
        if isGroup then None else RecipientOf(e.summary.id, e.account),
        e.summary.date)
  }

  function EntriesOf(account: AccountId, summaries: seq<Summary>): seq<Entry> {
    seq(|summaries|, i requires 0 <= i < |summaries| => Entry(account, summaries[i]))
  }

  /** In account order, each account's summaries in their own order. */
  function AllEntries(accounts: seq<AccountId>, loaded: seq<seq<Summary>>): seq<Entry>
    requires |loaded| == |accounts|
    decreases accounts
  {
    if accounts == [] then []
    else
      var n := |accounts| - 1;
      AllEntries(accounts[..n], loaded[..n]) + EntriesOf(accounts[n], loaded[n])
  }

  predicate SeenGroup(entries: seq<Entry>, id: ConversationId) {
    exists e :: e in entries && IsGroupSummary(e.summary) && e.summary.id == id
  }

  /** A group that an earlier entry already surfaced is dropped. */
  function Kept(entries: seq<Entry>): seq<Row>
    decreases entries
  {
    if entries == [] then []
    else
      var front, last := entries[..|entries| - 1], entries[|entries| - 1];
      if IsGroupSummary(last.summary) && SeenGroup(front, last.summary.id) then Kept(front)
      else Kept(front) + [RowOf(last)]
  }

  function Ids(rows: seq<Row>): set<ConversationId> {
    set r | r in rows :: r.id
  }

  predicate UniqueIds(rows: seq<Row>) {
    forall i, j | 0 <= i < j < |rows| :: rows[i].id != rows[j].id
  }

  /** Two entries share an id only if both are of one group. */
  predicate OnlyGroupsShared(entries: seq<Entry>) {
    forall i, j | 0 <= i < j < |entries| && entries[i].summary.id == entries[j].summary.id ::
      IsGroupSummary(entries[i].summary) && IsGroupSummary(entries[j].summary)
  }

  lemma {:induction false} KeptIds(entries: seq<Entry>)
    ensures forall r :: r in Kept(entries) ==> exists e :: e in entries && r == RowOf(e)
    ensures forall e :: e in entries ==> e.summary.id in Ids(Kept(entries))
    decreases entries
  {
    if entries != [] {
      var front, last := entries[..|entries| - 1], entries[|entries| - 1];
      KeptIds(front);
      assert entries == front + [last];
      assert RowOf(last).id == last.summary.id;
      assert Ids(Kept(front) + [RowOf(last)]) == Ids(Kept(front)) + {last.summary.id};
    }
  }

  lemma {:induction false} KeptUnique(entries: seq<Entry>)
    requires OnlyGroupsShared(entries)
    ensures UniqueIds(Kept(entries))
    decreases entries
  {
    if entries != [] {
      var front, last := entries[..|entries| - 1], entries[|entries| - 1];
      KeptUnique(front);
      KeptIds(front);
      forall r | r in Kept(front) && r.id == last.summary.id
        ensures IsGroupSummary(last.summary) && SeenGroup(front, last.summary.id)
      {
        var e :| e in front && r == RowOf(e);
        var i :| 0 <= i < |front| && front[i] == e;
        assert entries[i] == e;
      }
    }
  }

  /** The first account to surface a group owns its row. */
  lemma {:induction false} FirstAccountOwns(entries: seq<Entry>, i: nat)
    requires i < |entries| && IsGroupSummary(entries[i].summary)
    requires !SeenGroup(entries[..i], entries[i].summary.id)
    ensures exists r :: r in Kept(entries) && r.isGroup && r.id == entries[i].summary.id
                        && r.account == entries[i].account && r.date == entries[i].summary.date
    decreases entries
  {
    var n := |entries| - 1;
    if i < n {
      assert entries[..n][..i] == entries[..i];
      FirstAccountOwns(entries[..n], i);
      var r :| r in Kept(entries[..n]) && r.isGroup && r.id == entries[i].summary.id
               && r.account == entries[i].account && r.date == entries[i].summary.date;
      assert r in Kept(entries);
    } else {
      assert RowOf(entries[i]) in Kept(entries);
    }
  }

  // ---- The same, spelled out from the summaries ----

  /** The row of one summary of one account. */
  predicate IsRowFor(account: AccountId, s: Summary, r: Row) {
    var prefix := "dm-" + account + "-";
    && r.id == s.id && r.account == account && r.date == s.date
    && (r.isGroup <==> s.groupTitle.Some? || "group-" <= s.id)
    && r.recipient == if r.isGroup || !(prefix <= s.id) then None else Some(s.id[|prefix|..])
  }

  lemma RowOfSpelledOut(e: Entry)
    ensures IsRowFor(e.account, e.summary, RowOf(e))
  {
  }

  type Source = (nat, nat)

  predicate IsSource(loaded: seq<seq<Summary>>, p: Source) {
    p.0 < |loaded| && p.1 < |loaded[p.0]|
  }

  /** Earlier account, or earlier in the same account. */
  predicate Before(p: Source, q: Source) {
    p.0 < q.0 || (p.0 == q.0 && p.1 < q.1)
  }

  /** No earlier summary reports this one's group. */
  ghost predicate ReportsFirst(loaded: seq<seq<Summary>>, p: Source)
    requires IsSource(loaded, p)
  {
    forall q: Source | IsSource(loaded, q) && Before(q, p) && IsGroupSummary(loaded[q.0][q.1]) ::
      loaded[q.0][q.1].id != loaded[p.0][p.1].id
  }

  /** The rows of a load: one for each summary that is no group or the first to report its group, in the
      order of accounts and summaries. */
  ghost predicate AreRowsOf(all: seq<Row>, sources: seq<Source>, accounts: seq<AccountId>,
                            loaded: seq<seq<Summary>>)
    requires |loaded| == |accounts|
  {
    && |sources| == |all|
    && (forall k | 0 <= k < |all| ::
          IsSource(loaded, sources[k]) && IsRowFor(accounts[sources[k].0], loaded[sources[k].0][sources[k].1], all[k]))
    && (forall k, l | 0 <= k < l < |all| :: Before(sources[k], sources[l]))
    && (forall p: Source :: p in sources <==>
          IsSource(loaded, p) && (IsGroupSummary(loaded[p.0][p.1]) ==> ReportsFirst(loaded, p)))
  }

  /** Where the kept entries stand. */
  function KeptAt(entries: seq<Entry>): (at: seq<nat>)
    decreases entries
  {
    if entries == [] then []
    else
      var front, last := entries[..|entries| - 1], entries[|entries| - 1];
      if IsGroupSummary(last.summary) && SeenGroup(front, last.summary.id) then KeptAt(front)
      else KeptAt(front) + [|entries| - 1]
  }

  predicate IsKept(entries: seq<Entry>, p: nat)
    requires p < |entries|
  {
    IsGroupSummary(entries[p].summary) ==> !SeenGroup(entries[..p], entries[p].summary.id)
  }

  lemma {:induction false} KeptAtPlaces(entries: seq<Entry>)
    ensures var at := KeptAt(entries);
            && |at| == |Kept(entries)|
            && (forall k | 0 <= k < |at| :: at[k] < |entries| && Kept(entries)[k] == RowOf(entries[at[k]]))
            && (forall k, l | 0 <= k < l < |at| :: at[k] < at[l])
            && (forall p: nat :: p in at <==> p < |entries| && IsKept(entries, p))
    decreases entries
  {
    if entries != [] {
      var n := |entries| - 1;
      KeptAtPlaces(entries[..n]);
      forall p: nat | p < n ensures IsKept(entries, p) <==> IsKept(entries[..n], p) {
        assert entries[..n][..p] == entries[..p];
      }
    }
  }

  function Pairs(loaded: seq<seq<Summary>>): seq<Source>
    decreases loaded
  {
    if loaded == [] then []
    else
      var n := |loaded| - 1;
      Pairs(loaded[..n]) + seq(|loaded[n]|, j => (n, j))
  }

  lemma {:induction false} PairsPlace(accounts: seq<AccountId>, loaded: seq<seq<Summary>>)
    requires |loaded| == |accounts|
    ensures var pairs, entries := Pairs(loaded), AllEntries(accounts, loaded);
            && |pairs| == |entries|
            && (forall p | 0 <= p < |pairs| ::
                  && IsSource(loaded, pairs[p])
                  && entries[p] == Entry(accounts[pairs[p].0], loaded[pairs[p].0][pairs[p].1]))
            && (forall p, q | 0 <= p < q < |pairs| :: Before(pairs[p], pairs[q]))
            && (forall s: Source :: IsSource(loaded, s) ==> s in pairs)
    decreases loaded
  {
    if loaded != [] {
      var n := |loaded| - 1;
      PairsPlace(accounts[..n], loaded[..n]);
      forall s: Source | IsSource(loaded, s) ensures s in Pairs(loaded) {
        if s.0 < n {
          assert IsSource(loaded[..n], s);
        } else {
          assert seq(|loaded[n]|, j => (n, j))[s.1] == s;
        }
      }
    }
  }

  lemma SeenIsReported(accounts: seq<AccountId>, loaded: seq<seq<Summary>>, p: nat, q: nat)
    requires |loaded| == |accounts| && q < p < |AllEntries(accounts, loaded)|
    requires var entries := AllEntries(accounts, loaded);
             IsGroupSummary(entries[q].summary) && entries[q].summary.id == entries[p].summary.id
    ensures p < |Pairs(loaded)| && IsSource(loaded, Pairs(loaded)[p]) && !ReportsFirst(loaded, Pairs(loaded)[p])
  {
    PairsPlace(accounts, loaded);
    assert IsSource(loaded, Pairs(loaded)[q]) && Before(Pairs(loaded)[q], Pairs(loaded)[p]);
  }

  lemma ReportedIsSeen(accounts: seq<AccountId>, loaded: seq<seq<Summary>>, p: nat) returns (q: nat)
    requires |loaded| == |accounts| && p < |Pairs(loaded)|
    requires IsSource(loaded, Pairs(loaded)[p]) && !ReportsFirst(loaded, Pairs(loaded)[p])
    ensures var entries := AllEntries(accounts, loaded);
            q < p < |entries| && IsGroupSummary(entries[q].summary) && entries[q].summary.id == entries[p].summary.id
  {
    PairsPlace(accounts, loaded);
    var pairs := Pairs(loaded);
    var s: Source :| IsSource(loaded, s) && Before(s, pairs[p]) && IsGroupSummary(loaded[s.0][s.1])
                     && loaded[s.0][s.1].id == loaded[pairs[p].0][pairs[p].1].id;
    q :| 0 <= q < |pairs| && pairs[q] == s;
  }

  lemma FirstMeansUnseen(accounts: seq<AccountId>, loaded: seq<seq<Summary>>, p: nat)
    requires |loaded| == |accounts| && p < |AllEntries(accounts, loaded)|
    requires p < |Pairs(loaded)| && IsSource(loaded, Pairs(loaded)[p])
    ensures SeenGroup(AllEntries(accounts, loaded)[..p], AllEntries(accounts, loaded)[p].summary.id)
       <==> !ReportsFirst(loaded, Pairs(loaded)[p])
  {
    var entries := AllEntries(accounts, loaded);
    if SeenGroup(entries[..p], entries[p].summary.id) {
      var e :| e in entries[..p] && IsGroupSummary(e.summary) && e.summary.id == entries[p].summary.id;
      var q :| 0 <= q < p && entries[q] == e;
      SeenIsReported(accounts, loaded, p, q);
    }
    if !ReportsFirst(loaded, Pairs(loaded)[p]) {
      var q := ReportedIsSeen(accounts, loaded, p);
      assert entries[q] in entries[..p];
    }
  }

  /** An entry is kept exactly when its summary is no group or reports its group first. */
  lemma KeptSource(accounts: seq<AccountId>, loaded: seq<seq<Summary>>, s: Source)
    requires |loaded| == |accounts|
    ensures var entries, pairs := AllEntries(accounts, loaded), Pairs(loaded);
            && |pairs| == |entries|
            && ((exists p: nat :: p < |pairs| && pairs[p] == s && IsKept(entries, p)) <==>
                  IsSource(loaded, s) && (IsGroupSummary(loaded[s.0][s.1]) ==> ReportsFirst(loaded, s)))
  {
    PairsPlace(accounts, loaded);
    var pairs := Pairs(loaded);
    if IsSource(loaded, s) {
      var p :| 0 <= p < |pairs| && pairs[p] == s;
      FirstMeansUnseen(accounts, loaded, p);
      assert forall q: nat | q < |pairs| && pairs[q] == s :: q == p;
    }
  }

  /** What deduplication keeps, in terms of the summaries alone. */
  lemma KeptRows(accounts: seq<AccountId>, loaded: seq<seq<Summary>>) returns (sources: seq<Source>)
    requires |loaded| == |accounts|
    ensures AreRowsOf(Kept(AllEntries(accounts, loaded)), sources, accounts, loaded)
  {
    var pairs, entries := Pairs(loaded), AllEntries(accounts, loaded);
    var at := KeptAt(entries);
    PairsPlace(accounts, loaded);
    KeptAtPlaces(entries);
    sources := seq(|at|, k requires 0 <= k < |at| => pairs[at[k]]);
    forall k | 0 <= k < |at|
      ensures IsRowFor(accounts[sources[k].0], loaded[sources[k].0][sources[k].1], Kept(entries)[k])
    {
      RowOfSpelledOut(entries[at[k]]);
    }
    forall s: Source
      ensures s in sources <==> IsSource(loaded, s) && (IsGroupSummary(loaded[s.0][s.1]) ==> ReportsFirst(loaded, s))
    {
      KeptSource(accounts, loaded, s);
      Picked(pairs, at, sources, s);
    }
  }

  lemma Picked(pairs: seq<Source>, at: seq<nat>, sources: seq<Source>, s: Source)
    requires |sources| == |at| && forall k | 0 <= k < |at| :: at[k] < |pairs| && sources[k] == pairs[at[k]]
    ensures s in sources <==> exists p: nat :: p in at && p < |pairs| && pairs[p] == s
  {
    if s in sources {
      var k :| 0 <= k < |sources| && sources[k] == s;
      assert at[k] in at;
    }
    if p: nat :| p in at && p < |pairs| && pairs[p] == s {
      var k :| 0 <= k < |at| && at[k] == p;
      assert sources[k] == s;
    }
  }

  // ---- What the stores promise ----

  /** A store's ids are distinct, and a DM's id carries the account it is stored for. */
  predicate GoodSummaries(account: AccountId, summaries: seq<Summary>) {
    && (forall i, j | 0 <= i < j < |summaries| :: summaries[i].id != summaries[j].id)
    && (forall s | s in summaries :: HasGroupId(s.id) || (s.groupTitle.None? && RecipientOf(s.id, account).Some?))
  }

  predicate GoodLoad(accounts: seq<AccountId>, loaded: seq<seq<Summary>>) {
    && |loaded| == |accounts|
    && (forall i, j | 0 <= i < j < |accounts| :: accounts[i] != accounts[j])
    && (forall i | 0 <= i < |accounts| :: GoodSummaries(accounts[i], loaded[i]))
  }

  predicate GoodRow(accounts: set<AccountId>, r: Row) {
    if r.isGroup then HasGroupId(r.id)
    else r.account in accounts && r.recipient.Some? && r.id == DmId(r.account, r.recipient.value)
  }

  predicate GoodEntry(accounts: set<AccountId>, e: Entry) {
    && e.account in accounts
    && (HasGroupId(e.summary.id) || (e.summary.groupTitle.None? && RecipientOf(e.summary.id, e.account).Some?))
  }

  lemma GoodEntryRow(accounts: set<AccountId>, e: Entry)
    requires GoodEntry(accounts, e)
    ensures GoodRow(accounts, RowOf(e))
  {
    if !HasGroupId(e.summary.id) {
      var prefix := "dm-" + e.account + "-";
      assert e.summary.id == prefix + e.summary.id[|prefix|..];
    }
  }

  lemma {:induction false} EntriesAreGood(all: set<AccountId>, accounts: seq<AccountId>, loaded: seq<seq<Summary>>)
    requires Scoped(all) && (forall a | a in accounts :: a in all) && GoodLoad(accounts, loaded)
    ensures forall e | e in AllEntries(accounts, loaded) :: GoodEntry(all, e) && e.account in accounts
    ensures OnlyGroupsShared(AllEntries(accounts, loaded))
    decreases accounts
  {
    if accounts != [] {
      var n := |accounts| - 1;
      var front, last := AllEntries(accounts[..n], loaded[..n]), EntriesOf(accounts[n], loaded[n]);
      EntriesAreGood(all, accounts[..n], loaded[..n]);
      assert forall e | e in last :: e.summary in loaded[n];
      forall i, j | 0 <= i < |front| && 0 <= j < |last| && front[i].summary.id == last[j].summary.id
        ensures IsGroupSummary(front[i].summary) && IsGroupSummary(last[j].summary)
      {
        SharedIdIsGroup(all, front[i], last[j]);
      }
    }
  }

  lemma SharedIdIsGroup(all: set<AccountId>, e: Entry, f: Entry)
    requires Scoped(all) && GoodEntry(all, e) && GoodEntry(all, f)
    requires e.account != f.account && e.summary.id == f.summary.id
    ensures IsGroupSummary(e.summary) && IsGroupSummary(f.summary)
  {
    if !HasGroupId(e.summary.id) {
      GoodEntryRow(all, e);
      GoodEntryRow(all, f);
      DmIdTellsAccount(all, e.account, f.account, RowOf(e).recipient.value, RowOf(f).recipient.value);
    }
  }

  // ---- Newest first, stably ----

  function DateOf(r: Row): int {
    if r.date.Some? then r.date.value else 0
  }

  /** After every row at least as new. */
  function Insert(rows: seq<Row>, r: Row): seq<Row>
    decreases rows
  {
    if rows == [] || DateOf(rows[|rows| - 1]) >= DateOf(r) then rows + [r]
    else Insert(rows[..|rows| - 1], r) + [rows[|rows| - 1]]
  }

  /** Array.sort by descending date, which is stable. */
  function SortByDate(rows: seq<Row>): seq<Row>
    decreases rows
  {
    if rows == [] then [] else Insert(SortByDate(rows[..|rows| - 1]), rows[|rows| - 1])
  }

  predicate NewestFirst(rows: seq<Row>) {
    forall i, j | 0 <= i < j < |rows| :: DateOf(rows[i]) >= DateOf(rows[j])
  }

  function DatedAt(rows: seq<Row>, d: int): seq<Row>
    decreases rows
  {
    if rows == [] then []
    else DatedAt(rows[..|rows| - 1], d) + if DateOf(rows[|rows| - 1]) == d then [rows[|rows| - 1]] else []
  }

  lemma {:induction false} InsertAdds(rows: seq<Row>, r: Row)
    ensures multiset(Insert(rows, r)) == multiset(rows) + multiset{r}
    decreases rows
  {
    if rows != [] {
      InsertAdds(rows[..|rows| - 1], r);
      assert rows == rows[..|rows| - 1] + [rows[|rows| - 1]];
    }
  }

  lemma {:induction false} InsertSorts(rows: seq<Row>, r: Row)
    requires NewestFirst(rows)
    ensures NewestFirst(Insert(rows, r))
    decreases rows
  {
    if rows != [] && DateOf(rows[|rows| - 1]) < DateOf(r) {
      var front, last := rows[..|rows| - 1], rows[|rows| - 1];
      InsertSorts(front, r);
      InsertAdds(front, r);
      forall i | 0 <= i < |Insert(front, r)| ensures DateOf(Insert(front, r)[i]) >= DateOf(last) {
        assert Insert(front, r)[i] in multiset(Insert(front, r));
      }
    }
  }

  lemma {:induction false} InsertIsStable(rows: seq<Row>, r: Row, d: int)
    ensures DatedAt(Insert(rows, r), d) == DatedAt(rows, d) + if DateOf(r) == d then [r] else []
    decreases rows
  {
    if rows == [] || DateOf(rows[|rows| - 1]) >= DateOf(r) {
      assert (rows + [r])[..|rows|] == rows;
    } else {
      var inserted := Insert(rows[..|rows| - 1], r);
      InsertIsStable(rows[..|rows| - 1], r, d);
      assert (inserted + [rows[|rows| - 1]])[..|inserted|] == inserted;
    }
  }

  lemma {:induction false} SortSorts(rows: seq<Row>)
    ensures multiset(SortByDate(rows)) == multiset(rows)
    ensures NewestFirst(SortByDate(rows))
    decreases rows
  {
    if rows != [] {
      SortSorts(rows[..|rows| - 1]);
      InsertAdds(SortByDate(rows[..|rows| - 1]), rows[|rows| - 1]);
      InsertSorts(SortByDate(rows[..|rows| - 1]), rows[|rows| - 1]);
      assert rows == rows[..|rows| - 1] + [rows[|rows| - 1]];
    }
  }

  lemma {:induction false} SortIsStable(rows: seq<Row>, d: int)
    ensures DatedAt(SortByDate(rows), d) == DatedAt(rows, d)
    decreases rows
  {
    if rows != [] {
      SortIsStable(rows[..|rows| - 1], d);
      InsertIsStable(SortByDate(rows[..|rows| - 1]), rows[|rows| - 1], d);
    }
  }

  /** The same rows, later dates first with no date counting as zero, rows of one date in their order. */
  ghost predicate IsSorted(rows: seq<Row>, sorted: seq<Row>) {
    && multiset(sorted) == multiset(rows)
    && (forall i, j | 0 <= i < j < |sorted| ::
          (match sorted[i].date case Some(d) => d case None => 0)
          >= (match sorted[j].date case Some(d) => d case None => 0))
    && (forall d :: DatedAt(sorted, d) == DatedAt(rows, d))
  }

  lemma SortedSpelledOut(rows: seq<Row>)
    ensures IsSorted(rows, SortByDate(rows))
  {
    SortSorts(rows);
    forall d ensures DatedAt(SortByDate(rows), d) == DatedAt(rows, d) {
      SortIsStable(rows, d);
    }
    forall i | 0 <= i < |SortByDate(rows)|
      ensures DateOf(SortByDate(rows)[i]) == match SortByDate(rows)[i].date case Some(d) => d case None => 0
    {
    }
  }

  lemma SortKeepsUnique(rows: seq<Row>)
    requires UniqueIds(rows)
    ensures UniqueIds(SortByDate(rows)) && Ids(SortByDate(rows)) == Ids(rows)
    ensures forall r :: r in SortByDate(rows) <==> r in rows
  {
    SortSorts(rows);
    assert forall r :: r in SortByDate(rows) <==> r in multiset(SortByDate(rows));
    assert forall r :: r in rows <==> r in multiset(rows);
    UniqueMultiset(rows, SortByDate(rows));
  }

  lemma UniqueMultiset(a: seq<Row>, b: seq<Row>)
    requires UniqueIds(a) && multiset(a) == multiset(b)
    ensures UniqueIds(b)
  {
    forall i, j | 0 <= i < j < |b| ensures b[i].id != b[j].id {
      if b[i].id == b[j].id {
        assert b[i] in multiset(b) && b[j] in multiset(b);
        var x :| 0 <= x < |a| && a[x] == b[i];
        var y :| 0 <= y < |a| && a[y] == b[j];
        assert x == y;
        TwiceInSeq(b, i, j);
        OnceInSeq(a, x);
      }
    }
  }

  lemma TwiceInSeq(s: seq<Row>, i: nat, j: nat)
    requires i < j < |s| && s[i] == s[j]
    ensures multiset(s)[s[i]] >= 2
  {
    assert s == s[..j] + s[j..];
    assert s[i] in s[..j] && s[i] in s[j..];
    assert multiset(s) == multiset(s[..j]) + multiset(s[j..]);
    assert multiset(s[..j])[s[i]] >= 1 && multiset(s[j..])[s[i]] >= 1;
  }

  lemma OnceInSeq(s: seq<Row>, i: nat)
    requires i < |s| && UniqueIds(s)
    ensures multiset(s)[s[i]] == 1
  {
    assert s == s[..i] + [s[i]] + s[i + 1..];
    assert s[i] !in s[..i] && s[i] !in s[i + 1..];
  }

  // ---- The merge ----

  function Preserved(rows: seq<Row>, dbIds: set<ConversationId>, pending: set<ConversationId>): seq<Row>
    decreases rows
  {
    if rows == [] then []
    else
      var last := rows[|rows| - 1];
      Preserved(rows[..|rows| - 1], dbIds, pending)
      + if last.id !in dbIds && last.id in pending then [last] else []
  }

  function Merge(entries: seq<Entry>, rows: seq<Row>, pending: set<ConversationId>): seq<Row> {
    var all := Kept(entries);
    SortByDate(all + Preserved(rows, Ids(all), pending - Ids(all)))
  }

  lemma {:induction false} PreservedRows(rows: seq<Row>, dbIds: set<ConversationId>, pending: set<ConversationId>)
    ensures forall r :: r in Preserved(rows, dbIds, pending) <==> r in rows && r.id !in dbIds && r.id in pending
    ensures UniqueIds(rows) ==> UniqueIds(Preserved(rows, dbIds, pending))
    decreases rows
  {
    if rows != [] {
      var front, last := rows[..|rows| - 1], rows[|rows| - 1];
      PreservedRows(front, dbIds, pending);
      assert rows == front + [last];
    }
  }

  /** Where the rows stand that are neither reported nor given up, in their order. */
  ghost predicate AreHeld(held: seq<nat>, rows: seq<Row>, dbIds: set<ConversationId>, pending: set<ConversationId>) {
    && (forall h | 0 <= h < |held| :: held[h] < |rows|)
    && (forall h, i | 0 <= h < i < |held| :: held[h] < held[i])
    && (forall p: nat :: p in held <==> p < |rows| && rows[p].id in pending && rows[p].id !in dbIds)
  }

  lemma HeldNext(held: seq<nat>, rows: seq<Row>, r: Row, dbIds: set<ConversationId>, pending: set<ConversationId>)
    requires AreHeld(held, rows, dbIds, pending)
    ensures AreHeld(if r.id in pending && r.id !in dbIds then held + [|rows|] else held, rows + [r], dbIds, pending)
  {
    var longer := held + [|rows|];
    assert forall p: nat :: p in longer <==> p in held || p == |rows|;
  }

  function HeldAt(rows: seq<Row>, dbIds: set<ConversationId>, pending: set<ConversationId>): seq<nat>
    decreases rows
  {
    if rows == [] then []
    else
      var front, n := HeldAt(rows[..|rows| - 1], dbIds, pending), |rows| - 1;
      if rows[n].id in pending && rows[n].id !in dbIds then front + [n] else front
  }

  lemma {:induction false} HeldAtPlaces(rows: seq<Row>, dbIds: set<ConversationId>, pending: set<ConversationId>)
    ensures AreHeld(HeldAt(rows, dbIds, pending), rows, dbIds, pending)
    decreases rows
  {
    if rows != [] {
      var front, last := rows[..|rows| - 1], rows[|rows| - 1];
      HeldAtPlaces(front, dbIds, pending);
      HeldNext(HeldAt(front, dbIds, pending), front, last, dbIds, pending);
      assert rows == front + [last];
    }
  }

  lemma {:induction false} PreservedPlaces(rows: seq<Row>, dbIds: set<ConversationId>, pending: set<ConversationId>)
    ensures |HeldAt(rows, dbIds, pending)| == |Preserved(rows, dbIds, pending)|
    ensures forall h | 0 <= h < |HeldAt(rows, dbIds, pending)| ::
              var p := HeldAt(rows, dbIds, pending)[h];
              p < |rows| && Preserved(rows, dbIds, pending)[h] == rows[p]
    decreases rows
  {
    if rows != [] {
      PreservedPlaces(rows[..|rows| - 1], dbIds, pending);
    }
  }

  lemma MergeSpelledOut(all: seq<Row>, rows: seq<Row>, pending: set<ConversationId>)
    returns (inMemory: seq<Row>, held: seq<nat>)
    ensures inMemory == Preserved(rows, Ids(all), pending - Ids(all))
    ensures IsSorted(all + inMemory, SortByDate(all + inMemory))
    ensures AreHeld(held, rows, Ids(all), pending)
    ensures |inMemory| == |held| && forall h | 0 <= h < |held| :: inMemory[h] == rows[held[h]]
  {
    inMemory := Preserved(rows, Ids(all), pending - Ids(all));
    held := HeldAt(rows, Ids(all), pending - Ids(all));
    HeldAtPlaces(rows, Ids(all), pending - Ids(all));
    PreservedPlaces(rows, Ids(all), pending - Ids(all));
    SortedSpelledOut(all + inMemory);
  }

  /** A completed load keeps every row that is still pending as it is, drops every other row the stores
      do not report, takes the rest from the stores, and leaves no id twice. */
  lemma MergeIsExact(all: set<AccountId>, accounts: seq<AccountId>, loaded: seq<seq<Summary>>,
                     rows: seq<Row>, pending: set<ConversationId>)
    requires Scoped(all) && (forall a | a in accounts :: a in all) && GoodLoad(accounts, loaded)
    requires UniqueIds(rows) && forall r | r in rows :: GoodRow(all, r)
    ensures var entries := AllEntries(accounts, loaded);
            var merged := Merge(entries, rows, pending);
            var dbIds := set e | e in entries :: e.summary.id;
            && UniqueIds(merged) && NewestFirst(merged)
            && (forall r :: r in merged <==>
                  r in Kept(entries) || (r in rows && r.id !in dbIds && r.id in pending))
            && Ids(Kept(entries)) == dbIds
            && (forall r | r in merged :: GoodRow(all, r))
  {
    var entries := AllEntries(accounts, loaded);
    var db := Kept(entries);
    var dbIds := set e | e in entries :: e.summary.id;
    EntriesAreGood(all, accounts, loaded);
    KeptIds(entries);
    assert Ids(db) == dbIds;
    KeptUnique(entries);
    KeptAreGood(all, entries);
    MergeOfParts(db, rows, pending);
  }

  lemma KeptAreGood(all: set<AccountId>, entries: seq<Entry>)
    requires forall e | e in entries :: GoodEntry(all, e)
    ensures forall r | r in Kept(entries) :: GoodRow(all, r)
  {
    KeptIds(entries);
    forall r | r in Kept(entries) ensures GoodRow(all, r) {
      var e :| e in entries && r == RowOf(e);
      GoodEntryRow(all, e);
    }
  }

  lemma MergeOfParts(db: seq<Row>, rows: seq<Row>, pending: set<ConversationId>)
    requires UniqueIds(db) && UniqueIds(rows)
    ensures var merged := SortByDate(db + Preserved(rows, Ids(db), pending - Ids(db)));
            && UniqueIds(merged) && NewestFirst(merged)
            && (forall r :: r in merged <==> r in db || (r in rows && r.id !in Ids(db) && r.id in pending))
  {
    var kept := Preserved(rows, Ids(db), pending - Ids(db));
    PreservedRows(rows, Ids(db), pending - Ids(db));
    assert UniqueIds(db + kept) by {
      forall i, j | 0 <= i < |db| && 0 <= j < |kept| ensures db[i].id != kept[j].id {
        assert db[i].id in Ids(db) && kept[j] in kept;
      }
    }
    SortKeepsUnique(db + kept);
    SortSorts(db + kept);
  }

  lemma MergedIds(all: set<AccountId>, accounts: seq<AccountId>, loaded: seq<seq<Summary>>,
                  rows: seq<Row>, pending: set<ConversationId>)
    requires Scoped(all) && (forall a | a in accounts :: a in all) && GoodLoad(accounts, loaded)
    requires UniqueIds(rows) && forall r | r in rows :: GoodRow(all, r)
    ensures var entries := AllEntries(accounts, loaded);
            Ids(Merge(entries, rows, pending)) ==
              (set e | e in entries :: e.summary.id) + (set r | r in rows && r.id in pending :: r.id)
  {
    MergeIsExact(all, accounts, loaded, rows, pending);
    var entries := AllEntries(accounts, loaded);
    var merged := Merge(entries, rows, pending);
    var dbIds := set e | e in entries :: e.summary.id;
    forall id | id in dbIds ensures id in Ids(merged) {
      var r :| r in Kept(entries) && r.id == id;
      assert r in merged;
    }
    forall r | r in rows && r.id in pending ensures r.id in Ids(merged) {
      if r.id !in dbIds {
        assert r in merged;
      }
    }
    forall r | r in merged ensures r.id in dbIds || (r in rows && r.id in pending) {
      if r in Kept(entries) {
        assert r.id in Ids(Kept(entries));
      }
    }
  }
}
