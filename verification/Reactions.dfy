/** Reactions as the desktop keeps them, an array per conversation, against what they are: a map from
    (message author, message time, reactor) to an emoji; and the clusters shown under a message. */
module Reactions {
  import opened Wrappers
  import opened FirstSeenOrder

  type ConversationId = string
  type Did = string

  datatype Key = Key(author: Did, sentAt: int, reactor: Did)

  datatype Reaction = Reaction(key: Key, emoji: string, reactedAt: int)

  type Emojis = map<Key, string>

  // ---- The array as a map ----

  function View(list: seq<Reaction>): Emojis
    decreases list
  {
    if list == [] then map[]
    else View(list[..|list| - 1])[list[|list| - 1].key := list[|list| - 1].emoji]
  }

  predicate UniqueKeys(list: seq<Reaction>) {
    forall i, j | 0 <= i < j < |list| :: list[i].key != list[j].key
  }

  /** What the array filters look for: one reactor's entry on a message, or the whole message. */
  datatype Selector = OneKey(key: Key) | OnMessage(author: Did, sentAt: int) {
    predicate Selects(k: Key) {
      match this
      case OneKey(key) => k == key
      case OnMessage(author, sentAt) => k.author == author && k.sentAt == sentAt
    }
  }

  /** Array.filter, for the entries that are selected or for those that are not. */
  function Filter(list: seq<Reaction>, s: Selector, selected: bool): seq<Reaction>
    decreases list
  {
    if list == [] then []
    else
      var front := Filter(list[..|list| - 1], s, selected);
      var last := list[|list| - 1];
      if s.Selects(last.key) == selected then front + [last] else front
  }

  lemma {:induction false} FilterMembers(list: seq<Reaction>, s: Selector, selected: bool)
    ensures forall r :: r in Filter(list, s, selected) <==> r in list && s.Selects(r.key) == selected
    decreases list
  {
    if list != [] {
      FilterMembers(list[..|list| - 1], s, selected);
      assert list == list[..|list| - 1] + [list[|list| - 1]];
    }
  }

  /** What is kept stays in its order. */
  lemma {:induction false} FilterKeepsOrder(list: seq<Reaction>, s: Selector, selected: bool) returns (at: seq<nat>)
    ensures |at| == |Filter(list, s, selected)|
    ensures forall k | 0 <= k < |at| :: at[k] < |list| && Filter(list, s, selected)[k] == list[at[k]]
    ensures forall k, l | 0 <= k < l < |at| :: at[k] < at[l]
    decreases list
  {
    if list == [] {
      at := [];
    } else {
      at := FilterKeepsOrder(list[..|list| - 1], s, selected);
      if s.Selects(list[|list| - 1].key) == selected {
        at := at + [|list| - 1];
      }
    }
  }

  function FilterMap(m: Emojis, s: Selector, selected: bool): Emojis {
    map k | k in m && s.Selects(k) == selected :: m[k]
  }

  function WithReaction(list: seq<Reaction>, r: Reaction): seq<Reaction> {
    Filter(list, OneKey(r.key), false) + [r]
  }

  lemma {:induction false} ViewKeys(list: seq<Reaction>, key: Key)
    ensures key in View(list) <==> exists r :: r in list && r.key == key
    decreases list
  {
    if list != [] {
      ViewKeys(list[..|list| - 1], key);
      assert list == list[..|list| - 1] + [list[|list| - 1]];
      if key in View(list) && list[|list| - 1].key == key {
        assert list[|list| - 1] in list;
      }
    }
  }

  lemma UniqueFront(list: seq<Reaction>)
    requires list != [] && UniqueKeys(list)
    ensures UniqueKeys(list[..|list| - 1]) && list[|list| - 1].key !in View(list[..|list| - 1])
  {
    ViewKeys(list[..|list| - 1], list[|list| - 1].key);
  }

  lemma AppendView(list: seq<Reaction>, r: Reaction)
    requires UniqueKeys(list) && r.key !in View(list)
    ensures UniqueKeys(list + [r]) && View(list + [r]) == View(list)[r.key := r.emoji]
  {
    assert (list + [r])[..|list|] == list;
    ViewKeys(list, r.key);
    assert forall i | 0 <= i < |list| :: list[i] in list;
  }

  lemma FilterMapInsert(m: Emojis, key: Key, emoji: string, s: Selector, selected: bool)
    requires key !in m
    ensures FilterMap(m[key := emoji], s, selected)
         == if s.Selects(key) == selected then FilterMap(m, s, selected)[key := emoji] else FilterMap(m, s, selected)
  {
  }

  /** Filtering an array whose keys are unique filters the map. */
  lemma {:induction false} FilterView(list: seq<Reaction>, s: Selector, selected: bool)
    requires UniqueKeys(list)
    ensures UniqueKeys(Filter(list, s, selected))
    ensures View(Filter(list, s, selected)) == FilterMap(View(list), s, selected)
    decreases list
  {
    if list != [] {
      var front, last := list[..|list| - 1], list[|list| - 1];
      UniqueFront(list);
      FilterView(front, s, selected);
      FilterMapInsert(View(front), last.key, last.emoji, s, selected);
      if s.Selects(last.key) == selected {
        AppendView(Filter(front, s, selected), last);
      }
    }
  }

  lemma WithReactionView(list: seq<Reaction>, r: Reaction)
    requires UniqueKeys(list)
    ensures UniqueKeys(WithReaction(list, r)) && View(WithReaction(list, r)) == View(list)[r.key := r.emoji]
  {
    FilterView(list, OneKey(r.key), false);
    AppendView(Filter(list, OneKey(r.key), false), r);
  }

  lemma WithoutKeyView(list: seq<Reaction>, key: Key)
    requires UniqueKeys(list)
    ensures UniqueKeys(Filter(list, OneKey(key), false))
    ensures View(Filter(list, OneKey(key), false)) == View(list) - {key}
  {
    FilterView(list, OneKey(key), false);
  }

  // ---- The store and its three operations ----

  datatype Operation =
    | Inbound(conv: ConversationId, key: Key, emoji: string, removed: bool, at: int)
    | Toggle(conv: ConversationId, key: Key, emoji: string, at: int)
    | Clear(conv: ConversationId, author: Did, sentAt: int)

  type Store = map<ConversationId, seq<Reaction>>

  function ListOf(store: Store, conv: ConversationId): seq<Reaction> {
    if conv in store then store[conv] else []
  }

  /** Array.find by key. */
  function Find(list: seq<Reaction>, key: Key): Option<Reaction>
    decreases list
  {
    if list == [] then None
    else if list[0].key == key then Some(list[0])
    else Find(list[1..], key)
  }

  lemma {:induction false} FindIsFirst(list: seq<Reaction>, key: Key)
    ensures Find(list, key).Some? ==> Find(list, key).value in list && Find(list, key).value.key == key
    ensures Find(list, key).None? ==> forall r | r in list :: r.key != key
    decreases list
  {
    if list != [] {
      FindIsFirst(list[1..], key);
      assert list == [list[0]] + list[1..];
    }
  }

  predicate TogglesOff(list: seq<Reaction>, key: Key, emoji: string) {
    Find(list, key).Some? && Find(list, key).value.emoji == emoji
  }

  function ApplyToList(list: seq<Reaction>, op: Operation): seq<Reaction> {
    match op
    case Inbound(_, key, emoji, removed, at) =>
      if removed then Filter(list, OneKey(key), false) else WithReaction(list, Reaction(key, emoji, at))
    case Toggle(_, key, emoji, at) =>
      if TogglesOff(list, key, emoji) then Filter(list, OneKey(key), false)
      else WithReaction(list, Reaction(key, emoji, at))
    case Clear(_, author, sentAt) => Filter(list, OnMessage(author, sentAt), false)
  }

  /** Clearing a conversation that has no entry leaves it without one. */
  function Apply(store: Store, op: Operation): Store {
    if op.Clear? && op.conv !in store then store
    else store[op.conv := ApplyToList(ListOf(store, op.conv), op)]
  }

  /** The same operation on the map of one conversation. */
  function ApplyToMap(m: Emojis, conv: ConversationId, op: Operation): Emojis {
    if op.conv != conv then m
    else match op
      case Inbound(_, key, emoji, removed, _) => if removed then m - {key} else m[key := emoji]
      case Toggle(_, key, emoji, _) => if key in m && m[key] == emoji then m - {key} else m[key := emoji]
      case Clear(_, author, sentAt) => FilterMap(m, OnMessage(author, sentAt), false)
  }

  function ApplyAll(store: Store, ops: seq<Operation>): Store
    decreases ops
  {
    if ops == [] then store else ApplyAll(Apply(store, ops[0]), ops[1..])
  }

  function ApplyAllToMap(m: Emojis, conv: ConversationId, ops: seq<Operation>): Emojis
    decreases ops
  {
    if ops == [] then m else ApplyAllToMap(ApplyToMap(m, conv, ops[0]), conv, ops[1..])
  }

  ghost predicate AllUnique(store: Store) {
    forall conv | conv in store :: UniqueKeys(store[conv])
  }

  lemma {:induction false} FindIsLookup(list: seq<Reaction>, key: Key)
    requires UniqueKeys(list)
    ensures Find(list, key).Some? <==> key in View(list)
    ensures Find(list, key).Some? ==> Find(list, key).value.emoji == View(list)[key]
    decreases list
  {
    if list != [] {
      FindIsLookup(list[1..], key);
      ViewFromFront(list);
      ViewKeys(list[1..], list[0].key);
    }
  }

  /** Unique keys, so the map can be built from either end. */
  lemma {:induction false} ViewFromFront(list: seq<Reaction>)
    requires list != [] && UniqueKeys(list)
    ensures View(list) == View(list[1..])[list[0].key := list[0].emoji]
    decreases list
  {
    var front := list[..|list| - 1];
    if front != [] {
      ViewFromFront(front);
      assert list[1..][..|list| - 2] == front[1..];
      assert list[0].key != list[|list| - 1].key;
    } else {
      assert list[1..] == [];
    }
  }

  lemma ListRefines(list: seq<Reaction>, op: Operation)
    requires UniqueKeys(list)
    ensures UniqueKeys(ApplyToList(list, op))
    ensures View(ApplyToList(list, op)) == ApplyToMap(View(list), op.conv, op)
  {
    match op
    case Inbound(_, key, emoji, removed, at) =>
      WithoutKeyView(list, key);
      WithReactionView(list, Reaction(key, emoji, at));
    case Toggle(_, key, emoji, at) =>
      FindIsLookup(list, key);
      WithoutKeyView(list, key);
      WithReactionView(list, Reaction(key, emoji, at));
    case Clear(_, author, sentAt) =>
      FilterView(list, OnMessage(author, sentAt), false);
  }

  /** One operation on the arrays is that operation on the map, in every conversation. */
  lemma ApplyRefines(store: Store, op: Operation, conv: ConversationId)
    requires AllUnique(store)
    ensures AllUnique(Apply(store, op))
    ensures View(ListOf(Apply(store, op), conv)) == ApplyToMap(View(ListOf(store, conv)), conv, op)
  {
    ListRefines(ListOf(store, op.conv), op);
    if op.Clear? && op.conv !in store {
      ListRefines([], op);
    }
  }

  /** Over any sequence of inbound reactions, toggles and clears, the arrays are the maps. */
  lemma {:induction false} ReactionsRefineMaps(store: Store, ops: seq<Operation>, conv: ConversationId)
    requires AllUnique(store)
    ensures AllUnique(ApplyAll(store, ops))
    ensures View(ListOf(ApplyAll(store, ops), conv)) == ApplyAllToMap(View(ListOf(store, conv)), conv, ops)
    decreases ops
  {
    if ops != [] {
      ApplyRefines(store, ops[0], conv);
      ReactionsRefineMaps(Apply(store, ops[0]), ops[1..], conv);
    }
  }

  /** Toggling an emoji twice undoes itself exactly when I had no other emoji on the message before. */
  lemma ToggleTwice(m: Emojis, conv: ConversationId, key: Key, emoji: string, at: int, at': int)
    ensures ApplyToMap(ApplyToMap(m, conv, Toggle(conv, key, emoji, at)), conv, Toggle(conv, key, emoji, at')) == m
            <==> key !in m || m[key] == emoji
  {
    var twice := ApplyToMap(ApplyToMap(m, conv, Toggle(conv, key, emoji, at)), conv, Toggle(conv, key, emoji, at'));
    assert key in m && m[key] != emoji ==> key !in twice;
    assert key !in m ==> m[key := emoji] - {key} == m;
    assert key in m && m[key] == emoji ==> (m - {key})[key := emoji] == m;
  }

  // ---- Clusters ----

  datatype Cluster = Cluster(emoji: string, count: nat, mine: bool)

  function EmojisOf(list: seq<Reaction>): seq<string> {
    seq(|list|, i requires 0 <= i < |list| => list[i].emoji)
  }

  function Count(list: seq<Reaction>, emoji: string): nat
    decreases list
  {
    if list == [] then 0
    else Count(list[..|list| - 1], emoji) + if list[|list| - 1].emoji == emoji then 1 else 0
  }

  predicate Mine(list: seq<Reaction>, emoji: string, me: Did) {
    exists r :: r in list && r.emoji == emoji && r.key.reactor == me
  }

  /** One cluster per emoji, in the order the emojis first appear. */
  function ClustersOf(list: seq<Reaction>, me: Did): seq<Cluster> {
    var order := FirstSeen(EmojisOf(list));
    seq(|order|, i requires 0 <= i < |order| =>
      Cluster(order[i], Count(list, order[i]), Mine(list, order[i], me)))
  }

  function Total(order: seq<string>, list: seq<Reaction>): nat
    decreases order
  {
    if order == [] then 0 else Total(order[..|order| - 1], list) + Count(list, order[|order| - 1])
  }

  lemma CountAppend(list: seq<Reaction>, r: Reaction, emoji: string)
    ensures Count(list + [r], emoji) == Count(list, emoji) + if r.emoji == emoji then 1 else 0
  {
    assert (list + [r])[..|list|] == list;
  }

  lemma {:induction false} TotalAppend(order: seq<string>, list: seq<Reaction>, r: Reaction)
    requires Distinct(order)
    ensures Total(order, list + [r]) == Total(order, list) + if r.emoji in order then 1 else 0
    decreases order
  {
    if order != [] {
      var front, last := order[..|order| - 1], order[|order| - 1];
      TotalAppend(front, list, r);
      CountAppend(list, r, last);
      assert order == front + [last];
    }
  }

  lemma {:induction false} AbsentCountsZero(list: seq<Reaction>, emoji: string)
    requires emoji !in EmojisOf(list)
    ensures Count(list, emoji) == 0
    decreases list
  {
    if list != [] {
      var front, last := list[..|list| - 1], list[|list| - 1];
      assert EmojisOf(list) == EmojisOf(front) + [last.emoji];
      AbsentCountsZero(front, emoji);
    }
  }

  /** The clusters of a message count each of its reactions once. */
  lemma {:induction false} ClustersTotal(list: seq<Reaction>)
    ensures Total(FirstSeen(EmojisOf(list)), list) == |list|
    decreases list
  {
    if list != [] {
      var front, last := list[..|list| - 1], list[|list| - 1];
      var before, after := FirstSeen(EmojisOf(front)), FirstSeen(EmojisOf(list));
      ClustersTotal(front);
      assert list == front + [last];
      assert EmojisOf(list)[..|list| - 1] == EmojisOf(front);
      FirstSeenTable(EmojisOf(front));
      TotalAppend(before, front, last);
      if last.emoji !in before {
        assert after == before + [last.emoji] && after[..|before|] == before;
        AbsentCountsZero(front, last.emoji);
        CountAppend(front, last, last.emoji);
      }
    }
  }

  /** A cluster's count is the number of keys the map sends to its emoji. */
  lemma {:induction false} CountIsCardinality(list: seq<Reaction>, emoji: string)
    requires UniqueKeys(list)
    ensures Count(list, emoji) == |KeysTo(View(list), emoji)|
    decreases list
  {
    if list != [] {
      var front, last := list[..|list| - 1], list[|list| - 1];
      UniqueFront(list);
      CountIsCardinality(front, emoji);
      OneMoreKey(View(front), last.key, last.emoji, emoji);
    }
  }

  function KeysTo(m: Emojis, emoji: string): set<Key> {
    set k | k in m && m[k] == emoji
  }

  lemma OneMoreKey(m: Emojis, key: Key, value: string, emoji: string)
    requires key !in m
    ensures |KeysTo(m[key := value], emoji)| == |KeysTo(m, emoji)| + if value == emoji then 1 else 0
  {
    assert KeysTo(m[key := value], emoji) == if value == emoji then KeysTo(m, emoji) + {key} else KeysTo(m, emoji);
  }

  lemma {:induction false} CountPositive(list: seq<Reaction>, emoji: string)
    requires emoji in EmojisOf(list)
    ensures Count(list, emoji) > 0
    decreases list
  {
    var front, last := list[..|list| - 1], list[|list| - 1];
    assert EmojisOf(list) == EmojisOf(front) + [last.emoji];
    if last.emoji != emoji {
      CountPositive(front, emoji);
    }
  }

  predicate SameMessage(list: seq<Reaction>) {
    forall i, j | 0 <= i < j < |list| ::
      list[i].key.author == list[j].key.author && list[i].key.sentAt == list[j].key.sentAt
  }

  /** I react to a message with one emoji at a time. */
  lemma OneMine(list: seq<Reaction>, me: Did, i: nat, j: nat)
    requires UniqueKeys(list) && SameMessage(list)
    requires i < j < |ClustersOf(list, me)|
    ensures !(ClustersOf(list, me)[i].mine && ClustersOf(list, me)[j].mine)
  {
    FirstSeenTable(EmojisOf(list));
  }

  function ReactionsFor(store: Store, conv: ConversationId, author: Did, sentAt: int): seq<Reaction> {
    Filter(ListOf(store, conv), OnMessage(author, sentAt), true)
  }

  function SumOfCounts(shown: seq<Cluster>): nat
    decreases shown
  {
    if shown == [] then 0 else SumOfCounts(shown[..|shown| - 1]) + shown[|shown| - 1].count
  }

  lemma {:induction false} SumIsTotal(shown: seq<Cluster>, order: seq<string>, list: seq<Reaction>)
    requires |shown| == |order|
    requires forall i | 0 <= i < |shown| :: shown[i].count == Count(list, order[i])
    ensures SumOfCounts(shown) == Total(order, list)
    decreases shown
  {
    if shown != [] {
      SumIsTotal(shown[..|shown| - 1], order[..|order| - 1], list);
    }
  }

  /** The counts shown add up to the reactions walked. */
  lemma ClustersSum(list: seq<Reaction>, me: Did)
    ensures SumOfCounts(ClustersOf(list, me)) == |list|
  {
    ClustersTotal(list);
    SumIsTotal(ClustersOf(list, me), FirstSeen(EmojisOf(list)), list);
  }

  /** The clusters stand in the order in which their emojis first appear. */
  lemma ClustersInOrder(list: seq<Reaction>, me: Did, i: nat, j: nat)
    requires i < j < |ClustersOf(list, me)|
    ensures var shown, emojis := ClustersOf(list, me), EmojisOf(list);
            && shown[i].emoji in emojis && shown[j].emoji in emojis
            && IndexIn(emojis, shown[i].emoji) < IndexIn(emojis, shown[j].emoji)
  {
    FirstSeenIsInOrder(EmojisOf(list), i, j);
  }

  lemma OnOneMessage(all: seq<Reaction>, author: Did, sentAt: int)
    ensures SameMessage(Filter(all, OnMessage(author, sentAt), true))
  {
    FilterMembers(all, OnMessage(author, sentAt), true);
    var list := Filter(all, OnMessage(author, sentAt), true);
    assert forall i | 0 <= i < |list| :: list[i] in list;
  }

  /** What is shown under a message, after any operations: emojis in the order of their first appearance
      among its reactions, none twice; positive counts, each the number of reactors the map has for it,
      adding up to the message's reactions; at most one mine. */
  lemma ShownClusters(store: Store, ops: seq<Operation>, conv: ConversationId, author: Did, sentAt: int, me: Did)
    requires AllUnique(store)
    ensures var list := ReactionsFor(ApplyAll(store, ops), conv, author, sentAt);
            var shown := ClustersOf(list, me);
            var m := FilterMap(ApplyAllToMap(View(ListOf(store, conv)), conv, ops), OnMessage(author, sentAt), true);
            && SumOfCounts(shown) == |list|
            && (forall i | 0 <= i < |shown| ::
                  shown[i].count > 0 && shown[i].count == |set k | k in m && m[k] == shown[i].emoji|)
            && (forall i, j | 0 <= i < j < |shown| ::
                  shown[i].emoji != shown[j].emoji && !(shown[i].mine && shown[j].mine))
            && (forall i, j | 0 <= i < j < |shown| ::
                  && shown[i].emoji in EmojisOf(list) && shown[j].emoji in EmojisOf(list)
                  && IndexIn(EmojisOf(list), shown[i].emoji) < IndexIn(EmojisOf(list), shown[j].emoji))
  {
    ReactionsRefineMaps(store, ops, conv);
    var all := ListOf(ApplyAll(store, ops), conv);
    var list := ReactionsFor(ApplyAll(store, ops), conv, author, sentAt);
    FilterView(all, OnMessage(author, sentAt), true);
    OnOneMessage(all, author, sentAt);
    ClustersSum(list, me);
    var shown := ClustersOf(list, me);
    forall i | 0 <= i < |shown|
      ensures shown[i].count > 0
      ensures shown[i].count == |set k | k in View(list) && View(list)[k] == shown[i].emoji|
    {
      ShownCount(list, me, i);
    }
    forall i, j | 0 <= i < j < |shown|
      ensures shown[i].emoji != shown[j].emoji && !(shown[i].mine && shown[j].mine)
      ensures shown[i].emoji in EmojisOf(list) && shown[j].emoji in EmojisOf(list)
      ensures IndexIn(EmojisOf(list), shown[i].emoji) < IndexIn(EmojisOf(list), shown[j].emoji)
    {
      FirstSeenTable(EmojisOf(list));
      OneMine(list, me, i, j);
      ClustersInOrder(list, me, i, j);
    }
  }

  lemma ShownCount(list: seq<Reaction>, me: Did, i: nat)
    requires UniqueKeys(list) && i < |ClustersOf(list, me)|
    ensures var c := ClustersOf(list, me)[i];
            c.count > 0 && c.count == |set k | k in View(list) && View(list)[k] == c.emoji|
  {
    FirstSeenTable(EmojisOf(list));
    var emoji := ClustersOf(list, me)[i].emoji;
    assert emoji in FirstSeen(EmojisOf(list));
    CountPositive(list, emoji);
    CountIsCardinality(list, emoji);
  }

  // ---- The code ----

  class ReactionStore {
    var reactionsByConversation: Store

    constructor ()
      ensures reactionsByConversation == map[]
    {
      reactionsByConversation := map[];
    }

    method ApplyInboundReaction(conv: ConversationId, key: Key, emoji: string, removed: bool, now: int)
      modifies this
      ensures reactionsByConversation == Apply(old(reactionsByConversation), Inbound(conv, key, emoji, removed, now))
      ensures reactionsByConversation - {conv} == old(reactionsByConversation) - {conv}
      ensures conv in reactionsByConversation && forall r :: r in reactionsByConversation[conv] <==>
                || (conv in old(reactionsByConversation) && r in old(reactionsByConversation)[conv] && r.key != key)
                || (!removed && r == Reaction(key, emoji, now))
    {
      var current := ListOf(reactionsByConversation, conv);
      var next := Filter(current, OneKey(key), false);
      FilterMembers(current, OneKey(key), false);
      if !removed {
        next := next + [Reaction(key, emoji, now)];
      }
      reactionsByConversation := reactionsByConversation[conv := next];
    }

    /** `remove` is what the recipient is told: that the reaction was taken back. */
    method ToggleReaction(conv: ConversationId, me: Did, author: Did, sentAt: int, emoji: string, now: int)
      returns (remove: bool)
      modifies this
      ensures var key := Key(author, sentAt, me);
              && reactionsByConversation == Apply(old(reactionsByConversation), Toggle(conv, key, emoji, now))
              && (UniqueKeys(ListOf(old(reactionsByConversation), conv)) ==>
                   (remove <==> exists r :: r in ListOf(old(reactionsByConversation), conv)
                                            && r.key == key && r.emoji == emoji))
      ensures reactionsByConversation - {conv} == old(reactionsByConversation) - {conv}
      ensures conv in reactionsByConversation && forall r :: r in reactionsByConversation[conv] <==>
                || (conv in old(reactionsByConversation) && r in old(reactionsByConversation)[conv]
                    && r.key != Key(author, sentAt, me))
                || (!remove && r == Reaction(Key(author, sentAt, me), emoji, now))
    {
      var key := Key(author, sentAt, me);
      var current := ListOf(reactionsByConversation, conv);
      var existingMine := Find(current, key);
      remove := existingMine.Some? && existingMine.value.emoji == emoji;
      var next := Filter(current, OneKey(key), false);
      FilterMembers(current, OneKey(key), false);
      if !remove {
        next := next + [Reaction(key, emoji, now)];
      }
      reactionsByConversation := reactionsByConversation[conv := next];
      FindIsFirst(current, key);
    }

    method ClearReactionsForMessage(conv: ConversationId, author: Did, sentAt: int)
      modifies this
      ensures reactionsByConversation == Apply(old(reactionsByConversation), Clear(conv, author, sentAt))
      ensures reactionsByConversation - {conv} == old(reactionsByConversation) - {conv}
      ensures conv in reactionsByConversation <==> conv in old(reactionsByConversation)
      ensures conv in reactionsByConversation ==> forall r :: r in reactionsByConversation[conv] <==>
                r in old(reactionsByConversation)[conv] && !(r.key.author == author && r.key.sentAt == sentAt)
    {
      if conv !in reactionsByConversation {
        return;
      }
      var kept := Filter(reactionsByConversation[conv], OnMessage(author, sentAt), false);
      FilterMembers(reactionsByConversation[conv], OnMessage(author, sentAt), false);
      reactionsByConversation := reactionsByConversation[conv := kept];
    }
  }

  datatype Tally = Tally(count: nat, mine: bool)

  /** The map of counts, once the reactions in `met` have been walked. */
  ghost predicate Tallied(byEmoji: map<string, Tally>, met: seq<Reaction>, me: Did) {
    && (forall e :: e in byEmoji <==> e in EmojisOf(met))
    && (forall e | e in byEmoji :: byEmoji[e] == Tally(Count(met, e), Mine(met, e, me)))
  }

  method Clusters(list: seq<Reaction>, me: Did) returns (clusters: seq<Cluster>)
    ensures clusters == ClustersOf(list, me)
    ensures forall r | r in list :: exists i :: 0 <= i < |clusters| && clusters[i].emoji == r.emoji
    ensures forall i | 0 <= i < |clusters| ::
              clusters[i].mine <==> exists r :: r in list && r.emoji == clusters[i].emoji && r.key.reactor == me
  {
    var order: seq<string> := [];
    var byEmoji: map<string, Tally> := map[];
    for i := 0 to |list|
      invariant order == FirstSeen(EmojisOf(list[..i]))
      invariant Tallied(byEmoji, list[..i], me)
    {
      var r := list[i];
      assert list[..i + 1] == list[..i] + [r];
      OrderNext(list[..i], r);
      TallyNext(byEmoji, list[..i], r, me);
      if r.emoji in byEmoji {
        var c := byEmoji[r.emoji];
        byEmoji := byEmoji[r.emoji := Tally(c.count + 1, c.mine || r.key.reactor == me)];
      } else {
        order := order + [r.emoji];
        byEmoji := byEmoji[r.emoji := Tally(1, r.key.reactor == me)];
      }
    }
    assert list[..|list|] == list;
    TalliesRead(byEmoji, list, me);
    clusters := InOrder(order, byEmoji);
    ClustersShowAll(list, me);
  }

  lemma ClustersShowAll(list: seq<Reaction>, me: Did)
    ensures forall r | r in list ::
              exists i :: 0 <= i < |ClustersOf(list, me)| && ClustersOf(list, me)[i].emoji == r.emoji
    ensures forall i | 0 <= i < |ClustersOf(list, me)| ::
              ClustersOf(list, me)[i].mine <==>
              exists r :: r in list && r.emoji == ClustersOf(list, me)[i].emoji && r.key.reactor == me
  {
    var order := FirstSeen(EmojisOf(list));
    FirstSeenTable(EmojisOf(list));
    forall r | r in list
      ensures exists i :: 0 <= i < |ClustersOf(list, me)| && ClustersOf(list, me)[i].emoji == r.emoji
    {
      EmojiListed(list, r);
      var i :| 0 <= i < |order| && order[i] == r.emoji;
      assert ClustersOf(list, me)[i].emoji == r.emoji;
    }
  }

  function InOrder(order: seq<string>, byEmoji: map<string, Tally>): seq<Cluster>
    requires forall i | 0 <= i < |order| :: order[i] in byEmoji
  {
    seq(|order|, i requires 0 <= i < |order| =>
      Cluster(order[i], byEmoji[order[i]].count, byEmoji[order[i]].mine))
  }

  lemma TalliesRead(byEmoji: map<string, Tally>, list: seq<Reaction>, me: Did)
    requires Tallied(byEmoji, list, me)
    ensures var order := FirstSeen(EmojisOf(list));
            && (forall i | 0 <= i < |order| :: order[i] in byEmoji)
            && InOrder(order, byEmoji) == ClustersOf(list, me)
  {
    FirstSeenTable(EmojisOf(list));
  }

  lemma OrderNext(met: seq<Reaction>, r: Reaction)
    ensures FirstSeen(EmojisOf(met + [r])) ==
              FirstSeen(EmojisOf(met)) + if r.emoji in EmojisOf(met) then [] else [r.emoji]
  {
    assert EmojisOf(met + [r])[..|met|] == EmojisOf(met);
    FirstSeenTable(EmojisOf(met));
  }

  lemma TallyNext(byEmoji: map<string, Tally>, met: seq<Reaction>, r: Reaction, me: Did)
    requires Tallied(byEmoji, met, me)
    ensures var mine := r.key.reactor == me;
            var next := if r.emoji in byEmoji
                        then Tally(byEmoji[r.emoji].count + 1, byEmoji[r.emoji].mine || mine) else Tally(1, mine);
            Tallied(byEmoji[r.emoji := next], met + [r], me)
  {
    NewReaction(met, r, me);
    assert EmojisOf(met + [r]) == EmojisOf(met) + [r.emoji];
  }

  lemma EmojiListed(list: seq<Reaction>, x: Reaction)
    requires x in list
    ensures x.emoji in EmojisOf(list)
  {
    var n :| 0 <= n < |list| && list[n] == x;
    assert EmojisOf(list)[n] == x.emoji;
  }

  lemma NewReaction(list: seq<Reaction>, r: Reaction, me: Did)
    ensures forall e :: Count(list + [r], e) == Count(list, e) + if r.emoji == e then 1 else 0
    ensures forall e :: Mine(list + [r], e, me) <==> Mine(list, e, me) || (r.emoji == e && r.key.reactor == me)
    ensures r.emoji !in EmojisOf(list) ==> Count(list, r.emoji) == 0 && !Mine(list, r.emoji, me)
  {
    forall e ensures Count(list + [r], e) == Count(list, e) + if r.emoji == e then 1 else 0 {
      CountAppend(list, r, e);
    }
    forall e ensures Mine(list + [r], e, me) <==> Mine(list, e, me) || (r.emoji == e && r.key.reactor == me) {
      assert r in list + [r];
    }
    if r.emoji !in EmojisOf(list) {
      AbsentCountsZero(list, r.emoji);
      forall x | x in list ensures x.emoji in EmojisOf(list) {
        EmojiListed(list, x);
      }
    }
  }
}
