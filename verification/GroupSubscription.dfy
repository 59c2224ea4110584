/** Keeping the socket's group subscriptions equal to the groups held locally, when the server replaces
    the whole set on every frame, groups change at any moment, and some changes are never signalled. */
module GroupSubscription {
  import opened Wrappers

  type Pseudonym = seq<int>
  type TaskId = nat

  /** The receive loop: idle, about to read the local groups, or holding what it read, with what changed
      unsignalled since. */
  datatype Loop =
    | Idle
    | Reading
    | Snapshot(held: set<Pseudonym>, added: set<Pseudonym>, dropped: set<Pseudonym>)

  /** `tasks` changed the groups and owe a signal. `frames` counts the frames sent on this connection,
      `quietAdds` and `quietDrops` hold the unsignalled changes since the last of them was read. `used`
      holds every pseudonym ever generated, `left` those of groups that were left. */
  datatype State = State(
    local: set<Pseudonym>,
    used: set<Pseudonym>,
    left: set<Pseudonym>,
    connected: bool,
    frames: nat,
    serverSet: set<Pseudonym>,
    wire: seq<set<Pseudonym>>,
    permit: bool,
    loop: Loop,
    tasks: set<TaskId>,
    quietAdds: set<Pseudonym>,
    quietDrops: set<Pseudonym>)

  const INITIAL := State({}, {}, {}, false, 0, {}, [], false, Idle, {}, {}, {})

  /** Change is a task that ends in a signal: creating, accepting, restoring or reconciling a group.
      QuietChange is one that does not: joining by link, rotating a pseudonym, deletion by storage sync or
      of a declined invite, or a task that fails after its change. Direct is a subscription sent by the
      changing task itself; changes and Direct run under one lock. */
  datatype Event =
    | Change(task: TaskId, drop: set<Pseudonym>, add: set<Pseudonym>)
    | QuietChange(drop: set<Pseudonym>, add: set<Pseudonym>)
    | Leave(p: Pseudonym)
    | Direct(currentSocket: bool)
    | Notify(task: TaskId)
    | Connect
    | Disconnect
    | LoopWake
    | LoopRead
    | LoopSend
    | FrameArrives

  /** An empty set sends no frame. */
  function SendSet(s: State, held: set<Pseudonym>, added: set<Pseudonym>, dropped: set<Pseudonym>): State {
    if s.connected && held != {} then
      s.(wire := s.wire + [held], frames := s.frames + 1, quietAdds := added, quietDrops := dropped)
    else s
  }

  /** Pseudonyms are random, so a new one was never used before. */
  predicate IsFresh(s: State, add: set<Pseudonym>) {
    add !! s.used
  }

  function Changed(s: State, drop: set<Pseudonym>, add: set<Pseudonym>): State {
    s.(local := s.local - drop + add, used := s.used + add)
  }

  function Quietly(s: State, drop: set<Pseudonym>, add: set<Pseudonym>): State {
    var dropped := drop * s.local;
    Changed(s, drop, add).(
      quietAdds := s.quietAdds + add,
      quietDrops := s.quietDrops + dropped,
      loop := if s.loop.Snapshot?
              then Snapshot(s.loop.held, s.loop.added + add, s.loop.dropped + dropped) else s.loop)
  }

  /** An event that cannot happen in `s` leaves it as it is. */
  function Step(s: State, e: Event): State {
    match e
    case Change(task, drop, add) =>
      if task in s.tasks || !IsFresh(s, add) then s else Changed(s, drop, add).(tasks := s.tasks + {task})
    case QuietChange(drop, add) => if IsFresh(s, add) then Quietly(s, drop, add) else s
    case Leave(p) => if p in s.local then s.(left := s.left + {p}) else s
    case Direct(currentSocket) => if currentSocket then SendSet(s, s.local, {}, {}) else s
    case Notify(task) => if task in s.tasks then s.(tasks := s.tasks - {task}, permit := true) else s
    case Connect =>
      if s.connected then s
      else s.(connected := true, frames := 0, serverSet := {}, wire := [], loop := Reading,
              quietAdds := {}, quietDrops := {})
    case Disconnect =>
      s.(connected := false, frames := 0, serverSet := {}, wire := [], loop := Idle, quietAdds := {}, quietDrops := {})
    case LoopWake => if s.connected && s.loop.Idle? && s.permit then s.(permit := false, loop := Reading) else s
    case LoopRead => if s.loop.Reading? then s.(loop := Snapshot(s.local, {}, {})) else s
    case LoopSend =>
      if s.loop.Snapshot? then SendSet(s, s.loop.held, s.loop.added, s.loop.dropped).(loop := Idle) else s
    case FrameArrives => if s.wire != [] then s.(serverSet := s.wire[0], wire := s.wire[1..]) else s
  }

  function Run(s: State, events: seq<Event>): State
    decreases events
  {
    if events == [] then s else Run(Step(s, events[0]), events[1..])
  }

  // ---- Invariants ----

  /** What the server will hold once the frames under way have arrived. */
  function Eventually(s: State): set<Pseudonym> {
    if s.wire == [] then s.serverSet else s.wire[|s.wire| - 1]
  }

  /** The server holds nothing exactly as long as no frame was sent. */
  predicate FramesCounted(s: State) {
    && (forall i | 0 <= i < |s.wire| :: s.wire[i] != {})
    && (Eventually(s) == {} <==> s.frames == 0)
  }

  predicate Fresh(s: State) {
    && s.local <= s.used && s.left <= s.used && s.quietAdds <= s.used
    && Eventually(s) <= s.used
    && s.quietAdds !! Eventually(s) && s.quietDrops !! s.local && s.quietDrops <= s.used
    && (s.loop.Snapshot? ==>
          s.loop.held <= s.used && s.loop.added <= s.used && s.loop.added !! s.loop.held
          && s.loop.dropped !! s.local && s.loop.dropped <= s.used)
  }

  predicate MoreToCome(s: State) {
    s.permit || s.tasks != {}
  }

  /** Up to unsignalled changes the server's set is the local one, or nothing was left to send. */
  predicate InStep(s: State) {
    && s.local <= Eventually(s) + s.quietAdds
    && (Eventually(s) <= s.local + s.quietDrops || s.local <= s.quietAdds)
  }

  predicate SnapshotOk(s: State, held: set<Pseudonym>, added: set<Pseudonym>, dropped: set<Pseudonym>) {
    && s.local <= held + added && held <= s.local + dropped
    && (held == {} ==> InStep(s))
  }

  predicate Inv(s: State) {
    && FramesCounted(s) && Fresh(s)
    && (!s.connected ==> s.loop.Idle?)
    && (s.connected && !MoreToCome(s) ==>
          match s.loop
          case Idle => InStep(s)
          case Reading => true
          case Snapshot(held, added, dropped) => SnapshotOk(s, held, added, dropped))
  }

  lemma ChangeKeepsInv(s: State, task: TaskId, drop: set<Pseudonym>, add: set<Pseudonym>)
    requires Inv(s)
    ensures Inv(Step(s, Change(task, drop, add)))
  {
    if task !in s.tasks && IsFresh(s, add) {
      assert task in Step(s, Change(task, drop, add)).tasks;
    }
  }

  lemma QuietKeepsInv(s: State, drop: set<Pseudonym>, add: set<Pseudonym>)
    requires Inv(s)
    ensures Inv(Step(s, QuietChange(drop, add)))
  {
  }

  lemma SendKeepsInv(s: State, e: Event)
    requires Inv(s) && (e.Direct? || e.LoopSend?)
    ensures Inv(Step(s, e))
  {
  }

  lemma StepKeepsInv(s: State, e: Event)
    requires Inv(s)
    ensures Inv(Step(s, e))
  {
    match e
    case Change(task, drop, add) => ChangeKeepsInv(s, task, drop, add);
    case QuietChange(drop, add) => QuietKeepsInv(s, drop, add);
    case Direct(_) => SendKeepsInv(s, e);
    case LoopSend => SendKeepsInv(s, e);
    case _ =>
  }

  lemma {:induction false} RunKeepsInv(s: State, events: seq<Event>)
    requires Inv(s)
    ensures Inv(Run(s, events))
    decreases events
  {
    if events != [] {
      StepKeepsInv(s, events[0]);
      RunKeepsInv(Step(s, events[0]), events[1..]);
    }
  }

  // ---- Once settled ----

  predicate Settled(s: State) {
    s.connected && s.loop.Idle? && !s.permit && s.tasks == {} && s.wire == []
  }

  /** Over every interleaving of signalled and unsignalled changes, direct subscriptions, stale reads and
      reconnects. Once settled, every local pseudonym is subscribed if and only if no unsignalled addition
      since the last frame still stands; and the server has exactly the local set if and only if besides
      no unsignalled removal concerned a subscribed one, and the local set is not empty or nothing was
      subscribed on this connection. */
  lemma SettledIsSubscribed(events: seq<Event>)
    requires Settled(Run(INITIAL, events))
    ensures var s := Run(INITIAL, events);
            && (s.local <= s.serverSet <==> s.quietAdds !! s.local)
            && (s.serverSet == s.local <==>
                  && s.quietAdds !! s.local && s.quietDrops !! s.serverSet
                  && (s.local != {} || s.frames == 0))
  {
    RunKeepsInv(INITIAL, events);
    SettledExactly(Run(INITIAL, events));
  }

  lemma SettledExactly(s: State)
    requires Inv(s) && Settled(s)
    ensures s.local <= s.serverSet <==> s.quietAdds !! s.local
    ensures s.serverSet == s.local <==>
              s.quietAdds !! s.local && s.quietDrops !! s.serverSet && (s.local != {} || s.frames == 0)
  {
    if s.quietAdds !! s.local && s.local != {} {
      var p :| p in s.local;
      assert p !in s.quietAdds;
    }
  }

  /** When every change is signalled, that leaves the empty local set as the one exception. */
  lemma SignalledChangesSettle(events: seq<Event>)
    requires Settled(Run(INITIAL, events)) && forall e | e in events :: !e.QuietChange?
    ensures var s := Run(INITIAL, events);
            s.local <= s.serverSet && (s.serverSet == s.local <==> s.local != {} || s.frames == 0)
  {
    NothingQuiet(INITIAL, events);
    SettledIsSubscribed(events);
  }

  predicate NoQuiet(s: State) {
    && s.quietAdds == {} && s.quietDrops == {}
    && (s.loop.Snapshot? ==> s.loop.added == {} && s.loop.dropped == {})
  }

  lemma {:induction false} NothingQuiet(s: State, events: seq<Event>)
    requires NoQuiet(s) && forall e | e in events :: !e.QuietChange?
    ensures NoQuiet(Run(s, events))
    decreases events
  {
    if events != [] {
      assert !events[0].QuietChange?;
      NothingQuiet(Step(s, events[0]), events[1..]);
    }
  }

  predicate Drops(e: Event, p: Pseudonym) {
    (e.Change? || e.QuietChange?) && p in e.drop
  }

  lemma {:induction false} NotDroppedStays(s: State, events: seq<Event>, p: Pseudonym)
    requires p in s.local && forall e | e in events :: !Drops(e, p)
    ensures p in Run(s, events).local
    decreases events
  {
    if events != [] {
      assert !Drops(events[0], p);
      NotDroppedStays(Step(s, events[0]), events[1..], p);
    }
  }

  /** What was once used is no unsignalled addition later, unless it is one already. */
  predicate IsLoud(s: State, p: Pseudonym) {
    p in s.used && p !in s.quietAdds && (s.loop.Snapshot? ==> p !in s.loop.added)
  }

  lemma {:induction false} LoudStays(s: State, events: seq<Event>, p: Pseudonym)
    requires IsLoud(s, p)
    ensures IsLoud(Run(s, events), p)
    decreases events
  {
    if events != [] {
      LoudStays(Step(s, events[0]), events[1..], p);
    }
  }

  /** A pseudonym that a signalled change adds is subscribed on every settled connection from then on,
      whatever other changes, signalled or not, and reconnects come between, until one drops it. */
  lemma SignalledJoinIsSubscribed(before: seq<Event>, task: TaskId, drop: set<Pseudonym>, add: set<Pseudonym>,
                                  after: seq<Event>, p: Pseudonym)
    requires task !in Run(INITIAL, before).tasks && add !! Run(INITIAL, before).used && p in add
    requires forall e | e in after :: !Drops(e, p)
    ensures var s := Run(Step(Run(INITIAL, before), Change(task, drop, add)), after);
            p in s.local && (Settled(s) ==> p in s.serverSet)
  {
    var s := Run(INITIAL, before);
    RunKeepsInv(INITIAL, before);
    StepKeepsInv(s, Change(task, drop, add));
    var changed := Step(s, Change(task, drop, add));
    RunKeepsInv(changed, after);
    NotDroppedStays(changed, after, p);
    LoudStays(changed, after, p);
  }

  /** Leaving a group drops nothing: unless something else drops its pseudonym later, it stays local
      whatever happens, and on every settled connection it is subscribed unless it was added unsignalled
      since the last frame. */
  lemma LeftGroupsStaySubscribed(before: seq<Event>, after: seq<Event>, p: Pseudonym)
    requires p in Run(INITIAL, before).local && forall e | e in after :: !Drops(e, p)
    ensures var s := Run(Run(INITIAL, before), [Leave(p)] + after);
            && p in s.local
            && (Settled(s) ==> (p in s.serverSet <==> p !in s.quietAdds))
  {
    var s := Run(INITIAL, before);
    assert forall e | e in [Leave(p)] + after :: !Drops(e, p);
    NotDroppedStays(s, [Leave(p)] + after, p);
    RunKeepsInv(INITIAL, before);
    RunKeepsInv(s, [Leave(p)] + after);
  }

  // ---- The unsignalled changes are real ----

  lemma {:induction false} RunAppend(s: State, events: seq<Event>, e: Event)
    ensures Run(s, events + [e]) == Step(Run(s, events), e)
    decreases events
  {
    if events == [] {
      assert [e][1..] == [];
    } else {
      assert (events + [e])[1..] == events[1..] + [e];
      RunAppend(Step(s, events[0]), events[1..], e);
    }
  }

  /** From every settled state: joining by link leaves the new group unsubscribed, with nothing to come. */
  lemma LinkJoinIsMissed(s: State, p: Pseudonym)
    requires Inv(s) && Settled(s) && p !in s.used
    ensures var after := Step(s, QuietChange({}, {p}));
            Inv(after) && Settled(after) && p in after.local && p !in after.serverSet
  {
    QuietKeepsInv(s, {}, {p});
  }

  /** And such a state is reached on any fresh connection. */
  lemma LinkJoinHappens(p: Pseudonym) returns (events: seq<Event>)
    ensures var s := Run(INITIAL, events); Settled(s) && s.local == {p} && s.serverSet == {}
  {
    events := [Connect];
    assert events[1..] == [];
    RunAppend(INITIAL, events, LoopRead);
    events := events + [LoopRead];
    RunAppend(INITIAL, events, LoopSend);
    events := events + [LoopSend];
    RunAppend(INITIAL, events, QuietChange({}, {p}));
    events := events + [QuietChange({}, {p})];
  }

  /** From every settled state: rotating a subscribed pseudonym leaves the old one subscribed and the new
      one not, and a deletion by storage sync leaves it subscribed. */
  lemma RotationAndDeletionAreMissed(s: State, was: Pseudonym, next: Pseudonym)
    requires Inv(s) && Settled(s) && was in s.local && was in s.serverSet && next !in s.used
    ensures var rotated, deleted := Step(s, QuietChange({was}, {next})), Step(s, QuietChange({was}, {}));
            && Settled(rotated) && rotated.serverSet == s.serverSet
            && was !in rotated.local && next in rotated.local && next !in rotated.serverSet
            && Settled(deleted) && was !in deleted.local && was in deleted.serverSet
  {
  }

  /** A new connection repairs all of it: once its first frame has arrived the sets agree. */
  lemma ReconnectRepairs(s: State)
    requires Inv(s)
    ensures var read := Step(Step(Step(s, Disconnect), Connect), LoopRead);
            var after := Step(Step(read, LoopSend), FrameArrives);
            after.wire == [] && after.serverSet == after.local == s.local
  {
  }

  // ---- The code ----

  datatype Group = Group(id: string, pushPseudonym: Option<Pseudonym>, isMember: bool)

  function PseudonymsOf(groups: seq<Group>): set<Pseudonym> {
    set g | g in groups && g.pushPseudonym.Some? :: g.pushPseudonym.value
  }

  class Socket {
    var frames: seq<set<Pseudonym>>

    constructor ()
      ensures frames == []
    {
      frames := [];
    }
  }

  /** One more frame, of every stored pseudonym and nothing else, or none where there is no pseudonym. */
  ghost predicate SendsAll(before: seq<set<Pseudonym>>, after: seq<set<Pseudonym>>, groups: seq<Group>) {
    if forall g | g in groups :: g.pushPseudonym.None? then after == before
    else
      && |after| == |before| + 1 && before <= after
      && forall p :: p in after[|before|] <==> exists g :: g in groups && g.pushPseudonym == Some(p)
  }

  /** The full set of pseudonyms on the given socket, if there is one and there are any. */
  method SubscribeAllGroupPseudonyms(groups: seq<Group>, ws: Socket?)
    modifies ws
    ensures ws != null ==>
              ws.frames == old(ws.frames) + if PseudonymsOf(groups) == {} then [] else [PseudonymsOf(groups)]
    ensures ws != null ==> SendsAll(old(ws.frames), ws.frames, groups)
  {
    if ws == null {
      return;
    }
    var pseudonyms: set<Pseudonym> := {};
    for i := 0 to |groups|
      invariant pseudonyms == PseudonymsOf(groups[..i])
      invariant ws.frames == old(ws.frames)
    {
      assert groups[..i + 1] == groups[..i] + [groups[i]];
      if groups[i].pushPseudonym.Some? {
        pseudonyms := pseudonyms + {groups[i].pushPseudonym.value};
      }
    }
    assert groups[..|groups|] == groups;
    if pseudonyms == {} {
      assert forall g | g in groups && g.pushPseudonym.Some? :: g.pushPseudonym.value in pseudonyms;
      return;
    }
    ws.frames := ws.frames + [pseudonyms];
  }

  /** The stored groups. */
  class GroupStore {
    var groups: seq<Group>

    constructor ()
      ensures groups == []
    {
      groups := [];
    }

    /** Leaving is a tombstone in place: the row stays, with its pseudonym. */
    method LeaveGroup(id: string)
      modifies this
      ensures PseudonymsOf(groups) == PseudonymsOf(old(groups))
      ensures |groups| == |old(groups)|
      ensures forall i | 0 <= i < |groups| ::
                groups[i] == if old(groups)[i].id == id then old(groups)[i].(isMember := false) else old(groups)[i]
    {
      var left := seq(|groups|, i requires 0 <= i < |groups| reads this =>
        if groups[i].id == id then groups[i].(isMember := false) else groups[i]);
      SamePseudonyms(groups, left);
      groups := left;
    }

    /** What joining by link and rotating write, and all they do: no frame and no signal. */
    method SetPushPseudonym(id: string, next: Pseudonym, ghost s: State)
      requires s.local == PseudonymsOf(groups) && next !in s.used && s.local <= s.used
      requires exists g :: g in groups && g.id == id
      requires forall i, j | 0 <= i < j < |groups| :: groups[i].id != groups[j].id
      requires forall i, j | 0 <= i < j < |groups| && groups[i].pushPseudonym.Some? ::
                 groups[i].pushPseudonym != groups[j].pushPseudonym
      modifies this
      ensures var drop := set g | g in old(groups) && g.id == id && g.pushPseudonym.Some? :: g.pushPseudonym.value;
              PseudonymsOf(groups) == Step(s, QuietChange(drop, {next})).local
      ensures |groups| == |old(groups)|
      ensures forall i | 0 <= i < |groups| ::
                groups[i] == if old(groups)[i].id == id then Group(id, Some(next), old(groups)[i].isMember)
                             else old(groups)[i]
    {
      var written := seq(|groups|, i requires 0 <= i < |groups| reads this =>
        if groups[i].id == id then groups[i].(pushPseudonym := Some(next)) else groups[i]);
      RewrittenPseudonyms(groups, written, id, next);
      groups := written;
    }
  }

  lemma SamePseudonyms(a: seq<Group>, b: seq<Group>)
    requires |a| == |b| && forall i | 0 <= i < |a| :: a[i].pushPseudonym == b[i].pushPseudonym
    ensures PseudonymsOf(a) == PseudonymsOf(b)
  {
    forall p | p in PseudonymsOf(a) ensures p in PseudonymsOf(b) {
      var i :| 0 <= i < |a| && a[i].pushPseudonym == Some(p);
      assert b[i] in b;
    }
    forall p | p in PseudonymsOf(b) ensures p in PseudonymsOf(a) {
      var i :| 0 <= i < |b| && b[i].pushPseudonym == Some(p);
      assert a[i] in a;
    }
  }

  lemma RewrittenPseudonyms(a: seq<Group>, b: seq<Group>, id: string, next: Pseudonym)
    requires |a| == |b| && exists g :: g in a && g.id == id
    requires forall i | 0 <= i < |a| :: b[i] == if a[i].id == id then a[i].(pushPseudonym := Some(next)) else a[i]
    requires forall i, j | 0 <= i < j < |a| :: a[i].id != a[j].id
    requires forall i, j | 0 <= i < j < |a| && a[i].pushPseudonym.Some? :: a[i].pushPseudonym != a[j].pushPseudonym
    ensures var drop := set g | g in a && g.id == id && g.pushPseudonym.Some? :: g.pushPseudonym.value;
            PseudonymsOf(b) == PseudonymsOf(a) - drop + {next}
  {
    var drop := set g | g in a && g.id == id && g.pushPseudonym.Some? :: g.pushPseudonym.value;
    var k :| 0 <= k < |a| && a[k].id == id;
    assert b[k] in b;
    forall p | p in PseudonymsOf(b) ensures p in PseudonymsOf(a) - drop + {next} {
      var i :| 0 <= i < |b| && b[i].pushPseudonym == Some(p);
      if i != k {
        assert a[i] in a && a[i].id != id;
      }
    }
    forall p | p in PseudonymsOf(a) && p !in drop ensures p in PseudonymsOf(b) {
      var i :| 0 <= i < |a| && a[i].pushPseudonym == Some(p);
      assert a[i] in a && a[i].id != id;
      assert b[i] in b;
    }
  }

  /** The receive loop's answer to a groups_changed signal on its socket. */
  class ReceiveLoop {
    const ws: Socket
    var permit: bool

    constructor (socket: Socket)
      ensures ws == socket && !permit
    {
      ws := socket;
      permit := false;
    }

    method GroupsChanged(groups: seq<Group>, ghost s: State)
      requires permit && s.permit && s.connected && s.loop.Idle?
      requires s.local == PseudonymsOf(groups) && s.wire == ws.frames
      modifies this, ws
      ensures var after := Step(Step(Step(s, LoopWake), LoopRead), LoopSend);
              ws.frames == after.wire && permit == after.permit
      ensures !permit && SendsAll(old(ws.frames), ws.frames, groups)
    {
      permit := false;
      SubscribeAllGroupPseudonyms(groups, ws);
    }
  }
}
