/** Signing up in the PLC directory: the genesis operation at index 0, then the identity update at
    index 1, each submitted so that an interrupted signup can be resumed. The directory is an
    append-only log that takes an operation only when its `prev` names the tip. */
module PlcDirectory {
  import opened Wrappers
  import opened Rfc4648
  import opened PlcIdentifiers

  // ---- Operations ----

  datatype Service = Service(kind: string, endpoint: string)

  datatype Operation = Operation(
    kind: string,
    rotationKeys: seq<string>,
    verificationMethods: map<string, string>,
    alsoKnownAs: seq<string>,
    services: map<string, Service>,
    prev: Option<string>,
    sig: Option<string>)

  function HomeserverServices(serverUrl: string): map<string, Service> {
    map["avalanche_homeserver" := Service("AvalancheHomeserver", serverUrl)]
  }

  function GenesisOp(rotationKey: string, serverUrl: string): Operation {
    Operation("plc_operation", [rotationKey], map[], [], HomeserverServices(serverUrl), None, None)
  }

  function IdentityUpdateOp(rotationKey: string, identityKey: string, serverUrl: string, prevCid: string): Operation {
    Operation("plc_operation", [rotationKey], map["avalanche" := identityKey], [],
              HomeserverServices(serverUrl), Some(prevCid), None)
  }

  /** One identity signing up: its rotation key and server, and the primitives. `sign` is the
      deterministic signature of an unsigned operation by the rotation key. */
  datatype Signup = Signup(
    rotationKey: string,
    serverUrl: string,
    cbor: Operation -> seq<Byte>,
    sha256: seq<Byte> -> Hash,
    sign: Operation -> string)
  {
    function Signed(op: Operation): Operation {
      op.(sig := Some(sign(op.(sig := None))))
    }

    function Cid(op: Operation): string {
      CidText(sha256(cbor(op)))
    }

    function Genesis(): Operation {
      Signed(GenesisOp(rotationKey, serverUrl))
    }

    function Update(identityKey: string): Operation {
      Signed(IdentityUpdateOp(rotationKey, identityKey, serverUrl, Cid(Genesis())))
    }

    function OpAt(identityKey: string, index: nat): Operation {
      if index == 0 then Genesis() else Update(identityKey)
    }

    /** The hash tells the identity's own operations apart. */
    ghost predicate NoCollision(keys: set<string>) {
      && (forall k | k in keys :: sha256(cbor(Update(k))) != sha256(cbor(Genesis())))
      && (forall k, l | k in keys && l in keys ::
            sha256(cbor(Update(k))) == sha256(cbor(Update(l))) ==> Update(k) == Update(l))
    }
  }

  // ---- The directory's acceptance rule and the client's decision ----

  predicate Accepts(s: Signup, log: seq<Operation>, op: Operation) {
    op.prev == if log == [] then None else Some(s.Cid(log[|log| - 1]))
  }

  datatype Decision = Skip | Refuse | Post

  /** What ensure_op_submitted does with the log it fetched (None when there is no log to read). */
  function Decide(s: Signup, fetched: Option<seq<Operation>>, op: Operation, index: nat): Decision {
    match fetched
    case None => Post
    case Some(existing) =>
      if index < |existing| then
        if s.cbor(existing[index]) == s.cbor(op) then Skip else Refuse
      else if |existing| < index then Refuse
      else Post
  }

  // ---- Many attempts against one directory ----

  datatype Phase =
    | Fetching(index: nat)
    | Deciding(index: nat, fetched: Option<seq<Operation>>)
    | Waiting(index: nat)
    | Done
    | Failed

  datatype Attempt = Attempt(identityKey: string, phase: Phase)

  /** `wire` holds every operation ever posted: a post whose sender is gone may still arrive, twice even. */
  datatype World = World(log: seq<Operation>, wire: set<Operation>, attempts: map<nat, Attempt>)

  const EMPTY := World([], {}, map[])

  datatype Event =
    | Begin(id: nat, identityKey: string)
    | Fetch(id: nat, reached: bool)
    | Choose(id: nat)
    | Answered(id: nat)
    | Arrives(op: Operation)
    | ReplyLost(id: nat)
    | Crash(id: nat)

  function Advance(index: nat): Phase {
    if index == 0 then Fetching(1) else Done
  }

  function Append(s: Signup, w: World, op: Operation): World {
    if Accepts(s, w.log, op) then w.(log := w.log + [op]) else w
  }

  function Moved(w: World, id: nat, phase: Phase): World
    requires id in w.attempts
  {
    w.(attempts := w.attempts[id := w.attempts[id].(phase := phase)])
  }

  /** An event that cannot happen in `w` leaves it as it is, so every event list is a run. */
  function Step(s: Signup, w: World, e: Event): World {
    match e
    case Begin(id, key) =>
      if id in w.attempts then w else w.(attempts := w.attempts[id := Attempt(key, Fetching(0))])
    case Fetch(id, reached) =>
      if id in w.attempts && w.attempts[id].phase.Fetching? then
        Moved(w, id, Deciding(w.attempts[id].phase.index, if reached && w.log != [] then Some(w.log) else None))
      else w
    case Choose(id) =>
      if id in w.attempts && w.attempts[id].phase.Deciding? then
        var a := w.attempts[id];
        var op := s.OpAt(a.identityKey, a.phase.index);
        match Decide(s, a.phase.fetched, op, a.phase.index) {
          case Skip => Moved(w, id, Advance(a.phase.index))
          case Refuse => Moved(w, id, Failed)
          case Post => Moved(w, id, Waiting(a.phase.index)).(wire := w.wire + {op})
        }
      else w
    case Answered(id) =>
      if id in w.attempts && w.attempts[id].phase.Waiting? then
        var a := w.attempts[id];
        var op := s.OpAt(a.identityKey, a.phase.index);
        if Accepts(s, w.log, op) then Moved(Append(s, w, op), id, Advance(a.phase.index))
        else Moved(w, id, Failed)
      else w
    case Arrives(op) =>
      if op in w.wire then Append(s, w, op) else w
    case ReplyLost(id) =>
      if id in w.attempts && w.attempts[id].phase.Waiting? then Moved(w, id, Failed) else w
    case Crash(id) =>
      if id in w.attempts && !w.attempts[id].phase.Done? then Moved(w, id, Failed) else w
  }

  function Run(s: Signup, w: World, events: seq<Event>): World
    decreases events
  {
    if events == [] then w else Run(s, Step(s, w, events[0]), events[1..])
  }

  // ---- Safety over every run ----

  ghost predicate IsUpdate(s: Signup, keys: set<string>, op: Operation) {
    exists k :: k in keys && op == s.Update(k)
  }

  ghost predicate IsOurs(s: Signup, keys: set<string>, op: Operation) {
    op == s.Genesis() || IsUpdate(s, keys, op)
  }

  /** A prefix of [genesis, update] for one of the keys. */
  ghost predicate IsChain(s: Signup, keys: set<string>, log: seq<Operation>) {
    && |log| <= 2
    && (|log| >= 1 ==> log[0] == s.Genesis())
    && (|log| == 2 ==> IsUpdate(s, keys, log[1]))
  }

  ghost predicate AttemptOk(s: Signup, keys: set<string>, log: seq<Operation>, a: Attempt) {
    && a.identityKey in keys
    && match a.phase {
         case Fetching(i) => i <= 1 && i <= |log|
         case Deciding(i, fetched) => i <= 1 && i <= |log| && (fetched.Some? ==> fetched.value <= log)
         case Waiting(i) => i <= 1 && i <= |log|
         case Done => log == [s.Genesis(), s.Update(a.identityKey)]
         case Failed => true
       }
  }

  ghost predicate Inv(s: Signup, keys: set<string>, w: World) {
    && IsChain(s, keys, w.log)
    && (forall op | op in w.wire :: IsOurs(s, keys, op))
    && (forall id | id in w.attempts :: AttemptOk(s, keys, w.log, w.attempts[id]))
  }

  ghost predicate FromKeys(keys: set<string>, e: Event) {
    e.Begin? ==> e.identityKey in keys
  }

  /** Only the next operation of the chain is ever accepted. */
  lemma AcceptedExtendsChain(s: Signup, keys: set<string>, log: seq<Operation>, op: Operation)
    requires s.NoCollision(keys) && IsChain(s, keys, log)
    requires IsOurs(s, keys, op)
    requires Accepts(s, log, op)
    ensures IsChain(s, keys, log + [op])
    ensures |log| == 0 <==> op == s.Genesis()
    ensures |log| <= 1
  {
    if |log| == 2 {
      var k :| k in keys && log[1] == s.Update(k);
      CidInjective(s.sha256(s.cbor(s.Update(k))), s.sha256(s.cbor(s.Genesis())));
    }
  }

  lemma AttemptStaysOk(s: Signup, keys: set<string>, log: seq<Operation>, op: Operation, a: Attempt)
    requires AttemptOk(s, keys, log, a) && |log| <= 1
    ensures AttemptOk(s, keys, log + [op], a)
  {
  }

  lemma AppendKeepsInv(s: Signup, keys: set<string>, w: World, op: Operation)
    requires s.NoCollision(keys) && Inv(s, keys, w)
    requires IsOurs(s, keys, op)
    ensures Inv(s, keys, Append(s, w, op))
  {
    if Accepts(s, w.log, op) {
      AcceptedExtendsChain(s, keys, w.log, op);
      forall id | id in w.attempts ensures AttemptOk(s, keys, w.log + [op], w.attempts[id]) {
        AttemptStaysOk(s, keys, w.log, op, w.attempts[id]);
      }
    }
  }

  lemma MoveKeepsInv(s: Signup, keys: set<string>, w: World, id: nat, phase: Phase)
    requires Inv(s, keys, w) && id in w.attempts
    requires AttemptOk(s, keys, w.log, w.attempts[id].(phase := phase))
    ensures Inv(s, keys, Moved(w, id, phase))
  {
  }

  lemma ChooseKeepsInv(s: Signup, keys: set<string>, w: World, id: nat)
    requires s.NoCollision(keys) && Inv(s, keys, w)
    requires id in w.attempts && w.attempts[id].phase.Deciding?
    ensures Inv(s, keys, Step(s, w, Choose(id)))
  {
    var a := w.attempts[id];
    var op := s.OpAt(a.identityKey, a.phase.index);
    match Decide(s, a.phase.fetched, op, a.phase.index)
    case Skip =>
      if a.phase.index == 1 {
        var k :| k in keys && w.log[1] == s.Update(k);
        assert a.phase.fetched.value[1] == w.log[1];
      }
      MoveKeepsInv(s, keys, w, id, Advance(a.phase.index));
    case Refuse => MoveKeepsInv(s, keys, w, id, Failed);
    case Post => MoveKeepsInv(s, keys, w, id, Waiting(a.phase.index));
  }

  lemma AnsweredKeepsInv(s: Signup, keys: set<string>, w: World, id: nat)
    requires s.NoCollision(keys) && Inv(s, keys, w)
    requires id in w.attempts && w.attempts[id].phase.Waiting?
    ensures Inv(s, keys, Step(s, w, Answered(id)))
  {
    var a := w.attempts[id];
    var op := s.OpAt(a.identityKey, a.phase.index);
    AppendKeepsInv(s, keys, w, op);
    if Accepts(s, w.log, op) {
      AcceptedExtendsChain(s, keys, w.log, op);
      MoveKeepsInv(s, keys, Append(s, w, op), id, Advance(a.phase.index));
    } else {
      MoveKeepsInv(s, keys, w, id, Failed);
    }
  }

  lemma BeginKeepsInv(s: Signup, keys: set<string>, w: World, id: nat, key: string)
    requires Inv(s, keys, w) && key in keys
    ensures Inv(s, keys, Step(s, w, Begin(id, key)))
  {
  }

  lemma FetchKeepsInv(s: Signup, keys: set<string>, w: World, id: nat, reached: bool)
    requires Inv(s, keys, w)
    ensures Inv(s, keys, Step(s, w, Fetch(id, reached)))
  {
    if id in w.attempts && w.attempts[id].phase.Fetching? {
      var a := w.attempts[id];
      var fetched := if reached && w.log != [] then Some(w.log) else None;
      MoveKeepsInv(s, keys, w, id, Deciding(a.phase.index, fetched));
    }
  }

  /** The log only grows. */
  lemma StepKeepsLog(s: Signup, w: World, e: Event)
    ensures w.log <= Step(s, w, e).log
  {
  }

  lemma StepKeepsInv(s: Signup, keys: set<string>, w: World, e: Event)
    requires s.NoCollision(keys) && Inv(s, keys, w) && FromKeys(keys, e)
    ensures Inv(s, keys, Step(s, w, e)) && w.log <= Step(s, w, e).log
  {
    StepKeepsLog(s, w, e);
    match e
    case Begin(id, key) => BeginKeepsInv(s, keys, w, id, key);
    case Fetch(id, reached) => FetchKeepsInv(s, keys, w, id, reached);
    case Choose(id) =>
      if id in w.attempts && w.attempts[id].phase.Deciding? {
        ChooseKeepsInv(s, keys, w, id);
      }
    case Answered(id) =>
      if id in w.attempts && w.attempts[id].phase.Waiting? {
        AnsweredKeepsInv(s, keys, w, id);
      }
    case Arrives(op) =>
      if op in w.wire {
        AppendKeepsInv(s, keys, w, op);
      }
    case ReplyLost(id) =>
      if id in w.attempts {
        MoveKeepsInv(s, keys, w, id, Failed);
      }
    case Crash(id) =>
      if id in w.attempts {
        MoveKeepsInv(s, keys, w, id, Failed);
      }
  }

  lemma {:induction false} RunKeepsInv(s: Signup, keys: set<string>, w: World, events: seq<Event>)
    requires s.NoCollision(keys) && Inv(s, keys, w)
    requires forall e | e in events :: FromKeys(keys, e)
    ensures Inv(s, keys, Run(s, w, events)) && w.log <= Run(s, w, events).log
    decreases events
  {
    if events != [] {
      StepKeepsInv(s, keys, w, events[0]);
      RunKeepsInv(s, keys, Step(s, w, events[0]), events[1..]);
    }
  }

  /** Whatever is lost, late or repeated, and however many attempts run at once: the log is a prefix
      of [genesis, update]; who finished finds exactly its own two operations there; it only grows. */
  lemma EveryRunKeepsTheChain(s: Signup, keys: set<string>, events: seq<Event>, more: seq<Event>)
    requires s.NoCollision(keys)
    requires forall e | e in events :: FromKeys(keys, e)
    requires forall e | e in more :: FromKeys(keys, e)
    ensures var w := Run(s, EMPTY, events);
            && IsChain(s, keys, w.log)
            && (forall id | id in w.attempts && w.attempts[id].phase.Done? ::
                  w.log == [s.Genesis(), s.Update(w.attempts[id].identityKey)])
            && w.log <= Run(s, w, more).log
            && (|w.log| == 2 ==> Run(s, w, more).log == w.log)
  {
    RunKeepsInv(s, keys, EMPTY, events);
    RunKeepsInv(s, keys, Run(s, EMPTY, events), more);
  }

  /** What every operation in the log says, spelled out. */
  predicate IsSignupOperation(s: Signup, op: Operation) {
    && op.kind == "plc_operation" && op.rotationKeys == [s.rotationKey] && op.alsoKnownAs == []
    && op.services == map["avalanche_homeserver" := Service("AvalancheHomeserver", s.serverUrl)]
    && op.sig == Some(s.sign(op.(sig := None)))
  }

  predicate IsSignupGenesis(s: Signup, op: Operation) {
    IsSignupOperation(s, op) && op.verificationMethods == map[] && op.prev == None
  }

  predicate IsSignupUpdate(s: Signup, op: Operation, genesis: Operation, identityKey: string) {
    && IsSignupOperation(s, op) && op.verificationMethods == map["avalanche" := identityKey]
    && op.prev == Some(CidText(s.sha256(s.cbor(genesis))))
  }

  lemma OperationsSpelledOut(s: Signup, identityKey: string)
    ensures IsSignupGenesis(s, s.Genesis())
    ensures IsSignupUpdate(s, s.Update(identityKey), s.Genesis(), identityKey)
  {
    assert s.Genesis().(sig := None) == GenesisOp(s.rotationKey, s.serverUrl);
    var update := IdentityUpdateOp(s.rotationKey, identityKey, s.serverUrl, s.Cid(s.Genesis()));
    assert s.Update(identityKey).(sig := None) == update;
  }

  /** In every run the rotation key controls the DID, the genesis publishes no device key, the update
      publishes one attempt's identity key and names the genesis, and an attempt that finished finds its
      own identity key published. */
  lemma EveryRunPublishesTheKeys(s: Signup, keys: set<string>, events: seq<Event>)
    requires s.NoCollision(keys)
    requires forall e | e in events :: FromKeys(keys, e)
    ensures var w := Run(s, EMPTY, events);
            && (|w.log| >= 1 ==> IsSignupGenesis(s, w.log[0]))
            && (|w.log| == 2 ==> exists k :: k in keys && IsSignupUpdate(s, w.log[1], w.log[0], k))
            && |w.log| <= 2
            && (forall id | id in w.attempts && w.attempts[id].phase.Done? ::
                  |w.log| == 2 && IsSignupUpdate(s, w.log[1], w.log[0], w.attempts[id].identityKey))
  {
    RunKeepsInv(s, keys, EMPTY, events);
    var w := Run(s, EMPTY, events);
    OperationsSpelledOut(s, "");
    if |w.log| == 2 {
      var k :| k in keys && w.log[1] == s.Update(k);
      OperationsSpelledOut(s, k);
    }
    forall id | id in w.attempts && w.attempts[id].phase.Done?
      ensures |w.log| == 2 && IsSignupUpdate(s, w.log[1], w.log[0], w.attempts[id].identityKey)
    {
      OperationsSpelledOut(s, w.attempts[id].identityKey);
    }
  }

  /** A complete log is final: an attempt with another identity key cannot finish and cannot touch it. */
  lemma ForeignUpdateNeverFinishes(s: Signup, keys: set<string>, w: World, events: seq<Event>, key: string, id: nat)
    requires s.NoCollision(keys) && Inv(s, keys, w)
    requires forall e | e in events :: FromKeys(keys, e)
    requires |w.log| == 2 && w.log[1] != s.Update(key)
    ensures Run(s, w, events).log == w.log
    ensures id in Run(s, w, events).attempts && Run(s, w, events).attempts[id].identityKey == key
            ==> !Run(s, w, events).attempts[id].phase.Done?
  {
    RunKeepsInv(s, keys, w, events);
  }

  // ---- One submission under every fault ----

  /** What the network does to one submission: the fetch may fail, the post may be answered, may arrive
      with its reply lost, or may never arrive. */
  datatype Net = Net(fetchReached: bool, post: PostFate)
  datatype PostFate = IsAnswered | LosesReply | NeverArrives

  const NO_FAULT := Net(true, IsAnswered)

  function Submission(s: Signup, w: World, id: nat, op: Operation, net: Net): World {
    var chosen := Step(s, Step(s, w, Fetch(id, net.fetchReached)), Choose(id));
    match net.post
    case IsAnswered => Step(s, chosen, Answered(id))
    case LosesReply => Step(s, Step(s, chosen, Arrives(op)), ReplyLost(id))
    case NeverArrives => Step(s, chosen, ReplyLost(id))
  }

  // ---- ensure_op_submitted itself ----

  datatype Outcome = Submitted | AlreadyApplied
  datatype Refusal = Differs | Gap | Rejected | RequestFailed

  function Fetched(log: seq<Operation>, net: Net): Option<seq<Operation>> {
    if net.fetchReached && log != [] then Some(log) else None
  }

  function Ensured(s: Signup, log: seq<Operation>, op: Operation, index: nat, net: Net)
    : (seq<Operation>, Result<Outcome, Refusal>)
  {
    match Decide(s, Fetched(log, net), op, index)
    case Skip => (log, Ok(AlreadyApplied))
    case Refuse => (log, Err(if index < |log| then Differs else Gap))
    case Post =>
      var accepted := Accepts(s, log, op);
      (if accepted && !net.post.NeverArrives? then log + [op] else log,
       if !net.post.IsAnswered? then Err(RequestFailed)
       else if accepted then Ok(Submitted) else Err(Rejected))
  }

  class Directory {
    const signup: Signup
    var log: seq<Operation>

    constructor (s: Signup)
      ensures signup == s && log == []
    {
      signup := s;
      log := [];
    }

    method FetchLog(reached: bool) returns (existing: Option<seq<Operation>>)
      ensures existing == if reached && log != [] then Some(log) else None
    {
      if !reached || log == [] {
        return None;
      }
      return Some(log);
    }

    method SubmitOpInner(op: Operation, fate: PostFate) returns (r: Result<Outcome, Refusal>)
      modifies this
      ensures log == if Accepts(signup, old(log), op) && !fate.NeverArrives? then old(log) + [op] else old(log)
      ensures r.Ok? <==> fate.IsAnswered? && Accepts(signup, old(log), op)
      ensures r.Ok? ==> r.value == Submitted
      ensures r.Err? ==> r.error == if fate.IsAnswered? then Rejected else RequestFailed
    {
      if fate.NeverArrives? {
        return Err(RequestFailed);
      }
      var accepted := Accepts(signup, log, op);
      if accepted {
        log := log + [op];
      }
      if fate.LosesReply? {
        return Err(RequestFailed);
      }
      return if accepted then Ok(Submitted) else Err(Rejected);
    }

    method EnsureOpSubmitted(op: Operation, index: nat, net: Net) returns (r: Result<Outcome, Refusal>)
      modifies this
      ensures (log, r) == Ensured(signup, old(log), op, index, net)
      ensures var fetched := net.fetchReached && old(log) != [];
              if fetched && index < |old(log)| then
                && log == old(log)
                && r == if signup.cbor(old(log)[index]) == signup.cbor(op) then Ok(AlreadyApplied) else Err(Differs)
              else if fetched && |old(log)| < index then log == old(log) && r == Err(Gap)
              else
                var fits := op.prev == if old(log) == [] then None else Some(signup.Cid(old(log)[|old(log)| - 1]));
                && log == (if fits && !net.post.NeverArrives? then old(log) + [op] else old(log))
                && r == (if !net.post.IsAnswered? then Err(RequestFailed)
                         else if fits then Ok(Submitted) else Err(Rejected))
    {
      var fetched := FetchLog(net.fetchReached);
      if fetched.Some? {
        var existing := fetched.value;
        if index < |existing| {
          if signup.cbor(existing[index]) == signup.cbor(op) {
            return Ok(AlreadyApplied);
          }
          return Err(Differs);
        }
        if |existing| < index {
          return Err(Gap);
        }
      }
      r := SubmitOpInner(op, net.post);
    }

    /** The two submissions of a signup, in the order and with the early exit the caller gives them. */
    method SignUp(identityKey: string, first: Net, second: Net) returns (r: Result<Outcome, Refusal>)
      modifies this
      ensures r.Ok? ==> Ensured(signup, old(log), signup.Genesis(), 0, first).1.Ok?
      ensures var genesis := Ensured(signup, old(log), signup.Genesis(), 0, first);
              (log, r) == if genesis.1.Err? then genesis
                          else Ensured(signup, genesis.0, signup.Update(identityKey), 1, second)
      ensures old(log) == [] && first == second == Net(true, IsAnswered) ==> r.Ok?
      ensures old(log) == [] && r.Ok? ==>
                |log| == 2 && IsSignupGenesis(signup, log[0]) && IsSignupUpdate(signup, log[1], log[0], identityKey)
    {
      OperationsSpelledOut(signup, identityKey);
      r := EnsureOpSubmitted(signup.Genesis(), 0, first);
      if r.Ok? {
        r := EnsureOpSubmitted(signup.Update(identityKey), 1, second);
      }
    }
  }

  /** One call of ensure_op_submitted is a submission of the machine, under every fault. */
  lemma EnsuredIsSubmission(s: Signup, keys: set<string>, w: World, id: nat, index: nat, net: Net)
    requires s.NoCollision(keys) && Inv(s, keys, w)
    requires id in w.attempts && w.attempts[id].phase == Fetching(index)
    ensures var op := s.OpAt(w.attempts[id].identityKey, index);
            var ensured := Ensured(s, w.log, op, index, net);
            var after := Submission(s, w, id, op, net);
            && after.log == ensured.0
            && after.attempts == w.attempts[id := w.attempts[id].(phase :=
                 if ensured.1.Ok? then Advance(index) else Failed)]
  {
    var op := s.OpAt(w.attempts[id].identityKey, index);
    var fetched := Fetched(w.log, net);
    var chosen := Step(s, Step(s, w, Fetch(id, net.fetchReached)), Choose(id));
    ChosenWorld(s, w, id, net);
    match Decide(s, fetched, op, index)
    case Post => PostedSubmission(s, w, id, op, net, chosen);
    case Skip =>
      CompleteSlotIsClosed(s, keys, w.log, op, index, w.attempts[id].identityKey);
      SettledSubmission(s, w, id, op, net, chosen);
    case Refuse =>
      assert index < |w.log|;
      CompleteSlotIsClosed(s, keys, w.log, op, index, w.attempts[id].identityKey);
      SettledSubmission(s, w, id, op, net, chosen);
  }

  lemma ChosenWorld(s: Signup, w: World, id: nat, net: Net)
    requires id in w.attempts && w.attempts[id].phase.Fetching?
    ensures var a := w.attempts[id];
            var op := s.OpAt(a.identityKey, a.phase.index);
            Step(s, Step(s, w, Fetch(id, net.fetchReached)), Choose(id)) ==
              match Decide(s, Fetched(w.log, net), op, a.phase.index)
              case Skip => Moved(w, id, Advance(a.phase.index))
              case Refuse => Moved(w, id, Failed)
              case Post => Moved(w, id, Waiting(a.phase.index)).(wire := w.wire + {op})
  {
    var a := w.attempts[id];
    var asked := Step(s, w, Fetch(id, net.fetchReached));
    assert asked == Moved(w, id, Deciding(a.phase.index, Fetched(w.log, net)));
    assert forall p :: Moved(asked, id, p) == Moved(w, id, p);
  }

  /** Nothing was posted, so the later events find nothing to act on. */
  lemma SettledSubmission(s: Signup, w: World, id: nat, op: Operation, net: Net, chosen: World)
    requires chosen == Step(s, Step(s, w, Fetch(id, net.fetchReached)), Choose(id))
    requires id in chosen.attempts && !chosen.attempts[id].phase.Waiting?
    requires !Accepts(s, chosen.log, op)
    ensures Submission(s, w, id, op, net) == chosen
  {
  }

  lemma AnsweredPost(s: Signup, w: World, id: nat)
    requires id in w.attempts && w.attempts[id].phase.Waiting?
    ensures var a := w.attempts[id];
            var op := s.OpAt(a.identityKey, a.phase.index);
            var accepted := Accepts(s, w.log, op);
            var after := Step(s, w, Answered(id));
            && after.log == (if accepted then w.log + [op] else w.log)
            && after.attempts == w.attempts[id := a.(phase := if accepted then Advance(a.phase.index) else Failed)]
  {
  }

  lemma UnansweredPost(s: Signup, w: World, id: nat, op: Operation, arrives: bool)
    requires id in w.attempts && w.attempts[id].phase.Waiting? && op in w.wire
    ensures var after := Step(s, if arrives then Step(s, w, Arrives(op)) else w, ReplyLost(id));
            && after.log == (if arrives && Accepts(s, w.log, op) then w.log + [op] else w.log)
            && after.attempts == w.attempts[id := w.attempts[id].(phase := Failed)]
  {
  }

  lemma PostedSubmission(s: Signup, w: World, id: nat, op: Operation, net: Net, chosen: World)
    requires id in w.attempts && w.attempts[id].phase.Fetching?
    requires op == s.OpAt(w.attempts[id].identityKey, w.attempts[id].phase.index)
    requires chosen == Moved(w, id, Waiting(w.attempts[id].phase.index)).(wire := w.wire + {op})
    requires chosen == Step(s, Step(s, w, Fetch(id, net.fetchReached)), Choose(id))
    ensures var after := Submission(s, w, id, op, net);
            && after.log == (if Accepts(s, w.log, op) && !net.post.NeverArrives? then w.log + [op] else w.log)
            && after.attempts == w.attempts[id := w.attempts[id].(phase :=
                 if net.post.IsAnswered? && Accepts(s, w.log, op) then Advance(w.attempts[id].phase.index) else Failed)]
  {
    match net.post
    case IsAnswered => AnsweredPost(s, chosen, id);
    case LosesReply => UnansweredPost(s, chosen, id, op, true);
    case NeverArrives => UnansweredPost(s, chosen, id, op, false);
  }

  lemma CompleteSlotIsClosed(s: Signup, keys: set<string>, log: seq<Operation>, op: Operation, index: nat, key: string)
    requires s.NoCollision(keys) && IsChain(s, keys, log)
    requires index < |log| && key in keys && op == s.OpAt(key, index)
    ensures !Accepts(s, log, op)
  {
    if Accepts(s, log, op) {
      AcceptedExtendsChain(s, keys, log, op);
    }
  }

  // ---- Resumption ----

  function Undisturbed(s: Signup, w: World, id: nat, key: string): World {
    var begun := Step(s, w, Begin(id, key));
    Submission(s, Submission(s, begun, id, s.Genesis(), NO_FAULT), id, s.Update(key), NO_FAULT)
  }

  lemma SubmissionKeepsInv(s: Signup, keys: set<string>, w: World, id: nat)
    requires s.NoCollision(keys) && Inv(s, keys, w)
    ensures Inv(s, keys, Submission(s, w, id, s.Genesis(), NO_FAULT))
  {
    var fetched := Step(s, w, Fetch(id, true));
    StepKeepsInv(s, keys, w, Fetch(id, true));
    StepKeepsInv(s, keys, fetched, Choose(id));
    StepKeepsInv(s, keys, Step(s, fetched, Choose(id)), Answered(id));
  }

  lemma GenesisSubmitted(s: Signup, keys: set<string>, w: World, id: nat)
    requires s.NoCollision(keys) && Inv(s, keys, w)
    requires id in w.attempts && w.attempts[id].phase == Fetching(0)
    ensures var after := Submission(s, w, id, s.Genesis(), NO_FAULT);
            && Inv(s, keys, after)
            && id in after.attempts && after.attempts[id] == w.attempts[id].(phase := Fetching(1))
            && after.log == if w.log == [] then [s.Genesis()] else w.log
  {
    EnsuredIsSubmission(s, keys, w, id, 0, NO_FAULT);
    SubmissionKeepsInv(s, keys, w, id);
  }

  lemma UpdateSubmitted(s: Signup, keys: set<string>, w: World, id: nat, key: string)
    requires s.NoCollision(keys) && Inv(s, keys, w)
    requires id in w.attempts && w.attempts[id] == Attempt(key, Fetching(1))
    ensures var after := Submission(s, w, id, s.Update(key), NO_FAULT);
            && id in after.attempts
            && (after.attempts[id].phase.Done? <==> |w.log| < 2 || w.log[1] == s.Update(key))
            && (|w.log| < 2 ==> after.log == w.log + [s.Update(key)])
  {
    EnsuredIsSubmission(s, keys, w, id, 1, NO_FAULT);
    if |w.log| == 2 {
      var k :| k in keys && w.log[1] == s.Update(k);
    }
  }

  /** From whatever earlier attempts left behind, an undisturbed attempt succeeds exactly when the
      directory is not already complete with another identity key. */
  lemma UndisturbedAttempt(s: Signup, keys: set<string>, w: World, id: nat, key: string)
    requires s.NoCollision(keys) && Inv(s, keys, w)
    requires id !in w.attempts && key in keys
    ensures var after := Undisturbed(s, w, id, key);
            && id in after.attempts
            && (after.attempts[id].phase.Done? <==> |w.log| < 2 || w.log[1] == s.Update(key))
            && (|w.log| < 2 ==> after.log == [s.Genesis(), s.Update(key)])
  {
    var begun := Step(s, w, Begin(id, key));
    BeginKeepsInv(s, keys, w, id, key);
    GenesisSubmitted(s, keys, begun, id);
    UpdateSubmitted(s, keys, Submission(s, begun, id, s.Genesis(), NO_FAULT), id, key);
  }
}
