/** The reconnect loop: connect, receive, back off with jitter, and stay off the network while the app is
    in the background. */
module Reconnect {
  import opened Powers

  datatype Published = Disconnected | Connecting | Connected | Reconnecting

  /** Where the loop is between two points at which the platform may background or resume the app. A
      socket that passed the background check is Adopting, then Announced; one that is adopted is
      Starting until the receive loop first looks at the flag. */
  datatype Place =
    | Top
    | Parked
    | Dialing
    | Dialed
    | Adopting
    | Announced
    | Starting
    | Receiving
    | Ended
    | Sleeping(ms: int)

  /** `dialed`, `adopted` and `closed` count sockets, the last those closed unadopted. */
  datatype State = State(
    backoff: nat,
    place: Place,
    backgrounded: bool,
    ws: bool,
    published: Published,
    dialed: nat,
    adopted: nat,
    closed: nat)

  const INITIAL := State(1, Top, false, false, Disconnected, 0, 0, 0)

  const MAX_BACKOFF := 30

  datatype Event =
    | Background
    | Resume
    | LoopTop
    | Unpark
    | DialOk
    | DialFailed
    | CheckDialed
    | Announce
    | Adopt
    | StartReceiving
    | ReceiveEnds(fiveSeconds: bool)
    | BeginSleep(jitter: real)
    | SleepOver
    | Notified

  function Min(a: nat, b: nat): nat {
    if a < b then a else b
  }

  /** The sleep in milliseconds, truncated. */
  function SleepMs(backoff: nat, jitter: real): int {
    (backoff as real * 1000.0 * jitter).Floor
  }

  predicate IsJitter(j: real) {
    0.75 <= j < 1.25
  }

  /** An event that cannot happen in `s` leaves it as it is. */
  function Step(s: State, e: Event): State {
    match e
    case Background => s.(backgrounded := true)
    case Resume => s.(backgrounded := false)
    case LoopTop =>
      if !s.place.Top? then s
      else if s.backgrounded then s.(place := Parked, published := Disconnected)
      else s.(place := Dialing, published := Connecting)
    case Unpark =>
      if s.place.Parked? && !s.backgrounded then s.(place := Top, backoff := 1) else s
    case DialOk => if s.place.Dialing? then s.(place := Dialed, dialed := s.dialed + 1) else s
    case DialFailed => if s.place.Dialing? then s.(place := Ended) else s
    case CheckDialed =>
      if !s.place.Dialed? then s
      else if s.backgrounded then s.(place := Top, closed := s.closed + 1)
      else s.(place := Adopting)
    case Announce => if s.place.Adopting? then s.(place := Announced, published := Connected) else s
    case Adopt => if s.place.Announced? then s.(place := Starting, ws := true, adopted := s.adopted + 1) else s
    case StartReceiving => if s.place.Starting? then s.(place := Receiving) else s
    case ReceiveEnds(fiveSeconds) =>
      if !s.place.Receiving? then s
      else
        var ended := s.(place := Ended, ws := false);
        if fiveSeconds then ended.(backoff := 1) else ended
    case BeginSleep(jitter) =>
      if s.place.Ended? && IsJitter(jitter)
      then s.(place := Sleeping(SleepMs(s.backoff, jitter)), published := Reconnecting) else s
    case SleepOver =>
      if s.place.Sleeping? then s.(place := Top, backoff := Min(s.backoff * 2, MAX_BACKOFF)) else s
    case Notified => if s.place.Sleeping? then s.(place := Top, backoff := 1) else s
  }

  function Run(s: State, events: seq<Event>): State
    decreases events
  {
    if events == [] then s else Run(Step(s, events[0]), events[1..])
  }

  /** Past the background check, and not yet adopted. */
  predicate IsRacing(p: Place) {
    p.Adopting? || p.Announced?
  }

  function Ones(b: bool): nat {
    if b then 1 else 0
  }

  ghost predicate Inv(s: State) {
    && s.backoff > 0
    && (s.ws <==> s.place.Starting? || s.place.Receiving?)
    && (s.ws || s.place.Announced? ==> s.published == Connected)
    && s.dialed == s.adopted + s.closed + Ones(s.place.Dialed? || IsRacing(s.place))
    && (s.place.Sleeping? ==> 750 * s.backoff <= s.place.ms < 1250 * s.backoff)
  }

  lemma FloorBetween(x: real, low: int, high: int)
    requires low as real <= x < high as real
    ensures low <= x.Floor < high
  {
  }

  lemma JitterScales(b: real, jitter: real, low: real, high: real)
    requires 0.0 < b && IsJitter(jitter)
    requires low == 750.0 * b && high == 1250.0 * b
    ensures low <= b * 1000.0 * jitter < high
  {
    var above := jitter - 0.75;
    var below := 1.25 - jitter;
    assert 0.0 <= b * above;
    assert 0.0 < b * below;
  }

  lemma FloorOfJitter(b: real, jitter: real, low: int, high: int)
    requires 0.0 < b && IsJitter(jitter)
    requires low as real == 750.0 * b && high as real == 1250.0 * b
    ensures low <= (b * 1000.0 * jitter).Floor < high
  {
    JitterScales(b, jitter, low as real, high as real);
    FloorBetween(b * 1000.0 * jitter, low, high);
  }

  lemma QuarterOf(backoff: nat)
    ensures (750 * backoff) as real == 750.0 * (backoff as real)
    ensures (1250 * backoff) as real == 1250.0 * (backoff as real)
  {
  }

  /** A sleep is within a quarter of the backoff, on either side. */
  lemma SleepBounds(backoff: nat, jitter: real)
    requires backoff > 0 && IsJitter(jitter)
    ensures 750 * backoff <= SleepMs(backoff, jitter) < 1250 * backoff
  {
    QuarterOf(backoff);
    FloorOfJitter(backoff as real, jitter, 750 * backoff, 1250 * backoff);
  }

  lemma StepKeepsInv(s: State, e: Event)
    requires Inv(s)
    ensures Inv(Step(s, e))
  {
    match e
    case BeginSleep(jitter) =>
      if IsJitter(jitter) {
        SleepBounds(s.backoff, jitter);
      }
    case _ =>
  }

  /** A resumption of the parked loop, a connection that lasted five seconds, or a wake-up. */
  predicate IsReset(s: State, e: Event) {
    || (s.place.Parked? && !s.backgrounded && e == Unpark)
    || (s.place.Receiving? && e == ReceiveEnds(true))
    || (s.place.Sleeping? && e == Notified)
  }

  predicate IsWaitedOut(s: State, e: Event) {
    s.place.Sleeping? && e == SleepOver
  }

  /** How many backoffs were waited out since the last reset, `k` of them before these events. */
  function WaitedOut(s: State, events: seq<Event>, k: nat): nat
    decreases events
  {
    if events == [] then k
    else
      WaitedOut(Step(s, events[0]), events[1..],
                if IsReset(s, events[0]) then 0 else if IsWaitedOut(s, events[0]) then k + 1 else k)
  }

  lemma BackoffStep(s: State, e: Event, k: nat)
    requires s.backoff == Min(Pow2(k), 30)
    ensures Step(s, e).backoff
         == Min(Pow2(if IsReset(s, e) then 0 else if IsWaitedOut(s, e) then k + 1 else k), 30)
  {
    assert Pow2(0) == 1 && Pow2(k + 1) == 2 * Pow2(k);
  }

  /** After k backoffs waited out since the last reset the backoff is the lesser of 2^k and 30 seconds. */
  lemma {:induction false} BackoffIsPower(s: State, events: seq<Event>, k: nat)
    requires s.backoff == Min(Pow2(k), 30)
    ensures Run(s, events).backoff == Min(Pow2(WaitedOut(s, events, k)), 30)
    decreases events
  {
    if events != [] {
      BackoffStep(s, events[0], k);
      var next := if IsReset(s, events[0]) then 0 else if IsWaitedOut(s, events[0]) then k + 1 else k;
      BackoffIsPower(Step(s, events[0]), events[1..], next);
    }
  }

  lemma {:induction false} RunKeepsInv(s: State, events: seq<Event>)
    requires Inv(s)
    ensures Inv(Run(s, events))
    decreases events
  {
    if events != [] {
      StepKeepsInv(s, events[0]);
      RunKeepsInv(Step(s, events[0]), events[1..]);
    }
  }

  /** Each sleep is within a quarter of the backoff, a socket is in use only while Connected is published,
      and every socket opened is adopted, closed, or on its way to either. */
  predicate IsSound(s: State) {
    && (s.place.Sleeping? ==> 750 * s.backoff <= s.place.ms < 1250 * s.backoff)
    && (s.ws <==> s.place.Starting? || s.place.Receiving?) && (s.ws ==> s.published == Connected)
    && (!s.place.Dialed? && !IsRacing(s.place) ==> s.dialed == s.adopted + s.closed)
  }

  lemma InvIsSound(s: State)
    requires Inv(s)
    ensures IsSound(s)
  {
  }

  /** In every run of the loop. */
  lemma EveryRun(events: seq<Event>)
    ensures IsSound(Run(INITIAL, events))
    ensures var k := WaitedOut(INITIAL, events, 0);
            Run(INITIAL, events).backoff == if Pow2(k) < 30 then Pow2(k) else 30
  {
    RunKeepsInv(INITIAL, events);
    InvIsSound(Run(INITIAL, events));
    assert Pow2(0) == 1;
    BackoffIsPower(INITIAL, events, 0);
  }

  // ---- In the background ----

  lemma BackgroundStep(s: State, e: Event)
    requires s.backgrounded && e != Resume
    ensures var after := Step(s, e);
            && after.backgrounded
            && (IsRacing(after.place) ==> IsRacing(s.place))
            && after.adopted == s.adopted + Ones(IsRacing(s.place) && !IsRacing(after.place))
            && (after.ws ==> s.ws || IsRacing(s.place))
            && (s.place.Parked? ==> after.place.Parked? && after.dialed == s.dialed)
  {
  }

  /** From the moment the app is backgrounded until it is resumed, whatever was under way: a socket is
      adopted if and only if one had passed the check before and the loop went on with it, and then
      only that one; a loop that parks stays parked without a socket. */
  lemma {:induction false} BackgroundAdoptsOnlyTheRace(s: State, events: seq<Event>)
    requires Inv(s) && s.backgrounded && Resume !in events
    ensures var after := Run(s, events);
            && after.backgrounded && Inv(after)
            && (IsRacing(after.place) ==> IsRacing(s.place))
            && after.adopted == s.adopted + Ones(IsRacing(s.place) && !IsRacing(after.place))
            && (after.ws ==> s.ws || IsRacing(s.place))
            && (s.place.Parked? ==> after.place.Parked? && !after.ws && after.dialed == s.dialed)
    decreases events
  {
    if events != [] {
      assert events[0] != Resume;
      StepKeepsInv(s, events[0]);
      BackgroundStep(s, events[0]);
      BackgroundAdoptsOnlyTheRace(Step(s, events[0]), events[1..]);
    }
  }

  /** A connect that finishes after backgrounding is closed unadopted, every one of them. */
  lemma LateConnectsAreClosed(s: State, events: seq<Event>)
    requires Inv(s) && s.backgrounded && Resume !in events && !IsRacing(s.place)
    ensures var after := Run(s, events);
            && after.adopted == s.adopted && (after.ws ==> s.ws)
            && after.closed + Ones(after.place.Dialed?) - s.closed
                 == after.dialed - s.dialed + Ones(s.place.Dialed?)
  {
    BackgroundAdoptsOnlyTheRace(s, events);
  }

  /** The race is real: backgrounded between the check and the assignment, the loop adopts the socket and
      stands connected in the background. */
  lemma RacingAdoption()
    ensures var s := Run(INITIAL, [LoopTop, DialOk, CheckDialed, Background, Announce, Adopt]);
            s.backgrounded && s.ws && s.adopted == 1 && s.published == Connected && s.place == Starting
  {
    RunCons(INITIAL, LoopTop, [DialOk, CheckDialed, Background, Announce, Adopt]);
    var dialing := Step(INITIAL, LoopTop);
    RunCons(dialing, DialOk, [CheckDialed, Background, Announce, Adopt]);
    var dialed := Step(dialing, DialOk);
    RunCons(dialed, CheckDialed, [Background, Announce, Adopt]);
    var adopting := Step(dialed, CheckDialed);
    RunCons(adopting, Background, [Announce, Adopt]);
    RunCons(Step(adopting, Background), Announce, [Adopt]);
    RunCons(Step(Step(adopting, Background), Announce), Adopt, []);
  }

  lemma RunCons(s: State, e: Event, rest: seq<Event>)
    ensures Run(s, [e] + rest) == Run(Step(s, e), rest)
  {
    assert ([e] + rest)[1..] == rest;
  }

  // ---- The code ----

  class ReconnectLoop {
    var backoffSec: nat
    var backgrounded: bool
    var ws: bool
    var published: Published

    constructor ()
      ensures Models(INITIAL)
    {
      backoffSec, backgrounded, ws, published := 1, false, false, Disconnected;
    }

    ghost predicate Models(s: State)
      reads this
    {
      backoffSec == s.backoff && backgrounded == s.backgrounded && ws == s.ws && published == s.published
    }

    /** The top of the loop: park while backgrounded, else announce the attempt. */
    method CheckBackground(ghost s: State) returns (park: bool)
      requires Models(s) && s.place.Top?
      modifies this`published
      ensures Models(Step(s, LoopTop)) && (park <==> Step(s, LoopTop).place.Parked?)
      ensures (park <==> backgrounded) && published == if backgrounded then Disconnected else Connecting
    {
      if backgrounded {
        published := Disconnected;
        return true;
      }
      published := Connecting;
      return false;
    }

    method Unparked(ghost s: State)
      requires Models(s) && s.place.Parked? && !backgrounded
      modifies this`backoffSec
      ensures Models(Step(s, Unpark))
      ensures backoffSec == 1
    {
      backoffSec := 1;
    }

    /** Whether a finished handshake may be adopted. The answer may be out of date by the time it is used. */
    method MayAdopt(ghost s: State) returns (adopt: bool)
      requires Models(s) && s.place.Dialed?
      ensures Models(Step(s, CheckDialed))
      ensures Step(s, CheckDialed).place == if adopt then Adopting else Top
      ensures adopt <==> !backgrounded
    {
      return !backgrounded;
    }

    method PublishConnected(ghost s: State)
      requires Models(s) && s.place.Adopting?
      modifies this`published
      ensures Models(Step(s, Announce))
      ensures published == Connected
    {
      published := Connected;
    }

    method AdoptSocket(ghost s: State)
      requires Models(s) && s.place.Announced?
      modifies this`ws
      ensures Models(Step(s, Adopt))
      ensures ws
    {
      ws := true;
    }

    method ConnectionEnded(elapsedMs: nat, ghost s: State)
      requires Models(s) && s.place.Receiving?
      modifies this`backoffSec, this`ws
      ensures Models(Step(s, ReceiveEnds(elapsedMs >= 5000)))
      ensures !ws && backoffSec == if elapsedMs >= 5000 then 1 else old(backoffSec)
    {
      ws := false;
      if elapsedMs >= 5000 {
        backoffSec := 1;
      }
    }

    /** The jittered backoff and how it ended: waited out, or cut short by a wake-up. */
    method Backoff(jitter: real, notified: bool, ghost s: State) returns (sleepMs: int)
      requires Models(s) && s.place.Ended? && IsJitter(jitter)
      modifies this`backoffSec, this`published
      ensures Models(Step(Step(s, BeginSleep(jitter)), if notified then Notified else SleepOver))
      ensures Step(s, BeginSleep(jitter)).place == Sleeping(sleepMs)
      ensures sleepMs as real <= old(backoffSec) as real * 1000.0 * jitter < sleepMs as real + 1.0
      ensures published == Reconnecting
      ensures backoffSec == if notified then 1 else if 2 * old(backoffSec) < 30 then 2 * old(backoffSec) else 30
    {
      sleepMs := (backoffSec as real * 1000.0 * jitter).Floor;
      published := Reconnecting;
      if notified {
        backoffSec := 1;
      } else {
        backoffSec := if backoffSec * 2 < 30 then backoffSec * 2 else 30;
      }
    }
  }
}
