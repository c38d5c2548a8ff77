/** Synchronising a client's clock with the server: `updateDiffTime`, `getCurrentTime` and the
    `TimeJumpDetector`. Times are real numbers of milliseconds. */
module ClockSync {
  import opened JsValues

  const ASSUMED_CLOCK_DRIFT := 5.0 / (3600.0 * 24.0)
  const TARGET_TIME_SYNC_QUALITY := 50.0

  /** How many milliseconds pass between regular updates. */
  const SYNC_TIME := 300_000

  /** The shared `systemTime` record. */
  datatype SystemTime = SystemTime(hasBeenSet: bool, diff: int, stdDev: real, lastSync: real, timeOriginDiff: real)

  const UNSYNCED := SystemTime(false, 0, 9999.0, 0.0, 0.0)

  /** What the handler of a reply closes over. */
  datatype Request = Request(sentTime: real, currentSyncDegradation: real, force: bool)

  function Abs(x: real): real {
    if x < 0.0 then -x else x
  }

  /** How far a clock is assumed to drift in this time. */
  function Drift(time: real): real {
    time * ASSUMED_CLOCK_DRIFT
  }

  function Round(x: real): int {
    (x + 0.5).Floor
  }

  // ------------------------------------------------------------------------- specification

  function Degradation(s: SystemTime, now: real): real {
    s.stdDev + Drift(now - s.lastSync)
  }

  function RequestFor(s: SystemTime, force: bool, now: real): Option<Request> {
    if Degradation(s, now) > TARGET_TIME_SYNC_QUALITY || force then Some(Request(now, Degradation(s, now), force))
    else None
  }

  function MeasuredDiff(sentTime: real, replyTime: real, dateNow: int, currentTime: int): int {
    Round(dateNow as real + (sentTime - replyTime) / 2.0 - currentTime as real)
  }

  function MeasuredStdDev(sentTime: real, replyTime: real): real {
    Abs(Round(sentTime - replyTime) as real) / 2.0
  }

  function Synced(r: Request, replyTime: real, dateNow: int, currentTime: int, timeOrigin: real): SystemTime {
    var diff := MeasuredDiff(r.sentTime, replyTime, dateNow, currentTime);
    SystemTime(true, diff, MeasuredStdDev(r.sentTime, replyTime), replyTime,
               (dateNow - diff) as real - (timeOrigin + replyTime))
  }

  predicate Accepted(r: Request, replyTime: real) {
    MeasuredStdDev(r.sentTime, replyTime) <= r.currentSyncDegradation || r.force
  }

  function Replied(s: SystemTime, r: Request, replyTime: real, dateNow: int, currentTime: int, timeOrigin: real): SystemTime {
    if Accepted(r, replyTime) then Synced(r, replyTime, dateNow, currentTime, timeOrigin) else s
  }

  class Client {
    var hasBeenSet: bool
    var diff: int
    var stdDev: real
    var lastSync: real
    var timeOriginDiff: real

    function Current(): SystemTime
      reads this
    {
      SystemTime(hasBeenSet, diff, stdDev, lastSync, timeOriginDiff)
    }

    constructor ()
      ensures Current() == UNSYNCED
    {
      hasBeenSet, diff, stdDev, lastSync, timeOriginDiff := false, 0, 9999.0, 0.0, 0.0;
    }

    method UpdateDiffTime(force: bool, performanceNow: real) returns (request: Option<Request>)
      ensures request == RequestFor(Current(), force, performanceNow)
    {
      var currentSyncDegradation := stdDev + Drift(performanceNow - lastSync);
      if currentSyncDegradation > TARGET_TIME_SYNC_QUALITY || force {
        request := Some(Request(performanceNow, currentSyncDegradation, force));
      } else {
        request := None;
      }
    }

    method OnReply(request: Request, replyTime: real, dateNow: int, currentTime: int, timeOrigin: real)
      modifies this
      ensures Current() == Replied(old(Current()), request, replyTime, dateNow, currentTime, timeOrigin)
    {
      var newDiff := Round(dateNow as real + (request.sentTime - replyTime) / 2.0 - currentTime as real);
      var newStdDev := Abs(Round(request.sentTime - replyTime) as real) / 2.0;
      if newStdDev <= request.currentSyncDegradation || request.force {
        diff := newDiff;
        stdDev := newStdDev;
        lastSync := replyTime;
        hasBeenSet := true;
        var now := GetCurrentTime(dateNow);
        timeOriginDiff := now as real - (timeOrigin + replyTime);
      }
    }

    method GetCurrentTime(dateNow: int) returns (time: int)
      ensures time == dateNow - diff
    {
      time := ((dateNow - diff) as real).Floor;
    }
  }

  // ---------------------------------------------------------------------------- the clocks

  /** The client's wall clock and the server's clock, each as a function of the client's monotonic clock. */
  datatype Clocks = Clocks(wall: real -> real, server: real -> real, timeOrigin: real)

  /** Between two moments, no two of the clocks drift apart by more than is assumed. */
  ghost predicate KeepTime(c: Clocks, a: real, b: real) {
    && Abs((c.server(b) - c.server(a)) - (b - a)) <= Drift(b - a)
    && Abs((c.wall(b) - c.server(b)) - (c.wall(a) - c.server(a))) <= Drift(b - a)
  }

  /** No clock jumps, and none drifts from another by more than is assumed. */
  ghost predicate Drifting(c: Clocks) {
    forall a, b :: a <= b ==> KeepTime(c, a, b)
  }

  /** The same, but only from a moment on: before that, any clock may have jumped. */
  ghost predicate DriftingFrom(c: Clocks, t: real) {
    forall a, b :: t <= a <= b ==> KeepTime(c, a, b)
  }

  /** The true difference between the clocks, which `diff` estimates. */
  function Offset(c: Clocks, m: real): real {
    c.wall(m) - c.server(m)
  }

  /** A clock is read in whole milliseconds. */
  function ReplyAt(c: Clocks, s: SystemTime, r: Request, serverTime: real, now: real): SystemTime {
    Replied(s, r, now, c.wall(now).Floor, c.server(serverTime).Floor, c.timeOrigin)
  }

  /** How far `diff` can be from the truth: half the round trip, the drift during the round trip and since,
      and the rounding of the readings and of the results. */
  function ErrorBound(s: SystemTime, now: real): real {
    s.stdDev + Drift(2.0 * s.stdDev) + Drift(now - s.lastSync) + 2.0
  }

  // ---------------------------------------------------------------------------- one reply

  lemma {:induction false} HalfRoundTrip(sentTime: real, replyTime: real)
    requires sentTime <= replyTime
    ensures (replyTime - sentTime) / 2.0 - 0.25 <= MeasuredStdDev(sentTime, replyTime) <= (replyTime - sentTime) / 2.0 + 0.25
  {
  }

  /** At the moment of an accepted reply. */
  lemma {:induction false} ReplyIsClose(c: Clocks, s: SystemTime, r: Request, serverTime: real, now: real)
    requires KeepTime(c, serverTime, now) && r.sentTime <= serverTime <= now && Accepted(r, now)
    ensures var n := ReplyAt(c, s, r, serverTime, now);
            n.lastSync == now && Abs(n.diff as real - Offset(c, now)) <= ErrorBound(n, now)
  {
    HalfRoundTrip(r.sentTime, now);
    var n := ReplyAt(c, s, r, serverTime, now);
    var elapsed := c.server(now) - c.server(serverTime);
    assert Abs(elapsed - (now - serverTime)) <= Drift(now - serverTime);
    var exact := c.wall(now) - (now - r.sentTime) / 2.0 - c.server(serverTime);
    assert exact - Offset(c, now) == elapsed - (now - r.sentTime) / 2.0;
    assert Abs(n.diff as real - exact) <= 1.5;
  }

  /** From then on, `diff` is as close as the drift lets it be. */
  lemma {:induction false} StaysClose(c: Clocks, s: SystemTime, now: real)
    requires KeepTime(c, s.lastSync, now) && s.lastSync <= now
    requires Abs(s.diff as real - Offset(c, s.lastSync)) <= ErrorBound(s, s.lastSync)
    ensures Abs(s.diff as real - Offset(c, now)) <= ErrorBound(s, now)
  {
    assert Abs(Offset(c, now) - Offset(c, s.lastSync)) <= Drift(now - s.lastSync);
  }

  // --------------------------------------------------------------------- the worst case

  /** The error of a measurement stays within `bound`, however the clocks drift and whenever the server reads its clock. */
  ghost predicate AlwaysWithin(sentTime: real, replyTime: real, bound: real) {
    forall c, serverTime :: Drifting(c) && sentTime <= serverTime <= replyTime ==>
      Abs(Measured(c, sentTime, serverTime, replyTime) - Offset(c, replyTime)) <= bound
  }

  function Measured(c: Clocks, sentTime: real, serverTime: real, replyTime: real): real {
    MeasuredDiff(sentTime, replyTime, c.wall(replyTime).Floor, c.server(serverTime).Floor) as real
  }

  /** The server may read its clock at once, or just before the reply. */
  function EarlyError(roundTrip: real): real {
    Round(-roundTrip / 2.0) as real + roundTrip + Drift(roundTrip) + 1.0
  }

  function LateError(roundTrip: real): real {
    1.0 - Round(-roundTrip / 2.0) as real
  }

  /** A server clock that runs ahead of the client's by as much as is assumed, and reads `part` at `sentTime`. */
  function AheadClocks(sentTime: real, replyTime: real, part: real): Clocks {
    Clocks(m => m - replyTime, m => part + (m - sentTime) + Drift(m - sentTime), 0.0)
  }

  lemma {:induction false} DriftAddsUp(x: real, y: real)
    ensures Drift(x + y) == Drift(x) + Drift(y)
    ensures y >= 0.0 ==> Drift(y) >= 0.0
  {
  }

  lemma {:induction false} AheadBy(sentTime: real, replyTime: real, part: real, a: real, b: real)
    requires a <= b
    ensures var c := AheadClocks(sentTime, replyTime, part);
            c.server(b) - c.server(a) == b - a + Drift(b - a) && c.wall(b) - c.wall(a) == b - a
    ensures Drift(b - a) >= 0.0
  {
    var x, d := a - sentTime, b - a;
    DriftAddsUp(x, d);
    assert b - sentTime == x + d;
  }

  lemma {:induction false} AheadDrifts(sentTime: real, replyTime: real, part: real)
    ensures Drifting(AheadClocks(sentTime, replyTime, part))
  {
    var c := AheadClocks(sentTime, replyTime, part);
    forall a, b | a <= b
      ensures KeepTime(c, a, b)
    {
      AheadBy(sentTime, replyTime, part, a, b);
    }
  }

  lemma {:induction false} EarlyErrorIsReached(sentTime: real, replyTime: real, bound: real) returns (c: Clocks)
    requires sentTime <= replyTime && bound < EarlyError(replyTime - sentTime)
    ensures Drifting(c) && Abs(Measured(c, sentTime, sentTime, replyTime) - Offset(c, replyTime)) > bound
  {
    var trip := replyTime - sentTime;
    var margin := (EarlyError(trip) - bound) / 2.0;
    var part := if margin < 1.0 then 1.0 - margin else 0.0;
    c := AheadClocks(sentTime, replyTime, part);
    AheadDrifts(sentTime, replyTime, part);
    DriftAddsUp(0.0, 0.0);
    assert sentTime - sentTime == 0.0 && Drift(sentTime - sentTime) == 0.0;
    assert c.wall(replyTime) == 0.0 && c.server(sentTime) == part;
    assert c.server(sentTime).Floor == 0;
    assert Measured(c, sentTime, sentTime, replyTime) == Round(-trip / 2.0) as real;
    assert Offset(c, replyTime) == -part - trip - Drift(trip);
  }

  lemma {:induction false} LateErrorIsReached(sentTime: real, replyTime: real, bound: real) returns (c: Clocks)
    requires sentTime <= replyTime && bound < LateError(replyTime - sentTime)
    ensures Drifting(c) && Abs(Measured(c, sentTime, replyTime, replyTime) - Offset(c, replyTime)) > bound
  {
    var margin := (LateError(replyTime - sentTime) - bound) / 2.0;
    var part := if margin < 1.0 then 1.0 - margin else 0.0;
    c := Clocks(m => m - replyTime + part, m => m - replyTime, 0.0);
    assert c.wall(replyTime) == part && c.server(replyTime) == 0.0;
    assert c.wall(replyTime).Floor == 0;
    assert Measured(c, sentTime, replyTime, replyTime) == Round(-(replyTime - sentTime) / 2.0) as real;
  }

  /** Exactly how far a measurement can be from the truth, as a function of the round trip. */
  lemma {:induction false} WorstCase(sentTime: real, replyTime: real, bound: real)
    requires sentTime <= replyTime
    ensures AlwaysWithin(sentTime, replyTime, bound) <==>
              EarlyError(replyTime - sentTime) <= bound && LateError(replyTime - sentTime) <= bound
  {
    if bound < EarlyError(replyTime - sentTime) {
      var c := EarlyErrorIsReached(sentTime, replyTime, bound);
    } else if bound < LateError(replyTime - sentTime) {
      var c := LateErrorIsReached(sentTime, replyTime, bound);
    } else {
      forall c, serverTime | Drifting(c) && sentTime <= serverTime <= replyTime
        ensures Abs(Measured(c, sentTime, serverTime, replyTime) - Offset(c, replyTime)) <= bound
      {
        MeasurementError(c, sentTime, serverTime, replyTime);
      }
    }
  }

  lemma {:induction false} RoundShifts(n: int, x: real)
    ensures Round(n as real + x) == n + Round(x)
  {
  }

  lemma {:induction false} MeasurementError(c: Clocks, sentTime: real, serverTime: real, replyTime: real)
    requires Drifting(c) && sentTime <= serverTime <= replyTime
    ensures -LateError(replyTime - sentTime) < Measured(c, sentTime, serverTime, replyTime) - Offset(c, replyTime)
              < EarlyError(replyTime - sentTime)
  {
    var wall, atServer, atReply := c.wall(replyTime), c.server(serverTime), c.server(replyTime);
    assert KeepTime(c, serverTime, replyTime);
    ErrorFromElapsed(sentTime, replyTime, wall, atServer, atReply);
  }

  lemma {:induction false} ErrorFromElapsed(sentTime: real, replyTime: real, wall: real, atServer: real, atReply: real)
    requires 0.0 <= atReply - atServer <= (replyTime - sentTime) + Drift(replyTime - sentTime)
    ensures -LateError(replyTime - sentTime)
              < MeasuredDiff(sentTime, replyTime, wall.Floor, atServer.Floor) as real - (wall - atReply)
              < EarlyError(replyTime - sentTime)
  {
    var n, x := wall.Floor - atServer.Floor, -(replyTime - sentTime) / 2.0;
    assert wall.Floor as real + (sentTime - replyTime) / 2.0 - atServer.Floor as real == n as real + x;
    RoundShifts(n, x);
  }

  lemma {:induction false} EvenTrip(halfTrip: nat)
    ensures var trip := (2 * halfTrip) as real;
            && EarlyError(trip) == 1.0 + halfTrip as real + Drift(trip)
            && LateError(trip) == 1.0 + halfTrip as real
            && Round(-trip) == -2 * halfTrip
  {
    RoundShifts(0 - halfTrip, 0.0);
    RoundShifts(-2 * halfTrip, 0.0);
  }

  /** `stdDev` and a fixed constant do not bound the error of every measurement: the drift during the round
      trip comes on top. For a round trip of an even number of milliseconds, the constant has to be this. */
  lemma {:induction false} ConstantGrowsWithRoundTrip(sentTime: real, halfTrip: nat, constant: real)
    ensures var trip := (2 * halfTrip) as real;
            AlwaysWithin(sentTime, sentTime + trip, MeasuredStdDev(sentTime, sentTime + trip) + constant) <==>
              constant >= 1.0 + Drift(trip)
  {
    var trip := (2 * halfTrip) as real;
    var replyTime := sentTime + trip;
    EvenTrip(halfTrip);
    assert replyTime - sentTime == trip && sentTime - replyTime == -trip;
    assert MeasuredStdDev(sentTime, replyTime) == halfTrip as real;
    WorstCase(sentTime, replyTime, halfTrip as real + constant);
  }

  // ------------------------------------------------------------------------------ the runs

  /** Requests are made while others are still waiting, and each is answered, or fails, some time later. Here
      they may be answered in any order. The client's method queue answers them in the order in which they were
      made, so the runs of the client are those that are `InTurn`. */
  datatype Event = Update(force: bool) | Reply(k: nat, serverTime: real) | Failure(k: nat)

  datatype State = State(system: SystemTime, pending: seq<Request>, now: real)

  const START := State(UNSYNCED, [], 0.0)

  ghost predicate Possible(s: State, e: Event, now: real) {
    && s.now <= now
    && match e
       case Update(_) => true
       case Reply(k, serverTime) => k < |s.pending| && s.pending[k].sentTime <= serverTime <= now
       case Failure(k) => k < |s.pending|
  }

  function Without(pending: seq<Request>, k: nat): seq<Request>
    requires k < |pending|
  {
    pending[..k] + pending[k + 1..]
  }

  ghost function Step(c: Clocks, s: State, e: Event, now: real): State
    requires Possible(s, e, now)
  {
    match e
    case Update(force) =>
      var request := RequestFor(s.system, force, now);
      State(s.system, if request.Some? then s.pending + [request.value] else s.pending, now)
    case Reply(k, serverTime) =>
      State(ReplyAt(c, s.system, s.pending[k], serverTime, now), Without(s.pending, k), now)
    case Failure(k) =>
      State(s.system, Without(s.pending, k), now)
  }

  ghost predicate IsRun(c: Clocks, states: seq<State>, events: seq<Event>) {
    && |states| == |events| + 1
    && states[0] == START
    && forall i :: 0 <= i < |events| ==>
         && Possible(states[i], events[i], states[i + 1].now)
         && states[i + 1] == Step(c, states[i], events[i], states[i + 1].now)
  }

  /** Requests are answered in the order in which they were made. */
  ghost predicate InTurn(events: seq<Event>) {
    forall i :: 0 <= i < |events| ==> match events[i]
                                      case Update(_) => true
                                      case Reply(k, _) => k == 0
                                      case Failure(k) => k == 0
  }

  ghost predicate Unforced(events: seq<Event>) {
    forall i :: 0 <= i < |events| && events[i].Update? ==> !events[i].force
  }

  /** The three updates of a client's first half minute, all of which fail. */
  const STARTUP := [Update(false), Update(false), Update(false), Failure(0), Failure(0), Failure(0)]

  /** A client that has never been synchronised asks for the time at each update. */
  lemma {:induction false} UnsyncedAsks(c: Clocks, s: State, now: real)
    requires s.system == UNSYNCED && 0.0 <= s.now <= now
    ensures Possible(s, Update(false), now)
    ensures Step(c, s, Update(false), now) == State(UNSYNCED, s.pending + [Request(now, Degradation(UNSYNCED, now), false)], now)
  {
    DriftAddsUp(0.0, now);
  }

  lemma {:induction false} FailedStartup(c: Clocks) returns (states: seq<State>)
    ensures IsRun(c, states, STARTUP) && states[6] == State(UNSYNCED, [], 30000.0)
    ensures states[1].now == 0.0 && states[2].now == 5000.0 && states[3].now == 30000.0
  {
    UnsyncedAsks(c, START, 0.0);
    var s1 := Step(c, START, Update(false), 0.0);
    UnsyncedAsks(c, s1, 5000.0);
    var s2 := Step(c, s1, Update(false), 5000.0);
    UnsyncedAsks(c, s2, 30000.0);
    var s3 := Step(c, s2, Update(false), 30000.0);
    assert |s3.pending| == 3;
    states := ThreeFail(c, [START, s1, s2, s3]);
  }

  lemma {:induction false} ThreeFail(c: Clocks, before: seq<State>) returns (states: seq<State>)
    requires IsRun(c, before, STARTUP[..3]) && |before[3].pending| == 3
    ensures IsRun(c, states, STARTUP) && before == states[..4]
    ensures states[6] == State(before[3].system, [], before[3].now)
  {
    var events := STARTUP[..3];
    states := before;
    states, events := RunOn(c, states, events, Failure(0), states[3].now);
    states, events := RunOn(c, states, events, Failure(0), states[3].now);
    states, events := RunOn(c, states, events, Failure(0), states[3].now);
    assert events == STARTUP;
  }

  lemma {:induction false} RunOn(c: Clocks, before: seq<State>, happened: seq<Event>, e: Event, now: real)
    returns (states: seq<State>, events: seq<Event>)
    requires IsRun(c, before, happened) && Possible(before[|happened|], e, now)
    ensures IsRun(c, states, events) && events == happened + [e]
    ensures states == before + [Step(c, before[|happened|], e, now)]
  {
    states, events := before + [Step(c, before[|happened|], e, now)], happened + [e];
    forall i | 0 <= i < |events|
      ensures Possible(states[i], events[i], states[i + 1].now)
      ensures states[i + 1] == Step(c, states[i], events[i], states[i + 1].now)
    {
      assert states[i] == before[i] && (i < |happened| ==> events[i] == happened[i] && states[i + 1] == before[i + 1]);
    }
  }

  /** A number of intervals after which a never synchronised client still takes a reply with this
      half round trip, and half a round trip whose drift alone exceeds the constant. */
  lemma {:induction false} SlowTrip(constant: real) returns (intervals: nat, halfTrip: nat)
    ensures Drift((intervals * SYNC_TIME) as real) == halfTrip as real && intervals > 0
    ensures 1.0 + Drift((2 * halfTrip) as real) > constant
  {
    var steps: nat := if constant < 0.0 then 1 else (constant * 8640.0).Floor + 1;
    intervals, halfTrip := 72 * steps, 1250 * steps;
    assert (intervals * SYNC_TIME) as real == 21_600_000.0 * steps as real;
    assert (2 * halfTrip) as real == 2500.0 * steps as real;
  }

  /** So no constant will do: for each there are clocks and a run of a client, without force, after which the
      error exceeds `stdDev` and the constant. The updates of the startup fail, and one on the interval is
      answered slowly. */
  lemma {:induction false} NoConstantWillDo(constant: real)
    returns (c: Clocks, states: seq<State>, events: seq<Event>, intervals: nat)
    ensures Drifting(c) && IsRun(c, states, events) && Unforced(events) && InTurn(events)
    ensures |events| == 8 && events[..7] == STARTUP + [Update(false)] && events[7].Reply?
    ensures states[7].now == (intervals * SYNC_TIME) as real
    ensures var s := states[8].system;
            s.hasBeenSet && s.lastSync == states[8].now && Abs(s.diff as real - Offset(c, s.lastSync)) > s.stdDev + constant
  {
    var halfTrip;
    intervals, halfTrip := SlowTrip(constant);
    var sent, trip := (intervals * SYNC_TIME) as real, (2 * halfTrip) as real;
    EvenTrip(halfTrip);
    assert sent + trip - sent == trip && sent - (sent + trip) == -trip;
    c := EarlyErrorIsReached(sent, sent + trip, halfTrip as real + constant);
    states := FailedStartup(c);
    states, events := RunOn(c, states, STARTUP, Update(false), sent);
    UnsyncedAsks(c, states[6], sent);
    assert states[7].pending == [Request(sent, 9999.0 + halfTrip as real, false)];
    SlowReply(c, states[7], sent, halfTrip);
    states, events := RunOn(c, states, events, Reply(0, sent), sent + trip);
  }

  lemma {:induction false} SlowReply(c: Clocks, s: State, sent: real, halfTrip: nat)
    requires s.pending == [Request(sent, 9999.0 + halfTrip as real, false)] && s.now == sent
    ensures var now := sent + (2 * halfTrip) as real;
            && Possible(s, Reply(0, sent), now)
            && var r := Step(c, s, Reply(0, sent), now).system;
               r.hasBeenSet && r.lastSync == now && r.stdDev == halfTrip as real && r.diff as real == Measured(c, sent, sent, now)
  {
    var now := sent + (2 * halfTrip) as real;
    EvenTrip(halfTrip);
    assert sent - now == -((2 * halfTrip) as real);
    assert MeasuredStdDev(sent, now) == halfTrip as real;
  }

  ghost predicate Inv(c: Clocks, s: State) {
    && 0.0 <= s.system.stdDev && s.system.lastSync <= s.now
    && (s.system.hasBeenSet ==>
          Abs(s.system.diff as real - Offset(c, s.system.lastSync)) <= ErrorBound(s.system, s.system.lastSync))
  }

  lemma {:induction false} StepKeeps(c: Clocks, s: State, e: Event, now: real)
    requires Drifting(c) && Inv(c, s) && Possible(s, e, now)
    ensures Inv(c, Step(c, s, e, now))
  {
    if e.Reply? && Accepted(s.pending[e.k], now) {
      ReplyIsClose(c, s.system, s.pending[e.k], e.serverTime, now);
    }
  }

  lemma {:induction false} InvariantHolds(c: Clocks, states: seq<State>, events: seq<Event>, n: nat)
    requires Drifting(c) && IsRun(c, states, events) && n <= |events|
    ensures Inv(c, states[n])
  {
    if n > 0 {
      InvariantHolds(c, states, events, n - 1);
      StepKeeps(c, states[n-1], events[n-1], states[n].now);
    }
  }

  /** Whatever requests and replies have happened, once `systemTime` has been set, its difference is within
      the bound, and so, but for one more rounding, is the current time. */
  lemma {:induction false} SyncIsSound(c: Clocks, states: seq<State>, events: seq<Event>, n: nat, now: real)
    requires Drifting(c) && IsRun(c, states, events) && n <= |events| && states[n].now <= now
    requires states[n].system.hasBeenSet
    ensures var s := states[n].system;
            && Abs(s.diff as real - Offset(c, now)) <= ErrorBound(s, now)
            && Abs((c.wall(now).Floor - s.diff) as real - c.server(now)) <= ErrorBound(s, now) + 1.0
  {
    InvariantHolds(c, states, events, n);
    StaysClose(c, states[n].system, now);
  }

  // ---------------------------------------------------------------------- asking, and recovery

  /** An update leaves the record alone. It asks the server exactly if it is forced, or the quality is taken to be
      worse than 50 ms by now: `stdDev`, and 5 seconds for each day since the last sync. */
  lemma {:induction false} WhenToAsk(c: Clocks, s: State, force: bool, now: real)
    requires Possible(s, Update(force), now)
    ensures var r, age := Step(c, s, Update(force), now), now - s.system.lastSync;
            && r.system == s.system && r.now == now
            && (if force || s.system.stdDev + age / 17280.0 > 50.0
                then |r.pending| == |s.pending| + 1 && r.pending[..|s.pending|] == s.pending
                     && r.pending[|s.pending|].sentTime == now && r.pending[|s.pending|].force == force
                     && r.pending[|s.pending|].currentSyncDegradation == s.system.stdDev + age / 17280.0
                else r.pending == s.pending)
  {
    DriftInSeconds(now - s.system.lastSync);
  }

  lemma {:induction false} DriftInSeconds(time: real)
    ensures Drift(time) == time / 17280.0
  {
    assert ASSUMED_CLOCK_DRIFT == 1.0 / 17280.0;
  }

  /** Requests wait in the order in which they were made. */
  ghost predicate Waiting(s: State) {
    && (forall k :: 0 <= k < |s.pending| ==> s.pending[k].sentTime <= s.now)
    && (forall k, l :: 0 <= k < l < |s.pending| ==> s.pending[k].sentTime <= s.pending[l].sentTime)
  }

  lemma {:induction false} RequestsWait(c: Clocks, states: seq<State>, events: seq<Event>, n: nat)
    requires IsRun(c, states, events) && n <= |events|
    ensures Waiting(states[n])
  {
    if n > 0 {
      RequestsWait(c, states, events, n - 1);
      assert states[n] == Step(c, states[n-1], events[n-1], states[n].now);
    }
  }

  /** The record was made since the clocks have kept time, and so will those be that replace it. */
  ghost predicate Recovered(c: Clocks, t: real, s: State) {
    && t <= s.system.lastSync <= s.now
    && Abs(s.system.diff as real - Offset(c, s.system.lastSync)) <= ErrorBound(s.system, s.system.lastSync)
    && forall k :: 0 <= k < |s.pending| ==> t <= s.pending[k].sentTime
  }

  lemma {:induction false} StepRecovers(c: Clocks, t: real, s: State, e: Event, now: real)
    requires DriftingFrom(c, t) && Waiting(s) && Possible(s, e, now) && t <= s.now
    requires e.Reply? ==> e.k == 0
    requires Recovered(c, t, s) || (e.Reply? && s.pending[0].sentTime >= t && Accepted(s.pending[0], now))
    ensures Recovered(c, t, Step(c, s, e, now))
  {
    if e.Reply? && Accepted(s.pending[0], now) {
      ReplyRecovers(c, t, s, e.serverTime, now);
    }
  }

  lemma {:induction false} ReplyRecovers(c: Clocks, t: real, s: State, serverTime: real, now: real)
    requires DriftingFrom(c, t) && Waiting(s) && Possible(s, Reply(0, serverTime), now)
    requires s.pending[0].sentTime >= t && Accepted(s.pending[0], now)
    ensures Recovered(c, t, Step(c, s, Reply(0, serverTime), now))
  {
    var r := Step(c, s, Reply(0, serverTime), now);
    assert KeepTime(c, serverTime, now);
    ReplyIsClose(c, s.system, s.pending[0], serverTime, now);
    assert forall k :: 0 <= k < |r.pending| ==> r.pending[k] == s.pending[k + 1];
  }

  /** This is what force is for: whatever the clocks and the record have been before, once a forced request
      that was made after the clocks began to keep time is answered, the difference is within the bound, and
      it stays so. */
  lemma {:induction false} ForcedUpdateRecovers(c: Clocks, t: real, states: seq<State>, events: seq<Event>, n: nat, m: nat, now: real)
    requires DriftingFrom(c, t) && IsRun(c, states, events) && InTurn(events)
    requires n < m <= |events| && events[n].Reply? && states[m].now <= now
    requires states[n].pending != [] && states[n].pending[0].force && states[n].pending[0].sentTime >= t
    ensures var s := states[m].system;
            && s.hasBeenSet && Abs(s.diff as real - Offset(c, now)) <= ErrorBound(s, now)
            && Abs((c.wall(now).Floor - s.diff) as real - c.server(now)) <= ErrorBound(s, now) + 1.0
  {
    RequestsWait(c, states, events, n);
    StaysRecovered(c, t, states, events, n, m);
    assert KeepTime(c, states[m].system.lastSync, now);
    StaysClose(c, states[m].system, now);
  }

  lemma {:induction false} StaysRecovered(c: Clocks, t: real, states: seq<State>, events: seq<Event>, n: nat, m: nat)
    requires DriftingFrom(c, t) && IsRun(c, states, events) && InTurn(events) && n < m <= |events| && events[n].Reply?
    requires states[n].pending != [] && states[n].pending[0].force && states[n].pending[0].sentTime >= t
    ensures Recovered(c, t, states[m]) && states[m].system.hasBeenSet
  {
    RequestsWait(c, states, events, m - 1);
    if n < m - 1 {
      StaysRecovered(c, t, states, events, n, m - 1);
    }
    assert Possible(states[m-1], events[m-1], states[m].now);
    assert states[m] == Step(c, states[m-1], events[m-1], states[m].now);
    StepRecovers(c, t, states[m-1], events[m-1], states[m].now);
  }

  /** Time stamps of events are converted through `timeOriginDiff`. */
  lemma {:induction false} TimeStampsAreSound(c: Clocks, states: seq<State>, events: seq<Event>, n: nat, timeStamp: real)
    requires Drifting(c) && IsRun(c, states, events) && n <= |events|
    requires states[n].system.hasBeenSet
    ensures var s := states[n].system;
            Abs((c.timeOrigin + timeStamp + s.timeOriginDiff) - c.server(timeStamp))
              <= ErrorBound(s, s.lastSync) + 1.0 + Drift(Abs(timeStamp - s.lastSync))
  {
    if n > 0 {
      var before, e, s := states[n-1], events[n-1], states[n].system;
      if e.Reply? && Accepted(before.pending[e.k], states[n].now) {
        ReplyIsClose(c, before.system, before.pending[e.k], e.serverTime, states[n].now);
        assert s.timeOriginDiff + c.timeOrigin + s.lastSync == (c.wall(s.lastSync).Floor - s.diff) as real;
        if timeStamp <= s.lastSync {
          assert KeepTime(c, timeStamp, s.lastSync);
        } else {
          assert KeepTime(c, s.lastSync, timeStamp);
        }
      } else {
        TimeStampsAreSound(c, states, events, n - 1, timeStamp);
      }
    }
  }

  // --------------------------------------------------------------------------- the quality

  /** A plain reply keeps the quality of whatever record it meets, except exactly if it is worse than that
      record is by now, and no worse than the record was when the request was sent. */
  lemma {:induction false} PlainReplyKeepsQuality(c: Clocks, s: SystemTime, r: Request, serverTime: real, now: real)
    requires !r.force
    ensures Degradation(ReplyAt(c, s, r, serverTime, now), now) <= Degradation(s, now) <==>
              !(Degradation(s, now) < MeasuredStdDev(r.sentTime, now) <= r.currentSyncDegradation)
  {
  }

  /** No reply is accepted among the events from the `m`-th up to the `n`-th. */
  ghost predicate NoneAccepted(states: seq<State>, events: seq<Event>, m: nat, n: nat)
    requires n <= |events| < |states|
  {
    forall i :: m <= i < n && events[i].Reply? && events[i].k < |states[i].pending| ==>
      !Accepted(states[i].pending[events[i].k], states[i + 1].now)
  }

  lemma {:induction false} RecordUnchanged(c: Clocks, states: seq<State>, events: seq<Event>, m: nat, n: nat)
    requires IsRun(c, states, events) && m <= n <= |events| && NoneAccepted(states, events, m, n)
    ensures states[n].system == states[m].system && states[m].now <= states[n].now
  {
    if m < n {
      RecordUnchanged(c, states, events, m, n - 1);
      assert Possible(states[n-1], events[n-1], states[n].now);
      assert states[n] == Step(c, states[n-1], events[n-1], states[n].now);
    }
  }

  /** Every request that is pending was sent by an earlier update, and remembers the quality of that moment. */
  lemma {:induction false} RequestsComeFrom(c: Clocks, states: seq<State>, events: seq<Event>, n: nat, k: nat)
    returns (m: nat)
    requires IsRun(c, states, events) && n <= |events| && k < |states[n].pending|
    ensures m < n && events[m] == Update(states[n].pending[k].force)
    ensures RequestFor(states[m].system, states[n].pending[k].force, states[m + 1].now) == Some(states[n].pending[k])
  {
    var e, before := events[n-1], states[n-1];
    assert states[n] == Step(c, before, e, states[n].now);
    if e.Update? && k == |before.pending| {
      m := n - 1;
    } else {
      m := RequestsComeFrom(c, states, events, n - 1, if e.Update? || k < e.k then k else k + 1);
    }
  }

  /** In every run, a plain reply keeps the quality if no other has been accepted since its request was sent. */
  lemma {:induction false} UndisturbedReplyKeepsQuality(c: Clocks, states: seq<State>, events: seq<Event>, m: nat, n: nat)
    requires IsRun(c, states, events) && m < n < |events| && events[m] == Update(false) && events[n].Reply?
    requires events[n].k < |states[n].pending|
    requires RequestFor(states[m].system, false, states[m + 1].now) == Some(states[n].pending[events[n].k])
    requires NoneAccepted(states, events, m, n)
    ensures Degradation(states[n + 1].system, states[n + 1].now) <= Degradation(states[n].system, states[n + 1].now)
  {
    var r, now := states[n].pending[events[n].k], states[n + 1].now;
    assert Possible(states[n], events[n], now) && states[n + 1] == Step(c, states[n], events[n], now);
    RecordUnchanged(c, states, events, m, n);
    RecordUnchanged(c, states, events, m + 1, n);
    assert r.currentSyncDegradation <= Degradation(states[n].system, now);
    PlainReplyKeepsQuality(c, states[n].system, r, events[n].serverTime, now);
  }

  /** But another reply may come in between, and then a worse measurement can replace a better one: the
      requests of a client's first two updates are both judged by how little was known before the first was
      answered. */
  lemma {:induction false} WorseReplyWins(c: Clocks) returns (states: seq<State>, events: seq<Event>)
    ensures IsRun(c, states, events) && Unforced(events) && InTurn(events)
    ensures events == [Update(false), Update(false), Reply(0, 5050.0), Reply(0, 10500.0)]
    ensures states[1].now == 0.0 && states[2].now == 5000.0
    ensures states[3].system.stdDev == 2550.0 && states[4].system.stdDev == 3000.0
  {
    events := [Update(false), Update(false), Reply(0, 5050.0), Reply(0, 10500.0)];
    var s1 := Step(c, START, events[0], 0.0);
    var s2 := Step(c, s1, events[1], 5000.0);
    var s3 := Step(c, s2, events[2], 5100.0);
    assert s2.pending[0].sentTime == 0.0 && s2.pending[1].sentTime == 5000.0;
    assert Round(0.0 - 5100.0) == -5100;
    var s4 := Step(c, s3, events[3], 11000.0);
    assert Round(5000.0 - 11000.0) == -6000;
    states := [START, s1, s2, s3, s4];
  }

  ghost predicate Plain(s: State) {
    && s.system.stdDev <= 9999.0 + Drift(s.system.lastSync)
    && 0.0 <= s.system.lastSync <= s.now
    && forall k :: 0 <= k < |s.pending| ==>
         var r := s.pending[k];
         !r.force && 0.0 <= r.sentTime <= s.now && r.currentSyncDegradation <= 9999.0 + Drift(r.sentTime)
  }

  lemma {:induction false} PlainRunsStayPlain(c: Clocks, states: seq<State>, events: seq<Event>, n: nat)
    requires IsRun(c, states, events) && n <= |events|
    requires Unforced(events)
    ensures Plain(states[n])
  {
    if n > 0 {
      PlainRunsStayPlain(c, states, events, n - 1);
    }
  }

  /** Without forced updates, the drift during the round trip is that of the time since the start at most. */
  lemma {:induction false} PlainSyncIsSound(c: Clocks, states: seq<State>, events: seq<Event>, n: nat, now: real)
    requires Drifting(c) && IsRun(c, states, events) && n <= |events| && states[n].now <= now
    requires Unforced(events) && states[n].system.hasBeenSet
    ensures var s := states[n].system;
            Abs(s.diff as real - Offset(c, now))
              <= s.stdDev + Drift(now - s.lastSync)
                 + 2.0 + Drift(2.0 * (9999.0 + Drift(s.lastSync)))
  {
    SyncIsSound(c, states, events, n, now);
    PlainRunsStayPlain(c, states, events, n);
  }

  /** So a fixed constant does do for the first day. */
  lemma {:induction false} PlainSyncWithinConstant(c: Clocks, states: seq<State>, events: seq<Event>, n: nat, now: real)
    requires Drifting(c) && IsRun(c, states, events) && n <= |events| && states[n].now <= now <= 24.0 * 3600.0 * 1000.0
    requires Unforced(events) && states[n].system.hasBeenSet
    ensures var s := states[n].system;
            Abs(s.diff as real - Offset(c, now)) <= s.stdDev + Drift(now - s.lastSync) + 4.0
  {
    PlainSyncIsSound(c, states, events, n, now);
    PlainRunsStayPlain(c, states, events, n);
    assert Drift(states[n].system.lastSync) <= 5000.0;
  }

  // ----------------------------------------------------------------------------- time jumps

  class TimeJumpDetector {
    var wallTime: real
    var monotonicTime: real

    constructor (wallTime: real, monotonicTime: real)
      ensures this.wallTime == wallTime && this.monotonicTime == monotonicTime
    {
      this.wallTime, this.monotonicTime := wallTime, monotonicTime;
    }

    /** Returns what `onJumpDetected` is called with, if it is. */
    method DetectTimeJump(wall: real, monotonic: real) returns (jump: Option<real>)
      modifies this
      ensures jump == Jump(old(wallTime - monotonicTime), wall - monotonic)
      ensures wallTime - monotonicTime == Baseline(old(wallTime - monotonicTime), wall - monotonic)
      ensures jump == None ==> wallTime == old(wallTime) && monotonicTime == old(monotonicTime)
    {
      var currentDiff := wall - monotonic;
      var previousDiff := wallTime - monotonicTime;
      var syncDiff := currentDiff - previousDiff;
      if Abs(syncDiff) > TARGET_TIME_SYNC_QUALITY {
        wallTime := wall;
        monotonicTime := monotonic;
        jump := Some(syncDiff);
      } else {
        jump := None;
      }
    }
  }

  function Jump(baseline: real, current: real): Option<real> {
    if Abs(current - baseline) > TARGET_TIME_SYNC_QUALITY then Some(current - baseline) else None
  }

  /** The difference that the next check compares with. */
  function Baseline(baseline: real, current: real): real {
    if Jump(baseline, current).Some? then current else baseline
  }

  /** The baseline, and the sum of all jumps reported, after a number of checks. */
  function Checked(baseline: real, checks: seq<real>): (real, real) {
    if checks == [] then (baseline, 0.0)
    else
      var (before, reported) := Checked(baseline, checks[..|checks|-1]);
      var current := checks[|checks|-1];
      (Baseline(before, current), reported + Jump(before, current).GetOr(0.0))
  }

  /** The jumps reported add up to what the wall clock has really moved by, within the target quality:
      no jump or skew goes missing, however slow, and none is reported twice. */
  lemma {:induction false} ReportedJumpsAddUp(baseline: real, checks: seq<real>)
    ensures var (after, reported) := Checked(baseline, checks);
            && after == baseline + reported
            && (checks != [] ==> Abs(checks[|checks|-1] - (baseline + reported)) <= TARGET_TIME_SYNC_QUALITY)
  {
    if checks != [] {
      ReportedJumpsAddUp(baseline, checks[..|checks|-1]);
    }
  }

  /** A clock that stays within the target of the baseline is never reported. */
  lemma {:induction false} SteadyClockIsNotReported(baseline: real, checks: seq<real>)
    requires forall i :: 0 <= i < |checks| ==> Abs(checks[i] - baseline) <= 50.0
    ensures Checked(baseline, checks) == (baseline, 0.0)
  {
    if checks != [] {
      SteadyClockIsNotReported(baseline, checks[..|checks|-1]);
    }
  }

  /** A clock that has moved beyond it is reported at the next check, with all that it has moved by. */
  lemma {:induction false} JumpIsReported(baseline: real, checks: seq<real>, current: real)
    requires Abs(current - Checked(baseline, checks).0) > 50.0
    ensures var before, after := Checked(baseline, checks), Checked(baseline, checks + [current]);
            after == (current, before.1 + (current - before.0))
  {
    assert (checks + [current])[..|checks|] == checks;
  }
}
