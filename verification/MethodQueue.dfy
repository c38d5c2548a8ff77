/** The client method queue of `MeteorApply`, whose warnings about late methods are themselves sent
    through the queue. `Date.now()` is an arbitrary function from the number of the reading to a time. */
module MethodQueue {
  import opened JsValues

  const MAX_LOG_COUNT := 10
  const DEFAULT_WARN_TIME := 1000

  /** `None` where the option, or all of `sendOptions`, is absent. */
  datatype SendOptions = SendOptions(warnSendTime: Option<int>, warnCompleteTime: Option<int>)

  const NO_OPTIONS := SendOptions(None, None)

  datatype Method = Method(id: nat, queueTime: int, sendOptions: SendOptions, running: bool)

  /** What the callback of a sent method closes over. */
  datatype Sent = Sent(nextMethod: Method, sendTime: int)

  /** What Meteor calls back with, and what the promise of the caller comes to: opaque here. */
  datatype Outcome = Resolved(res: string) | Rejected(err: string)

  /** The variables of the module, the callbacks and timers it is waiting for, and its history: the ids
      of the methods sent, completed and settled so far. Methods get their ids in the order of the calls. */
  datatype State = State(
    queue: seq<Method>,
    loggedWarningCount: nat,
    tooManyWarnings: bool,
    skippedWarningCount: nat,
    inFlight: seq<Sent>,
    pendingChecks: nat,
    coolDowns: nat,
    nextId: nat,
    sent: seq<nat>,
    completed: seq<nat>,
    settled: seq<(nat, Outcome)>,
    readings: nat)

  const INITIAL := State([], 0, false, 0, [], 0, 0, 0, [], [], [], 0)

  // ------------------------------------------------------------------------- specification

  /** Can a check still send something? If not, there is no way back into `LogWarning`. */
  predicate HeadIdle(queue: seq<Method>) {
    queue == [] || !queue[0].running
  }

  function Rest(queue: seq<Method>): seq<Method> {
    if queue == [] then [] else queue[1..]
  }

  function Pushed(s: State, sendOptions: SendOptions, clock: nat -> int): State {
    s.(queue := s.queue + [Method(s.nextId, clock(s.readings), sendOptions, false)],
       nextId := s.nextId + 1, readings := s.readings + 1)
  }

  function Enqueued(s: State, sendOptions: SendOptions, clock: nat -> int): State
    decreases HeadIdle(s.queue), 2
  {
    Checked(Pushed(s, sendOptions, clock), clock)
  }

  function HeadStarted(s: State): State
    requires s.queue != []
  {
    s.(queue := s.queue[0 := s.queue[0].(running := true)], readings := s.readings + 1)
  }

  predicate SentLate(s: State, clock: nat -> int)
    requires s.queue != []
  {
    clock(s.readings) - s.queue[0].queueTime > s.queue[0].sendOptions.warnSendTime.GetOr(DEFAULT_WARN_TIME)
  }

  function Checked(s: State, clock: nat -> int): State
    decreases HeadIdle(s.queue), 1
  {
    if s.queue == [] || s.queue[0].running then s
    else
      var started := HeadStarted(s);
      var warned := if SentLate(s, clock) then Warned(started, clock) else started;
      warned.(inFlight := warned.inFlight + [Sent(started.queue[0], clock(s.readings))],
              sent := warned.sent + [s.queue[0].id])
  }

  function Warned(s: State, clock: nat -> int): State
    decreases HeadIdle(s.queue), 3
  {
    if s.tooManyWarnings then s.(skippedWarningCount := s.skippedWarningCount + 1)
    else
      var logged := Enqueued(s.(loggedWarningCount := s.loggedWarningCount + 1), NO_OPTIONS, clock);
      if s.loggedWarningCount + 1 > MAX_LOG_COUNT
      then logged.(tooManyWarnings := true, coolDowns := logged.coolDowns + 1)
      else logged
  }

  predicate CompletedLate(call: Sent, now: int) {
    now - call.sendTime > call.nextMethod.sendOptions.warnCompleteTime.GetOr(DEFAULT_WARN_TIME)
  }

  function Shifted(s: State, k: nat): State
    requires k < |s.inFlight|
  {
    s.(queue := Rest(s.queue), pendingChecks := s.pendingChecks + 1,
       inFlight := s.inFlight[..k] + s.inFlight[k + 1..],
       completed := s.completed + [s.inFlight[k].nextMethod.id], readings := s.readings + 1)
  }

  function ShiftedAndWarned(s: State, k: nat, clock: nat -> int): State
    requires k < |s.inFlight|
  {
    if CompletedLate(s.inFlight[k], clock(s.readings)) then Warned(Shifted(s, k), clock) else Shifted(s, k)
  }

  /** The callback of the `k`-th method in flight. The caller's promise is settled last. */
  function Returned(s: State, k: nat, outcome: Outcome, clock: nat -> int): State
    requires k < |s.inFlight|
  {
    var r := ShiftedAndWarned(s, k, clock);
    r.(settled := r.settled + [(s.inFlight[k].nextMethod.id, outcome)])
  }

  function CooledDown(s: State, clock: nat -> int): State
    requires s.coolDowns > 0
  {
    var fired := s.(coolDowns := s.coolDowns - 1);
    var warned := if s.skippedWarningCount > 0 then Enqueued(fired, NO_OPTIONS, clock) else fired;
    warned.(tooManyWarnings := false, skippedWarningCount := 0, loggedWarningCount := 0)
  }

  // ------------------------------------------------------------------------ the module itself

  class MeteorMethodQueue {
    var meteorMethodQueue: seq<Method>
    var loggedWarningCount: nat
    var tooManyWarnings: bool
    var skippedWarningCount: nat

    const clock: nat -> int
    var readings: nat

    // What Meteor and the timers hold, and the history of the queue
    ghost var inFlight: seq<Sent>
    ghost var pendingChecks: nat
    ghost var coolDowns: nat
    ghost var sent: seq<nat>
    ghost var completed: seq<nat>
    ghost var settled: seq<(nat, Outcome)>
    var nextId: nat

    ghost function Current(): State
      reads this
    {
      State(meteorMethodQueue, loggedWarningCount, tooManyWarnings, skippedWarningCount,
            inFlight, pendingChecks, coolDowns, nextId, sent, completed, settled, readings)
    }

    constructor (clock: nat -> int)
      ensures Current() == INITIAL && this.clock == clock
    {
      this.clock := clock;
      meteorMethodQueue, loggedWarningCount, tooManyWarnings, skippedWarningCount := [], 0, false, 0;
      inFlight, pendingChecks, coolDowns, nextId, sent, completed, settled, readings := [], 0, 0, 0, [], [], [], 0;
    }

    method DateNow() returns (now: int)
      modifies this`readings
      ensures now == clock(old(readings)) && readings == old(readings) + 1
    {
      now := clock(readings);
      readings := readings + 1;
    }

    method MeteorApply(sendOptions: SendOptions)
      modifies this
      ensures Current() == Enqueued(old(Current()), sendOptions, clock)
      decreases HeadIdle(meteorMethodQueue), 2
    {
      var now := DateNow();
      meteorMethodQueue := meteorMethodQueue + [Method(nextId, now, sendOptions, false)];
      nextId := nextId + 1;
      CheckMethodQueue();
    }

    method CheckMethodQueue()
      modifies this
      ensures Current() == Checked(old(Current()), clock)
      decreases HeadIdle(meteorMethodQueue), 1
    {
      if meteorMethodQueue == [] {
        return;
      }
      if !meteorMethodQueue[0].running {
        var nextMethod := meteorMethodQueue[0].(running := true);
        meteorMethodQueue := meteorMethodQueue[0 := nextMethod];
        var sendTime := DateNow();
        if sendTime - nextMethod.queueTime > nextMethod.sendOptions.warnSendTime.GetOr(DEFAULT_WARN_TIME) {
          LogWarning();
        }
        inFlight := inFlight + [Sent(nextMethod, sendTime)];
        sent := sent + [nextMethod.id];
      }
    }

    /** The callback given to `Meteor.apply`. */
    method OnReturned(call: Sent, outcome: Outcome, ghost k: nat)
      requires k < |inFlight| && inFlight[k] == call
      modifies this
      ensures Current() == Returned(old(Current()), k, outcome, clock)
    {
      var completeTime := Complete(call, k);
      WarnIfCompletedLate(call, completeTime);
      settled := settled + [(call.nextMethod.id, outcome)];
    }

    method Complete(call: Sent, ghost k: nat) returns (completeTime: int)
      requires k < |inFlight| && inFlight[k] == call
      modifies this
      ensures Current() == Shifted(old(Current()), k) && completeTime == clock(old(readings))
    {
      inFlight, completed := inFlight[..k] + inFlight[k + 1..], completed + [call.nextMethod.id];
      meteorMethodQueue := if meteorMethodQueue == [] then [] else meteorMethodQueue[1..];
      pendingChecks := pendingChecks + 1;
      completeTime := DateNow();
    }

    method WarnIfCompletedLate(call: Sent, completeTime: int)
      modifies this
      ensures Current() == if CompletedLate(call, completeTime) then Warned(old(Current()), clock) else old(Current())
    {
      if completeTime - call.sendTime > call.nextMethod.sendOptions.warnCompleteTime.GetOr(DEFAULT_WARN_TIME) {
        LogWarning();
      }
    }

    /** The timer that follows each callback. */
    method OnCheckTimer()
      requires pendingChecks > 0
      modifies this
      ensures Current() == Checked(old(Current()).(pendingChecks := old(pendingChecks) - 1), clock)
    {
      pendingChecks := pendingChecks - 1;
      CheckMethodQueue();
    }

    method LogWarning()
      modifies this
      ensures Current() == Warned(old(Current()), clock)
      decreases HeadIdle(meteorMethodQueue), 4
    {
      if !tooManyWarnings {
        loggedWarningCount := loggedWarningCount + 1;
        if loggedWarningCount > MAX_LOG_COUNT {
          LoggerWarn();
          tooManyWarnings := true;
          coolDowns := coolDowns + 1;
        } else {
          LoggerWarn();
        }
      } else {
        skippedWarningCount := skippedWarningCount + 1;
      }
    }

    /** On a client, the logger sends the warning to the server, as one more method. */
    method LoggerWarn()
      modifies this
      ensures Current() == Enqueued(old(Current()), NO_OPTIONS, clock)
      decreases HeadIdle(meteorMethodQueue), 3
    {
      MeteorApply(NO_OPTIONS);
    }

    method OnCoolDownTimer()
      requires coolDowns > 0
      modifies this
      ensures Current() == CooledDown(old(Current()), clock)
    {
      coolDowns := coolDowns - 1;
      if skippedWarningCount > 0 {
        LoggerWarn();
      }
      tooManyWarnings, skippedWarningCount, loggedWarningCount := false, 0, 0;
    }

    method OnHour()
      modifies this
      ensures Current() == old(Current()).(loggedWarningCount := if old(tooManyWarnings) then old(loggedWarningCount) else 0)
    {
      if !tooManyWarnings {
        loggedWarningCount := 0;
      }
    }
  }

  // ------------------------------------------------------------------------------ the runs

  datatype Event = Apply(sendOptions: SendOptions) | Return(k: nat, outcome: Outcome) | CheckTimer | CoolDownTimer | Hour

  predicate Enabled(s: State, e: Event) {
    match e
    case Return(k, _) => k < |s.inFlight|
    case CheckTimer => s.pendingChecks > 0
    case CoolDownTimer => s.coolDowns > 0
    case _ => true
  }

  function Step(s: State, e: Event, clock: nat -> int): State
    requires Enabled(s, e)
  {
    match e
    case Apply(sendOptions) => Enqueued(s, sendOptions, clock)
    case Return(k, outcome) => Returned(s, k, outcome, clock)
    case CheckTimer => Checked(s.(pendingChecks := s.pendingChecks - 1), clock)
    case CoolDownTimer => CooledDown(s, clock)
    case Hour => s.(loggedWarningCount := if s.tooManyWarnings then s.loggedWarningCount else 0)
  }

  /** A run: every event is possible when it happens. */
  ghost predicate IsRun(states: seq<State>, events: seq<Event>, clock: nat -> int) {
    && |states| == |events| + 1
    && states[0] == INITIAL
    && forall i :: 0 <= i < |events| ==> Enabled(states[i], events[i]) && states[i + 1] == Step(states[i], events[i], clock)
  }

  // -------------------------------------------------------------------------- the invariant

  function Ids(queue: seq<Method>): seq<nat> {
    seq(|queue|, i requires 0 <= i < |queue| => queue[i].id)
  }

  function UpTo(n: nat): seq<nat> {
    seq(n, i requires 0 <= i => i)
  }

  /** Order is kept: the ids completed and queued are all ids so far, in order; only the head runs;
      and everything that was sent is completed, except the head while it runs. `sending` is the moment
      in which the head is marked as running and not sent yet. */
  ghost predicate InOrder(s: State, sending: bool) {
    && s.completed + Ids(s.queue) == UpTo(s.nextId)
    && (forall i :: 0 < i < |s.queue| ==> !s.queue[i].running)
    && (sending ==> !HeadIdle(s.queue))
    && (if HeadIdle(s.queue) || sending then s.sent == s.completed && s.inFlight == []
        else s.sent == s.completed + [s.queue[0].id] && |s.inFlight| == 1 && s.inFlight[0].nextMethod == s.queue[0])
  }

  /** Each completed method has been settled, and the promises in the order of the methods. */
  ghost predicate SettledInOrder(s: State) {
    |s.settled| == |s.completed| && forall i :: 0 <= i < |s.settled| ==> s.settled[i].0 == s.completed[i]
  }

  /** Warnings are counted up to the limit, and skipped only beyond it; and each one counted is a method. */
  ghost predicate WarningsCounted(s: State) {
    && (s.skippedWarningCount > 0 ==> s.tooManyWarnings)
    && (s.tooManyWarnings ==> s.coolDowns > 0 && s.loggedWarningCount <= MAX_LOG_COUNT + 2)
    && (!s.tooManyWarnings ==> s.loggedWarningCount <= MAX_LOG_COUNT)
  }

  ghost predicate NotStuck(s: State) {
    s.queue != [] && !s.queue[0].running ==> s.pendingChecks > 0
  }

  ghost predicate Inv(s: State) {
    InOrder(s, false) && SettledInOrder(s) && WarningsCounted(s) && NotStuck(s) && s.loggedWarningCount <= s.nextId
  }

  /** Checks, enqueues and warnings complete nothing and only add to the queue; while the head runs,
      they send nothing either. */
  ghost predicate OnlyAdds(s: State, r: State) {
    && s.completed == r.completed && s.settled == r.settled && s.pendingChecks == r.pendingChecks
    && |s.queue| <= |r.queue| && s.nextId <= r.nextId
    && r.loggedWarningCount - s.loggedWarningCount <= r.nextId - s.nextId
    && (!HeadIdle(s.queue) ==> r.queue[0] == s.queue[0] && s.inFlight == r.inFlight && s.sent == r.sent)
  }

  lemma {:induction false} PushedKeeps(s: State, sendOptions: SendOptions, clock: nat -> int, sending: bool)
    requires InOrder(s, sending)
    ensures InOrder(Pushed(s, sendOptions, clock), sending)
  {
    var r := Pushed(s, sendOptions, clock);
    assert Ids(r.queue) == Ids(s.queue) + [s.nextId];
    assert UpTo(r.nextId) == UpTo(s.nextId) + [s.nextId];
  }

  lemma {:induction false} EnqueuedKeeps(s: State, sendOptions: SendOptions, clock: nat -> int, sending: bool)
    requires InOrder(s, sending)
    ensures var r := Enqueued(s, sendOptions, clock);
            InOrder(r, sending) && OnlyAdds(s, r) && !HeadIdle(r.queue)
            && r.loggedWarningCount - s.loggedWarningCount < r.nextId - s.nextId
    decreases HeadIdle(s.queue), 2
  {
    PushedKeeps(s, sendOptions, clock, sending);
    CheckedKeeps(Pushed(s, sendOptions, clock), clock, sending);
  }

  lemma {:induction false} CheckedKeeps(s: State, clock: nat -> int, sending: bool)
    requires InOrder(s, sending)
    ensures var r := Checked(s, clock);
            InOrder(r, sending) && OnlyAdds(s, r) && (s.queue != [] ==> !HeadIdle(r.queue))
    decreases HeadIdle(s.queue), 1
  {
    if s.queue != [] && !s.queue[0].running {
      var started := HeadStarted(s);
      assert Ids(started.queue) == Ids(s.queue);
      if SentLate(s, clock) {
        WarnedKeeps(started, clock, true);
      }
    }
  }

  lemma {:induction false} WarnedKeeps(s: State, clock: nat -> int, sending: bool)
    requires InOrder(s, sending)
    ensures var r := Warned(s, clock);
            InOrder(r, sending) && OnlyAdds(s, r) && (HeadIdle(r.queue) ==> r.queue == s.queue)
    decreases HeadIdle(s.queue), 3
  {
    if !s.tooManyWarnings {
      EnqueuedKeeps(s.(loggedWarningCount := s.loggedWarningCount + 1), NO_OPTIONS, clock, sending);
    }
  }

  // --------------------------------------------------------------------------- the warnings

  ghost predicate NoWarning(s: State, r: State) {
    && r.loggedWarningCount == s.loggedWarningCount && r.tooManyWarnings == s.tooManyWarnings
    && r.skippedWarningCount == s.skippedWarningCount && r.coolDowns == s.coolDowns
  }

  ghost predicate OneWarning(s: State, r: State) {
    if s.tooManyWarnings then
      NoWarning(s.(skippedWarningCount := s.skippedWarningCount + 1), r)
    else if s.loggedWarningCount >= MAX_LOG_COUNT then
      NoWarning(s.(loggedWarningCount := s.loggedWarningCount + 1, tooManyWarnings := true, coolDowns := s.coolDowns + 1), r)
    else
      NoWarning(s.(loggedWarningCount := s.loggedWarningCount + 1), r)
  }

  /** A check warns when it finds a head to send, and finds it late. */
  predicate WarnsOnCheck(s: State, clock: nat -> int) {
    s.queue != [] && !s.queue[0].running && SentLate(s, clock)
  }

  /** While the head runs, a warning leads to no further one. */
  lemma {:induction false} WarnedOnce(s: State, clock: nat -> int)
    requires !HeadIdle(s.queue)
    ensures OneWarning(s, Warned(s, clock))
  {
    var more := Pushed(s.(loggedWarningCount := s.loggedWarningCount + 1), NO_OPTIONS, clock);
    assert more.queue[0] == s.queue[0];
    assert Checked(more, clock) == more;
  }

  lemma {:induction false} CheckedWarns(s: State, clock: nat -> int)
    ensures if WarnsOnCheck(s, clock) then OneWarning(s, Checked(s, clock)) else NoWarning(s, Checked(s, clock))
  {
    if WarnsOnCheck(s, clock) {
      WarnedOnce(HeadStarted(s), clock);
    }
  }

  lemma {:induction false} CheckedCounts(s: State, clock: nat -> int)
    requires WarningsCounted(s)
    ensures WarningsCounted(Checked(s, clock))
  {
    CheckedWarns(s, clock);
  }

  lemma {:induction false} WarnedCounts(s: State, clock: nat -> int)
    requires WarningsCounted(s)
    ensures WarningsCounted(Warned(s, clock))
  {
    CheckedWarns(Pushed(s.(loggedWarningCount := s.loggedWarningCount + 1), NO_OPTIONS, clock), clock);
  }

  /** The check that a warning leads to when the logger puts it in the queue. */
  predicate WarnsAgain(s: State, clock: nat -> int) {
    WarnsOnCheck(Pushed(s, NO_OPTIONS, clock), clock)
  }

  /** One warning starts two cool-down timers exactly when it is the one beyond the limit and sending it
      finds the next method late: the flag is set only after the logger has been called. */
  lemma {:induction false} TwoCoolDowns(s: State, clock: nat -> int)
    requires WarningsCounted(s)
    ensures Warned(s, clock).coolDowns <= s.coolDowns + 2
    ensures Warned(s, clock).coolDowns == s.coolDowns + 2 <==>
              !s.tooManyWarnings && s.loggedWarningCount == MAX_LOG_COUNT && WarnsAgain(s, clock)
  {
    var logged := s.(loggedWarningCount := s.loggedWarningCount + 1);
    var pushed := Pushed(logged, NO_OPTIONS, clock);
    assert pushed.queue == Pushed(s, NO_OPTIONS, clock).queue;
    CheckedWarns(pushed, clock);
  }

  // --------------------------------------------------------------------------- over a run

  lemma {:induction false} ShiftedInOrder(s: State, k: nat)
    requires InOrder(s, false) && k < |s.inFlight|
    ensures InOrder(Shifted(s, k), false)
  {
    var shifted := Shifted(s, k);
    assert shifted.completed == s.sent;
    assert Ids(s.queue) == [s.queue[0].id] + Ids(shifted.queue);
  }

  lemma {:induction false} ReturnedKeeps(s: State, k: nat, outcome: Outcome, clock: nat -> int)
    requires Inv(s) && k < |s.inFlight|
    ensures Inv(Returned(s, k, outcome, clock))
  {
    var shifted := Shifted(s, k);
    ShiftedInOrder(s, k);
    assert shifted.completed == s.completed + [s.queue[0].id];
    WarnedKeeps(shifted, clock, false);
    WarnedCounts(shifted, clock);
  }

  lemma {:induction false} StepKeeps(s: State, e: Event, clock: nat -> int)
    requires Inv(s) && Enabled(s, e)
    ensures Inv(Step(s, e, clock))
  {
    match e
    case Apply(sendOptions) =>
      EnqueuedKeeps(s, sendOptions, clock, false);
      CheckedCounts(Pushed(s, sendOptions, clock), clock);
    case Return(k, outcome) =>
      ReturnedKeeps(s, k, outcome, clock);
    case CheckTimer =>
      var fired := s.(pendingChecks := s.pendingChecks - 1);
      CheckedKeeps(fired, clock, false);
      CheckedCounts(fired, clock);
    case CoolDownTimer =>
      if s.skippedWarningCount > 0 {
        EnqueuedKeeps(s.(coolDowns := s.coolDowns - 1), NO_OPTIONS, clock, false);
      }
    case Hour =>
  }

  lemma {:induction false} InvariantHolds(states: seq<State>, events: seq<Event>, clock: nat -> int, n: nat)
    requires IsRun(states, events, clock) && n <= |events|
    ensures Inv(states[n])
  {
    if n == 0 {
      assert UpTo(0) == [] + Ids([]);
    } else {
      InvariantHolds(states, events, clock, n - 1);
      StepKeeps(states[n-1], events[n-1], clock);
    }
  }

  /** In every reachable state: methods have been completed and sent in the order of the calls, each once;
      at most one method, the head of the queue, is in flight. */
  lemma {:induction false} FirstInFirstOut(states: seq<State>, events: seq<Event>, clock: nat -> int, n: nat)
    requires IsRun(states, events, clock) && n <= |events|
    ensures var s := states[n];
            && s.completed == UpTo(|s.completed|) && s.sent == UpTo(|s.sent|)
            && |s.completed| + |s.inFlight| == |s.sent| <= s.nextId == |s.completed| + |s.queue|
            && |s.inFlight| <= 1 && SettledInOrder(s)
            && (s.inFlight != [] ==> s.queue != [] && s.queue[0] == s.inFlight[0].nextMethod)
            && (forall i :: 0 <= i < |s.queue| ==> (s.queue[i].running <==> i == 0 && s.inFlight != []))
  {
    InvariantHolds(states, events, clock, n);
    var s := states[n];
    var all := s.completed + Ids(s.queue);
    assert forall i :: 0 <= i < |s.completed| ==> s.completed[i] == all[i] == i;
    assert s.queue != [] ==> s.queue[0].id == all[|s.completed|] == |s.completed|;
  }

  /** A callback takes its own method off the queue, and no other. */
  lemma {:induction false} CallbackShiftsItsOwn(states: seq<State>, events: seq<Event>, clock: nat -> int, n: nat)
    requires IsRun(states, events, clock) && n < |events| && events[n].Return?
    ensures var s, k := states[n], events[n].k;
            && k < |s.inFlight| && s.queue != [] && s.inFlight[k].nextMethod == s.queue[0]
            && Shifted(s, k).queue == s.queue[1..]
            && states[n + 1].completed == s.completed + [s.queue[0].id]
            && states[n + 1].settled == s.settled + [(s.queue[0].id, events[n].outcome)]
  {
    InvariantHolds(states, events, clock, n);
    var s, k := states[n], events[n].k;
    ReturnedKeeps(s, k, events[n].outcome, clock);
    var shifted := Shifted(s, k);
    assert Ids(s.queue) == [s.queue[0].id] + Ids(shifted.queue);
    WarnedKeeps(shifted, clock, false);
  }

  /** The queue is never stuck: while a method waits, a callback or a check is still to come that advances it. */
  lemma {:induction false} NeverStuck(states: seq<State>, events: seq<Event>, clock: nat -> int, n: nat)
    requires IsRun(states, events, clock) && n <= |events| && states[n].queue != []
    ensures var s := states[n];
            if s.queue[0].running then forall outcome :: Enabled(s, Return(0, outcome))
            else Enabled(s, CheckTimer) && Advances(s, CheckTimer)
  {
    InvariantHolds(states, events, clock, n);
  }

  // ------------------------------------------------------------- warnings that lead to warnings

  /** A client whose methods take 2 seconds each: the clock stands still while two calls are made, and then in
      each callback, which reads it four times. */
  function SlowClock(n: nat): int {
    if n < 3 then 0 else 2000 * ((n - 3) / 4 + 1)
  }

  lemma {:induction false} InCallback(m: nat, i: nat)
    requires i < 4
    ensures SlowClock(3 + 4 * m + i) == 2000 * (m + 1)
  {
  }

  ghost predicate Queued(queue: seq<Method>, time: int) {
    forall i :: 0 <= i < |queue| ==> queue[i].sendOptions == NO_OPTIONS && queue[i].queueTime <= time
  }

  /** After `m` callbacks: everything that waits or runs was there at the last of them. */
  ghost predicate Behind(s: State, m: nat) {
    && s.readings == 3 + 4 * m && |s.queue| >= 2 && Queued(s.queue, 2000 * m)
    && s.queue[0].running && (forall i :: 0 < i < |s.queue| ==> !s.queue[i].running)
    && |s.inFlight| == 1 && s.inFlight[0].nextMethod.sendOptions == NO_OPTIONS && s.inFlight[0].sendTime <= 2000 * m
    && !s.tooManyWarnings && s.skippedWarningCount == 0 && s.coolDowns == 0 && s.loggedWarningCount == 2 * m
  }

  /** In a callback, after its first reading: the method that waits is sent late, which is one warning. */
  lemma {:induction false} SlowCheck(s: State, m: nat)
    requires |s.queue| >= 2 && !s.queue[0].running && s.queue[0].sendOptions == NO_OPTIONS && s.queue[0].queueTime <= 2000 * m
    requires s.readings == 3 + 4 * m + 2 && s.inFlight == [] && !s.tooManyWarnings && s.loggedWarningCount < MAX_LOG_COUNT
    ensures var r := Checked(s, SlowClock);
            && r.queue == [s.queue[0].(running := true)] + s.queue[1..] + [Method(s.nextId, 2000 * (m + 1), NO_OPTIONS, false)]
            && r.inFlight == [Sent(r.queue[0], 2000 * (m + 1))] && r.readings == s.readings + 2
            && NoWarning(s.(loggedWarningCount := s.loggedWarningCount + 1), r) && r.pendingChecks == s.pendingChecks
  {
    InCallback(m, 2);
    InCallback(m, 3);
    assert SentLate(s, SlowClock);
    var started := HeadStarted(s);
    var pushed := Pushed(started.(loggedWarningCount := s.loggedWarningCount + 1), NO_OPTIONS, SlowClock);
    assert pushed.queue[0] == started.queue[0];
    assert Checked(pushed, SlowClock) == pushed;
    assert Warned(started, SlowClock) == pushed;
  }

  /** In a callback, after its first reading: a warning that finds the next method late as well. */
  lemma {:induction false} SlowWarning(s: State, m: nat)
    requires s.queue != [] && !s.queue[0].running && s.queue[0].sendOptions == NO_OPTIONS && s.queue[0].queueTime <= 2000 * m
    requires s.readings == 3 + 4 * m + 1 && s.inFlight == []
    requires !s.tooManyWarnings && s.skippedWarningCount == 0 && s.coolDowns == 0 && s.loggedWarningCount == 2 * m <= MAX_LOG_COUNT
    ensures var r, now := Warned(s, SlowClock), 2000 * (m + 1);
            && (2 * m < MAX_LOG_COUNT ==>
                  && r.queue == [s.queue[0].(running := true)] + s.queue[1..]
                                + [Method(s.nextId, now, NO_OPTIONS, false), Method(s.nextId + 1, now, NO_OPTIONS, false)]
                  && r.inFlight == [Sent(r.queue[0], now)] && r.readings == s.readings + 3
                  && NoWarning(s.(loggedWarningCount := 2 * m + 2), r) && r.pendingChecks == s.pendingChecks)
            && (2 * m == MAX_LOG_COUNT ==> r.coolDowns == 2)
  {
    InCallback(m, 1);
    InCallback(m, 2);
    var pushed := Pushed(s.(loggedWarningCount := s.loggedWarningCount + 1), NO_OPTIONS, SlowClock);
    assert pushed.queue[0] == s.queue[0];
    if 2 * m < MAX_LOG_COUNT {
      SlowCheck(pushed, m);
      assert Warned(s, SlowClock) == Checked(pushed, SlowClock);
      assert pushed.queue[1..] == s.queue[1..] + [pushed.queue[|s.queue|]];
    } else {
      assert WarnsAgain(s, SlowClock);
      TwoCoolDowns(s, SlowClock);
    }
  }

  /** A callback, late, whose warning finds the next method late as well: two warnings, or two timers. */
  lemma {:induction false} SlowReturn(s: State, m: nat, outcome: Outcome)
    requires Behind(s, m) && 2 * m <= MAX_LOG_COUNT
    ensures var r := Returned(s, 0, outcome, SlowClock);
            && (2 * m < MAX_LOG_COUNT ==> Behind(r, m + 1) && r.pendingChecks > 0)
            && (2 * m == MAX_LOG_COUNT ==> r.coolDowns == 2)
  {
    InCallback(m, 0);
    assert CompletedLate(s.inFlight[0], SlowClock(s.readings));
    SlowWarning(Shifted(s, 0), m);
  }

  lemma {:induction false} RunOn(before: seq<State>, happened: seq<Event>, e: Event, clock: nat -> int)
    returns (states: seq<State>, events: seq<Event>)
    requires IsRun(before, happened, clock) && Enabled(before[|happened|], e)
    ensures IsRun(states, events, clock) && events == happened + [e]
    ensures states == before + [Step(before[|happened|], e, clock)]
  {
    states, events := before + [Step(before[|happened|], e, clock)], happened + [e];
    forall i | 0 <= i < |events|
      ensures Enabled(states[i], events[i]) && states[i + 1] == Step(states[i], events[i], clock)
    {
      assert states[i] == before[i] && (i < |happened| ==> events[i] == happened[i] && states[i + 1] == before[i + 1]);
    }
  }

  lemma {:induction false} TwoCalls() returns (states: seq<State>, events: seq<Event>)
    ensures IsRun(states, events, SlowClock) && events == [Apply(NO_OPTIONS), Apply(NO_OPTIONS)]
    ensures Behind(states[2], 0)
  {
    states, events := RunOn([INITIAL], [], Apply(NO_OPTIONS), SlowClock);
    assert !SentLate(Pushed(INITIAL, NO_OPTIONS, SlowClock), SlowClock);
    assert states[1].queue == [Method(0, 0, NO_OPTIONS, true)] && states[1].readings == 2;
    states, events := RunOn(states, events, Apply(NO_OPTIONS), SlowClock);
    var pushed := Pushed(states[1], NO_OPTIONS, SlowClock);
    assert Checked(pushed, SlowClock) == pushed;
    assert states[2] == Enqueued(states[1], NO_OPTIONS, SlowClock) == pushed;
  }

  /** Two calls, and `m` callbacks, each followed by the check it asks for. */
  lemma {:induction false} SlowRun(m: nat) returns (states: seq<State>, events: seq<Event>)
    requires 2 * m <= MAX_LOG_COUNT
    ensures IsRun(states, events, SlowClock) && |events| == 2 + 2 * m && Behind(states[2 + 2 * m], m)
  {
    if m == 0 {
      states, events := TwoCalls();
    } else {
      states, events := SlowRun(m - 1);
      SlowReturn(states[2 * m], m - 1, Resolved(""));
      states, events := RunOn(states, events, Return(0, Resolved("")), SlowClock);
      states, events := RunOn(states, events, CheckTimer, SlowClock);
      assert states[2 + 2 * m] == states[1 + 2 * m].(pendingChecks := states[1 + 2 * m].pendingChecks - 1);
    }
  }

  /** Two timers can run: the tenth warning has been logged, a method is completed late, and the one that
      waits is sent late. */
  lemma {:induction false} TwoCoolDownsHappen() returns (states: seq<State>, events: seq<Event>)
    ensures IsRun(states, events, SlowClock) && |events| == 13 && events[12].Return?
    ensures states[12].coolDowns == 0 && states[13].coolDowns == 2
  {
    states, events := SlowRun(5);
    SlowReturn(states[12], 5, Resolved(""));
    states, events := RunOn(states, events, Return(0, Resolved("")), SlowClock);
  }

  // -------------------------------------------------------------------------------- progress

  /** How many callbacks and checks are needed until this method is completed. */
  function StepsTo(s: State, id: nat): int {
    2 * (id + 1 - |s.completed|) - |s.inFlight|
  }

  /** A callback, or a check that finds a method to send. */
  predicate Advances(s: State, e: Event) {
    e.Return? || (e.CheckTimer? && s.queue != [] && !s.queue[0].running)
  }

  lemma {:induction false} ReturnTakesCloser(s: State, k: nat, outcome: Outcome, id: nat, clock: nat -> int)
    requires Inv(s) && k < |s.inFlight|
    ensures var r := Returned(s, k, outcome, clock);
            r.nextId >= s.nextId && s.completed <= r.completed && StepsTo(r, id) <= StepsTo(s, id) - 1
  {
    var shifted := Shifted(s, k);
    ReturnedKeeps(s, k, outcome, clock);
    ShiftedInOrder(s, k);
    WarnedKeeps(shifted, clock, false);
  }

  /** Nothing that happens takes a method further away from completion, and what advances the queue takes it
      closer. */
  lemma {:induction false} StepsNeverRise(s: State, e: Event, id: nat, clock: nat -> int)
    requires Inv(s) && Enabled(s, e)
    ensures var r := Step(s, e, clock);
            && r.nextId >= s.nextId && s.completed <= r.completed
            && StepsTo(r, id) <= StepsTo(s, id) - if Advances(s, e) then 1 else 0
  {
    StepKeeps(s, e, clock);
    match e
    case Apply(sendOptions) =>
      EnqueuedKeeps(s, sendOptions, clock, false);
    case Return(k, outcome) =>
      ReturnTakesCloser(s, k, outcome, id, clock);
    case CheckTimer =>
      CheckedKeeps(s.(pendingChecks := s.pendingChecks - 1), clock, false);
    case CoolDownTimer =>
      if s.skippedWarningCount > 0 {
        EnqueuedKeeps(s.(coolDowns := s.coolDowns - 1), NO_OPTIONS, clock, false);
      }
    case Hour =>
  }

  /** How often the queue has advanced from the `m`-th to the `n`-th event of a run. */
  ghost function Advanced(states: seq<State>, events: seq<Event>, m: nat, n: nat): nat
    requires m <= n <= |events| <= |states|
  {
    if m == n then 0 else Advanced(states, events, m, n - 1) + if Advances(states[n-1], events[n-1]) then 1 else 0
  }

  lemma {:induction false} StepsCountDown(states: seq<State>, events: seq<Event>, clock: nat -> int, m: nat, n: nat, id: nat)
    requires IsRun(states, events, clock) && m <= n <= |events|
    ensures states[m].nextId <= states[n].nextId
    ensures StepsTo(states[n], id) <= StepsTo(states[m], id) - Advanced(states, events, m, n)
  {
    if m < n {
      StepsCountDown(states, events, clock, m, n - 1, id);
      InvariantHolds(states, events, clock, n - 1);
      StepsNeverRise(states[n-1], events[n-1], id, clock);
    }
  }

  /** In every run a method is completed, and its promise settled, once the queue has advanced that often since
      the call, whatever else has happened in between. */
  lemma {:induction false} EveryMethodCompletes(states: seq<State>, events: seq<Event>, clock: nat -> int, m: nat, n: nat,
                                                id: nat)
    requires IsRun(states, events, clock) && m <= n <= |events| && id < states[m].nextId
    requires Advanced(states, events, m, n) >= StepsTo(states[m], id)
    ensures id < |states[n].completed| == |states[n].settled|
    ensures states[n].completed[id] == states[n].settled[id].0 == id
  {
    StepsCountDown(states, events, clock, m, n, id);
    FirstInFirstOut(states, events, clock, n);
    InvariantHolds(states, events, clock, n);
  }

  /** Warnings resume: while they are skipped, a cool-down timer is still to come, and it ends that; the count
      never passes the limit by more than two. */
  lemma {:induction false} WarningsResume(states: seq<State>, events: seq<Event>, clock: nat -> int, n: nat)
    requires IsRun(states, events, clock) && n <= |events|
    ensures var s := states[n];
            && s.loggedWarningCount <= MAX_LOG_COUNT + (if s.tooManyWarnings then 2 else 0)
            && (s.tooManyWarnings ==>
                  Enabled(s, CoolDownTimer) && !Step(s, CoolDownTimer, clock).tooManyWarnings)
  {
    InvariantHolds(states, events, clock, n);
  }

  // ------------------------------------------------------------------- what a queued call keeps

  /** The call of method `i` of the queue, whether or not it is running. */
  function CallAt(s: State, i: nat): Method
    requires i < |s.queue|
  {
    s.queue[i].(running := false)
  }

  /** The calls in the queue of `s` are at the head of the queue of `r`. */
  ghost predicate SameCalls(s: State, r: State) {
    |s.queue| <= |r.queue| && forall i :: 0 <= i < |s.queue| ==> CallAt(r, i) == CallAt(s, i)
  }

  lemma {:induction false} EnqueuedKeepsCalls(s: State, sendOptions: SendOptions, clock: nat -> int)
    ensures var r := Enqueued(s, sendOptions, clock);
            && SameCalls(s, r) && |s.queue| < |r.queue|
            && CallAt(r, |s.queue|) == Method(s.nextId, clock(s.readings), sendOptions, false)
    decreases HeadIdle(s.queue), 2
  {
    var pushed := Pushed(s, sendOptions, clock);
    CheckedKeepsCalls(pushed, clock);
    assert CallAt(pushed, |s.queue|) == Method(s.nextId, clock(s.readings), sendOptions, false);
    assert forall i :: 0 <= i < |s.queue| ==> CallAt(pushed, i) == CallAt(s, i);
  }

  lemma {:induction false} CheckedKeepsCalls(s: State, clock: nat -> int)
    ensures SameCalls(s, Checked(s, clock))
    decreases HeadIdle(s.queue), 1
  {
    if s.queue != [] && !s.queue[0].running {
      var started := HeadStarted(s);
      assert SameCalls(s, started);
      if SentLate(s, clock) {
        WarnedKeepsCalls(started, clock);
      }
    }
  }

  lemma {:induction false} WarnedKeepsCalls(s: State, clock: nat -> int)
    ensures SameCalls(s, Warned(s, clock))
    decreases HeadIdle(s.queue), 3
  {
    if !s.tooManyWarnings {
      var counted := s.(loggedWarningCount := s.loggedWarningCount + 1);
      EnqueuedKeepsCalls(counted, NO_OPTIONS, clock);
      assert SameCalls(s, counted);
    }
  }

  /** Method `id` waits or runs, and this is its call. */
  ghost predicate HasCall(s: State, id: nat, sendOptions: SendOptions, queueTime: int) {
    |s.completed| <= id < |s.completed| + |s.queue| &&
    CallAt(s, id - |s.completed|) == Method(id, queueTime, sendOptions, false)
  }

  lemma {:induction false} StepKeepsCall(s: State, e: Event, clock: nat -> int, id: nat, sendOptions: SendOptions, queueTime: int)
    requires Inv(s) && Enabled(s, e) && HasCall(s, id, sendOptions, queueTime)
    ensures var r := Step(s, e, clock); |r.completed| <= id ==> HasCall(r, id, sendOptions, queueTime)
  {
    match e
    case Apply(options) =>
      EnqueuedKeeps(s, options, clock, false);
      EnqueuedKeepsCalls(s, options, clock);
    case Return(k, outcome) =>
      ReturnKeepsCall(s, k, outcome, clock, id, sendOptions, queueTime);
    case CheckTimer =>
      var fired := s.(pendingChecks := s.pendingChecks - 1);
      CheckedKeeps(fired, clock, false);
      CheckedKeepsCalls(fired, clock);
      assert SameCalls(s, fired);
    case CoolDownTimer =>
      if s.skippedWarningCount > 0 {
        var fired := s.(coolDowns := s.coolDowns - 1);
        EnqueuedKeeps(fired, NO_OPTIONS, clock, false);
        EnqueuedKeepsCalls(fired, NO_OPTIONS, clock);
        assert SameCalls(s, fired);
      }
    case Hour =>
  }

  lemma {:induction false} ReturnKeepsCall(s: State, k: nat, outcome: Outcome, clock: nat -> int, id: nat,
                                           sendOptions: SendOptions, queueTime: int)
    requires Inv(s) && k < |s.inFlight| && HasCall(s, id, sendOptions, queueTime)
    ensures var r := Returned(s, k, outcome, clock); |r.completed| <= id ==> HasCall(r, id, sendOptions, queueTime)
  {
    var shifted := Shifted(s, k);
    ShiftedInOrder(s, k);
    WarnedKeeps(shifted, clock, false);
    WarnedKeepsCalls(shifted, clock);
    if |shifted.completed| <= id {
      assert CallAt(shifted, id - |shifted.completed|) == CallAt(s, id - |s.completed|);
    }
  }

  /** Until it is completed, a method has the options it was called with, and the time at which it was called:
      these are what its warnings go by. */
  lemma {:induction false} CallIsKept(states: seq<State>, events: seq<Event>, clock: nat -> int, m: nat, n: nat)
    requires IsRun(states, events, clock) && m < n <= |events| && events[m].Apply?
    ensures var id := states[m].nextId;
            |states[n].completed| <= id ==> HasCall(states[n], id, events[m].sendOptions, clock(states[m].readings))
  {
    InvariantHolds(states, events, clock, n - 1);
    var s, id := states[n-1], states[m].nextId;
    if n - 1 == m {
      EnqueuedKeeps(s, events[m].sendOptions, clock, false);
      EnqueuedKeepsCalls(s, events[m].sendOptions, clock);
      FirstInFirstOut(states, events, clock, m);
    } else {
      CallIsKept(states, events, clock, m, n - 1);
      StepsNeverRise(s, events[n-1], id, clock);
      if |s.completed| <= id {
        StepKeepsCall(s, events[n-1], clock, id, events[m].sendOptions, clock(states[m].readings));
      }
    }
  }

  // -------------------------------------------------------------------- when warnings are given

  /** How long a method may wait to be sent, and how long it may then take: a second each, unless the call
      says otherwise. */
  function Limit(option: Option<int>): int {
    match option
    case Some(limit) => limit
    case None => 1000
  }

  /** While the head runs, a logged warning is one more method, and nothing is sent. */
  lemma {:induction false} WarnedAddsOne(s: State, clock: nat -> int)
    requires !HeadIdle(s.queue)
    ensures var r := Warned(s, clock);
            r.nextId - s.nextId == r.loggedWarningCount - s.loggedWarningCount && r.inFlight == s.inFlight
  {
    var more := Pushed(s.(loggedWarningCount := s.loggedWarningCount + 1), NO_OPTIONS, clock);
    assert more.queue[0] == s.queue[0];
    assert Checked(more, clock) == more;
  }

  /** A call on an idle queue is sent with its own options, and warned about exactly if sending it takes longer
      than its limit; and when it returns, exactly if it took longer than the other one. */
  lemma {:induction false} LoneCallIsTimed(s: State, sendOptions: SendOptions, clock: nat -> int)
    requires s.queue == [] && s.inFlight == []
    ensures var r, called, sentAt := Enqueued(s, sendOptions, clock), clock(s.readings), clock(s.readings + 1);
            && r.inFlight == [Sent(Method(s.nextId, called, sendOptions, true), sentAt)]
            && (if sentAt - called > Limit(sendOptions.warnSendTime) then OneWarning(s, r) else NoWarning(s, r))
  {
    var pushed := Pushed(s, sendOptions, clock);
    CheckedWarns(pushed, clock);
    WarnedAddsOne(HeadStarted(pushed), clock);
  }

  /** The callback of a method leads to a warning exactly if it took longer than the limit of its call. */
  lemma {:induction false} LateCallbackWarns(s: State, k: nat, outcome: Outcome, clock: nat -> int)
    requires k < |s.inFlight| && WarningsCounted(s)
    ensures var r, call := Returned(s, k, outcome, clock), s.inFlight[k];
            clock(s.readings) - call.sendTime > Limit(call.nextMethod.sendOptions.warnCompleteTime) <==> !NoWarning(s, r)
  {
    var shifted := Shifted(s, k);
    WarnedGrows(shifted, clock);
  }

  /** A warning is always seen, in one count or in the other. */
  lemma {:induction false} WarnedGrows(s: State, clock: nat -> int)
    requires WarningsCounted(s)
    ensures var r := Warned(s, clock);
            if s.tooManyWarnings then r.skippedWarningCount == s.skippedWarningCount + 1
            else r.loggedWarningCount > s.loggedWarningCount
  {
    CheckedWarns(Pushed(s.(loggedWarningCount := s.loggedWarningCount + 1), NO_OPTIONS, clock), clock);
  }

  // --------------------------------------------------------- where the methods of a run come from

  /** How many methods a warning adds: one for each that is logged. */
  lemma {:induction false} CheckedAdds(s: State, clock: nat -> int)
    ensures var r := Checked(s, clock); r.nextId - s.nextId == r.loggedWarningCount - s.loggedWarningCount
  {
    if WarnsOnCheck(s, clock) {
      WarnedAddsOne(HeadStarted(s), clock);
    }
  }

  lemma {:induction false} WarnedAdds(s: State, clock: nat -> int)
    ensures var r := Warned(s, clock); r.nextId - s.nextId == r.loggedWarningCount - s.loggedWarningCount
  {
    if !s.tooManyWarnings {
      CheckedAdds(Pushed(s.(loggedWarningCount := s.loggedWarningCount + 1), NO_OPTIONS, clock), clock);
    }
  }

  /** When a cool-down ends, warnings are logged again, from the first; and if any were skipped, one method is
      sent to say so, and no more than that. */
  lemma {:induction false} CoolDownReports(s: State, clock: nat -> int)
    requires WarningsCounted(s) && s.coolDowns > 0
    ensures var r := Step(s, CoolDownTimer, clock);
            && r.coolDowns == s.coolDowns - 1
            && !r.tooManyWarnings && r.skippedWarningCount == 0 && r.loggedWarningCount == 0
            && r.nextId == s.nextId + (if s.skippedWarningCount > 0 then 1 else 0)
            && (s.skippedWarningCount > 0 ==>
                  |r.queue| == |s.queue| + 1
                  && CallAt(r, |s.queue|) == Method(s.nextId, clock(s.readings), NO_OPTIONS, false))
  {
    if s.skippedWarningCount > 0 {
      var fired := s.(coolDowns := s.coolDowns - 1);
      EnqueuedKeepsCalls(fired, NO_OPTIONS, clock);
      var pushed := Pushed(fired, NO_OPTIONS, clock);
      CheckedWarns(pushed, clock);
      CheckedAdds(pushed, clock);
    }
  }

  /** The methods that an event is answerable for: a call for itself, every warning that is logged for one, and
      the end of a cool-down for its report. */
  function MethodsOf(s: State, e: Event, r: State): int {
    match e
    case Apply(_) => 1 + r.loggedWarningCount - s.loggedWarningCount
    case CoolDownTimer => if s.skippedWarningCount > 0 then 1 else 0
    case Hour => 0
    case _ => r.loggedWarningCount - s.loggedWarningCount
  }

  function MethodsUpTo(states: seq<State>, events: seq<Event>, n: nat): int
    requires n <= |events| < |states|
  {
    if n == 0 then 0 else MethodsUpTo(states, events, n - 1) + MethodsOf(states[n-1], events[n-1], states[n])
  }

  lemma {:induction false} StepAdds(s: State, e: Event, clock: nat -> int)
    requires WarningsCounted(s) && Enabled(s, e)
    ensures Step(s, e, clock).nextId == s.nextId + MethodsOf(s, e, Step(s, e, clock))
  {
    match e
    case Apply(sendOptions) => CheckedAdds(Pushed(s, sendOptions, clock), clock);
    case Return(k, _) => WarnedAdds(Shifted(s, k), clock);
    case CheckTimer => CheckedAdds(s.(pendingChecks := s.pendingChecks - 1), clock);
    case CoolDownTimer => CoolDownReports(s, clock);
    case Hour =>
  }

  /** In every run, the methods are the calls, one for every warning logged, and one for every cool-down that has
      had something to report: none is lost, and nothing else is ever sent. */
  lemma {:induction false} EveryMethodIsAccountedFor(states: seq<State>, events: seq<Event>, clock: nat -> int, n: nat)
    requires IsRun(states, events, clock) && n <= |events|
    ensures states[n].nextId == MethodsUpTo(states, events, n)
  {
    if n > 0 {
      EveryMethodIsAccountedFor(states, events, clock, n - 1);
      InvariantHolds(states, events, clock, n - 1);
      StepAdds(states[n-1], events[n-1], clock);
    }
  }

  // ------------------------------------------------------------------- when warnings are skipped

  /** How many warnings an event logs. */
  function LoggedBy(s: State, e: Event, r: State): int {
    if e.CoolDownTimer? || e.Hour? then 0 else r.loggedWarningCount - s.loggedWarningCount
  }

  /** How many are logged from the `m`-th to the `n`-th event of a run. */
  function LoggedSince(states: seq<State>, events: seq<Event>, m: nat, n: nat): int
    requires m <= n <= |events| < |states|
  {
    if m == n then 0 else LoggedSince(states, events, m, n - 1) + LoggedBy(states[n-1], events[n-1], states[n])
  }

  /** The limit is reached only by logging more warnings than it. */
  ghost predicate StopsAtLimit(s: State, r: State) {
    && r.loggedWarningCount >= s.loggedWarningCount
    && (!s.tooManyWarnings && r.tooManyWarnings ==> r.loggedWarningCount > 10)
  }

  lemma {:induction false} WarnedStops(s: State, clock: nat -> int)
    ensures StopsAtLimit(s, Warned(s, clock))
  {
    CheckedWarns(Pushed(s.(loggedWarningCount := s.loggedWarningCount + 1), NO_OPTIONS, clock), clock);
  }

  lemma {:induction false} StepStops(s: State, e: Event, clock: nat -> int)
    requires Enabled(s, e) && WarningsCounted(s)
    ensures e.Hour? || e.CoolDownTimer? || StopsAtLimit(s, Step(s, e, clock))
  {
    match e
    case Apply(sendOptions) => CheckedWarns(Pushed(s, sendOptions, clock), clock);
    case Return(k, _) => WarnedStops(Shifted(s, k), clock);
    case CheckTimer => CheckedWarns(s.(pendingChecks := s.pendingChecks - 1), clock);
    case _ =>
  }

  /** After the end of a cool-down, or the hourly reset if none is on, ten warnings are let through before any
      is skipped. */
  lemma {:induction false} TenWarningsGoThrough(states: seq<State>, events: seq<Event>, clock: nat -> int, m: nat, n: nat)
    requires IsRun(states, events, clock) && m < n <= |events|
    requires events[m].CoolDownTimer? || (events[m].Hour? && !states[m].tooManyWarnings)
    requires LoggedSince(states, events, m, n) <= 10
    ensures !states[n].tooManyWarnings && states[n].skippedWarningCount == 0
    ensures states[n].loggedWarningCount <= LoggedSince(states, events, m, n)
  {
    InvariantHolds(states, events, clock, n);
    InvariantHolds(states, events, clock, n - 1);
    StepStops(states[n-1], events[n-1], clock);
    if m < n - 1 {
      TenWarningsGoThrough(states, events, clock, m, n - 1);
    } else {
      assert LoggedSince(states, events, m, m) == 0;
    }
  }
}
