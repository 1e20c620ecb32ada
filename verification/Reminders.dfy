/** The reminder pipeline: the scheduler publishes timed payloads, a consumer handles messages
    one at a time, and the worker sleeps inside the handler until a payload is due.
 */
module Reminders {
  import opened Data

  const SECOND: int := 1_000_000
  const MINUTE: int := 60 * SECOND

  /** A datetime: an instant, or a wall-clock value without a time zone, read as UTC where it is read. */
  datatype Stamp = Aware(at: Time) | Naive(at: Time)

  datatype ReminderType = RunnerReminder | LastCallReminder

  datatype Payload = Payload(
    id: RowId,
    run: RunId,
    channel: ChannelId,
    runner: Option<string>,
    kind: ReminderType,
    scheduledFor: Stamp,
    offsetMinutes: int,
    remindersEnabled: bool,
    lastCallEnabled: bool)

  // ----- the scheduler -----

  datatype ReminderConfig = ReminderConfig(
    channel: ChannelId,
    remindersEnabled: bool,
    offsetMinutes: int,
    lastCallEnabled: bool,
    lastCallLead: Option<int>)

  function AsAware(s: Stamp): Stamp {
    Aware(s.at)
  }

  predicate Named(runner: Option<string>) {
    runner.Some? && runner.value != ""
  }

  predicate WantsRunner(runner: Option<string>, c: ReminderConfig) {
    c.remindersEnabled && Named(runner)
  }

  predicate WantsLastCall(c: ReminderConfig) {
    c.remindersEnabled && c.lastCallEnabled && c.lastCallLead.Some? && c.lastCallLead.value > 0
  }

  function RunnerPayload(id: RowId, run: RunId, pickup: Stamp, runner: Option<string>, c: ReminderConfig): Payload {
    Payload(id, run, c.channel, runner, RunnerReminder, Aware(pickup.at - c.offsetMinutes * MINUTE),
            c.offsetMinutes, c.remindersEnabled, c.lastCallEnabled)
  }

  function LastCallPayload(id: RowId, run: RunId, pickup: Stamp, c: ReminderConfig): Payload
    requires c.lastCallLead.Some?
  {
    Payload(id, run, c.channel, None, LastCallReminder, Aware(pickup.at - c.lastCallLead.value * MINUTE),
            c.offsetMinutes, c.remindersEnabled, c.lastCallEnabled)
  }

  /** What one call publishes: the runner reminder first, then the last call. */
  function Schedule(
    ids: nat -> RowId, run: RunId, pickup: Option<Stamp>, runner: Option<string>, c: ReminderConfig): seq<Payload>
  {
    if pickup.None? then
      []
    else
      var first := if WantsRunner(runner, c) then [RunnerPayload(ids(0), run, pickup.value, runner, c)] else [];
      if WantsLastCall(c) then first + [LastCallPayload(ids(|first|), run, pickup.value, c)] else first
  }

  class ReminderScheduler {
    const ids: nat -> RowId
    var drawn: nat
    var published: seq<Payload>

    constructor (ids: nat -> RowId)
      ensures this.ids == ids && drawn == 0 && published == []
    {
      this.ids := ids;
      drawn := 0;
      published := [];
    }

    method NextId() returns (id: RowId)
      modifies this
      ensures id == ids(old(drawn)) && drawn == old(drawn) + 1 && published == old(published)
    {
      id := ids(drawn);
      drawn := drawn + 1;
    }

    method Publish(payload: Payload)
      modifies this
      ensures published == old(published) + [payload] && drawn == old(drawn)
    {
      published := published + [payload];
    }

    method ScheduleForRun(run: RunId, pickup: Option<Stamp>, runner: Option<string>, c: ReminderConfig)
      returns (payloads: seq<Payload>)
      modifies this
      ensures var from := old(drawn); payloads == Schedule(n => ids(from + n), run, pickup, runner, c)
      ensures published == old(published) + payloads
      ensures drawn == old(drawn) + |payloads|
    {
      payloads := [];
      if pickup.None? {
        return;
      }
      var aware := AsAware(pickup.value);
      if c.remindersEnabled && Named(runner) {
        var id := NextId();
        var payload := RunnerPayload(id, run, aware, runner, c);
        Publish(payload);
        payloads := payloads + [payload];
      }
      if c.remindersEnabled && c.lastCallEnabled && c.lastCallLead.Some? && c.lastCallLead.value > 0 {
        var id := NextId();
        var payload := LastCallPayload(id, run, aware, c);
        Publish(payload);
        payloads := payloads + [payload];
      }
    }
  }

  // ----- the worker -----

  /** `_should_dispatch` */
  predicate ShouldDispatch(p: Payload) {
    p.remindersEnabled && if p.kind.RunnerReminder? then p.runner.Some? else p.lastCallEnabled
  }

  /** Every payload the scheduler publishes is one the worker sends, at an aware time before the pickup. */
  lemma SchedulerAgreesWithWorker(
    ids: nat -> RowId, run: RunId, pickup: Option<Stamp>, runner: Option<string>, c: ReminderConfig)
    ensures var ps := Schedule(ids, run, pickup, runner, c);
      && |ps| == (if pickup.Some? && WantsRunner(runner, c) then 1 else 0)
               + (if pickup.Some? && WantsLastCall(c) then 1 else 0)
      && forall i :: 0 <= i < |ps| ==>
        && ShouldDispatch(ps[i])
        && ps[i].scheduledFor.Aware?
        && (forall refused :: Raises(ps[i], refused) <==> refused)
        && (ps[i].kind.LastCallReminder? ==> ps[i].scheduledFor.at < pickup.value.at)
        && (ps[i].kind.RunnerReminder? ==> (ps[i].scheduledFor.at < pickup.value.at <==> c.offsetMinutes > 0))
  {
  }

  /** A payload names the run, the channel and its settings, and is due as long before the pickup as its kind says. */
  predicate Faithful(x: Payload, run: RunId, pickup: Stamp, runner: Option<string>, c: ReminderConfig) {
    && x.run == run && x.channel == c.channel && x.offsetMinutes == c.offsetMinutes
    && x.remindersEnabled == c.remindersEnabled && x.lastCallEnabled == c.lastCallEnabled
    && match x.kind
      case RunnerReminder => x.runner == runner && x.scheduledFor == Aware(pickup.at - c.offsetMinutes * 60_000_000)
      case LastCallReminder =>
        && x.runner == None && c.lastCallLead.Some?
        && x.scheduledFor == Aware(pickup.at - c.lastCallLead.value * 60_000_000)
  }

  /** Nothing is published without a pickup time or with reminders off.  Otherwise there is a runner reminder exactly
      when a runner is named, and after it a last call exactly when it is on with a positive lead; each has its own
      id and says what it is about. */
  lemma SchedulerPublishes(
    ids: nat -> RowId, run: RunId, pickup: Option<Stamp>, runner: Option<string>, c: ReminderConfig)
    ensures var ps := Schedule(ids, run, pickup, runner, c);
      && (pickup.None? || !c.remindersEnabled ==> ps == [])
      && (pickup.Some? && c.remindersEnabled ==>
          && ((exists i :: 0 <= i < |ps| && ps[i].kind.RunnerReminder?) <==> runner != None && runner != Some(""))
          && ((exists i :: 0 <= i < |ps| && ps[i].kind.LastCallReminder?)
              <==> c.lastCallEnabled && c.lastCallLead != None && c.lastCallLead.value > 0)
          && (forall i :: 0 <= i < |ps| ==> ps[i].id == ids(i) && Faithful(ps[i], run, pickup.value, runner, c))
          && (forall i, j :: 0 <= i < j < |ps| ==> ps[i].kind.RunnerReminder? && ps[j].kind.LastCallReminder?))
  {
    var ps := Schedule(ids, run, pickup, runner, c);
    if pickup.Some? && WantsRunner(runner, c) {
      assert ps[0].kind.RunnerReminder?;
    }
    if pickup.Some? && WantsLastCall(c) {
      assert ps[|ps| - 1].kind.LastCallReminder?;
    }
  }

  /** The outside of the worker: a clock that moves while the worker sleeps.  A punctual timer sleeps at
      least as long as asked and at most `slack` longer; any timer moves on. */
  class Timer {
    var now: Time
    const punctual: bool
    const slack: nat

    constructor (now: Time, punctual: bool, slack: nat)
      ensures this.now == now && this.punctual == punctual && this.slack == slack
    {
      this.now := now;
      this.punctual := punctual;
      this.slack := slack;
    }

    predicate Exact() {
      punctual && slack == 0
    }

    method Sleep(d: int)
      requires d > 0
      modifies this
      ensures now > old(now)
      ensures punctual ==> old(now) + d <= now <= old(now) + d + slack
    {
      if punctual {
        var extra: nat :| extra <= slack;
        now := now + d + extra;
      } else {
        var moved: nat :| moved > 0;
        now := now + moved;
      }
    }

    /** Waiting for the next message takes until it arrives. */
    method AwaitUntil(t: Time)
      modifies this
      ensures now == Max(old(now), t)
    {
      if now < t {
        now := t;
      }
    }
  }

  function Max(a: int, b: int): int {
    if a < b then b else a
  }

  /** `_wait_until`: it ends whatever the timer does; with a punctual timer it takes at most two sleeps and
      overshoots by at most the slack (and by what a negative tolerance adds to the sleep); what is due
      already is not waited for.  An exact timer is asked twice when the wait is longer than the tolerance. */
  method WaitUntil(timer: Timer, target: Time, tolerance: int) returns (sleeps: nat)
    modifies timer
    ensures timer.now >= target
    ensures old(timer.now) >= target ==> sleeps == 0 && timer.now == old(timer.now)
    ensures old(timer.now) < target ==> sleeps >= 1
    ensures timer.punctual && old(timer.now) < target ==> timer.now <= target + timer.slack + Max(0, -tolerance)
    ensures timer.punctual ==> sleeps <= if 0 <= tolerance < target - old(timer.now) then 2 else 1
    ensures timer.Exact() && old(timer.now) < target ==>
      sleeps == if 0 < tolerance < target - old(timer.now) then 2 else 1
  {
    sleeps := 0;
    while true
      invariant timer.now >= old(timer.now)
      invariant sleeps == 0 <==> timer.now == old(timer.now)
      invariant timer.punctual && sleeps > 0 ==> timer.now <= target + timer.slack + Max(0, -tolerance)
      invariant timer.punctual && sleeps > 0 && timer.now < target ==>
          sleeps == 1 && 0 <= tolerance < target - old(timer.now) && target - timer.now <= tolerance
      invariant timer.punctual ==> sleeps <= if 0 <= tolerance < target - old(timer.now) then 2 else 1
      invariant sleeps > 0 ==> old(timer.now) < target
      invariant timer.Exact() && sleeps == 1 && timer.now < target ==> 0 < tolerance < target - old(timer.now)
      invariant timer.Exact() && sleeps == 1 && timer.now >= target ==> !(0 < tolerance < target - old(timer.now))
      invariant timer.Exact() && sleeps == 2 ==> timer.now >= target && 0 < tolerance < target - old(timer.now)
      invariant timer.Exact() ==> sleeps <= 2
      decreases target - timer.now
    {
      var delay := target - timer.now;
      if delay <= 0 {
        return;
      }
      timer.Sleep(if delay <= tolerance then delay else delay - tolerance);
      sleeps := sleeps + 1;
    }
  }

  // ----- one message after the other -----

  /** What a Kafka message holds: no event, an event whose payload does not validate, or a reminder
      together with whether the transport will refuse it. */
  datatype Body = NoEvent | NoPayload | Reminder(payload: Payload, refused: bool)

  datatype Message = Message(arrival: Time, body: Body)

  datatype Dispatch = Dispatch(payload: Payload, at: Time)

  /** The metrics, what was sent, and the time. */
  datatype Tally = Tally(
    now: Time,
    sent: nat,
    skipped: nat,
    errors: nat,
    succeeded: nat,
    failed: nat,
    outbox: seq<Dispatch>)

  predicate Dispatches(m: Message) {
    m.body.Reminder? && ShouldDispatch(m.body.payload)
  }

  function Target(m: Message): Time
    requires Dispatches(m)
  {
    m.body.payload.scheduledFor.at
  }

  /** The worker's part, on a timer that sleeps exactly as long as asked. */
  function Process(t: Tally, p: Payload, refused: bool): Tally {
    if !ShouldDispatch(p) then
      t.(skipped := t.skipped + 1)
    else
      var due := t.(now := Max(t.now, p.scheduledFor.at));
      if refused then
        due.(errors := t.errors + 1)
      else
        due.(
          sent := t.sent + 1,
          errors := t.errors + if p.scheduledFor.Naive? then 1 else 0,
          outbox := t.outbox + [Dispatch(p, due.now)])
  }

  /** The worker raises when the transport does, and after sending a payload whose time is naive, because
      the delay it then measures subtracts a naive datetime from an aware one. */
  predicate Raises(p: Payload, refused: bool) {
    ShouldDispatch(p) && (refused || p.scheduledFor.Naive?)
  }

  /** One turn of the consume loop. */
  function Handle(t: Tally, m: Message): Tally {
    var here := t.(now := Max(t.now, m.arrival));
    match m.body
    case NoEvent => here.(failed := t.failed + 1)
    case NoPayload => here.(failed := t.failed + 1)
    case Reminder(p, refused) =>
      var done := Process(here, p, refused);
      if Raises(p, refused) then done.(failed := t.failed + 1) else done.(succeeded := t.succeeded + 1)
  }

  /** The first n messages, one after the other. */
  function Consume(t: Tally, ms: seq<Message>, n: nat): Tally
    requires n <= |ms|
  {
    if n == 0 then t else Handle(Consume(t, ms, n - 1), ms[n - 1])
  }

  class ReminderWorker {
    const timer: Timer
    const tolerance: int
    var sent: nat
    var skipped: nat
    var errors: nat
    var outbox: seq<Dispatch>

    constructor (timer: Timer, tolerance: int)
      ensures this.timer == timer && this.tolerance == tolerance
      ensures sent == skipped == errors == 0 && outbox == []
    {
      this.timer := timer;
      this.tolerance := tolerance;
      sent, skipped, errors, outbox := 0, 0, 0, [];
    }

    predicate Exact() {
      timer.Exact() && tolerance >= 0
    }

    ghost function State(succeeded: nat, failed: nat): Tally
      reads this, timer
    {
      Tally(timer.now, sent, skipped, errors, succeeded, failed, outbox)
    }

    /** The counters and the payloads sent are as specified on every timer, the times on an exact one. */
    method ProcessEvent(p: Payload, refused: bool) returns (raised: bool)
      modifies this, timer
      ensures raised == Raises(p, refused)
      ensures Exact() ==> State(0, 0) == Process(old(State(0, 0)), p, refused)
      ensures sent == Process(old(State(0, 0)), p, refused).sent
      ensures skipped == Process(old(State(0, 0)), p, refused).skipped
      ensures errors == Process(old(State(0, 0)), p, refused).errors
      ensures timer.now >= old(timer.now)
      ensures outbox == old(outbox) + if Sends(p, refused) then [Dispatch(p, timer.now)] else []
      ensures Sends(p, refused) ==> timer.now >= p.scheduledFor.at
    {
      if !ShouldDispatch(p) {
        skipped := skipped + 1;
        return false;
      }
      var _ := WaitUntil(timer, p.scheduledFor.at, tolerance);
      if refused {
        errors := errors + 1;
        return true;
      }
      outbox := outbox + [Dispatch(p, timer.now)];
      sent := sent + 1;
      if p.scheduledFor.Naive? {
        errors := errors + 1;
        return true;
      }
      return false;
    }
  }

  predicate Sends(p: Payload, refused: bool) {
    ShouldDispatch(p) && !refused
  }

  class KafkaEventConsumer {
    const worker: ReminderWorker
    const timer: Timer
    var succeeded: nat
    var failed: nat

    constructor (worker: ReminderWorker)
      ensures this.worker == worker && timer == worker.timer && succeeded == failed == 0
    {
      this.worker := worker;
      timer := worker.timer;
      succeeded, failed := 0, 0;
    }

    ghost function State(): Tally
      reads this, worker, worker.timer
    {
      worker.State(succeeded, failed)
    }

    /** The body of the loop: validate, hand over, count; an error of the handler ends here. */
    method HandleMessage(m: Message)
      requires timer == worker.timer && timer.now >= m.arrival
      modifies this, worker, timer
      ensures timer.now >= old(timer.now)
      ensures worker.Exact() ==> State() == Handle(old(State()), m)
      ensures SameCounts(State(), Handle(old(State()), m))
    {
      match m.body {
        case NoEvent =>
          failed := failed + 1;
        case NoPayload =>
          failed := failed + 1;
        case Reminder(p, refused) =>
          var raised := worker.ProcessEvent(p, refused);
          if raised {
            failed := failed + 1;
          } else {
            succeeded := succeeded + 1;
          }
      }
    }

    /** Handles messages one at a time until the stop flag is seen, which is on receiving message `stop`. */
    method ConsumeLoop(messages: seq<Message>, stop: nat)
      requires timer == worker.timer
      modifies this, worker, timer
      ensures var n := if stop < |messages| then stop else |messages|;
        && (worker.Exact() ==> State() == Consume(old(State()), messages, n).(now := timer.now))
        && (worker.Exact() && stop >= |messages| ==> timer.now == Consume(old(State()), messages, n).now)
        && SameCounts(State(), Consume(old(State()), messages, n))
    {
      var i := 0;
      while i < |messages|
        invariant 0 <= i <= |messages| && i <= stop
        invariant worker.Exact() ==> State() == Consume(old(State()), messages, i)
        invariant SameCounts(State(), Consume(old(State()), messages, i))
      {
        timer.AwaitUntil(messages[i].arrival);
        if i == stop {
          return;
        }
        CountsFollow(State(), Consume(old(State()), messages, i), messages[i]);
        HandleMessage(messages[i]);
        i := i + 1;
      }
    }
  }

  lemma CountsFollow(a: Tally, b: Tally, m: Message)
    requires SameCounts(a, b)
    ensures SameCounts(Handle(a, m), Handle(b, m))
  {
  }

  /** The metrics agree. */
  predicate SameCounts(a: Tally, b: Tally) {
    && a.sent == b.sent && a.skipped == b.skipped && a.errors == b.errors
    && a.succeeded == b.succeeded && a.failed == b.failed
    && |a.outbox| == |b.outbox|
  }
}
