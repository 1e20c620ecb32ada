/** When reminders go out: the law of a worker that sleeps inside its only message handler. */
module Dispatching {
  import opened Data
  import opened Reminders

  // ----- the law -----

  /** `t` is the greatest of the start and of the first n messages' arrivals and, where they are to be
      dispatched, scheduled times. */
  ghost predicate IsPeak(t: Time, start: Time, ms: seq<Message>, n: nat)
    requires n <= |ms|
  {
    && start <= t
    && (forall j :: 0 <= j < n ==> Reaches(t, ms[j]))
    && (t == start || exists j :: 0 <= j < n && Attains(t, ms[j]))
  }

  predicate Reaches(t: Time, m: Message) {
    m.arrival <= t && (Dispatches(m) ==> Target(m) <= t)
  }

  predicate Attains(t: Time, m: Message) {
    t == m.arrival || (Dispatches(m) && t == Target(m))
  }

  lemma {:induction false} NowIsPeak(t: Tally, ms: seq<Message>, n: nat)
    requires n <= |ms|
    ensures IsPeak(Consume(t, ms, n).now, t.now, ms, n)
  {
    if n > 0 {
      NowIsPeak(t, ms, n - 1);
      var before, after := Consume(t, ms, n - 1).now, Consume(t, ms, n).now;
      assert Reaches(after, ms[n - 1]);
      if after == before && before != t.now {
        var j :| 0 <= j < n - 1 && Attains(before, ms[j]);
        assert Attains(after, ms[j]);
      } else if after != before {
        assert Attains(after, ms[n - 1]);
      }
    }
  }

  lemma {:induction false} OutboxGrows(t: Tally, ms: seq<Message>, m: nat, n: nat)
    requires m <= n <= |ms|
    ensures Consume(t, ms, m).outbox <= Consume(t, ms, n).outbox
    decreases n
  {
    if m < n {
      OutboxGrows(t, ms, m, n - 1);
    }
  }

  /** The place of message `k` in the outbox. */
  function Place(t: Tally, ms: seq<Message>, k: nat): nat
    requires k < |ms|
  {
    |Consume(t, ms, k).outbox|
  }

  predicate Sent(m: Message) {
    m.body.Reminder? && Sends(m.body.payload, m.body.refused)
  }

  /** Sequential dispatch: a message that is sent goes out at the greatest of the loop's start, the arrivals so
      far, and the scheduled times so far of messages to dispatch. */
  lemma DispatchLaw(t: Tally, ms: seq<Message>, k: nat)
    requires k < |ms| && Sent(ms[k])
    ensures var outbox, i := Consume(t, ms, |ms|).outbox, Place(t, ms, k);
      && i < |outbox|
      && outbox[i].payload == ms[k].body.payload
      && IsPeak(outbox[i].at, t.now, ms, k + 1)
  {
    NowIsPeak(t, ms, k + 1);
    OutboxGrows(t, ms, k + 1, |ms|);
  }

  /** It is never early, and it is at most `tolerance` late exactly when neither the start, nor an arrival, nor an
      earlier scheduled time lies more than `tolerance` after its own. */
  lemma OnTimeExactly(t: Tally, ms: seq<Message>, k: nat, tolerance: nat)
    requires k < |ms| && Sent(ms[k])
    ensures var outbox, i := Consume(t, ms, |ms|).outbox, Place(t, ms, k);
      && i < |outbox|
      && outbox[i].at >= Target(ms[k])
      && (outbox[i].at <= Target(ms[k]) + tolerance <==>
          && t.now <= Target(ms[k]) + tolerance
          && forall j :: 0 <= j <= k ==> Reaches(Target(ms[k]) + tolerance, ms[j]))
  {
    DispatchLaw(t, ms, k);
    var at := Consume(t, ms, |ms|).outbox[Place(t, ms, k)].at;
    assert Reaches(at, ms[k]);
    if at <= Target(ms[k]) + tolerance {
      forall j | 0 <= j <= k ensures Reaches(Target(ms[k]) + tolerance, ms[j]) {
        assert Reaches(at, ms[j]);
      }
    } else if at != t.now {
      var j :| 0 <= j < k + 1 && Attains(at, ms[j]);
      assert !Reaches(Target(ms[k]) + tolerance, ms[j]);
    }
  }

  /** With a timely start and timely arrivals only earlier messages can delay a reminder: it is on time exactly
      when none of them was scheduled more than `tolerance` after it. */
  lemma OnTimeWhenTimely(t: Tally, ms: seq<Message>, k: nat, tolerance: nat)
    requires k < |ms| && Sent(ms[k])
    requires t.now <= Target(ms[k]) && forall j :: 0 <= j <= k ==> ms[j].arrival <= Target(ms[k])
    ensures var outbox, i := Consume(t, ms, |ms|).outbox, Place(t, ms, k);
      && i < |outbox|
      && (outbox[i].at <= Target(ms[k]) + tolerance <==>
          forall j :: 0 <= j < k && Dispatches(ms[j]) ==> Target(ms[j]) <= Target(ms[k]) + tolerance)
  {
    OnTimeExactly(t, ms, k, tolerance);
    if forall j :: 0 <= j < k && Dispatches(ms[j]) ==> Target(ms[j]) <= Target(ms[k]) + tolerance {
      forall j | 0 <= j <= k ensures Reaches(Target(ms[k]) + tolerance, ms[j]) {
      }
    } else {
      var j :| 0 <= j < k && Dispatches(ms[j]) && Target(ms[j]) > Target(ms[k]) + tolerance;
      assert !Reaches(Target(ms[k]) + tolerance, ms[j]);
    }
  }

  // ----- the two reminders of one run -----

  /** The messages of one call of the scheduler, each with its arrival and whether the transport refuses it. */
  function Pair(ps: seq<Payload>, arrivals: (Time, Time), refused: bool): seq<Message>
    requires |ps| == 2
  {
    [Message(arrivals.0, Reminder(ps[0], refused)), Message(arrivals.1, Reminder(ps[1], false))]
  }

  lemma ConsumeTwo(t: Tally, a: Message, b: Message)
    ensures Consume(t, [a, b], 2) == Handle(Handle(t, a), b)
  {
    assert Consume(t, [a, b], 1) == Handle(t, a);
  }

  lemma HandleDispatch(t: Tally, m: Message)
    requires Dispatches(m)
    ensures var u, at := Handle(t, m), Max(Max(t.now, m.arrival), Target(m));
      u.now == at && u.outbox == t.outbox + if Sent(m) then [Dispatch(m.body.payload, at)] else []
  {
  }

  /** Two reminders that arrive in time: the second waits for the first. */
  lemma SecondWaits(t: Tally, first: Payload, second: Payload, arrivals: (Time, Time), refused: bool)
    requires ShouldDispatch(first) && ShouldDispatch(second)
    requires var due := second.scheduledFor.at; t.now <= due && arrivals.0 <= due && arrivals.1 <= due
    ensures var outbox := Consume(t, Pair([first, second], arrivals, refused), 2).outbox;
      && outbox != []
      && outbox[|outbox| - 1] == Dispatch(second, Max(first.scheduledFor.at, second.scheduledFor.at))
  {
    var a, b := Message(arrivals.0, Reminder(first, refused)), Message(arrivals.1, Reminder(second, false));
    ConsumeTwo(t, a, b);
    HandleDispatch(t, a);
    HandleDispatch(Handle(t, a), b);
  }

  /** The scheduler publishes the runner reminder before the last call, so an idle worker that gets both in good
      time sends the last call no earlier than the runner reminder was due.  It is on time if and only if the
      lead does not exceed the offset by more than the tolerance. */
  lemma LastCallWaitsForRunner(
    t: Tally, ids: nat -> RowId, run: RunId, pickup: Stamp, runner: Option<string>, c: ReminderConfig,
    arrivals: (Time, Time), refused: bool, tolerance: nat)
    requires WantsRunner(runner, c) && WantsLastCall(c)
    requires var lastCall := pickup.at - c.lastCallLead.value * MINUTE;
      t.now <= lastCall && arrivals.0 <= lastCall && arrivals.1 <= lastCall
    ensures var ps := Schedule(ids, run, Some(pickup), runner, c);
      && |ps| == 2 && ps[0].kind.RunnerReminder? && ps[1].kind.LastCallReminder?
      && var outbox := Consume(t, Pair(ps, arrivals, refused), 2).outbox;
      && outbox != []
      && var last := outbox[|outbox| - 1];
      && last.payload == ps[1]
      && last.at >= ps[0].scheduledFor.at
      && (last.at <= ps[1].scheduledFor.at + tolerance <==>
          c.lastCallLead.value * MINUTE <= c.offsetMinutes * MINUTE + tolerance)
  {
    var ps := Schedule(ids, run, Some(pickup), runner, c);
    assert ps == [ps[0], ps[1]];
    SecondWaits(t, ps[0], ps[1], arrivals, refused);
  }

  /** With an offset of 5 and a lead of 15 minutes the last call of a 12:00 pickup is due at 11:45, but although
      everything arrives at 11:00 it goes out at 11:55: ten minutes late with a tolerance of one. */
  lemma LastCallTenMinutesLate(
    t: Tally, ids: nat -> RowId, run: RunId, runner: Option<string>, channel: ChannelId, eleven: Time)
    requires t.now == eleven && t.outbox == [] && Named(runner)
    ensures var c := ReminderConfig(channel, true, 5, true, Some(15));
      var ps := Schedule(ids, run, Some(Aware(eleven + 60 * MINUTE)), runner, c);
      && |ps| == 2
      && ps[1].kind.LastCallReminder? && ps[1].scheduledFor.at == eleven + 45 * MINUTE
      && Consume(t, Pair(ps, (eleven, eleven), false), 2).outbox
         == [Dispatch(ps[0], eleven + 55 * MINUTE), Dispatch(ps[1], eleven + 55 * MINUTE)]
  {
    var c := ReminderConfig(channel, true, 5, true, Some(15));
    var ps := Schedule(ids, run, Some(Aware(eleven + 60 * MINUTE)), runner, c);
    var ms := Pair(ps, (eleven, eleven), false);
    ConsumeTwo(t, ms[0], ms[1]);
  }

  // ----- each counter by itself -----

  /** What becomes of a message, by its fields. */
  datatype Fate = Unreadable | Suppressed | Undelivered | SentAware | SentUnaware

  /** Reminders are on, and there is a runner to remind or last call is on. */
  predicate Due(x: Payload) {
    && x.remindersEnabled
    && (x.kind == RunnerReminder ==> x.runner != None)
    && (x.kind == LastCallReminder ==> x.lastCallEnabled)
  }

  function FateOf(m: Message): Fate {
    match m.body
    case NoEvent => Unreadable
    case NoPayload => Unreadable
    case Reminder(x, refused) =>
      if !Due(x) then Suppressed
      else if refused then Undelivered
      else if x.scheduledFor.Aware? then SentAware
      else SentUnaware
  }

  /** How many of the first n messages have this fate. */
  function Tallied(ms: seq<Message>, n: nat, fate: Fate): nat
    requires n <= |ms|
  {
    if n == 0 then 0 else Tallied(ms, n - 1, fate) + if FateOf(ms[n - 1]) == fate then 1 else 0
  }

  /** The five fates account for all messages. */
  lemma {:induction false} FatesAddUp(ms: seq<Message>, n: nat)
    requires n <= |ms|
    ensures Tallied(ms, n, Unreadable) + Tallied(ms, n, Suppressed) + Tallied(ms, n, Undelivered)
      + Tallied(ms, n, SentAware) + Tallied(ms, n, SentUnaware) == n
  {
    if n > 0 {
      FatesAddUp(ms, n - 1);
    }
  }

  lemma OneCounted(t: Tally, m: Message)
    ensures var u, fate := Handle(t, m), FateOf(m);
      && u.failed == t.failed + (if fate in {Unreadable, Undelivered, SentUnaware} then 1 else 0)
      && u.succeeded == t.succeeded + (if fate in {Suppressed, SentAware} then 1 else 0)
      && u.sent == t.sent + (if fate in {SentAware, SentUnaware} then 1 else 0)
      && u.skipped == t.skipped + (if fate == Suppressed then 1 else 0)
      && u.errors == t.errors + (if fate in {Undelivered, SentUnaware} then 1 else 0)
      && |u.outbox| == |t.outbox| + (if fate in {SentAware, SentUnaware} then 1 else 0)
  {
  }

  /** Over any messages every counter grows by the number of messages it is for: an error of the consumer is a message
      that cannot be read, a reminder the transport refuses, or one sent with a naive time; a success is any other;
      the worker counts what it sent, what it skipped and what it failed on; and exactly what is sent is in the
      outbox. */
  lemma {:induction false} EachCounter(t: Tally, ms: seq<Message>, n: nat)
    requires n <= |ms|
    ensures var u := Consume(t, ms, n);
      var sent := Tallied(ms, n, SentAware) + Tallied(ms, n, SentUnaware);
      && u.failed == t.failed + Tallied(ms, n, Unreadable) + Tallied(ms, n, Undelivered) + Tallied(ms, n, SentUnaware)
      && u.succeeded == t.succeeded + Tallied(ms, n, Suppressed) + Tallied(ms, n, SentAware)
      && u.sent == t.sent + sent && |u.outbox| == |t.outbox| + sent
      && u.skipped == t.skipped + Tallied(ms, n, Suppressed)
      && u.errors == t.errors + Tallied(ms, n, Undelivered) + Tallied(ms, n, SentUnaware)
  {
    if n > 0 {
      EachCounter(t, ms, n - 1);
      OneCounted(Consume(t, ms, n - 1), ms[n - 1]);
    }
  }

  /** What is sent, and what is waited for, by the fields of the message. */
  lemma FatesMean(m: Message)
    ensures Sent(m) <==> FateOf(m) in {SentAware, SentUnaware}
    ensures Dispatches(m) <==> FateOf(m) in {Undelivered, SentAware, SentUnaware}
  {
  }

  // ----- every message is accounted for -----

  /** How many of the first n messages are reminders. */
  function ReminderCount(ms: seq<Message>, n: nat): nat
    requires n <= |ms|
  {
    if n == 0 then 0 else ReminderCount(ms, n - 1) + if ms[n - 1].body.Reminder? then 1 else 0
  }

  /** Reminders are the messages that can be read. */
  lemma {:induction false} RemindersAreReadable(ms: seq<Message>, n: nat)
    requires n <= |ms|
    ensures ReminderCount(ms, n) + Tallied(ms, n, Unreadable) == n
  {
    if n > 0 {
      RemindersAreReadable(ms, n - 1);
    }
  }

  lemma {:induction false} NoneWithFate(ms: seq<Message>, n: nat, fate: Fate)
    requires n <= |ms|
    ensures Tallied(ms, n, fate) == 0 <==> forall j :: 0 <= j < n ==> FateOf(ms[j]) != fate
  {
    if n > 0 {
      NoneWithFate(ms, n - 1, fate);
    }
  }

  lemma TallyAdds(t: Tally, ms: seq<Message>, n: nat)
    requires n <= |ms|
    ensures var u := Consume(t, ms, n);
      && u.succeeded + u.failed == t.succeeded + t.failed + n
      && u.sent + u.skipped + u.errors
         == t.sent + t.skipped + t.errors + ReminderCount(ms, n) + Tallied(ms, n, SentUnaware)
      && |u.outbox| == |t.outbox| + u.sent - t.sent
  {
    EachCounter(t, ms, n);
    FatesAddUp(ms, n);
    RemindersAreReadable(ms, n);
  }

  /** The consumer counts every message once.  The worker counts every reminder once, as sent, skipped or
      failed, if and only if no reminder with a naive time was sent; such a one counts as sent and as failed. */
  lemma EveryMessageCounted(t: Tally, ms: seq<Message>, n: nat)
    requires n <= |ms|
    ensures var u := Consume(t, ms, n);
      && u.succeeded + u.failed == t.succeeded + t.failed + n
      && (u.sent + u.skipped + u.errors == t.sent + t.skipped + t.errors + ReminderCount(ms, n)
          <==> forall j :: 0 <= j < n ==> FateOf(ms[j]) != SentUnaware)
  {
    TallyAdds(t, ms, n);
    NoneWithFate(ms, n, SentUnaware);
  }
}
