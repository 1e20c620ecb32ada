/** The rows of the store, its tables, and the clock the services read.

    A table is a map from its unique key to the rest of the row, so two rows with the
    same key cannot exist.  Identifiers are natural numbers: the canonical text of a UUID
    sorts as the number it denotes.  Times are microseconds since the Unix epoch.
 */
module Data {
  type UserId = nat
  type ChannelId = nat
  type RunId = nat
  type RowId = nat
  type Time = int

  datatype Option<+T> = None | Some(value: T) {
    function GetOr(default: T): T {
      if Some? then value else default
    }
  }

  datatype User = User(displayName: string)

  datatype Config = Config(
    reminderOffset: int,
    fairnessWindow: int,
    retentionDays: int,
    remindersEnabled: bool,
    lastCallEnabled: bool,
    lastCallLead: Option<int>)

  datatype Channel = Channel(
    name: string,
    enabled: bool,
    config: Config,
    lastResetAt: Option<Time>,
    updatedAt: Time)

  datatype RunStatus = Open | Closed | Canceled | Failed

  datatype Run = Run(
    channel: ChannelId,
    initiator: UserId,
    runner: Option<UserId>,
    status: RunStatus,
    pickupTime: Option<Time>,
    pickupNote: Option<string>,
    startedAt: Time,
    closedAt: Option<Time>,
    updatedAt: Time)

  datatype Provenance = Manual | FromPreference | Edit

  datatype Order = Order(
    id: RowId,
    text: string,
    isFinal: bool,
    provenance: Provenance,
    canceledAt: Option<Time>,
    createdAt: Time,
    updatedAt: Time)

  datatype Preference = Preference(
    id: RowId,
    lastOrderText: string,
    lastUsedAt: Time,
    createdAt: Time,
    updatedAt: Time)

  datatype Stat = Stat(
    served: int,
    lastRunAt: Option<Time>,
    createdAt: Time,
    updatedAt: Time)

  datatype OrderKey = OrderKey(run: RunId, user: UserId)

  /** The unique key of preferences and of runner statistics. */
  datatype Seat = Seat(channel: ChannelId, user: UserId)

  /** One assignment of a channel configuration field. */
  datatype Setting =
    | ReminderOffset(minutes: int)
    | FairnessWindow(runs: int)
    | RetentionDays(days: int)
    | RemindersEnabled(on: bool)
    | LastCallEnabled(on: bool)
    | LastCallLead(minutes: int)

  datatype PurgeCounts = PurgeCounts(orders: nat, runs: nat, preferences: nat, stats: nat)

  datatype AuditAction =
    | ConfigUpdated(settings: seq<Setting>)
    | Toggled(enabled: bool, reason: string, previous: bool, changed: bool)
    | DataReset(counts: PurgeCounts)

  datatype AuditEntry = AuditEntry(channel: ChannelId, admin: UserId, action: AuditAction)

  /** The value of the whole store at one moment. */
  datatype Db = Db(
    users: map<UserId, User>,
    channels: map<ChannelId, Channel>,
    runs: map<RunId, Run>,
    orders: map<OrderKey, Order>,
    preferences: map<Seat, Preference>,
    stats: map<Seat, Stat>,
    audit: seq<AuditEntry>)

  /** The readings a clock will give; `pos` is the next one. */
  datatype Tape = Tape(reading: nat -> Time, pos: nat) {
    function Now(): Time {
      reading(pos)
    }

    function Next(): Tape {
      Tape(reading, pos + 1)
    }

    /** Every reading from here on is later than the one before it. */
    ghost predicate Ticking() {
      forall i, j :: pos <= i < j ==> reading(i) < reading(j)
    }
  }

  class Clock {
    const reading: nat -> Time
    var pos: nat

    constructor (reading: nat -> Time)
      ensures this.reading == reading && pos == 0
    {
      this.reading := reading;
      pos := 0;
    }

    ghost function Rest(): Tape
      reads this
    {
      Tape(reading, pos)
    }

    method Now() returns (t: Time)
      modifies this
      ensures t == old(Rest()).Now() && Rest() == old(Rest()).Next()
    {
      t := reading(pos);
      pos := pos + 1;
    }
  }

  class Session {
    var users: map<UserId, User>
    var channels: map<ChannelId, Channel>
    var runs: map<RunId, Run>
    var orders: map<OrderKey, Order>
    var preferences: map<Seat, Preference>
    var stats: map<Seat, Stat>
    var audit: seq<AuditEntry>

    constructor (db: Db)
      ensures Snapshot() == db
    {
      users, channels, runs := db.users, db.channels, db.runs;
      orders, preferences, stats := db.orders, db.preferences, db.stats;
      audit := db.audit;
    }

    ghost function Snapshot(): Db
      reads this
    {
      Db(users, channels, runs, orders, preferences, stats, audit)
    }
  }

  /** What a service raises. */
  datatype Error =
    | RunNotFound
    | RunNotOpen
    | UserNotFound
    | OrderInvalid
    | PreferenceNotFound
    | OrderNotFound
    | Unauthorized
    | NoRunner
    | ChannelNotFound
    | ConfigInvalid
    | ConstraintViolated

  datatype Submission = Submission(
    orderId: RowId,
    participantCount: nat,
    text: string,
    provenance: Provenance,
    preferenceUpdated: bool)

  datatype Participant = Participant(
    user: UserId,
    displayName: string,
    text: string,
    provenance: Provenance)

  datatype Decision = Decision(runner: UserId, previousCount: int, excludedLast: bool)

  datatype Summary = Summary(
    run: RunId,
    channel: ChannelId,
    channelName: string,
    runner: UserId,
    runnerName: string,
    pickupTime: Option<Time>,
    pickupNote: Option<string>,
    participants: seq<Participant>,
    totalOrders: nat,
    reminderOffset: int,
    remindersEnabled: bool,
    lastCallEnabled: bool,
    closedAt: Time)

  datatype Reply =
    | Rejected(error: Error)
    | Started
    | Submitted(submission: Submission)
    | Reused(preferenceId: RowId, submission: Submission)
    | Withdrawn(orderId: RowId, participantCount: nat)
    | RunClosed(summary: Summary, decision: Decision)
    | Configured(settings: seq<Setting>)
    | EnabledSet(enabled: bool)
    | Purged(counts: PurgeCounts)

  datatype Outcome = Outcome(db: Db, reply: Reply, tape: Tape)

  /** What the deployment fixes: who may close a run, who may administer, how long an order may be. */
  datatype Policy = Policy(
    mayClose: (Run, UserId) -> bool,
    mayAdminister: UserId -> bool,
    maxLength: int)

  function Elems<T>(s: seq<T>): set<T> {
    set x | x in s
  }

  ghost predicate Distinct<T>(s: seq<T>) {
    forall i, j :: 0 <= i < j < |s| ==> s[i] != s[j]
  }

  lemma {:induction false} DistinctSize<T>(s: seq<T>)
    requires Distinct(s)
    ensures |Elems(s)| == |s|
  {
    if s != [] {
      var last := |s| - 1;
      DistinctSize(s[..last]);
      assert Elems(s) == Elems(s[..last]) + {s[last]};
      assert s[last] !in s[..last];
    }
  }
}
