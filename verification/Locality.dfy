/** A channel's future depends only on its own rows: other channels cannot influence it, and a
    reset makes it behave like a channel without history.
 */
module Locality {
  import opened Data
  import opened Ordering
  import opened Text
  import opened Fairness
  import opened Orders
  import opened Runs
  import opened Machine
  import opened History
  import opened Integrity
  import Admin

  // ----- the rows of one channel -----

  function RunsIn(runs: map<RunId, Run>, c: ChannelId): map<RunId, Run> {
    map r | r in runs && runs[r].channel == c :: runs[r]
  }

  function OrdersIn(orders: map<OrderKey, Order>, runs: map<RunId, Run>, c: ChannelId): map<OrderKey, Order> {
    map k | k in orders && k.run in runs && runs[k.run].channel == c :: orders[k]
  }

  function PreferencesIn(preferences: map<Seat, Preference>, c: ChannelId): map<Seat, Preference> {
    map s | s in preferences && s.channel == c :: preferences[s]
  }

  function ChannelIn(channels: map<ChannelId, Channel>, c: ChannelId): map<ChannelId, Channel> {
    if c in channels then map[c := channels[c]] else map[]
  }

  /** The users and everything that belongs to the channel; the audit log, which no step reads, is left out. */
  function Project(db: Db, c: ChannelId): Db {
    Db(
      db.users, ChannelIn(db.channels, c), RunsIn(db.runs, c), OrdersIn(db.orders, db.runs, c),
      PreferencesIn(db.preferences, c), Only(db.stats, c), [])
  }

  /** Run ids are unique across channels: each belongs to one channel for good. */
  type Homes = RunId -> ChannelId

  ghost predicate WellHomed(db: Db, home: Homes) {
    forall r :: r in db.runs ==> db.runs[r].channel == home(r)
  }

  /** A new run gets an id of its channel. */
  ghost predicate Homed(op: Op, home: Homes) {
    op.StartRun? ==> home(op.run) == op.channel
  }

  function ChannelOf(op: Op, home: Homes): ChannelId {
    match op
    case StartRun(_, c, _, _, _) => c
    case SubmitOrder(k, _) => home(k.run)
    case UseLastOrder(k, _, _) => home(k.run)
    case CancelOrder(k) => home(k.run)
    case CloseRun(r, _, _) => home(r)
    case UpdateConfig(c, _, _) => c
    case SetEnabled(c, _, _, _) => c
    case ResetChannel(c, _) => c
  }

  lemma WellHomedStep(p: Policy, db: Db, op: Op, tape: Tape, home: Homes)
    requires WellHomed(db, home) && Homed(op, home)
    ensures WellHomed(Step(p, db, op, tape).db, home)
  {
    match op
    case SubmitOrder(k, d) => SubmitTouches(p, db, k, d, tape);
    case UseLastOrder(k, orderId, preferenceId) => UseLastTouches(p, db, k, orderId, preferenceId, tape);
    case CancelOrder(k) => CancelTouches(db, k, tape);
    case CloseRun(r, actor, repeat) => CloseFrame(p, db, r, actor, repeat, tape);
    case _ =>
  }

  // ----- another channel's steps -----

  lemma OrderElsewhere(db: Db, after: Db, k: OrderKey, c: ChannelId)
    requires TouchesOnly(db, after, k) && db.runs[k.run].channel != c
    ensures Project(after, c) == Project(db, c)
  {
    assert OrdersIn(after.orders, after.runs, c) == OrdersIn(db.orders, db.runs, c);
    assert PreferencesIn(after.preferences, c) == PreferencesIn(db.preferences, c);
  }

  lemma StartElsewhere(db: Db, op: Op, tape: Tape, c: ChannelId)
    requires op.StartRun? && op.channel != c
    ensures Project(Start(db, op, tape).db, c) == Project(db, c)
  {
    var o := Start(db, op, tape);
    assert RunsIn(o.db.runs, c) == RunsIn(db.runs, c);
    assert OrdersIn(db.orders, o.db.runs, c) == OrdersIn(db.orders, db.runs, c);
  }

  lemma SettleElsewhere(db: Db, r: RunId, repeat: bool, tape: Tape, c: ChannelId)
    requires r in db.runs && db.runs[r].channel in db.channels && RunRoster(db, r) != [] && db.runs[r].channel != c
    requires Settle(db, r, repeat, tape).reply.RunClosed?
    ensures Project(Settle(db, r, repeat, tape).db, c) == Project(db, c)
  {
    var o, d := Settle(db, r, repeat, tape), db.runs[r].channel;
    AssignElsewhere(db.stats, d, RunRoster(db, r), PreviousRunner(db.runs, d, r), repeat, tape, c);
    var s := o.reply.summary;
    ClosedElsewhere(db, r, s.runner, Elems(RunRoster(db, r)), s.closedAt, c);
  }

  lemma ClosedElsewhere(db: Db, r: RunId, runner: UserId, us: set<UserId>, now: Time, c: ChannelId)
    requires r in db.runs && db.runs[r].channel != c
    ensures var runs := db.runs[r := ClosedRun(db.runs[r], runner, now)];
      && RunsIn(runs, c) == RunsIn(db.runs, c)
      && OrdersIn(Finalized(db.orders, r, us, now), runs, c) == OrdersIn(db.orders, db.runs, c)
  {
  }

  lemma PurgeElsewhere(db: Db, d: ChannelId, c: ChannelId)
    requires c != d
    ensures Project(Admin.Purge(db, d), c) == Project(db, c)
  {
    var after := Admin.Purge(db, d);
    assert RunsIn(after.runs, c) == RunsIn(db.runs, c);
    assert OrdersIn(after.orders, after.runs, c) == OrdersIn(db.orders, db.runs, c);
    assert PreferencesIn(after.preferences, c) == PreferencesIn(db.preferences, c);
    assert Only(after.stats, c) == Only(db.stats, c);
  }

  /** A step on another channel leaves this channel's rows as they are. */
  lemma StepElsewhere(p: Policy, db: Db, op: Op, tape: Tape, home: Homes, c: ChannelId)
    requires WellHomed(db, home) && Homed(op, home) && ChannelOf(op, home) != c
    ensures Project(Step(p, db, op, tape).db, c) == Project(db, c)
  {
    var o := Step(p, db, op, tape);
    if o.reply.Rejected? {
      RejectionChangesNothing(p, db, op, tape);
    } else {
      match op
      case SubmitOrder(k, d) =>
        SubmitTouches(p, db, k, d, tape);
        OrderElsewhere(db, o.db, k, c);
      case UseLastOrder(k, orderId, preferenceId) =>
        UseLastTouches(p, db, k, orderId, preferenceId, tape);
        OrderElsewhere(db, o.db, k, c);
      case CancelOrder(k) =>
        CancelTouches(db, k, tape);
        OrderElsewhere(db, o.db, k, c);
      case CloseRun(r, _, repeat) => SettleElsewhere(db, r, repeat, tape, c);
      case ResetChannel(d, _) => PurgeElsewhere(db, d, c);
      case StartRun(_, _, _, _, _) => StartElsewhere(db, op, tape, c);
      case UpdateConfig(_, _, _) =>
      case SetEnabled(_, _, _, _) =>
    }
  }

  // ----- the channel's own steps -----

  /** Running a request on the channel's rows alone gives the same reply and the same rows. */
  ghost predicate SameEffect(o: Outcome, q: Outcome, c: ChannelId) {
    q.reply == o.reply && q.tape == o.tape && q.db.(audit := []) == Project(o.db, c)
  }

  lemma OrdersInWrite(orders: map<OrderKey, Order>, runs: map<RunId, Run>, c: ChannelId, k: OrderKey, order: Order)
    requires k.run in runs && runs[k.run].channel == c
    ensures OrdersIn(orders[k := order], runs, c) == OrdersIn(orders, runs, c)[k := order]
    ensures CountActive(OrdersIn(orders[k := order], runs, c), k.run) == CountActive(orders[k := order], k.run)
  {
    assert ActiveKeys(OrdersIn(orders[k := order], runs, c), k.run) == ActiveKeys(orders[k := order], k.run);
  }

  lemma PreferencesInWrite(preferences: map<Seat, Preference>, c: ChannelId, s: Seat, preference: Preference)
    requires s.channel == c
    ensures PreferencesIn(preferences[s := preference], c) == PreferencesIn(preferences, c)[s := preference]
  {
  }

  lemma PersistOwn(db: Db, k: OrderKey, d: Draft, tape: Tape, c: ChannelId)
    requires k.run in db.runs && db.runs[k.run].channel == c
    ensures SameEffect(Persist(db, k, d, tape), Persist(Project(db, c), k, d, tape), c)
  {
    var o := Persist(db, k, d, tape);
    OrdersInWrite(db.orders, db.runs, c, k, o.db.orders[k]);
    if d.confirm {
      var seat := Seat(c, k.user);
      PreferencesInWrite(db.preferences, c, seat, o.db.preferences[seat]);
    }
  }

  lemma SubmitOwn(p: Policy, db: Db, k: OrderKey, d: Draft, tape: Tape, c: ChannelId)
    requires k.run in db.runs ==> db.runs[k.run].channel == c
    ensures SameEffect(Submit(p, db, k, d, tape), Submit(p, Project(db, c), k, d, tape), c)
  {
    if k.run in db.runs && Validate(p.maxLength, d.text).Some? {
      PersistOwn(db, k, d.(text := Validate(p.maxLength, d.text).value), tape, c);
    }
  }

  lemma MarkOwn(o: Outcome, q: Outcome, seat: Seat, used: Preference, c: ChannelId)
    requires SameEffect(o, q, c) && seat.channel == c
    ensures q.db.(preferences := q.db.preferences[seat := used], audit := [])
         == Project(o.db.(preferences := o.db.preferences[seat := used]), c)
  {
    PreferencesInWrite(o.db.preferences, c, seat, used);
  }

  lemma UseLastOwn(p: Policy, db: Db, k: OrderKey, orderId: RowId, preferenceId: RowId, tape: Tape, c: ChannelId)
    requires k.run in db.runs ==> db.runs[k.run].channel == c
    ensures SameEffect(
      UseLast(p, db, k, orderId, preferenceId, tape), UseLast(p, Project(db, c), k, orderId, preferenceId, tape), c)
  {
    var o := UseLast(p, db, k, orderId, preferenceId, tape);
    var seat := Seat(c, k.user);
    if o.reply.Reused? {
      var d := Draft(
        Validate(p.maxLength, db.preferences[seat].lastOrderText).value, true, FromPreference, orderId, preferenceId);
      PersistOwn(db, k, d, tape, c);
      MarkOwn(Persist(db, k, d, tape), Persist(Project(db, c), k, d, tape), seat, o.db.preferences[seat], c);
    }
  }

  lemma CancelOwn(db: Db, k: OrderKey, tape: Tape, c: ChannelId)
    requires k.run in db.runs ==> db.runs[k.run].channel == c
    ensures SameEffect(Cancel(db, k, tape), Cancel(Project(db, c), k, tape), c)
  {
    var o := Cancel(db, k, tape);
    if o.reply.Withdrawn? {
      OrdersInWrite(db.orders, db.runs, c, k, o.db.orders[k]);
    }
  }

  lemma StartRows(db: Db, r: RunId, run: Run, c: ChannelId)
    requires r !in db.runs && run.channel == c && Admin.NoOrphans(db.orders, db.runs)
    ensures RunsIn(db.runs[r := run], c) == RunsIn(db.runs, c)[r := run]
    ensures OrdersIn(db.orders, db.runs[r := run], c) == OrdersIn(db.orders, db.runs, c)
  {
  }

  lemma StartOwn(db: Db, op: Op, tape: Tape, c: ChannelId)
    requires op.StartRun? && op.channel == c && (op.run in db.runs ==> db.runs[op.run].channel == c)
    requires Admin.NoOrphans(db.orders, db.runs)
    ensures SameEffect(Start(db, op, tape), Start(Project(db, c), op, tape), c)
  {
    var o := Start(db, op, tape);
    if o.reply.Started? {
      StartRows(db, op.run, o.db.runs[op.run], c);
    }
  }

  /** The close reads the channel's rows only. */
  lemma CloseReadsOwn(db: Db, r: RunId, c: ChannelId)
    requires r in db.runs && db.runs[r].channel == c && db.runs[r].status == Open
    ensures var own := Project(db, c);
      && Participants(own.users, own.orders, r) == Participants(db.users, db.orders, r)
      && RunRoster(own, r) == RunRoster(db, r)
      && PreviousRunner(own.runs, c, r) == PreviousRunner(db.runs, c, r)
  {
    var own := Project(db, c);
    forall q | q in own.runs ensures Participants(own.users, own.orders, q) == Participants(db.users, db.orders, q) {
    }
    assert ClosedIn(own, c) == ClosedIn(db, c);
    PreviousIsLast(own, c, r);
    PreviousIsLast(db, c, r);
  }

  lemma SettleRows(db: Db, r: RunId, runner: UserId, us: set<UserId>, now: Time, c: ChannelId)
    requires r in db.runs && db.runs[r].channel == c
    ensures var runs, orders := db.runs[r := ClosedRun(db.runs[r], runner, now)], Finalized(db.orders, r, us, now);
      && RunsIn(runs, c) == RunsIn(db.runs, c)[r := ClosedRun(db.runs[r], runner, now)]
      && OrdersIn(orders, runs, c) == Finalized(OrdersIn(db.orders, db.runs, c), r, us, now)
  {
  }

  lemma SummaryOwn(db: Db, r: RunId, runner: UserId, now: Time, c: ChannelId)
    requires r in db.runs && db.runs[r].channel == c && c in db.channels && db.runs[r].status == Open
    requires runner in db.users
    ensures Summarize(Project(db, c), r, runner, now) == Summarize(db, r, runner, now)
  {
    var own, roster := Project(db, c), RunRoster(db, r);
    CloseReadsOwn(db, r, c);
    RosterOrdered(db, r);
    RosterOrdered(own, r);
    assert Lines(own.users, own.orders, r, roster) == Lines(db.users, db.orders, r, roster);
  }

  lemma SettleOwn(db: Db, r: RunId, repeat: bool, tape: Tape, c: ChannelId)
    requires r in db.runs && db.runs[r].channel == c && c in db.channels && db.runs[r].status == Open
    requires RunRoster(db, r) != []
    ensures RunRoster(Project(db, c), r) != []
    ensures SameEffect(Settle(db, r, repeat, tape), Settle(Project(db, c), r, repeat, tape), c)
  {
    var o, last := Settle(db, r, repeat, tape), PreviousRunner(db.runs, c, r);
    CloseReadsOwn(db, r, c);
    RunnerTakesPart(db, r, repeat, tape);
    AssignOnly(db.stats, c, RunRoster(db, r), last, repeat, tape);
    var s := o.reply.summary;
    SummaryOwn(db, r, s.runner, s.closedAt, c);
    SettleRows(db, r, s.runner, Elems(RunRoster(db, r)), s.closedAt, c);
  }

  lemma CloseOwn(p: Policy, db: Db, r: RunId, actor: UserId, repeat: bool, tape: Tape, c: ChannelId)
    requires r in db.runs ==> db.runs[r].channel == c
    ensures SameEffect(Close(p, db, r, actor, repeat, tape), Close(p, Project(db, c), r, actor, repeat, tape), c)
  {
    var own := Project(db, c);
    assert r in own.runs <==> r in db.runs;
    assert c in own.channels <==> c in db.channels;
    if r in db.runs && db.runs[r].status == Open {
      CloseReadsOwn(db, r, c);
      if p.mayClose(db.runs[r], actor) && c in db.channels && RunRoster(db, r) != [] {
        SettleOwn(db, r, repeat, tape, c);
        assert Close(p, db, r, actor, repeat, tape) == Settle(db, r, repeat, tape);
        assert Close(p, own, r, actor, repeat, tape) == Settle(own, r, repeat, tape);
      }
    }
  }

  lemma PurgeSizesOwn(db: Db, c: ChannelId)
    ensures Admin.PurgeSizes(Project(db, c), c) == Admin.PurgeSizes(db, c)
  {
    var own := Project(db, c);
    assert Admin.OrdersOf(own, c) == Admin.OrdersOf(db, c);
    assert Admin.RunsOf(own, c) == Admin.RunsOf(db, c);
    assert Admin.PreferencesOf(own, c) == Admin.PreferencesOf(db, c);
    assert Admin.StatRowsOf(own, c) == Admin.StatRowsOf(db, c);
  }

  /** A channel that is set up but has no history. */
  function Blank(users: map<UserId, User>, channels: map<ChannelId, Channel>, c: ChannelId): Db {
    Db(users, ChannelIn(channels, c), map[], map[], map[], map[], [])
  }

  lemma PurgedIsBlank(db: Db, c: ChannelId)
    ensures Project(Admin.Purge(db, c), c) == Blank(db.users, db.channels, c)
  {
    var after := Admin.Purge(db, c);
    assert RunsIn(after.runs, c) == map[];
    assert OrdersIn(after.orders, after.runs, c) == map[];
    assert PreferencesIn(after.preferences, c) == map[];
    assert Only(after.stats, c) == map[];
  }

  lemma PurgedProjectionIsBlank(db: Db, c: ChannelId)
    ensures Admin.Purge(Project(db, c), c) == Blank(db.users, db.channels, c)
  {
    var own := Project(db, c);
    assert Admin.OrdersOf(own, c) == own.orders.Keys;
    assert Admin.RunsOf(own, c) == own.runs.Keys;
    assert Admin.PreferencesOf(own, c) == own.preferences.Keys;
    assert Admin.StatRowsOf(own, c) == own.stats.Keys;
  }

  lemma ChannelWrite(db: Db, c: ChannelId, channel: Channel, entry: AuditEntry)
    requires c in db.channels
    ensures Project(db.(channels := db.channels[c := channel], audit := db.audit + [entry]), c)
         == Project(db, c).(channels := ChannelIn(db.channels, c)[c := channel])
  {
  }

  lemma ResetOwn(p: Policy, db: Db, c: ChannelId, actor: UserId, tape: Tape)
    ensures SameEffect(Admin.Reset(p, db, c, actor, tape), Admin.Reset(p, Project(db, c), c, actor, tape), c)
  {
    var o := Admin.Reset(p, db, c, actor, tape);
    if o.reply.Purged? {
      PurgeSizesOwn(db, c);
      PurgedIsBlank(db, c);
      PurgedProjectionIsBlank(db, c);
      ChannelWrite(Admin.Purge(db, c), c, o.db.channels[c], o.db.audit[|db.audit|]);
    }
  }

  lemma ConfigOwn(p: Policy, db: Db, c: ChannelId, actor: UserId, patch: Admin.Patch, tape: Tape)
    ensures SameEffect(
      Admin.UpdateConfig(p, db, c, actor, patch, tape), Admin.UpdateConfig(p, Project(db, c), c, actor, patch, tape), c)
  {
    var o := Admin.UpdateConfig(p, db, c, actor, patch, tape);
    assert ChannelIn(db.channels, c).Keys == db.channels.Keys * {c};
    if o.reply.Configured? && o.reply.settings != [] {
      ChannelWrite(db, c, o.db.channels[c], o.db.audit[|db.audit|]);
    }
  }

  lemma EnabledOwn(p: Policy, db: Db, c: ChannelId, actor: UserId, enabled: bool, reason: Option<string>, tape: Tape)
    ensures SameEffect(
      Admin.SetEnabled(p, db, c, actor, enabled, reason, tape),
      Admin.SetEnabled(p, Project(db, c), c, actor, enabled, reason, tape), c)
  {
    var o := Admin.SetEnabled(p, db, c, actor, enabled, reason, tape);
    if o.reply.EnabledSet? {
      ChannelWrite(db, c, o.db.channels[c], o.db.audit[|db.audit|]);
    }
  }

  /** A step on the channel reads and writes the channel's rows only. */
  lemma StepOwn(p: Policy, db: Db, op: Op, tape: Tape, home: Homes, c: ChannelId)
    requires WellHomed(db, home) && Homed(op, home) && ChannelOf(op, home) == c
    requires Admin.NoOrphans(db.orders, db.runs)
    ensures SameEffect(Step(p, db, op, tape), Step(p, Project(db, c), op, tape), c)
  {
    match op
    case SubmitOrder(k, d) => SubmitOwn(p, db, k, d, tape, c);
    case UseLastOrder(k, orderId, preferenceId) => UseLastOwn(p, db, k, orderId, preferenceId, tape, c);
    case CancelOrder(k) => CancelOwn(db, k, tape, c);
    case CloseRun(r, actor, repeat) => CloseOwn(p, db, r, actor, repeat, tape, c);
    case ResetChannel(_, actor) => ResetOwn(p, db, c, actor, tape);
    case StartRun(_, _, _, _, _) => StartOwn(db, op, tape, c);
    case UpdateConfig(_, actor, patch) => ConfigOwn(p, db, c, actor, patch, tape);
    case SetEnabled(_, actor, enabled, reason) => EnabledOwn(p, db, c, actor, enabled, reason, tape);
  }

  // ----- whole histories -----

  /** Run ids are where they belong, and the foreign keys of the orders hold. */
  ghost predicate Grounded(db: Db, home: Homes) {
    WellHomed(db, home) && Referenced(db)
  }

  /** Every new run gets an id of its channel. */
  ghost predicate AllHomed(t: Trace, home: Homes) {
    forall i :: 0 <= i < |t.events| ==> Homed(t.events[i].op, home)
  }

  /** The events of one channel among the first n. */
  function Keep(t: Trace, n: nat, home: Homes, c: ChannelId): seq<Event>
    requires n <= |t.events|
  {
    if n == 0 then []
    else if ChannelOf(t.events[n - 1].op, home) == c then Keep(t, n - 1, home, c) + [t.events[n - 1]]
    else Keep(t, n - 1, home, c)
  }

  /** The replies to these events. */
  function KeepReplies(t: Trace, n: nat, home: Homes, c: ChannelId): seq<Reply>
    requires n <= |t.events| == |t.replies|
  {
    if n == 0 then []
    else if ChannelOf(t.events[n - 1].op, home) == c then KeepReplies(t, n - 1, home, c) + [t.replies[n - 1]]
    else KeepReplies(t, n - 1, home, c)
  }

  lemma {:induction false} KeepGrows(t: Trace, m: nat, n: nat, home: Homes, c: ChannelId)
    requires m <= n <= |t.events|
    ensures Keep(t, m, home, c) <= Keep(t, n, home, c)
    decreases n
  {
    if m < n {
      KeepGrows(t, m, n - 1, home, c);
    }
  }

  lemma {:induction false} StaysGrounded(p: Policy, t: Trace, n: nat, home: Homes)
    requires IsHistory(p, t) && n < |t.worlds| && Grounded(t.worlds[0].db, home) && AllHomed(t, home)
    ensures Grounded(t.worlds[n].db, home)
  {
    for i := 0 to n
      invariant Grounded(t.worlds[i].db, home)
    {
      assert MovesAt(p, t, i);
      WellHomedStep(p, t.worlds[i].db, t.events[i].op, t.events[i].tape, home);
      ReferencedStep(p, t.worlds[i].db, t.events[i].op, t.events[i].tape);
    }
  }

  lemma AllGrounded(p: Policy, t: Trace, home: Homes)
    requires IsHistory(p, t) && Grounded(t.worlds[0].db, home) && AllHomed(t, home)
    ensures forall i :: 0 <= i < |t.worlds| ==> Grounded(t.worlds[i].db, home)
  {
    forall i | 0 <= i < |t.worlds| ensures Grounded(t.worlds[i].db, home) {
      StaysGrounded(p, t, i, home);
    }
  }

  /** `alone` handles just the events of channel `c` in `t`, from the same rows of the channel. */
  ghost predicate RunsAlone(p: Policy, t: Trace, alone: Trace, home: Homes, c: ChannelId) {
    && IsHistory(p, t) && IsHistory(p, alone)
    && AllHomed(t, home) && AllHomed(alone, home)
    && Grounded(t.worlds[0].db, home) && Grounded(alone.worlds[0].db, home)
    && Project(t.worlds[0].db, c) == Project(alone.worlds[0].db, c)
    && alone.events == Keep(t, |t.events|, home, c)
  }

  /** After n events of `t` and the channel's events among them in `alone`, rows and replies agree. */
  ghost predicate Agree(t: Trace, alone: Trace, n: nat, home: Homes, c: ChannelId)
    requires Shaped(t) && n < |t.worlds|
  {
    var k := |Keep(t, n, home, c)|;
    && k < |alone.worlds| && k <= |alone.replies|
    && Project(t.worlds[n].db, c) == Project(alone.worlds[k].db, c)
    && KeepReplies(t, n, home, c) == alone.replies[..k]
  }

  lemma OwnEvent(
    p: Policy, w: World, next: World, w': World, next': World, e: Event, reply: Reply, reply': Reply, home: Homes,
    c: ChannelId)
    requires Moves(p, w, e, reply, next) && Moves(p, w', e, reply', next')
    requires Grounded(w.db, home) && Grounded(w'.db, home) && Homed(e.op, home) && ChannelOf(e.op, home) == c
    requires Project(w.db, c) == Project(w'.db, c)
    ensures Project(next.db, c) == Project(next'.db, c) && reply == reply'
  {
    StepOwn(p, w.db, e.op, e.tape, home, c);
    StepOwn(p, w'.db, e.op, e.tape, home, c);
  }

  lemma AgreeAt(p: Policy, t: Trace, alone: Trace, i: nat, home: Homes, c: ChannelId)
    requires RunsAlone(p, t, alone, home, c) && i < |t.events| && Agree(t, alone, i, home, c)
    requires Grounded(t.worlds[i].db, home) && Grounded(alone.worlds[|Keep(t, i, home, c)|].db, home)
    ensures Agree(t, alone, i + 1, home, c)
  {
    var e, k := t.events[i], |Keep(t, i, home, c)|;
    assert MovesAt(p, t, i);
    KeepGrows(t, i + 1, |t.events|, home, c);
    if ChannelOf(e.op, home) == c {
      assert alone.events[k] == e && MovesAt(p, alone, k);
      OwnEvent(
        p, t.worlds[i], t.worlds[i + 1], alone.worlds[k], alone.worlds[k + 1], e, t.replies[i], alone.replies[k],
        home, c);
    } else {
      StepElsewhere(p, t.worlds[i].db, e.op, e.tape, home, c);
    }
  }

  /** Two stores that agree on a channel's rows answer its requests alike and still agree, when one of them
      also serves all the other channels and the other serves this channel alone. */
  lemma {:induction false} ChannelsDoNotInterfere(
    p: Policy, t: Trace, alone: Trace, n: nat, home: Homes, c: ChannelId)
    requires RunsAlone(p, t, alone, home, c) && n < |t.worlds|
    ensures Agree(t, alone, n, home, c)
  {
    AllGrounded(p, t, home);
    AllGrounded(p, alone, home);
    for i := 0 to n
      invariant Agree(t, alone, i, home, c)
    {
      AgreeAt(p, t, alone, i, home, c);
    }
  }

  lemma BlankIsItself(users: map<UserId, User>, channels: map<ChannelId, Channel>, c: ChannelId)
    ensures Project(Blank(users, channels, c), c) == Blank(users, channels, c)
  {
  }

  /** What a reset leaves of the channel is its settings. */
  lemma ResetToBlank(p: Policy, db: Db, op: Op, tape: Tape, c: ChannelId)
    requires Resets(p, db, op, c)
    ensures var after := Step(p, db, op, tape).db;
      && Project(after, c) == Blank(after.users, after.channels, c)
      && Project(Blank(after.users, after.channels, c), c) == Blank(after.users, after.channels, c)
  {
    var after := Admin.Reset(p, db, c, op.actor, tape).db;
    PurgedIsBlank(db, c);
    ChannelWrite(Admin.Purge(db, c), c, after.channels[c], after.audit[|db.audit|]);
    BlankIsItself(after.users, after.channels, c);
  }

  /** The four counts of a reset are the rows the tables lost; configuration and switch stay. */
  lemma ResetReportsRows(p: Policy, db: Db, c: ChannelId, actor: UserId, tape: Tape)
    requires c in db.channels && p.mayAdminister(actor)
    ensures var o := Admin.Reset(p, db, c, actor, tape);
      && o.reply == Purged(PurgeCounts(
          |db.orders| - |o.db.orders|, |db.runs| - |o.db.runs|,
          |db.preferences| - |o.db.preferences|, |db.stats| - |o.db.stats|))
      && o.db.channels[c].config == db.channels[c].config && o.db.channels[c].enabled == db.channels[c].enabled
  {
    Admin.PurgeSizesAreLosses(db, c);
  }

  /** What is left of a history from world m on. */
  function From(t: Trace, m: nat): Trace
    requires m < |t.worlds| && m <= |t.events| && m <= |t.replies|
  {
    Trace(t.worlds[m..], t.events[m..], t.replies[m..])
  }

  lemma FromIsHistory(p: Policy, t: Trace, m: nat)
    requires IsHistory(p, t) && m <= |t.events|
    ensures IsHistory(p, From(t, m))
  {
    var rest := From(t, m);
    forall i | 0 <= i < |rest.events| ensures MovesAt(p, rest, i) {
      assert MovesAt(p, t, m + i);
    }
  }

  lemma ResetAtBlank(p: Policy, t: Trace, m: nat, c: ChannelId)
    requires IsHistory(p, t) && m < |t.events| && ResetsAt(p, t, m, c)
    ensures var after := t.worlds[m + 1].db;
      && Project(after, c) == Blank(after.users, after.channels, c)
      && Project(Blank(after.users, after.channels, c), c) == Blank(after.users, after.channels, c)
  {
    assert MovesAt(p, t, m);
    ResetToBlank(p, t.worlds[m].db, t.events[m].op, t.events[m].tape, c);
  }

  /** `blank` starts with the channel's settings after event m and no other row, and handles just the channel's
      events after that. */
  ghost predicate StartsOver(p: Policy, t: Trace, m: nat, blank: Trace, home: Homes, c: ChannelId)
    requires Shaped(t) && m < |t.events|
  {
    var after, rest := t.worlds[m + 1].db, From(t, m + 1);
    && IsHistory(p, blank) && AllHomed(blank, home)
    && blank.worlds[0].db == Blank(after.users, after.channels, c)
    && blank.events == Keep(rest, |rest.events|, home, c)
  }

  /** After a reset the channel behaves, in all that follows, exactly as a channel with the same settings and no
      past: same replies, same rows. */
  lemma ResetIsFreshStart(p: Policy, t: Trace, m: nat, blank: Trace, n: nat, home: Homes, c: ChannelId)
    requires IsHistory(p, t) && AllHomed(t, home) && Grounded(t.worlds[0].db, home)
    requires m < |t.events| && ResetsAt(p, t, m, c) && StartsOver(p, t, m, blank, home, c)
    requires m + 1 + n < |t.worlds|
    ensures Agree(From(t, m + 1), blank, n, home, c)
  {
    var rest := From(t, m + 1);
    FromIsHistory(p, t, m + 1);
    StaysGrounded(p, t, m + 1, home);
    ResetAtBlank(p, t, m, c);
    ChannelsDoNotInterfere(p, rest, blank, n, home, c);
  }
}
