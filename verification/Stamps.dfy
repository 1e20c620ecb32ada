/** Time stamps and row identity: what a step may do to the ids, creation times and update times of rows. */
module Stamps {
  import opened Data
  import opened Fairness
  import opened Orders
  import opened Runs
  import opened Machine
  import Admin

  // ----- the stamps of one row agree -----

  predicate RunStamped(run: Run) {
    run.updatedAt == run.closedAt.GetOr(run.startedAt)
  }

  predicate OrderStamped(order: Order) {
    order.canceledAt.Some? ==> order.canceledAt.value == order.updatedAt
  }

  predicate PreferenceStamped(preference: Preference) {
    preference.lastUsedAt == preference.updatedAt
  }

  predicate StatStamped(stat: Stat) {
    stat.updatedAt == stat.lastRunAt.GetOr(stat.createdAt)
  }

  /** A run was last updated when it closed, or else when it started; a cancelled order when it was cancelled; a
      preference when it was used; a statistics row when its user last ran, or else when it was created. */
  ghost predicate Stamped(db: Db) {
    && (forall r :: r in db.runs ==> RunStamped(db.runs[r]))
    && (forall k :: k in db.orders ==> OrderStamped(db.orders[k]))
    && (forall s :: s in db.preferences ==> PreferenceStamped(db.preferences[s]))
    && StatsStamped(db.stats)
  }

  ghost predicate StatsStamped(stats: Stats) {
    forall s :: s in stats ==> StatStamped(stats[s])
  }

  lemma {:induction false} EnrolStamped(stats: Stats, c: ChannelId, participants: seq<UserId>, tape: Tape)
    requires StatsStamped(stats)
    ensures StatsStamped(Enrol(stats, c, participants, tape).stats)
    decreases |participants|
  {
    if participants != [] {
      var s, row := Seat(c, participants[0]), Stat(0, None, tape.Now(), tape.Now());
      if s in stats {
        EnrolStamped(stats, c, participants[1..], tape);
      } else {
        EnrolStamped(stats[s := row], c, participants[1..], tape.Next());
        assert Enrol(stats, c, participants, tape) == Enrol(stats[s := row], c, participants[1..], tape.Next());
      }
    }
  }

  lemma FinalizedStamped(orders: map<OrderKey, Order>, r: RunId, us: set<UserId>, now: Time)
    requires forall k :: k in orders ==> OrderStamped(orders[k])
    requires forall u :: u in us && OrderKey(r, u) in orders ==> orders[OrderKey(r, u)].canceledAt == None
    ensures var after := Finalized(orders, r, us, now); forall k :: k in after ==> OrderStamped(after[k])
  {
    forall k | k in orders && k.run == r && k.user in us ensures orders[k].canceledAt == None {
      assert k == OrderKey(r, k.user);
    }
  }

  lemma SettleStamped(db: Db, r: RunId, repeat: bool, tape: Tape)
    requires r in db.runs && db.runs[r].channel in db.channels && RunRoster(db, r) != [] && Stamped(db)
    ensures Stamped(Settle(db, r, repeat, tape).db)
  {
    RunnerTakesPart(db, r, repeat, tape);
    RosterOrdered(db, r);
    EnrolStamped(db.stats, db.runs[r].channel, RunRoster(db, r), tape);
    var o := Settle(db, r, repeat, tape);
    FinalizedStamped(db.orders, r, Elems(RunRoster(db, r)), o.reply.summary.closedAt);
  }

  lemma CloseStamped(p: Policy, db: Db, r: RunId, actor: UserId, repeat: bool, tape: Tape)
    requires Stamped(db)
    ensures Stamped(Close(p, db, r, actor, repeat, tape).db)
  {
    if r in db.runs && db.runs[r].channel in db.channels && RunRoster(db, r) != [] {
      SettleStamped(db, r, repeat, tape);
    }
  }

  lemma SubmitStamped(p: Policy, db: Db, k: OrderKey, d: Draft, tape: Tape)
    requires Stamped(db)
    ensures Stamped(Submit(p, db, k, d, tape).db)
  {
  }

  lemma UseLastStamped(p: Policy, db: Db, k: OrderKey, orderId: RowId, preferenceId: RowId, tape: Tape)
    requires Stamped(db)
    ensures Stamped(UseLast(p, db, k, orderId, preferenceId, tape).db)
  {
  }

  lemma OtherStamped(p: Policy, db: Db, op: Op, tape: Tape)
    requires Stamped(db) && (op.StartRun? || op.CancelOrder? || op.ResetChannel?)
    ensures Stamped(Step(p, db, op, tape).db)
  {
  }

  lemma StampedStep(p: Policy, db: Db, op: Op, tape: Tape)
    requires Stamped(db)
    ensures Stamped(Step(p, db, op, tape).db)
  {
    match op
    case SubmitOrder(k, d) => SubmitStamped(p, db, k, d, tape);
    case UseLastOrder(k, orderId, preferenceId) => UseLastStamped(p, db, k, orderId, preferenceId, tape);
    case CloseRun(r, actor, repeat) => CloseStamped(p, db, r, actor, repeat, tape);
    case UpdateConfig(_, _, _) =>
    case SetEnabled(_, _, _, _) =>
    case _ => OtherStamped(p, db, op, tape);
  }

  lemma {:induction false} AlwaysStamped(p: Policy, t: Trace, n: nat)
    requires IsFullHistory(p, t) && n < |t.worlds|
    ensures Stamped(t.worlds[n].db)
  {
    for i := 0 to n
      invariant Stamped(t.worlds[i].db)
    {
      assert MovesAt(p, t, i);
      StampedStep(p, t.worlds[i].db, t.events[i].op, t.events[i].tape);
    }
  }

  // ----- rows keep their identity, and changed rows bear a reading of the step -----

  /** The time is one of the readings between two states of the clock. */
  predicate During(t: Time, from: Tape, to: Tape) {
    from.Now() <= t < to.Now()
  }

  ghost predicate OrderMoved(db: Db, after: Db, k: OrderKey, from: Tape, to: Tape)
    requires k in after.orders
  {
    var order := after.orders[k];
    if k in db.orders then
      || order == db.orders[k]
      || (order.id == db.orders[k].id && order.createdAt == db.orders[k].createdAt && During(order.updatedAt, from, to))
    else
      order.createdAt == order.updatedAt && During(order.updatedAt, from, to)
  }

  ghost predicate PreferenceMoved(db: Db, after: Db, s: Seat, from: Tape, to: Tape)
    requires s in after.preferences
  {
    var row := after.preferences[s];
    if s in db.preferences then
      || row == db.preferences[s]
      || (row.id == db.preferences[s].id && row.createdAt == db.preferences[s].createdAt
          && During(row.updatedAt, from, to))
    else
      row.createdAt == row.updatedAt && During(row.updatedAt, from, to)
  }

  ghost predicate StatMoved(stats: Stats, after: Stats, s: Seat, from: Tape, to: Tape)
    requires s in after
  {
    var row := after[s];
    if s in stats then
      row == stats[s] || (row.createdAt == stats[s].createdAt && During(row.updatedAt, from, to))
    else
      During(row.createdAt, from, to) && During(row.updatedAt, from, to)
  }

  ghost predicate RowsMoved(db: Db, after: Db, from: Tape, to: Tape) {
    && (forall k :: k in after.orders ==> OrderMoved(db, after, k, from, to))
    && (forall s :: s in after.preferences ==> PreferenceMoved(db, after, s, from, to))
    && (forall s :: s in after.stats ==> StatMoved(db.stats, after.stats, s, from, to))
  }

  lemma SubmitMoves(p: Policy, db: Db, k: OrderKey, d: Draft, tape: Tape)
    requires tape.Ticking()
    ensures var o := Submit(p, db, k, d, tape); RowsMoved(db, o.db, tape, o.tape)
  {
    assert tape.Now() < tape.Next().Now() < tape.Next().Next().Now();
  }

  lemma UseLastMoves(p: Policy, db: Db, k: OrderKey, orderId: RowId, preferenceId: RowId, tape: Tape)
    requires tape.Ticking()
    ensures var o := UseLast(p, db, k, orderId, preferenceId, tape); RowsMoved(db, o.db, tape, o.tape)
  {
    assert tape.Now() < tape.Next().Now() < tape.Next().Next().Now() < tape.Next().Next().Next().Now();
  }

  lemma CancelMoves(db: Db, k: OrderKey, tape: Tape)
    requires tape.Ticking()
    ensures var o := Cancel(db, k, tape); RowsMoved(db, o.db, tape, o.tape)
  {
    assert tape.Now() < tape.Next().Now();
  }

  lemma ChargeMoves(
    stats: Stats, c: ChannelId, roster: seq<UserId>, tape: Tape, runner: UserId, excluded: bool)
    requires tape.Ticking() && Seat(c, runner) in Enrol(stats, c, roster, tape).stats
    requires StatsStamped(stats)
    ensures var a := Charge(Enrol(stats, c, roster, tape), c, runner, excluded);
      && tape.Now() < a.tape.Now() < a.tape.Next().Now()
      && forall s :: s in a.stats ==> StatMoved(stats, a.stats, s, tape, a.tape)
  {
    EnrolFacts(stats, c, roster, tape);
    EnrolTimes(stats, c, roster, tape);
    EnrolStamped(stats, c, roster, tape);
    var l := Enrol(stats, c, roster, tape);
    assert l.tape.Now() < l.tape.Next().Now() < l.tape.Next().Next().Now();
  }

  lemma AssignMoves(db: Db, r: RunId, repeat: bool, tape: Tape)
    requires r in db.runs && db.runs[r].channel in db.channels && RunRoster(db, r) != [] && tape.Ticking()
    requires StatsStamped(db.stats)
    ensures var o := Settle(db, r, repeat, tape);
      && o.reply.RunClosed? && During(o.reply.summary.closedAt, tape, o.tape)
      && forall s :: s in o.db.stats ==> StatMoved(db.stats, o.db.stats, s, tape, o.tape)
  {
    var c, roster, last := db.runs[r].channel, RunRoster(db, r), PreviousRunner(db.runs, db.runs[r].channel, r);
    RunnerTakesPart(db, r, repeat, tape);
    PickFacts(Enrol(db.stats, c, roster, tape), c, Elems(roster), last, repeat);
    var runner := Settle(db, r, repeat, tape).reply.summary.runner;
    ChargeMoves(db.stats, c, roster, tape, runner, Excludes(Elems(roster), last, repeat));
  }

  lemma SettleMoves(db: Db, r: RunId, repeat: bool, tape: Tape)
    requires r in db.runs && db.runs[r].channel in db.channels && RunRoster(db, r) != [] && tape.Ticking()
    requires StatsStamped(db.stats)
    ensures var o := Settle(db, r, repeat, tape); RowsMoved(db, o.db, tape, o.tape)
  {
    AssignMoves(db, r, repeat, tape);
    var o := Settle(db, r, repeat, tape);
    FinalizedMoves(db, o.db, r, Elems(RunRoster(db, r)), o.reply.summary.closedAt, tape, o.tape);
  }

  lemma FinalizedMoves(db: Db, after: Db, r: RunId, us: set<UserId>, now: Time, from: Tape, to: Tape)
    requires after.orders == Finalized(db.orders, r, us, now) && During(now, from, to)
    ensures forall k :: k in after.orders ==> OrderMoved(db, after, k, from, to)
  {
  }

  lemma CloseMoves(p: Policy, db: Db, r: RunId, actor: UserId, repeat: bool, tape: Tape)
    requires tape.Ticking() && StatsStamped(db.stats)
    ensures var o := Close(p, db, r, actor, repeat, tape); RowsMoved(db, o.db, tape, o.tape)
  {
    if r in db.runs && db.runs[r].channel in db.channels && RunRoster(db, r) != [] {
      SettleMoves(db, r, repeat, tape);
    }
  }

  lemma KeptRows(db: Db, o: Outcome, tape: Tape)
    requires forall k :: k in o.db.orders ==> k in db.orders && o.db.orders[k] == db.orders[k]
    requires forall s :: s in o.db.preferences ==> s in db.preferences && o.db.preferences[s] == db.preferences[s]
    requires forall s :: s in o.db.stats ==> s in db.stats && o.db.stats[s] == db.stats[s]
    ensures RowsMoved(db, o.db, tape, o.tape)
  {
  }

  lemma ResetMoves(p: Policy, db: Db, c: ChannelId, actor: UserId, tape: Tape)
    ensures var o := Admin.Reset(p, db, c, actor, tape); RowsMoved(db, o.db, tape, o.tape)
  {
    KeptRows(db, Admin.Reset(p, db, c, actor, tape), tape);
  }

  /** Requests that leave orders, preferences and statistics alone. */
  lemma QuietMoves(db: Db, o: Outcome, tape: Tape)
    requires o.db.orders == db.orders && o.db.preferences == db.preferences && o.db.stats == db.stats
    ensures RowsMoved(db, o.db, tape, o.tape)
  {
  }

  lemma AdminMoves(p: Policy, db: Db, op: Op, tape: Tape)
    requires op.StartRun? || op.UpdateConfig? || op.SetEnabled? || op.ResetChannel?
    ensures var o := Step(p, db, op, tape); RowsMoved(db, o.db, tape, o.tape)
  {
    match op
    case StartRun(_, _, _, _, _) => QuietMoves(db, Start(db, op, tape), tape);
    case UpdateConfig(c, actor, patch) => QuietMoves(db, Admin.UpdateConfig(p, db, c, actor, patch, tape), tape);
    case SetEnabled(c, actor, on, reason) => QuietMoves(db, Admin.SetEnabled(p, db, c, actor, on, reason, tape), tape);
    case ResetChannel(c, actor) => ResetMoves(p, db, c, actor, tape);
  }

  /** No step changes the id or the creation time of a row, and each row it adds or changes bears as its update
      time (and, if added, as its creation time) a reading of this step. */
  lemma RowsMoveOn(p: Policy, db: Db, op: Op, tape: Tape)
    requires tape.Ticking() && Stamped(db)
    ensures var o := Step(p, db, op, tape); RowsMoved(db, o.db, tape, o.tape)
  {
    match op
    case SubmitOrder(k, d) => SubmitMoves(p, db, k, d, tape);
    case UseLastOrder(k, orderId, preferenceId) => UseLastMoves(p, db, k, orderId, preferenceId, tape);
    case CancelOrder(k) => CancelMoves(db, k, tape);
    case CloseRun(r, actor, repeat) => CloseMoves(p, db, r, actor, repeat, tape);
    case _ => AdminMoves(p, db, op, tape);
  }
}
