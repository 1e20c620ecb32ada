/** Participant counts: what each submit and cancel reports, and what the close sums up. */
module Counts {
  import opened Data
  import opened Ordering
  import opened Orders
  import opened Runs
  import opened Machine
  import opened History
  import opened Integrity
  import opened Contents
  import Admin

  lemma {:induction false} UsersByKeys(keys: set<OrderKey>, r: RunId)
    requires forall k :: k in keys ==> k.run == r
    ensures |set k | k in keys :: k.user| == |keys|
    decreases |keys|
  {
    if keys != {} {
      var k :| k in keys;
      var rest := keys - {k};
      UsersByKeys(rest, r);
      assert (set x | x in keys :: x.user) == (set x | x in rest :: x.user) + {k.user};
      assert k.user !in (set x | x in rest :: x.user) by {
        forall x | x in rest ensures x.user != k.user {
          assert x == OrderKey(r, x.user) && k == OrderKey(r, k.user);
        }
      }
    }
  }

  /** Counting rows counts users, since each user has one row per run. */
  lemma CountIsUsers(db: Db, r: RunId)
    ensures CountActive(db.orders, r) == |ActiveUsers(Alpha(db), r)|
  {
    var keys := ActiveKeys(db.orders, r);
    UsersByKeys(keys, r);
    assert ActiveUsers(Alpha(db), r) == set k | k in keys :: k.user;
  }

  lemma ActiveUserHasKey(db: Db, k: OrderKey)
    ensures k.user in ActiveUsers(Alpha(db), k.run) <==> k in ActiveKeys(db.orders, k.run)
  {
    if k.user in ActiveUsers(Alpha(db), k.run) {
      var x :| x in Alpha(db).wishes && x.run == k.run && x.user == k.user;
      assert x == k;
    }
    if k in ActiveKeys(db.orders, k.run) {
      assert k in Alpha(db).wishes && Alpha(db).wishes[k].active;
    }
  }

  lemma PlacedKeys(orders: map<OrderKey, Order>, k: OrderKey, order: Order)
    requires order.canceledAt == None
    ensures CountActive(orders[k := order], k.run) ==
      CountActive(orders, k.run) + if k in ActiveKeys(orders, k.run) then 0 else 1
  {
    var keys := ActiveKeys(orders, k.run);
    assert ActiveKeys(orders[k := order], k.run) == keys + {k};
    assert k in keys ==> keys + {k} == keys;
  }

  /** Placing an order raises the count by one exactly when the user was not active. */
  lemma PlacingCounts(db: Db, orders: map<OrderKey, Order>, k: OrderKey)
    requires k in orders && orders == db.orders[k := orders[k]] && orders[k].canceledAt == None
    ensures CountActive(orders, k.run) ==
      |ActiveUsers(Alpha(db), k.run)| + if k.user in ActiveUsers(Alpha(db), k.run) then 0 else 1
  {
    CountIsUsers(db, k.run);
    ActiveUserHasKey(db, k);
    PlacedKeys(db.orders, k, orders[k]);
  }

  /** A submit reports the number of active users, one more than before exactly when the user was not
      active, and keeps the id of an order that already had a row. */
  lemma SubmitCounts(p: Policy, db: Db, k: OrderKey, d: Draft, tape: Tape)
    requires Submit(p, db, k, d, tape).reply.Submitted?
    ensures var o := Submit(p, db, k, d, tape);
      var users := ActiveUsers(Alpha(db), k.run);
      && o.reply.submission.participantCount == |ActiveUsers(Alpha(o.db), k.run)|
      && o.reply.submission.participantCount == |users| + (if k.user in users then 0 else 1)
      && k in o.db.orders && o.reply.submission.orderId == o.db.orders[k].id
      && (k in db.orders ==> o.db.orders[k].id == db.orders[k].id)
  {
    var o := Submit(p, db, k, d, tape);
    CountIsUsers(o.db, k.run);
    PlacingCounts(db, o.db.orders, k);
  }

  /** So does reusing the last order. */
  lemma ReuseCounts(p: Policy, db: Db, k: OrderKey, orderId: RowId, preferenceId: RowId, tape: Tape)
    requires UseLast(p, db, k, orderId, preferenceId, tape).reply.Reused?
    ensures var o := UseLast(p, db, k, orderId, preferenceId, tape);
      var users := ActiveUsers(Alpha(db), k.run);
      && o.reply.submission.participantCount == |ActiveUsers(Alpha(o.db), k.run)|
      && o.reply.submission.participantCount == |users| + (if k.user in users then 0 else 1)
      && k in o.db.orders && o.reply.submission.orderId == o.db.orders[k].id
      && (k in db.orders ==> o.db.orders[k].id == db.orders[k].id)
  {
    var o := UseLast(p, db, k, orderId, preferenceId, tape);
    CountIsUsers(o.db, k.run);
    PlacingCounts(db, o.db.orders, k);
  }

  /** A cancel reports the number of active users, one less than before. */
  lemma CancelCounts(db: Db, k: OrderKey, tape: Tape)
    requires Cancel(db, k, tape).reply.Withdrawn?
    ensures var o := Cancel(db, k, tape);
      var users := ActiveUsers(Alpha(db), k.run);
      && k.user in users
      && o.reply.participantCount == |ActiveUsers(Alpha(o.db), k.run)| == |users| - 1
  {
    var o := Cancel(db, k, tape);
    CountIsUsers(db, k.run);
    CountIsUsers(o.db, k.run);
    assert ActiveKeys(o.db.orders, k.run) == ActiveKeys(db.orders, k.run) - {k};
    ActiveUserHasKey(db, k);
  }

  // ----- the last reported count is the closing total -----

  /** The count a reply reports for run `r`, if it does. */
  function CountIn(op: Op, reply: Reply, r: RunId): Option<nat> {
    if op.SubmitOrder? && op.key.run == r && reply.Submitted? then Some(reply.submission.participantCount)
    else if op.UseLastOrder? && op.key.run == r && reply.Reused? then Some(reply.submission.participantCount)
    else if op.CancelOrder? && op.key.run == r && reply.Withdrawn? then Some(reply.participantCount)
    else None
  }

  /** The count last reported for run `r` in the first n replies, since its channel was last reset. */
  function LastCount(p: Policy, t: Trace, n: nat, r: RunId): Option<nat>
    requires Shaped(t) && n <= |t.events|
  {
    if n == 0 then
      None
    else
      var db, op := t.worlds[n - 1].db, t.events[n - 1].op;
      var count := CountIn(op, t.replies[n - 1], r);
      if count.Some? then count
      else if r in db.runs && Resets(p, db, op, db.runs[r].channel) then None
      else LastCount(p, t, n - 1, r)
  }

  lemma FinalizedCounts(orders: map<OrderKey, Order>, r: RunId, us: set<UserId>, now: Time, q: RunId)
    ensures CountActive(Finalized(orders, r, us, now), q) == CountActive(orders, q)
  {
    assert ActiveKeys(Finalized(orders, r, us, now), q) == ActiveKeys(orders, q);
  }

  lemma TouchElsewhere(db: Db, after: Db, k: OrderKey, r: RunId)
    requires TouchesOnly(db, after, k) && k.run != r
    ensures CountActive(after.orders, r) == CountActive(db.orders, r)
  {
    assert ActiveKeys(after.orders, r) == ActiveKeys(db.orders, r);
  }

  lemma PurgeElsewhere(db: Db, c: ChannelId, r: RunId)
    requires r in db.runs ==> db.runs[r].channel != c
    ensures CountActive(Admin.Purge(db, c).orders, r) == CountActive(db.orders, r)
  {
    assert ActiveKeys(Admin.Purge(db, c).orders, r) == ActiveKeys(db.orders, r);
  }

  /** The count of a run after a step: the one reported, or the old one. */
  ghost predicate Counted(before: Db, after: Db, count: Option<nat>, r: RunId) {
    CountActive(after.orders, r) == count.GetOr(CountActive(before.orders, r))
  }

  lemma SubmitCounted(p: Policy, db: Db, k: OrderKey, d: Draft, tape: Tape, r: RunId)
    ensures var o := Submit(p, db, k, d, tape); Counted(db, o.db, CountIn(SubmitOrder(k, d), o.reply, r), r)
  {
    SubmitTouches(p, db, k, d, tape);
    var o := Submit(p, db, k, d, tape);
    if k.run != r && !o.reply.Rejected? { TouchElsewhere(db, o.db, k, r); }
  }

  lemma UseLastCounted(p: Policy, db: Db, k: OrderKey, orderId: RowId, preferenceId: RowId, tape: Tape, r: RunId)
    ensures var o := UseLast(p, db, k, orderId, preferenceId, tape);
      Counted(db, o.db, CountIn(UseLastOrder(k, orderId, preferenceId), o.reply, r), r)
  {
    UseLastTouches(p, db, k, orderId, preferenceId, tape);
    var o := UseLast(p, db, k, orderId, preferenceId, tape);
    if k.run != r && !o.reply.Rejected? { TouchElsewhere(db, o.db, k, r); }
  }

  lemma CancelCounted(db: Db, k: OrderKey, tape: Tape, r: RunId)
    ensures var o := Cancel(db, k, tape); Counted(db, o.db, CountIn(CancelOrder(k), o.reply, r), r)
  {
    CancelTouches(db, k, tape);
    var o := Cancel(db, k, tape);
    if k.run != r && !o.reply.Rejected? { TouchElsewhere(db, o.db, k, r); }
  }

  lemma CloseCounted(p: Policy, db: Db, q: RunId, actor: UserId, repeat: bool, tape: Tape, r: RunId)
    ensures CountActive(Close(p, db, q, actor, repeat, tape).db.orders, r) == CountActive(db.orders, r)
  {
    var o := Close(p, db, q, actor, repeat, tape);
    if o.reply.RunClosed? {
      FinalizedCounts(db.orders, q, Elems(RunRoster(db, q)), o.reply.summary.closedAt, r);
    } else {
      RejectionChangesNothing(p, db, CloseRun(q, actor, repeat), tape);
    }
  }

  /** A step reports the new count of a run, or leaves the count alone, or resets the run's channel. */
  lemma CountStep(p: Policy, db: Db, op: Op, tape: Tape, r: RunId)
    ensures var o := Step(p, db, op, tape);
      (r in db.runs && Resets(p, db, op, db.runs[r].channel)) || Counted(db, o.db, CountIn(op, o.reply, r), r)
  {
    match op
    case SubmitOrder(k, d) => SubmitCounted(p, db, k, d, tape, r);
    case UseLastOrder(k, orderId, preferenceId) => UseLastCounted(p, db, k, orderId, preferenceId, tape, r);
    case CancelOrder(k) => CancelCounted(db, k, tape, r);
    case CloseRun(q, actor, repeat) => CloseCounted(p, db, q, actor, repeat, tape, r);
    case ResetChannel(c, _) =>
      if !(r in db.runs && db.runs[r].channel == c) { PurgeElsewhere(db, c, r); }
    case _ =>
  }

  ghost predicate CountKnown(p: Policy, t: Trace, n: nat, r: RunId)
    requires Shaped(t) && n < |t.worlds|
  {
    LastCount(p, t, n, r).Some? ==> LastCount(p, t, n, r).value == CountActive(t.worlds[n].db.orders, r)
  }

  lemma CountKnownAt(p: Policy, t: Trace, i: nat, r: RunId)
    requires IsHistory(p, t) && i < |t.events| && CountKnown(p, t, i, r)
    ensures CountKnown(p, t, i + 1, r)
  {
    assert MovesAt(p, t, i);
    CountStep(p, t.worlds[i].db, t.events[i].op, t.events[i].tape, r);
  }

  lemma {:induction false} LastCountHolds(p: Policy, t: Trace, n: nat, r: RunId)
    requires IsHistory(p, t) && n < |t.worlds| && LastCount(p, t, n, r).Some?
    ensures LastCount(p, t, n, r).value == CountActive(t.worlds[n].db.orders, r)
  {
    for i := 0 to n
      invariant CountKnown(p, t, i, r)
    {
      CountKnownAt(p, t, i, r);
    }
  }

  /** The join with users loses no order, so listing participants and counting orders agree. */
  lemma ParticipantsCounted(db: Db, r: RunId)
    requires Referenced(db)
    ensures |RunRoster(db, r)| == CountActive(db.orders, r)
    ensures Participants(db.users, db.orders, r) == ActiveUsers(Alpha(db), r)
  {
    var us := Participants(db.users, db.orders, r);
    RosterListed(db.users, us);
    ListedIsDistinct(db.users, RunRoster(db, r));
    DistinctSize(RunRoster(db, r));
    CountIsUsers(db, r);
    forall u ensures u in us <==> u in ActiveUsers(Alpha(db), r) {
      ActiveUserHasKey(db, OrderKey(r, u));
    }
    assert us == ActiveUsers(Alpha(db), r) == Elems(RunRoster(db, r));
  }

  /** The summary lists every active user once, in listing order, with the text the abstract map has. */
  ghost predicate Complete(db: Db, r: RunId, s: Summary) {
    && s.totalOrders == |s.participants| == |ActiveUsers(Alpha(db), r)|
    && (forall i :: 0 <= i < |s.participants| ==> TrueLine(db, r, s.participants[i]))
    && (forall i, j :: 0 <= i < j < |s.participants| ==>
        InOrder(db.users, s.participants[i].user, s.participants[j].user))
  }

  lemma CompleteInState(p: Policy, db: Db, r: RunId, actor: UserId, repeat: bool, tape: Tape)
    requires Referenced(db) && Close(p, db, r, actor, repeat, tape).reply.RunClosed?
    ensures var s := Close(p, db, r, actor, repeat, tape).reply.summary;
      Complete(db, r, s) && s.totalOrders == CountActive(db.orders, r)
  {
    ParticipantsCounted(db, r);
    CountIsUsers(db, r);
    SummaryLines(db, r, repeat, tape);
  }

  /** In every history the summary of a close is complete, and its total is the count last reported for the run,
      if one was. */
  lemma SummaryIsComplete(p: Policy, t: Trace, n: nat, e: Event)
    requires IsFullHistory(p, t) && n < |t.events| && t.events[n] == e && e.op.CloseRun? && t.replies[n].RunClosed?
    ensures var r, s := e.op.run, t.replies[n].summary;
      && Complete(t.worlds[n].db, r, s)
      && (LastCount(p, t, n, r).Some? ==> s.totalOrders == LastCount(p, t, n, r).value)
  {
    AlwaysReferenced(p, t, n);
    assert MovesAt(p, t, n);
    CompleteInState(p, t.worlds[n].db, e.op.run, e.op.actor, e.op.repeat, e.tape);
    if LastCount(p, t, n, e.op.run).Some? {
      LastCountHolds(p, t, n, e.op.run);
    }
  }

  ghost predicate TrueLine(db: Db, r: RunId, line: Participant) {
    && OrderKey(r, line.user) in db.orders
    && WishOf(db.orders[OrderKey(r, line.user)]).active && line.text == db.orders[OrderKey(r, line.user)].text
    && line.user in db.users && line.displayName == db.users[line.user].displayName
    && line.provenance == db.orders[OrderKey(r, line.user)].provenance
  }

  predicate InOrder(users: map<UserId, User>, u: UserId, v: UserId) {
    u in users && v in users && ListedBefore(users, u, v)
  }

  lemma SummaryLines(db: Db, r: RunId, repeat: bool, tape: Tape)
    requires r in db.runs && db.runs[r].channel in db.channels && RunRoster(db, r) != []
    requires Settle(db, r, repeat, tape).reply.RunClosed?
    ensures var lines := Settle(db, r, repeat, tape).reply.summary.participants;
      && |lines| == |RunRoster(db, r)|
      && (forall i :: 0 <= i < |lines| ==> TrueLine(db, r, lines[i]))
      && (forall i, j :: 0 <= i < j < |lines| ==> InOrder(db.users, lines[i].user, lines[j].user))
  {
    var roster := RunRoster(db, r);
    var lines := Settle(db, r, repeat, tape).reply.summary.participants;
    RosterOrdered(db, r);
    RosterListed(db.users, Participants(db.users, db.orders, r));
    assert lines == Lines(db.users, db.orders, r, roster);
    forall i | 0 <= i < |lines| ensures TrueLine(db, r, lines[i]) {
      assert roster[i] in Elems(roster);
    }
  }
}
