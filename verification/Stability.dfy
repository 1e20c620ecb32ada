/** A closed run is frozen: what its summary said stays true until its channel is reset. */
module Stability {
  import opened Data
  import opened Ordering
  import opened Orders
  import opened Runs
  import opened Machine
  import opened History
  import Admin

  /** The order rows of a run. */
  function OrdersOfRun(db: Db, r: RunId): map<OrderKey, Order> {
    map k | k in db.orders && k.run == r :: db.orders[k]
  }

  /** Nothing about run `r` differs between two states. */
  ghost predicate SameRun(db: Db, after: Db, r: RunId) {
    && r in db.runs && r in after.runs && after.runs[r] == db.runs[r]
    && OrdersOfRun(after, r) == OrdersOfRun(db, r)
  }

  lemma TouchElsewhere(db: Db, after: Db, k: OrderKey, r: RunId)
    requires TouchesOnly(db, after, k) && r in db.runs && k.run != r
    ensures SameRun(db, after, r)
  {
    assert OrdersOfRun(after, r) == OrdersOfRun(db, r);
  }

  lemma SettleElsewhere(db: Db, q: RunId, repeat: bool, tape: Tape, r: RunId)
    requires q in db.runs && db.runs[q].channel in db.channels && RunRoster(db, q) != []
    requires Settle(db, q, repeat, tape).reply.RunClosed?
    requires r in db.runs && q != r
    ensures SameRun(db, Settle(db, q, repeat, tape).db, r)
  {
    assert OrdersOfRun(Settle(db, q, repeat, tape).db, r) == OrdersOfRun(db, r);
  }

  lemma PurgeElsewhere(db: Db, c: ChannelId, r: RunId)
    requires r in db.runs && db.runs[r].channel != c
    ensures SameRun(db, Admin.Purge(db, c), r)
  {
    assert OrdersOfRun(Admin.Purge(db, c), r) == OrdersOfRun(db, r);
  }

  lemma SubmitKept(p: Policy, db: Db, k: OrderKey, d: Draft, tape: Tape, r: RunId)
    requires r in db.runs && db.runs[r].status == Closed
    ensures SameRun(db, Submit(p, db, k, d, tape).db, r)
  {
    SubmitTouches(p, db, k, d, tape);
    var o := Submit(p, db, k, d, tape);
    if !o.reply.Rejected? { TouchElsewhere(db, o.db, k, r); }
  }

  lemma UseLastKept(p: Policy, db: Db, k: OrderKey, orderId: RowId, preferenceId: RowId, tape: Tape, r: RunId)
    requires r in db.runs && db.runs[r].status == Closed
    ensures SameRun(db, UseLast(p, db, k, orderId, preferenceId, tape).db, r)
  {
    UseLastTouches(p, db, k, orderId, preferenceId, tape);
    var o := UseLast(p, db, k, orderId, preferenceId, tape);
    if !o.reply.Rejected? { TouchElsewhere(db, o.db, k, r); }
  }

  lemma CancelKept(db: Db, k: OrderKey, tape: Tape, r: RunId)
    requires r in db.runs && db.runs[r].status == Closed
    ensures SameRun(db, Cancel(db, k, tape).db, r)
  {
    CancelTouches(db, k, tape);
    var o := Cancel(db, k, tape);
    if !o.reply.Rejected? { TouchElsewhere(db, o.db, k, r); }
  }

  lemma CloseKept(p: Policy, db: Db, q: RunId, actor: UserId, repeat: bool, tape: Tape, r: RunId)
    requires r in db.runs && db.runs[r].status == Closed
    ensures SameRun(db, Close(p, db, q, actor, repeat, tape).db, r)
  {
    if Close(p, db, q, actor, repeat, tape).reply.RunClosed? {
      SettleElsewhere(db, q, repeat, tape, r);
    } else {
      RejectionChangesNothing(p, db, CloseRun(q, actor, repeat), tape);
    }
  }

  lemma ClosedRunKept(p: Policy, db: Db, op: Op, tape: Tape, r: RunId)
    requires r in db.runs && db.runs[r].status == Closed && !Resets(p, db, op, db.runs[r].channel)
    ensures SameRun(db, Step(p, db, op, tape).db, r)
  {
    match op
    case SubmitOrder(k, d) => SubmitKept(p, db, k, d, tape, r);
    case UseLastOrder(k, orderId, preferenceId) => UseLastKept(p, db, k, orderId, preferenceId, tape, r);
    case CancelOrder(k) => CancelKept(db, k, tape, r);
    case CloseRun(q, actor, repeat) => CloseKept(p, db, q, actor, repeat, tape, r);
    case ResetChannel(c, actor) =>
      if c in db.channels && p.mayAdminister(actor) { PurgeElsewhere(db, c, r); }
    case StartRun(_, _, _, _, _) =>
      assert Start(db, op, tape).db.orders == db.orders;
    case UpdateConfig(c, actor, patch) =>
      assert Admin.UpdateConfig(p, db, c, actor, patch, tape).db.orders == db.orders;
    case SetEnabled(c, actor, enabled, reason) =>
      assert Admin.SetEnabled(p, db, c, actor, enabled, reason, tape).db.orders == db.orders;
  }

  /** No event from world `m` to world `n` resets the channel. */
  ghost predicate NoReset(p: Policy, t: Trace, m: nat, n: nat, c: ChannelId)
    requires Shaped(t) && m <= n < |t.worlds|
  {
    forall i :: m <= i < n ==> !ResetsAt(p, t, i, c)
  }

  /** Once closed, a run and its orders never change until the channel is reset. */
  lemma {:induction false} ClosedRunStable(p: Policy, t: Trace, m: nat, n: nat, r: RunId)
    requires IsHistory(p, t) && m <= n < |t.worlds|
    requires r in t.worlds[m].db.runs && t.worlds[m].db.runs[r].status == Closed
    requires NoReset(p, t, m, n, t.worlds[m].db.runs[r].channel)
    ensures SameRun(t.worlds[m].db, t.worlds[n].db, r)
  {
    for i := m to n
      invariant SameRun(t.worlds[m].db, t.worlds[i].db, r)
    {
      assert MovesAt(p, t, i);
      assert !ResetsAt(p, t, i, t.worlds[m].db.runs[r].channel);
      ClosedRunKept(p, t.worlds[i].db, t.events[i].op, t.events[i].tape, r);
    }
  }

  /** The state of run `r` is what summary `s` says: closed by that runner at that time, with exactly the
      listed users active, each with the listed text and provenance, and all of their orders final. */
  ghost predicate Reflects(db: Db, r: RunId, s: Summary) {
    && r in db.runs && db.runs[r].status == Closed
    && db.runs[r].runner == Some(s.runner) && db.runs[r].closedAt == Some(s.closedAt)
    && UsersListed(s.participants) == Participants(db.users, db.orders, r)
    && (forall i :: 0 <= i < |s.participants| ==> FinalLine(db, r, s.participants[i]))
  }

  function UsersListed(lines: seq<Participant>): set<UserId> {
    set line | line in lines :: line.user
  }

  ghost predicate FinalLine(db: Db, r: RunId, line: Participant) {
    var k := OrderKey(r, line.user);
    && k in db.orders && db.orders[k].canceledAt == None && db.orders[k].isFinal
    && db.orders[k].text == line.text && db.orders[k].provenance == line.provenance
  }

  lemma SettledReflects(db: Db, r: RunId, repeat: bool, tape: Tape)
    requires r in db.runs && db.runs[r].channel in db.channels && RunRoster(db, r) != []
    requires Settle(db, r, repeat, tape).reply.RunClosed?
    ensures var o := Settle(db, r, repeat, tape); Reflects(o.db, r, o.reply.summary)
  {
    var o, roster := Settle(db, r, repeat, tape), RunRoster(db, r);
    var lines := o.reply.summary.participants;
    RosterOrdered(db, r);
    RosterListed(db.users, Participants(db.users, db.orders, r));
    FinalizedKeepsParticipants(db.users, db.orders, r, Elems(roster), o.reply.summary.closedAt, r);
    assert lines == Lines(db.users, db.orders, r, roster);
    forall i | 0 <= i < |lines|
      ensures FinalLine(o.db, r, lines[i]) && lines[i].user in Elems(roster)
    {
      assert roster[i] in Elems(roster);
    }
    LinesListUsers(db.users, db.orders, r, roster);
  }

  lemma LinesListUsers(users: map<UserId, User>, orders: map<OrderKey, Order>, r: RunId, roster: seq<UserId>)
    requires AllOrdered(users, orders, r, roster)
    ensures UsersListed(Lines(users, orders, r, roster)) == Elems(roster)
  {
    var lines := Lines(users, orders, r, roster);
    forall u ensures u in UsersListed(lines) <==> u in Elems(roster) {
      if u in Elems(roster) {
        var i :| 0 <= i < |roster| && roster[i] == u;
        assert lines[i] in lines && lines[i].user == u;
      }
    }
  }

  lemma SameRunReflects(db: Db, after: Db, r: RunId, s: Summary)
    requires SameRun(db, after, r) && after.users == db.users && Reflects(db, r, s)
    ensures Reflects(after, r, s)
  {
    forall u ensures OrderKey(r, u) in db.orders <==> OrderKey(r, u) in after.orders {
      assert OrderKey(r, u) in OrdersOfRun(db, r) <==> OrderKey(r, u) in OrdersOfRun(after, r);
    }
    forall u | OrderKey(r, u) in db.orders ensures after.orders[OrderKey(r, u)] == db.orders[OrderKey(r, u)] {
      assert OrdersOfRun(after, r)[OrderKey(r, u)] == OrdersOfRun(db, r)[OrderKey(r, u)];
    }
    assert Participants(after.users, after.orders, r) == Participants(db.users, db.orders, r);
    forall i | 0 <= i < |s.participants| ensures FinalLine(after, r, s.participants[i]) {
      assert FinalLine(db, r, s.participants[i]);
    }
  }

  lemma ClosingReflects(p: Policy, db: Db, op: Op, tape: Tape)
    requires op.CloseRun? && Step(p, db, op, tape).reply.RunClosed?
    ensures var o := Step(p, db, op, tape);
      && Reflects(o.db, op.run, o.reply.summary) && o.db.users == db.users
      && op.run in db.runs && o.db.runs[op.run].channel == db.runs[op.run].channel
  {
    SettledReflects(db, op.run, op.repeat, tape);
  }

  /** Once close_run succeeds, in every continuation until the channel is reset the store is what the
      returned summary says. */
  lemma SnapshotStable(p: Policy, t: Trace, m: nat, n: nat, r: RunId)
    requires IsHistory(p, t) && m < n < |t.worlds|
    requires t.events[m].op.CloseRun? && t.events[m].op.run == r && t.replies[m].RunClosed?
    requires r in t.worlds[m].db.runs && NoReset(p, t, m, n, t.worlds[m].db.runs[r].channel)
    ensures Reflects(t.worlds[n].db, r, t.replies[m].summary)
  {
    var db, e := t.worlds[m + 1].db, t.events[m];
    assert MovesAt(p, t, m);
    ClosingReflects(p, t.worlds[m].db, e.op, e.tape);
    ClosedRunStable(p, t, m + 1, n, r);
    UsersStay(p, t, m + 1);
    UsersStay(p, t, n);
    SameRunReflects(db, t.worlds[n].db, r, t.replies[m].summary);
  }
}
