/** One channel's closing history, and how every step of the application looks on it. */
module History {
  import opened Data
  import opened Ordering
  import opened Fairness
  import opened Orders
  import opened Runs
  import opened Machine
  import Admin

  /** A closed run: who ran, when it closed, and who took part. */
  datatype Closing = Closing(runner: UserId, at: Time, crew: set<UserId>)

  /** The closed runs of a channel and its statistics rows. */
  datatype Ledger = Ledger(closed: map<RunId, Closing>, stats: Stats)

  const EMPTY := Ledger(map[], map[])

  function Only(stats: Stats, c: ChannelId): Stats {
    map s | s in stats && s.channel == c :: stats[s]
  }

  ghost function ClosedIn(db: Db, c: ChannelId): map<RunId, Closing> {
    map r | r in db.runs && ServedIn(db.runs[r], c) ::
      Closing(db.runs[r].runner.value, db.runs[r].closedAt.value, Participants(db.users, db.orders, r))
  }

  ghost function View(db: Db, c: ChannelId): Ledger {
    Ledger(ClosedIn(db, c), Only(db.stats, c))
  }

  function Times(closed: map<RunId, Closing>): map<RunId, Time> {
    map r | r in closed :: closed[r].at
  }

  ghost function LastRunner(closed: map<RunId, Closing>): Option<UserId> {
    if Times(closed) == map[] then None else Some(closed[Latest(Times(closed))].runner)
  }

  /** What closing a run adds to the ledger. */
  ghost function Recorded(l: Ledger, c: ChannelId, r: RunId, roster: seq<UserId>, repeat: bool, tape: Tape): Ledger
    requires roster != []
  {
    var a := Assign(l.stats, c, roster, LastRunner(l.closed), repeat, tape);
    Ledger(l.closed[r := Closing(a.decision.runner, a.tape.Now(), Elems(roster))], a.stats)
  }

  /** The request closed run `r` of channel `c`. */
  ghost predicate Closes(p: Policy, db: Db, op: Op, tape: Tape, c: ChannelId) {
    && op.CloseRun? && Step(p, db, op, tape).reply.RunClosed?
    && op.run in db.runs && db.runs[op.run].channel == c
  }

  /** The request reset channel `c`. */
  predicate Resets(p: Policy, db: Db, op: Op, c: ChannelId) {
    op.ResetChannel? && op.channel == c && c in db.channels && p.mayAdminister(op.actor)
  }

  /** Event i of the history reset channel `c`. */
  ghost predicate ResetsAt(p: Policy, t: Trace, i: nat, c: ChannelId)
    requires Shaped(t) && i < |t.events|
  {
    Resets(p, t.worlds[i].db, t.events[i].op, c)
  }

  // ----- the part of the store a ledger shows is all the fairness rule reads -----

  lemma {:induction false} EnrolOnly(stats: Stats, c: ChannelId, roster: seq<UserId>, tape: Tape)
    ensures var l := Enrol(stats, c, roster, tape);
      Enrol(Only(stats, c), c, roster, tape) == Loaded(Only(l.stats, c), l.tape)
    decreases |roster|
  {
    if roster != [] {
      var s, row := Seat(c, roster[0]), Stat(0, None, tape.Now(), tape.Now());
      if s in stats {
        EnrolOnly(stats, c, roster[1..], tape);
      } else {
        EnrolOnly(stats[s := row], c, roster[1..], tape.Next());
        assert Only(stats[s := row], c) == Only(stats, c)[s := row];
      }
    }
  }

  lemma {:induction false} EnrolElsewhere(stats: Stats, c: ChannelId, roster: seq<UserId>, tape: Tape, d: ChannelId)
    requires d != c
    ensures Only(Enrol(stats, c, roster, tape).stats, d) == Only(stats, d)
    decreases |roster|
  {
    if roster != [] {
      var s, row := Seat(c, roster[0]), Stat(0, None, tape.Now(), tape.Now());
      if s in stats {
        EnrolElsewhere(stats, c, roster[1..], tape, d);
      } else {
        EnrolElsewhere(stats[s := row], c, roster[1..], tape.Next(), d);
        assert Only(stats[s := row], d) == Only(stats, d);
      }
    }
  }

  lemma AssignOnly(stats: Stats, c: ChannelId, roster: seq<UserId>, last: Option<UserId>, repeat: bool, tape: Tape)
    requires roster != []
    ensures var a := Assign(stats, c, roster, last, repeat, tape);
      Assign(Only(stats, c), c, roster, last, repeat, tape) == Assignment(Only(a.stats, c), a.decision, a.tape)
  {
    var ps := Unique(roster);
    UniqueElems(roster);
    assert roster[0] in Elems(roster);
    EnrolOnly(stats, c, ps, tape);
    EnrolFacts(stats, c, ps, tape);
    EnrolFacts(Only(stats, c), c, ps, tape);
    var l, everyone := Enrol(stats, c, ps, tape), Elems(ps);
    PickOnly(l, c, everyone, last, repeat);
  }

  lemma PickOnly(l: Loaded, c: ChannelId, everyone: set<UserId>, last: Option<UserId>, repeat: bool)
    requires everyone != {} && Enrolled(l.stats, c, everyone)
    ensures Enrolled(Only(l.stats, c), c, everyone)
    ensures var a := Pick(l, c, everyone, last, repeat);
      Pick(Loaded(Only(l.stats, c), l.tape), c, everyone, last, repeat)
      == Assignment(Only(a.stats, c), a.decision, a.tape)
  {
    var a := Pick(l, c, everyone, last, repeat);
    var runner := a.decision.runner;
    PickFacts(l, c, everyone, last, repeat);
    LeastIsUnique(l.stats, Only(l.stats, c), c, Eligible(everyone, last, repeat), runner);
    var s := Seat(c, runner);
    assert Only(l.stats[s := a.stats[s]], c) == Only(l.stats, c)[s := a.stats[s]];
  }

  lemma AssignElsewhere(
    stats: Stats, c: ChannelId, roster: seq<UserId>, last: Option<UserId>, repeat: bool, tape: Tape, d: ChannelId)
    requires roster != [] && d != c
    ensures Only(Assign(stats, c, roster, last, repeat, tape).stats, d) == Only(stats, d)
  {
    var ps := Unique(roster);
    UniqueElems(roster);
    assert roster[0] in Elems(roster);
    EnrolFacts(stats, c, ps, tape);
    EnrolElsewhere(stats, c, ps, tape, d);
    var l := Enrol(stats, c, ps, tape);
    PickFacts(l, c, Elems(ps), last, repeat);
    var a := Pick(l, c, Elems(ps), last, repeat);
    assert Only(a.stats, d) == Only(l.stats, d);
  }

  lemma PreviousIsLast(db: Db, c: ChannelId, r: RunId)
    requires r in db.runs ==> db.runs[r].status == Open
    ensures PreviousRunner(db.runs, c, r) == LastRunner(ClosedIn(db, c))
  {
    var closed := ClosedIn(db, c);
    assert ClosingTimes(db.runs, c) - {r} == Times(closed);
    if Times(closed) != map[] {
      var q := Latest(Times(closed));
      assert IsLatest(Times(closed), q);
      assert q in closed;
    }
  }

  // ----- every step, seen from one channel -----

  /** A ledger changes only when its channel is reset or one of its runs is closed. */
  lemma LedgerStep(p: Policy, db: Db, op: Op, tape: Tape, c: ChannelId)
    ensures var after := View(Step(p, db, op, tape).db, c);
      if Resets(p, db, op, c) then
        after == EMPTY
      else if Closes(p, db, op, tape, c) then
        && RunRoster(db, op.run) != []
        && op.run !in ClosedIn(db, c)
        && after == Recorded(View(db, c), c, op.run, RunRoster(db, op.run), op.repeat, tape)
      else
        after == View(db, c)
  {
    var o := Step(p, db, op, tape);
    if Resets(p, db, op, c) {
      assert ClosedIn(o.db, c) == map[];
      assert Only(o.db.stats, c) == map[];
    } else if op.CloseRun? && o.reply.RunClosed? {
      CloseSeen(p, db, op, tape, c);
    } else if o.reply.Rejected? {
      RejectionChangesNothing(p, db, op, tape);
    } else {
      QuietStep(p, db, op, tape, c);
    }
  }

  lemma QuietStep(p: Policy, db: Db, op: Op, tape: Tape, c: ChannelId)
    requires !op.CloseRun? && !Resets(p, db, op, c)
    ensures View(Step(p, db, op, tape).db, c) == View(db, c)
  {
    match op
    case SubmitOrder(k, d) =>
      SubmitTouches(p, db, k, d, tape);
      OrderUnseen(db, Submit(p, db, k, d, tape).db, k, c);
    case UseLastOrder(k, orderId, preferenceId) =>
      UseLastTouches(p, db, k, orderId, preferenceId, tape);
      OrderUnseen(db, UseLast(p, db, k, orderId, preferenceId, tape).db, k, c);
    case CancelOrder(k) =>
      CancelTouches(db, k, tape);
      OrderUnseen(db, Cancel(db, k, tape).db, k, c);
    case ResetChannel(d, actor) =>
      if Step(p, db, op, tape).db != db {
        PurgeUnseen(db, d, c);
      }
    case StartRun(_, _, _, _, _) =>
      StartUnseen(db, op, tape, c);
    case UpdateConfig(_, _, _) =>
    case SetEnabled(_, _, _, _) =>
  }

  lemma OrderUnseen(db: Db, after: Db, k: OrderKey, c: ChannelId)
    requires after == db || TouchesOnly(db, after, k)
    ensures View(after, c) == View(db, c)
  {
    forall r | r in db.runs && ServedIn(db.runs[r], c)
      ensures Participants(after.users, after.orders, r) == Participants(db.users, db.orders, r)
    {
    }
    assert ClosedIn(after, c) == ClosedIn(db, c);
  }

  lemma StartUnseen(db: Db, op: Op, tape: Tape, c: ChannelId)
    requires op.StartRun?
    ensures View(Start(db, op, tape).db, c) == View(db, c)
  {
    assert ClosedIn(Start(db, op, tape).db, c) == ClosedIn(db, c);
  }

  lemma PurgeUnseen(db: Db, d: ChannelId, c: ChannelId)
    requires c != d
    ensures View(Admin.Purge(db, d), c) == View(db, c)
  {
    var after := Admin.Purge(db, d);
    forall r | r in db.runs && ServedIn(db.runs[r], c)
      ensures Participants(after.users, after.orders, r) == Participants(db.users, db.orders, r)
    {
    }
    assert ClosedIn(after, c) == ClosedIn(db, c);
    assert Only(after.stats, c) == Only(db.stats, c);
  }

  lemma CloseSeen(p: Policy, db: Db, op: Op, tape: Tape, c: ChannelId)
    requires op.CloseRun? && Step(p, db, op, tape).reply.RunClosed?
    ensures op.run in db.runs && RunRoster(db, op.run) != [] && op.run !in ClosedIn(db, c)
    ensures View(Step(p, db, op, tape).db, c) ==
      if db.runs[op.run].channel == c then
        Recorded(View(db, c), c, op.run, RunRoster(db, op.run), op.repeat, tape)
      else
        View(db, c)
  {
    SettleSeen(db, op.run, op.repeat, tape, c);
  }

  lemma SettleSeen(db: Db, r: RunId, repeat: bool, tape: Tape, c: ChannelId)
    requires r in db.runs && db.runs[r].status == Open && db.runs[r].channel in db.channels && RunRoster(db, r) != []
    requires Settle(db, r, repeat, tape).reply.RunClosed?
    ensures View(Settle(db, r, repeat, tape).db, c) ==
      if db.runs[r].channel == c then
        Recorded(View(db, c), c, r, RunRoster(db, r), repeat, tape)
      else
        View(db, c)
  {
    var o := Settle(db, r, repeat, tape);
    var roster, d := RunRoster(db, r), db.runs[r].channel;
    var last := PreviousRunner(db.runs, d, r);
    var a := Assign(db.stats, d, roster, last, repeat, tape);
    RosterOrdered(db, r);
    ClosedInAfter(db, o.db, r, a.decision.runner, a.tape.Now(), c);
    if d == c {
      PreviousIsLast(db, c, r);
      AssignOnly(db.stats, c, roster, last, repeat, tape);
    } else {
      AssignElsewhere(db.stats, d, roster, last, repeat, tape, c);
    }
  }

  lemma ClosedInAfter(db: Db, after: Db, r: RunId, runner: UserId, now: Time, c: ChannelId)
    requires r in db.runs && db.runs[r].status == Open && after.users == db.users
    requires after.runs == db.runs[r := ClosedRun(db.runs[r], runner, now)]
    requires after.orders == Finalized(db.orders, r, Participants(db.users, db.orders, r), now)
    ensures ClosedIn(after, c) ==
      if db.runs[r].channel == c then
        ClosedIn(db, c)[r := Closing(runner, now, Participants(db.users, db.orders, r))]
      else
        ClosedIn(db, c)
  {
    forall q ensures Participants(after.users, after.orders, q) == Participants(db.users, db.orders, q) {
      FinalizedKeepsParticipants(db.users, db.orders, r, Participants(db.users, db.orders, r), now, q);
    }
  }

  lemma FinalizedKeepsParticipants(
    users: map<UserId, User>, orders: map<OrderKey, Order>, r: RunId, us: set<UserId>, now: Time, q: RunId)
    ensures Participants(users, Finalized(orders, r, us, now), q) == Participants(users, orders, q)
  {
  }
}
