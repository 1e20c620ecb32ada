/** The fairness guarantees, for every history of the application.

    A history starts with users and channels and nothing else, and may interleave requests
    on all channels, including resets.  A reset deletes a channel's runs, so the closed runs
    in the store are those since its last reset.
 */
module Guarantees {
  import opened Data
  import opened Ordering
  import opened Fairness
  import opened Runs
  import opened Machine
  import opened History
  import opened Index
  import opened Turns
  import opened RoundRobin

  lemma ClosingReading(db: Db, r: RunId, repeat: bool, tape: Tape)
    requires r in db.runs && db.runs[r].status == Open && db.runs[r].channel in db.channels && RunRoster(db, r) != []
    ensures var o, c := Settle(db, r, repeat, tape), db.runs[r].channel;
      && o.tape.pos > tape.pos
      && o.tape.reading(o.tape.pos - 1) == MoveOf(View(db, c), c, RunRoster(db, r), repeat, tape).closedAt
  {
    var c, roster := db.runs[r].channel, RunRoster(db, r);
    RunnerTakesPart(db, r, repeat, tape);
    EnrolFacts(db.stats, c, roster, tape);
    PreviousIsLast(db, c, r);
    AssignOnly(db.stats, c, roster, PreviousRunner(db.runs, c, r), repeat, tape);
  }

  lemma LaterReading(tape: Tape, pos: nat)
    requires tape.Ticking() && pos > tape.pos
    ensures tape.Now() <= tape.reading(pos - 1)
  {
  }

  /** The clock never goes back. */
  lemma NowAdvances(p: Policy, w: World, e: Event)
    requires e.tape.Ticking() && w.now < e.tape.Now()
    ensures w.now <= Advance(p, w, e).now
  {
    var last := Step(p, w.db, e.op, e.tape).tape;
    TapeMovesOn(p, w.db, e.op, e.tape);
    if last.pos > e.tape.pos {
      LaterReading(e.tape, last.pos);
    }
  }

  /** A close ends with the reading it stores as the closing time. */
  lemma EndsAtClosing(p: Policy, w: World, e: Event, c: ChannelId)
    requires Closes(p, w.db, e.op, e.tape, c)
    ensures RunRoster(w.db, e.op.run) != []
    ensures Advance(p, w, e).now ==
      MoveOf(View(w.db, c), c, RunRoster(w.db, e.op.run), e.op.repeat, e.tape).closedAt
  {
    var o := Settle(w.db, e.op.run, e.op.repeat, e.tape);
    assert Step(p, w.db, e.op, e.tape) == o;
    ClosingReading(w.db, e.op.run, e.op.repeat, e.tape);
  }

  // ----- the index -----

  ghost predicate Consistent(l: Ledger, c: ChannelId, now: Time) {
    Sound(l, c, now) && SameOrder(l, c) && Total(l.stats) == |l.closed|
  }

  lemma ConsistentStep(p: Policy, w: World, e: Event, c: ChannelId)
    requires Consistent(View(w.db, c), c, w.now) && e.tape.Ticking() && w.now < e.tape.Now()
    ensures Consistent(View(Advance(p, w, e).db, c), c, Advance(p, w, e).now)
  {
    LedgerStep(p, w.db, e.op, e.tape, c);
    NowAdvances(p, w, e);
    var l := View(w.db, c);
    if Resets(p, w.db, e.op, c) {
      EmptySound(c, Advance(p, w, e).now);
    } else if Closes(p, w.db, e.op, e.tape, c) {
      var roster := RunRoster(w.db, e.op.run);
      SoundStep(l, c, e.op.run, roster, e.op.repeat, e.tape, w.now);
      SameOrderStep(l, c, e.op.run, roster, e.op.repeat, e.tape, w.now);
      TotalStep(l, c, e.op.run, roster, e.op.repeat, e.tape);
      EndsAtClosing(p, w, e, c);
    } else {
      SoundLater(l, c, w.now, Advance(p, w, e).now);
    }
  }

  lemma PristineView(w: World, c: ChannelId)
    requires Pristine(w)
    ensures View(w.db, c) == EMPTY
  {
  }

  lemma {:induction false} AlwaysConsistent(p: Policy, t: Trace, n: nat, c: ChannelId)
    requires IsFullHistory(p, t) && Timely(t) && n < |t.worlds|
    ensures Consistent(View(t.worlds[n].db, c), c, t.worlds[n].now)
  {
    PristineView(t.worlds[0], c);
    EmptySound(c, t.worlds[0].now);
    for i := 0 to n
      invariant Consistent(View(t.worlds[i].db, c), c, t.worlds[i].now)
    {
      assert MovesAt(p, t, i) && OnClock(t, i);
      ConsistentStep(p, t.worlds[i], t.events[i], c);
    }
  }

  // ----- runs are open or properly closed -----

  predicate Proper(run: Run) {
    match run.status
    case Open => run.runner.None? && run.closedAt.None?
    case Closed => run.runner.Some? && run.closedAt.Some?
    case _ => false
  }

  ghost predicate RunsProper(db: Db) {
    forall r :: r in db.runs ==> Proper(db.runs[r])
  }

  lemma ProperStep(p: Policy, db: Db, op: Op, tape: Tape)
    requires RunsProper(db)
    ensures RunsProper(Step(p, db, op, tape).db)
  {
  }

  lemma {:induction false} AlwaysProper(p: Policy, t: Trace, n: nat)
    requires IsFullHistory(p, t) && n < |t.worlds|
    ensures RunsProper(t.worlds[n].db)
  {
    for i := 0 to n
      invariant RunsProper(t.worlds[i].db)
    {
      assert MovesAt(p, t, i);
      ProperStep(p, t.worlds[i].db, t.events[i].op, t.events[i].tape);
    }
  }

  ghost function ClosedRuns(db: Db, c: ChannelId): set<RunId> {
    set r | r in db.runs && db.runs[r].channel == c && db.runs[r].status == Closed
  }

  ghost function RunsServed(db: Db, c: ChannelId, u: UserId): set<RunId> {
    set r | r in ClosedRuns(db, c) && db.runs[r].runner == Some(u)
  }

  function RowCount(db: Db, c: ChannelId, u: UserId): int {
    if Seat(c, u) in db.stats then db.stats[Seat(c, u)].served else 0
  }

  lemma ViewShowsRuns(db: Db, c: ChannelId, u: UserId)
    requires RunsProper(db)
    ensures View(db, c).closed.Keys == ClosedRuns(db, c)
    ensures ServedBy(View(db, c), u) == RunsServed(db, c, u)
    ensures Count(View(db, c), c, u) == RowCount(db, c, u)
    ensures |View(db, c).closed| == |ClosedRuns(db, c)|
  {
    assert View(db, c).closed.Keys == ClosedRuns(db, c);
  }

  /** In every reachable state the statistics rows of a channel are an exact index of its closed
      runs: each count is the number of runs served, the counts add up to the number of closed
      runs, and a row has a last run exactly when its count is not zero. */
  lemma StatsIndexHistory(p: Policy, t: Trace, n: nat, c: ChannelId, u: UserId)
    requires IsFullHistory(p, t) && Timely(t) && n < |t.worlds|
    ensures var db := t.worlds[n].db;
      && RowCount(db, c, u) == |RunsServed(db, c, u)|
      && Total(Only(db.stats, c)) == |ClosedRuns(db, c)|
      && (Seat(c, u) in db.stats ==>
            (db.stats[Seat(c, u)].lastRunAt.None? <==> db.stats[Seat(c, u)].served == 0))
  {
    var db := t.worlds[n].db;
    AlwaysConsistent(p, t, n, c);
    AlwaysProper(p, t, n);
    ViewShowsRuns(db, c, u);
    assert Count(View(db, c), c, u) == |ServedBy(View(db, c), u)|;
    assert Seat(c, u) in db.stats ==> Seat(c, u) in View(db, c).stats;
  }

  /** Some run of `v` closed later than all runs of `u`. */
  ghost predicate ClosedLater(db: Db, c: ChannelId, u: UserId, v: UserId) {
    exists r :: r in RunsServed(db, c, v)
      && forall q :: q in RunsServed(db, c, u) ==> ClosingTime(db, q) < ClosingTime(db, r)
  }

  ghost function ClosingTime(db: Db, r: RunId): Time
    requires r in db.runs
  {
    if db.runs[r].closedAt.Some? then db.runs[r].closedAt.value else EPOCH
  }

  /** Between two people who have run, `last_run_at` says who ran later by closing time. */
  lemma LastRunOrderHistory(p: Policy, t: Trace, n: nat, c: ChannelId, u: UserId, v: UserId)
    requires IsFullHistory(p, t) && Timely(t) && n < |t.worlds| && u != v
    requires var l := View(t.worlds[n].db, c); LastRunOf(l, c, u).Some? && LastRunOf(l, c, v).Some?
    ensures var db := t.worlds[n].db;
      && Seat(c, u) in db.stats && Seat(c, v) in db.stats
      && var a, b := db.stats[Seat(c, u)].lastRunAt, db.stats[Seat(c, v)].lastRunAt;
      a.Some? && b.Some? && (a.value < b.value <==> ClosedLater(db, c, u, v))
  {
    var db := t.worlds[n].db;
    AlwaysConsistent(p, t, n, c);
    AlwaysProper(p, t, n);
    LaterInView(db, c, u, v);
    assert Agrees(View(db, c), c, u, v);
  }

  lemma LaterInView(db: Db, c: ChannelId, u: UserId, v: UserId)
    requires RunsProper(db)
    ensures RanLater(View(db, c), u, v) <==> ClosedLater(db, c, u, v)
  {
    var l := View(db, c);
    ViewShowsRuns(db, c, u);
    ViewShowsRuns(db, c, v);
    assert forall r :: r in l.closed ==> l.closed[r].at == ClosingTime(db, r);
    if RanLater(l, u, v) {
      var r :| r in ServedBy(l, v) && forall q :: q in ServedBy(l, u) ==> l.closed[q].at < l.closed[r].at;
      assert r in RunsServed(db, c, v);
    }
    if ClosedLater(db, c, u, v) {
      var r :| r in RunsServed(db, c, v)
        && forall q :: q in RunsServed(db, c, u) ==> ClosingTime(db, q) < ClosingTime(db, r);
      assert r in ServedBy(l, v);
    }
  }

  // ----- pairwise fairness -----

  lemma NotAheadEvent(p: Policy, w: World, e: Event, c: ChannelId, i: UserId, j: UserId)
    requires i != j && Consistent(View(w.db, c), c, w.now) && e.tape.Ticking() && w.now < e.tape.Now()
    requires NotAhead(View(w.db, c), c, i, j)
    ensures NotAhead(View(Advance(p, w, e).db, c), c, i, j)
  {
    LedgerStep(p, w.db, e.op, e.tape, c);
    if !Resets(p, w.db, e.op, c) && Closes(p, w.db, e.op, e.tape, c) {
      NotAheadStep(View(w.db, c), c, e.op.run, RunRoster(w.db, e.op.run), e.op.repeat, e.tape, w.now, i, j);
    }
  }

  ghost predicate NotAheadIn(w: World, c: ChannelId, i: UserId, j: UserId) {
    Consistent(View(w.db, c), c, w.now) && NotAhead(View(w.db, c), c, i, j)
  }

  lemma NotAheadAt(p: Policy, t: Trace, k: nat, c: ChannelId, i: UserId, j: UserId)
    requires IsHistory(p, t) && Timely(t) && k < |t.events| && i != j && NotAheadIn(t.worlds[k], c, i, j)
    ensures NotAheadIn(t.worlds[k + 1], c, i, j)
  {
    assert MovesAt(p, t, k) && OnClock(t, k);
    ConsistentStep(p, t.worlds[k], t.events[k], c);
    NotAheadEvent(p, t.worlds[k], t.events[k], c, i, j);
  }

  lemma NotAheadAtFirst(w: World, c: ChannelId, i: UserId, j: UserId)
    requires Pristine(w)
    ensures NotAheadIn(w, c, i, j)
  {
    PristineView(w, c);
    EmptySound(c, w.now);
  }

  lemma {:induction false} NeverAhead(p: Policy, t: Trace, n: nat, c: ChannelId, i: UserId, j: UserId)
    requires IsFullHistory(p, t) && Timely(t) && n < |t.worlds| && i != j
    ensures NotAhead(View(t.worlds[n].db, c), c, i, j)
  {
    NotAheadAtFirst(t.worlds[0], c, i, j);
    for k := 0 to n
      invariant NotAheadIn(t.worlds[k], c, i, j)
    {
      NotAheadAt(p, t, k, c, i, j);
    }
  }

  /** Every closed run of the channel with `i` among its participants also had `j`. */
  ghost predicate JoinedBy(db: Db, c: ChannelId, i: UserId, j: UserId) {
    forall r :: r in ClosedRuns(db, c) && i in Participants(db.users, db.orders, r)
      ==> j in Participants(db.users, db.orders, r)
  }

  lemma FairInState(db: Db, c: ChannelId, i: UserId, j: UserId)
    requires RunsProper(db) && Indexed(View(db, c), c) && NotAhead(View(db, c), c, i, j) && JoinedBy(db, c, i, j)
    ensures |RunsServed(db, c, i)| <= |RunsServed(db, c, j)| + 1
  {
    var l := View(db, c);
    ViewShowsRuns(db, c, i);
    ViewShowsRuns(db, c, j);
    assert AlwaysWith(l, i, j);
    assert Count(l, c, i) == |ServedBy(l, i)| && Count(l, c, j) == |ServedBy(l, j)|;
  }

  /** If `j` took part in every closed run in which `i` took part, `i` has run at most once more than `j`,
      whatever the repeat flags and whoever else took part. */
  lemma PairwiseFairness(p: Policy, t: Trace, n: nat, c: ChannelId, i: UserId, j: UserId)
    requires IsFullHistory(p, t) && Timely(t) && n < |t.worlds| && JoinedBy(t.worlds[n].db, c, i, j)
    ensures var db := t.worlds[n].db; |RunsServed(db, c, i)| <= |RunsServed(db, c, j)| + 1
  {
    if i != j {
      NeverAhead(p, t, n, c, i, j);
      AlwaysConsistent(p, t, n, c);
      AlwaysProper(p, t, n);
      FairInState(t.worlds[n].db, c, i, j);
    }
  }

  // ----- no back-to-back runs -----

  lemma NoBackToBackClose(p: Policy, w: World, e: Event, c: ChannelId)
    requires ClosingsApart(View(w.db, c), w.now) && e.tape.Ticking() && w.now < e.tape.Now()
    requires NoBackToBack(View(w.db, c), w.repeated)
    requires e.op.CloseRun? && Step(p, w.db, e.op, e.tape).reply.RunClosed?
    ensures NoBackToBack(View(Step(p, w.db, e.op, e.tape).db, c), w.repeated[e.op.run := e.op.repeat])
  {
    CloseSeen(p, w.db, e.op, e.tape, c);
    var l, r := View(w.db, c), e.op.run;
    if w.db.runs[r].channel == c {
      NoBackToBackStep(l, c, r, RunRoster(w.db, r), e.op.repeat, e.tape, w.now, w.repeated);
    } else {
      FlagElsewhere(l, w.repeated, r, e.op.repeat);
    }
  }

  lemma FlagElsewhere(l: Ledger, repeated: map<RunId, bool>, r: RunId, repeat: bool)
    requires NoBackToBack(l, repeated) && r !in l.closed
    ensures NoBackToBack(l, repeated[r := repeat])
  {
  }

  lemma NoBackToBackEvent(p: Policy, w: World, e: Event, c: ChannelId)
    requires Consistent(View(w.db, c), c, w.now) && e.tape.Ticking() && w.now < e.tape.Now()
    requires NoBackToBack(View(w.db, c), w.repeated)
    ensures NoBackToBack(View(Advance(p, w, e).db, c), Advance(p, w, e).repeated)
  {
    if e.op.CloseRun? && Step(p, w.db, e.op, e.tape).reply.RunClosed? {
      NoBackToBackClose(p, w, e, c);
    } else {
      LedgerStep(p, w.db, e.op, e.tape, c);
    }
  }

  lemma NoBackToBackAt(p: Policy, t: Trace, i: nat, c: ChannelId)
    requires IsHistory(p, t) && Timely(t) && i < |t.events|
    requires Consistent(View(t.worlds[i].db, c), c, t.worlds[i].now)
    requires NoBackToBack(View(t.worlds[i].db, c), t.worlds[i].repeated)
    ensures Consistent(View(t.worlds[i + 1].db, c), c, t.worlds[i + 1].now)
    ensures NoBackToBack(View(t.worlds[i + 1].db, c), t.worlds[i + 1].repeated)
  {
    assert MovesAt(p, t, i) && OnClock(t, i);
    ConsistentStep(p, t.worlds[i], t.events[i], c);
    NoBackToBackEvent(p, t.worlds[i], t.events[i], c);
  }

  lemma {:induction false} NeverBackToBack(p: Policy, t: Trace, n: nat, c: ChannelId)
    requires IsFullHistory(p, t) && Timely(t) && n < |t.worlds|
    ensures NoBackToBack(View(t.worlds[n].db, c), t.worlds[n].repeated)
  {
    PristineView(t.worlds[0], c);
    EmptySound(c, t.worlds[0].now);
    for i := 0 to n
      invariant Consistent(View(t.worlds[i].db, c), c, t.worlds[i].now)
      invariant NoBackToBack(View(t.worlds[i].db, c), t.worlds[i].repeated)
    {
      NoBackToBackAt(p, t, i, c);
    }
  }

  /** Both runs of the channel are closed, `r` after `q`, and no other run of the channel in between. */
  ghost predicate ClosedNext(db: Db, c: ChannelId, q: RunId, r: RunId) {
    && q in ClosedRuns(db, c) && r in ClosedRuns(db, c)
    && ClosingTime(db, q) < ClosingTime(db, r)
    && forall x :: x in ClosedRuns(db, c) ==> !(ClosingTime(db, q) < ClosingTime(db, x) < ClosingTime(db, r))
  }

  lemma ExplainedInState(db: Db, repeated: map<RunId, bool>, c: ChannelId, q: RunId, r: RunId)
    requires RunsProper(db) && NoBackToBack(View(db, c), repeated)
    requires ClosedNext(db, c, q, r) && db.runs[q].runner == db.runs[r].runner
    ensures db.runs[r].runner.Some?
    ensures (r in repeated && repeated[r])
      || Participants(db.users, db.orders, r) == {db.runs[r].runner.value}
  {
    var l := View(db, c);
    assert l.closed.Keys == ClosedRuns(db, c);
    assert forall x :: x in l.closed ==> l.closed[x].at == ClosingTime(db, x);
    assert Consecutive(l, q, r);
  }

  /** When two runs of a channel that closed one after the other have the same runner, the second close
      allowed the repeat or had no other participant. */
  lemma BackToBackExplained(p: Policy, t: Trace, n: nat, c: ChannelId, q: RunId, r: RunId)
    requires IsFullHistory(p, t) && Timely(t) && n < |t.worlds|
    requires ClosedNext(t.worlds[n].db, c, q, r)
    requires t.worlds[n].db.runs[q].runner == t.worlds[n].db.runs[r].runner
    ensures var db, repeated := t.worlds[n].db, t.worlds[n].repeated;
      && db.runs[r].runner.Some?
      && ((r in repeated && repeated[r]) || Participants(db.users, db.orders, r) == {db.runs[r].runner.value})
  {
    NeverBackToBack(p, t, n, c);
    AlwaysProper(p, t, n);
    ExplainedInState(t.worlds[n].db, t.worlds[n].repeated, c, q, r);
  }

  // ----- rotation -----

  lemma RotatesEvent(p: Policy, w: World, e: Event, c: ChannelId, order: seq<UserId>)
    requires Consistent(View(w.db, c), c, w.now) && e.tape.Ticking() && w.now < e.tape.Now()
    requires Listed(w.db.users, order) && order != [] && Rotates(View(w.db, c), c, order)
    ensures Rotates(View(Advance(p, w, e).db, c), c, order)
  {
    LedgerStep(p, w.db, e.op, e.tape, c);
    if Resets(p, w.db, e.op, c) {
      EmptyRotates(c, order);
    } else if Closes(p, w.db, e.op, e.tape, c) {
      ListedIsDistinct(w.db.users, order);
      RosterIsUnique(w.db.users, order);
      RosterOrdered(w.db, e.op.run);
      RotatesStep(View(w.db, c), c, e.op.run, RunRoster(w.db, e.op.run), e.op.repeat, e.tape, w.now, order);
    }
  }

  /** World i of the history has the users of the start, and the crew has taken turns so far. */
  ghost predicate TurningAt(t: Trace, i: nat, c: ChannelId, order: seq<UserId>)
    requires i < |t.worlds| && order != []
  {
    && t.worlds[i].db.users == t.worlds[0].db.users
    && Consistent(View(t.worlds[i].db, c), c, t.worlds[i].now)
    && Rotates(View(t.worlds[i].db, c), c, order)
  }

  lemma RotatesAt(p: Policy, t: Trace, i: nat, c: ChannelId, order: seq<UserId>)
    requires IsHistory(p, t) && Timely(t) && i < |t.events|
    requires order != [] && Listed(t.worlds[0].db.users, order) && TurningAt(t, i, c, order)
    ensures TurningAt(t, i + 1, c, order)
  {
    assert MovesAt(p, t, i) && OnClock(t, i);
    var w, e := t.worlds[i], t.events[i];
    UsersKept(p, w.db, e.op, e.tape);
    ConsistentStep(p, w, e, c);
    RotatesEvent(p, w, e, c, order);
  }

  lemma StartsTurning(t: Trace, c: ChannelId, order: seq<UserId>)
    requires |t.worlds| > 0 && Pristine(t.worlds[0]) && order != []
    ensures TurningAt(t, 0, c, order)
  {
    PristineView(t.worlds[0], c);
    EmptySound(c, t.worlds[0].now);
    EmptyRotates(c, order);
  }

  lemma {:induction false} AlwaysTurning(p: Policy, t: Trace, n: nat, c: ChannelId, order: seq<UserId>)
    requires IsFullHistory(p, t) && Timely(t) && n < |t.worlds|
    requires order != [] && Listed(t.worlds[0].db.users, order)
    ensures TurningAt(t, n, c, order)
  {
    StartsTurning(t, c, order);
    for i := 0 to n
      invariant TurningAt(t, i, c, order)
    {
      RotatesAt(p, t, i, c, order);
    }
  }

  ghost predicate SameCrew(db: Db, c: ChannelId, crew: set<UserId>) {
    forall r :: r in ClosedRuns(db, c) ==> Participants(db.users, db.orders, r) == crew
  }

  /** How many runs of the channel closed before this one. */
  ghost function Position(db: Db, c: ChannelId, r: RunId): nat
    requires r in db.runs
  {
    |set q | q in ClosedRuns(db, c) && ClosingTime(db, q) < ClosingTime(db, r)|
  }

  lemma PositionIsRank(db: Db, c: ChannelId, r: RunId)
    requires RunsProper(db) && r in ClosedRuns(db, c)
    ensures r in View(db, c).closed && Position(db, c, r) == Rank(View(db, c), r)
  {
    var l := View(db, c);
    assert l.closed.Keys == ClosedRuns(db, c);
    assert forall x :: x in l.closed ==> l.closed[x].at == ClosingTime(db, x);
    assert (set q | q in ClosedRuns(db, c) && ClosingTime(db, q) < ClosingTime(db, r)) == Earlier(l, r);
  }

  lemma SameCrewInView(db: Db, c: ChannelId, crew: set<UserId>)
    requires RunsProper(db) && SameCrew(db, c, crew)
    ensures FixedCrew(View(db, c), crew)
  {
    assert View(db, c).closed.Keys == ClosedRuns(db, c);
  }

  lemma RosterOfCrew(users: map<UserId, User>, crew: set<UserId>)
    requires crew <= users.Keys && crew != {}
    ensures var order := Roster(users, crew);
      order != [] && Elems(order) == crew && Distinct(order) && |order| == |crew|
  {
    var order := Roster(users, crew);
    RosterListed(users, crew);
    ListedIsDistinct(users, order);
    DistinctSize(order);
  }

  lemma CrewRotates(p: Policy, t: Trace, n: nat, c: ChannelId, crew: set<UserId>)
    requires IsFullHistory(p, t) && Timely(t) && n < |t.worlds|
    requires crew != {} && crew <= t.worlds[n].db.users.Keys
    ensures var order := Roster(t.worlds[n].db.users, crew);
      && order != [] && Elems(order) == crew && Distinct(order) && |order| == |crew|
      && Rotates(View(t.worlds[n].db, c), c, order)
  {
    UsersStay(p, t, n);
    var users := t.worlds[0].db.users;
    RosterOfCrew(users, crew);
    RosterListed(users, crew);
    AlwaysTurning(p, t, n, c, Roster(users, crew));
  }

  lemma TurnInState(db: Db, c: ChannelId, order: seq<UserId>, r: RunId)
    requires RunsProper(db) && order != [] && Rotates(View(db, c), c, order)
    requires SameCrew(db, c, Elems(order)) && r in ClosedRuns(db, c)
    ensures db.runs[r].runner == Some(Turn(order, Position(db, c, r)))
  {
    SameCrewInView(db, c, Elems(order));
    PositionIsRank(db, c, r);
    assert View(db, c).closed[r].runner == Turn(order, Rank(View(db, c), r));
  }

  /** A fixed crew rotates: the k-th run to close (counting from 0 since the channel was fresh or reset)
      goes to member k mod n in listing order, whatever the repeat flags. */
  lemma RotationHistory(p: Policy, t: Trace, n: nat, c: ChannelId, crew: set<UserId>, r: RunId)
    requires IsFullHistory(p, t) && Timely(t) && n < |t.worlds|
    requires crew != {} && crew <= t.worlds[n].db.users.Keys
    requires SameCrew(t.worlds[n].db, c, crew) && r in ClosedRuns(t.worlds[n].db, c)
    ensures var db, order := t.worlds[n].db, Roster(t.worlds[n].db.users, crew);
      && Elems(order) == crew && |order| == |crew| && order != []
      && db.runs[r].runner == Some(Turn(order, Position(db, c, r)))
  {
    CrewRotates(p, t, n, c, crew);
    AlwaysProper(p, t, n);
    TurnInState(t.worlds[n].db, c, Roster(t.worlds[n].db.users, crew), r);
  }

  /** Exact quota: after t closes member k of a fixed crew of n has run t/n times, and once more if k < t mod n. */
  lemma QuotaHistory(p: Policy, t: Trace, n: nat, c: ChannelId, crew: set<UserId>, k: nat)
    requires IsFullHistory(p, t) && Timely(t) && n < |t.worlds|
    requires crew != {} && crew <= t.worlds[n].db.users.Keys && k < |crew|
    requires SameCrew(t.worlds[n].db, c, crew)
    ensures var db, order := t.worlds[n].db, Roster(t.worlds[n].db.users, crew);
      && |order| == |crew|
      && |RunsServed(db, c, order[k])| == Quota(|ClosedRuns(db, c)|, |crew|, k)
  {
    CrewRotates(p, t, n, c, crew);
    AlwaysConsistent(p, t, n, c);
    AlwaysProper(p, t, n);
    var db, order := t.worlds[n].db, Roster(t.worlds[n].db.users, crew);
    SameCrewInView(db, c, crew);
    ViewShowsRuns(db, c, order[k]);
    QuotaInView(View(db, c), c, order, k);
  }

  lemma QuotaInView(l: Ledger, c: ChannelId, order: seq<UserId>, k: nat)
    requires order != [] && k < |order| && Rotates(l, c, order) && FixedCrew(l, Elems(order)) && Indexed(l, c)
    ensures |ServedBy(l, order[k])| == Quota(|l.closed|, |order|, k)
  {
    var t, u := |l.closed|, order[k];
    assert Count(l, c, u) == |ServedBy(l, u)|;
    if t == 0 {
      assert l.closed == map[] && ServedBy(l, u) == {};
    } else {
      assert u in Elems(order);
    }
  }

  /** Hence any n consecutive closes have n different runners and the (k+n)-th runner is the k-th. */
  lemma RoundsRepeatHistory(p: Policy, t: Trace, n: nat, c: ChannelId, crew: set<UserId>, q: RunId, r: RunId)
    requires IsFullHistory(p, t) && Timely(t) && n < |t.worlds|
    requires crew != {} && crew <= t.worlds[n].db.users.Keys && SameCrew(t.worlds[n].db, c, crew)
    requires q in ClosedRuns(t.worlds[n].db, c) && r in ClosedRuns(t.worlds[n].db, c)
    ensures var db := t.worlds[n].db;
      var a, b := Position(db, c, q), Position(db, c, r);
      && (b == a + |crew| ==> db.runs[r].runner == db.runs[q].runner)
      && (a < b < a + |crew| ==> db.runs[r].runner != db.runs[q].runner)
  {
    var db := t.worlds[n].db;
    CrewRotates(p, t, n, c, crew);
    RotationHistory(p, t, n, c, crew, q);
    RotationHistory(p, t, n, c, crew, r);
    RoundsRepeat(Roster(db.users, crew), Position(db, c, q), Position(db, c, r));
  }
}
