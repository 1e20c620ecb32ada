/** Who runs: the choice made by each close, read off the closed runs and orders alone.

    The statistics table does not occur in the main theorem.  Among the participants who are not set aside, the
    runner is the one who has run least often; then the one whose latest run is longest ago; then the one who took
    part in a closed run first; then the one listed first.
 */
module Choice {
  import opened Data
  import opened Ordering
  import opened Fairness
  import opened Runs
  import opened Machine
  import opened History
  import opened Index
  import opened Turns
  import opened Guarantees

  // ----- statistics rows are created in the order in which people first took part -----

  /** `u` took part in a closed run before `v` first did, or `v` never did. */
  ghost predicate JoinedEarlier(l: Ledger, u: UserId, v: UserId) {
    exists r :: r in l.closed && u in l.closed[r].crew
      && forall q :: q in l.closed && v in l.closed[q].crew ==> l.closed[r].at < l.closed[q].at
  }

  /** `u` joined earlier, or they joined together (or neither has yet) and `u` is listed first. */
  ghost predicate SeenBefore(l: Ledger, users: map<UserId, User>, u: UserId, v: UserId) {
    JoinedEarlier(l, u, v) || (!JoinedEarlier(l, v, u) && u in users && v in users && ListedBefore(users, u, v))
  }

  ghost predicate CreatedInOrder(
    l: Ledger, stats: Stats, c: ChannelId, users: map<UserId, User>, u: UserId, v: UserId)
  {
    Seat(c, u) in stats && Seat(c, v) in stats ==>
      (stats[Seat(c, u)].createdAt < stats[Seat(c, v)].createdAt <==> SeenBefore(l, users, u, v))
  }

  ghost predicate CrewsHaveRows(l: Ledger, c: ChannelId) {
    forall u :: TookPart(l, u) ==> Seat(c, u) in l.stats
  }

  /** Rows belong to those who took part, and their creation times tell who was seen first. */
  ghost predicate Debuts(l: Ledger, c: ChannelId, users: map<UserId, User>) {
    && CrewsHaveRows(l, c)
    && forall u, v :: u != v ==> CreatedInOrder(l, l.stats, c, users, u, v)
  }

  lemma EmptyDebuts(c: ChannelId, users: map<UserId, User>)
    ensures Debuts(EMPTY, c, users)
  {
  }

  lemma OldJoinedEarlier(l: Ledger, u: UserId, v: UserId)
    requires TookPart(l, u) && !TookPart(l, v)
    ensures JoinedEarlier(l, u, v) && !JoinedEarlier(l, v, u)
  {
    var r :| r in l.closed && u in l.closed[r].crew;
    assert forall q :: q in l.closed ==> v !in l.closed[q].crew;
  }

  lemma NewJoinTogether(l: Ledger, u: UserId, v: UserId)
    requires !TookPart(l, u) && !TookPart(l, v)
    ensures !JoinedEarlier(l, u, v)
  {
    assert forall q :: q in l.closed ==> u !in l.closed[q].crew;
  }

  lemma ListedByPlace(users: map<UserId, User>, roster: seq<UserId>, i: nat, j: nat)
    requires Listed(users, roster) && i < |roster| && j < |roster| && i != j
    ensures roster[i] in users && roster[j] in users
    ensures ListedBefore(users, roster[i], roster[j]) <==> i < j
  {
    assert roster[i] in Elems(roster) && roster[j] in Elems(roster);
    ListedIsDistinct(users, roster);
    if j < i { ListedOneWay(users, roster[j], roster[i]); }
  }

  lemma NewRowsInOrder(
    stats: Stats, c: ChannelId, users: map<UserId, User>, roster: seq<UserId>, tape: Tape, u: UserId, v: UserId)
    requires tape.Ticking() && Listed(users, roster) && u in roster && v in roster && u != v
    requires Seat(c, u) !in stats && Seat(c, v) !in stats
    ensures var after := Enrol(stats, c, roster, tape).stats;
      && u in users && v in users && Seat(c, u) in after && Seat(c, v) in after
      && (after[Seat(c, u)].createdAt < after[Seat(c, v)].createdAt <==> ListedBefore(users, u, v))
  {
    var i :| 0 <= i < |roster| && roster[i] == u;
    var j :| 0 <= j < |roster| && roster[j] == v;
    ListedIsDistinct(users, roster);
    ListedByPlace(users, roster, i, j);
    if i < j {
      EnrolInOrder(stats, c, roster, tape, i, j);
    } else {
      EnrolInOrder(stats, c, roster, tape, j, i);
    }
  }

  /** Adding the missing rows of a close keeps creation times in the order of being seen. */
  lemma EnrolledInOrder(
    l: Ledger, c: ChannelId, users: map<UserId, User>, roster: seq<UserId>, tape: Tape, now: Time,
    u: UserId, v: UserId)
    requires RowsSound(l, c, now) && RowsFromCrews(l) && Debuts(l, c, users)
    requires Listed(users, roster) && tape.Ticking() && now < tape.Now() && u != v
    ensures CreatedInOrder(l, Enrol(l.stats, c, roster, tape).stats, c, users, u, v)
  {
    var after := Enrol(l.stats, c, roster, tape).stats;
    EnrolFacts(l.stats, c, roster, tape);
    EnrolTimes(l.stats, c, roster, tape);
    var a, b := Seat(c, u), Seat(c, v);
    if a in after && b in after {
      assert a in l.stats ==> TookPart(l, a.user);
      assert b in l.stats ==> TookPart(l, b.user);
      if a in l.stats && b in l.stats {
        assert CreatedInOrder(l, l.stats, c, users, u, v);
      } else if a in l.stats {
        OldJoinedEarlier(l, u, v);
      } else if b in l.stats {
        OldJoinedEarlier(l, v, u);
      } else {
        NewJoinTogether(l, u, v);
        NewJoinTogether(l, v, u);
        NewRowsInOrder(l.stats, c, users, roster, tape, u, v);
      }
    }
  }

  /** One more closed run, later than all others, does not change who joined earlier among those who then have
      taken part. */
  lemma JoinedEarlierKept(l: Ledger, l': Ledger, r: RunId, u: UserId, v: UserId)
    requires r !in l.closed && r in l'.closed && l'.closed == l.closed[r := l'.closed[r]]
    requires forall q :: q in l.closed ==> l.closed[q].at < l'.closed[r].at
    requires TookPart(l', u) && TookPart(l', v)
    ensures JoinedEarlier(l', u, v) <==> JoinedEarlier(l, u, v)
  {
    if JoinedEarlier(l, u, v) {
      var x :| x in l.closed && u in l.closed[x].crew
        && forall q :: q in l.closed && v in l.closed[q].crew ==> l.closed[x].at < l.closed[q].at;
      assert x in l'.closed && u in l'.closed[x].crew;
    }
    if JoinedEarlier(l', u, v) {
      var x :| x in l'.closed && u in l'.closed[x].crew
        && forall q :: q in l'.closed && v in l'.closed[q].crew ==> l'.closed[x].at < l'.closed[q].at;
      var q :| q in l'.closed && v in l'.closed[q].crew;
      assert l'.closed[x].at < l'.closed[q].at && x != r;
      assert x in l.closed && u in l.closed[x].crew;
      forall y | y in l.closed && v in l.closed[y].crew ensures l.closed[x].at < l.closed[y].at {
        assert y in l'.closed && v in l'.closed[y].crew;
      }
    }
  }

  lemma CrewsStep(l: Ledger, c: ChannelId, r: RunId, roster: seq<UserId>, repeat: bool, tape: Tape)
    requires CrewsHaveRows(l, c) && roster != [] && r !in l.closed
    ensures CrewsHaveRows(Recorded(l, c, r, roster, repeat, tape), c)
  {
    var m, l' := MoveOf(l, c, roster, repeat, tape), Recorded(l, c, r, roster, repeat, tape);
    MoveFacts(l, c, roster, repeat, tape);
    forall u | TookPart(l', u) ensures Seat(c, u) in l'.stats {
      var q :| q in l'.closed && u in l'.closed[q].crew;
      if q == r {
        assert u in Elems(roster);
      } else {
        assert TookPart(l, u);
      }
    }
  }

  /** A close keeps the creation times of the rows in the order of being seen. */
  lemma DebutsStep(
    l: Ledger, c: ChannelId, users: map<UserId, User>, r: RunId, roster: seq<UserId>, repeat: bool, tape: Tape,
    now: Time)
    requires Sound(l, c, now) && Debuts(l, c, users) && Listed(users, roster)
    requires roster != [] && r !in l.closed && tape.Ticking() && now < tape.Now()
    ensures Debuts(Recorded(l, c, r, roster, repeat, tape), c, users)
  {
    var m, l' := MoveOf(l, c, roster, repeat, tape), Recorded(l, c, r, roster, repeat, tape);
    CrewsStep(l, c, r, roster, repeat, tape);
    RowsStep(l, c, roster, repeat, tape, now, r);
    MoveTimes(l, c, roster, repeat, tape, now);
    forall u, v | u != v ensures CreatedInOrder(l', l'.stats, c, users, u, v) {
      if Seat(c, u) in l'.stats && Seat(c, v) in l'.stats {
        assert TookPart(l', Seat(c, u).user) && TookPart(l', Seat(c, v).user);
        JoinedEarlierKept(l, l', r, u, v);
        JoinedEarlierKept(l, l', r, v, u);
        MovedInOrder(l, c, users, roster, repeat, tape, now, u, v);
        SameCreation(l, c, roster, repeat, tape, u);
        SameCreation(l, c, roster, repeat, tape, v);
      }
    }
  }

  lemma MovedInOrder(
    l: Ledger, c: ChannelId, users: map<UserId, User>, roster: seq<UserId>, repeat: bool, tape: Tape, now: Time,
    u: UserId, v: UserId)
    requires Sound(l, c, now) && Debuts(l, c, users) && Listed(users, roster)
    requires roster != [] && tape.Ticking() && now < tape.Now() && u != v
    ensures CreatedInOrder(l, MoveOf(l, c, roster, repeat, tape).enrolled, c, users, u, v)
  {
    ListedIsDistinct(users, roster);
    UniqueIsDistinct(roster);
    EnrolledInOrder(l, c, users, roster, tape, now, u, v);
  }

  lemma SameCreation(l: Ledger, c: ChannelId, roster: seq<UserId>, repeat: bool, tape: Tape, u: UserId)
    requires roster != [] && Seat(c, u) in MoveOf(l, c, roster, repeat, tape).charged
    ensures var m := MoveOf(l, c, roster, repeat, tape);
      Seat(c, u) in m.enrolled && m.charged[Seat(c, u)].createdAt == m.enrolled[Seat(c, u)].createdAt
  {
    MoveFacts(l, c, roster, repeat, tape);
  }

  // ----- what the least key means -----

  /** `u` comes before `v`: fewer runs, then the latest run longer ago, then seen first. */
  ghost predicate Ahead(l: Ledger, users: map<UserId, User>, u: UserId, v: UserId) {
    var a, b := |ServedBy(l, u)|, |ServedBy(l, v)|;
    a < b || (a == b && (RanLater(l, u, v) || (!RanLater(l, v, u) && SeenBefore(l, users, u, v))))
  }

  lemma SeenIsTotal(l: Ledger, users: map<UserId, User>, u: UserId, v: UserId)
    requires u in users && v in users && u != v
    ensures SeenBefore(l, users, u, v) || SeenBefore(l, users, v, u)
  {
    ListedOneWay(users, u, v);
  }

  /** Who has the lesser key in the enrolled rows comes before the other. */
  lemma LesserIsAhead(
    l: Ledger, c: ChannelId, users: map<UserId, User>, enrolled: Stats, u: UserId, v: UserId, now: Time)
    requires Consistent(l, c, now) && u in users && v in users && u != v
    requires Seat(c, u) in enrolled && Seat(c, v) in enrolled
    requires FromRows(l, c, enrolled, u) && FromRows(l, c, enrolled, v)
    requires CreatedInOrder(l, enrolled, c, users, u, v) && CreatedInOrder(l, enrolled, c, users, v, u)
    requires KeyLess(enrolled[Seat(c, u)], u, enrolled[Seat(c, v)], v)
    ensures Ahead(l, users, u, v)
  {
    var a, b := Seat(c, u), Seat(c, v);
    assert Count(l, c, u) == |ServedBy(l, u)| && Count(l, c, v) == |ServedBy(l, v)|;
    SeenIsTotal(l, users, u, v);
    if |ServedBy(l, u)| == |ServedBy(l, v)| {
      if |ServedBy(l, u)| == 0 {
        assert ServedBy(l, u) == {} && ServedBy(l, v) == {};
      } else {
        assert Agrees(l, c, u, v) && Agrees(l, c, v, u);
      }
    }
  }

  /** The enrolled row is the old row, or a new one for somebody without a row. */
  ghost predicate FromRows(l: Ledger, c: ChannelId, enrolled: Stats, u: UserId) {
    && Seat(c, u) in enrolled
    && var row := enrolled[Seat(c, u)];
    if Seat(c, u) in l.stats then row == l.stats[Seat(c, u)] else row.served == 0 && row.lastRunAt == None
  }

  /** The participant set aside by a close, if any: the previous runner, unless repeating is allowed or nobody else
      takes part. */
  ghost predicate SetAside(l: Ledger, crew: set<UserId>, repeat: bool, u: UserId) {
    !repeat && u in crew && LastRunner(l.closed) == Some(u) && exists v :: v in crew && v != u
  }

  lemma AsideIsExcluded(l: Ledger, crew: set<UserId>, repeat: bool, u: UserId)
    requires u in crew
    ensures SetAside(l, crew, repeat, u) <==> u !in Eligible(crew, LastRunner(l.closed), repeat)
    ensures SetAside(l, crew, repeat, u) ==> Excludes(crew, LastRunner(l.closed), repeat)
  {
    if crew - {u} == {} {
      assert crew == {u};
    } else {
      var v :| v in crew - {u};
      SubsetSize({u, v}, crew);
      assert |{u, v}| == 2;
    }
  }

  lemma SubsetSize(s: set<UserId>, t: set<UserId>)
    requires s <= t
    ensures |s| <= |t|
  {
    assert t == s + (t - s);
  }

  lemma ExcludedIsSomebody(l: Ledger, crew: set<UserId>, repeat: bool)
    ensures Excludes(crew, LastRunner(l.closed), repeat) <==> exists u :: SetAside(l, crew, repeat, u)
  {
    var last := LastRunner(l.closed);
    if Excludes(crew, last, repeat) {
      AsideIsExcluded(l, crew, repeat, last.value);
      assert SetAside(l, crew, repeat, last.value);
    }
    if u :| SetAside(l, crew, repeat, u) {
      AsideIsExcluded(l, crew, repeat, u);
    }
  }

  /** The choice of one close, on the ledger before it. */
  ghost predicate ChosenFairly(l: Ledger, users: map<UserId, User>, crew: set<UserId>, repeat: bool, d: Decision) {
    && d.runner in crew && !SetAside(l, crew, repeat, d.runner)
    && (forall v :: v in crew && v != d.runner && !SetAside(l, crew, repeat, v) ==> Ahead(l, users, d.runner, v))
    && (d.excludedLast <==> exists u :: SetAside(l, crew, repeat, u))
    && d.previousCount == |ServedBy(l, d.runner)|
  }

  lemma RunnerIsAhead(
    l: Ledger, c: ChannelId, users: map<UserId, User>, roster: seq<UserId>, repeat: bool, tape: Tape, now: Time,
    v: UserId)
    requires Consistent(l, c, now) && Debuts(l, c, users) && Listed(users, roster)
    requires roster != [] && tape.Ticking() && now < tape.Now()
    requires v in Eligible(Elems(roster), LastRunner(l.closed), repeat)
    requires v != MoveOf(l, c, roster, repeat, tape).runner
    ensures Ahead(l, users, MoveOf(l, c, roster, repeat, tape).runner, v)
  {
    var m := MoveOf(l, c, roster, repeat, tape);
    MoveFacts(l, c, roster, repeat, tape);
    MovedInOrder(l, c, users, roster, repeat, tape, now, m.runner, v);
    MovedInOrder(l, c, users, roster, repeat, tape, now, v, m.runner);
    LesserIsAhead(l, c, users, m.enrolled, m.runner, v, now);
  }

  ghost function DecisionOf(l: Ledger, c: ChannelId, roster: seq<UserId>, repeat: bool, tape: Tape): Decision
    requires roster != []
  {
    Assign(l.stats, c, roster, LastRunner(l.closed), repeat, tape).decision
  }

  lemma DecisionFacts(l: Ledger, c: ChannelId, roster: seq<UserId>, repeat: bool, tape: Tape)
    requires roster != []
    ensures var d := DecisionOf(l, c, roster, repeat, tape);
      && d.previousCount == Count(l, c, d.runner)
      && (d.excludedLast <==> Excludes(Elems(roster), LastRunner(l.closed), repeat))
  {
    UniqueElems(roster);
    assert roster[0] in Elems(roster);
    EnrolFacts(l.stats, c, Unique(roster), tape);
    PickFacts(Enrol(l.stats, c, Unique(roster), tape), c, Elems(roster), LastRunner(l.closed), repeat);
  }

  lemma ChoiceIsFair(
    l: Ledger, c: ChannelId, users: map<UserId, User>, roster: seq<UserId>, repeat: bool, tape: Tape, now: Time)
    requires Consistent(l, c, now) && Debuts(l, c, users) && Listed(users, roster)
    requires roster != [] && tape.Ticking() && now < tape.Now()
    ensures ChosenFairly(l, users, Elems(roster), repeat, DecisionOf(l, c, roster, repeat, tape))
  {
    var d, crew := DecisionOf(l, c, roster, repeat, tape), Elems(roster);
    MoveFacts(l, c, roster, repeat, tape);
    DecisionFacts(l, c, roster, repeat, tape);
    ExcludedIsSomebody(l, crew, repeat);
    AsideIsExcluded(l, crew, repeat, d.runner);
    assert Count(l, c, d.runner) == |ServedBy(l, d.runner)|;
    forall v | v in crew && v != d.runner && !SetAside(l, crew, repeat, v) ensures Ahead(l, users, d.runner, v) {
      AsideIsExcluded(l, crew, repeat, v);
      RunnerIsAhead(l, c, users, roster, repeat, tape, now, v);
    }
  }

  // ----- in every history -----

  ghost predicate Seen(w: World, c: ChannelId) {
    Consistent(View(w.db, c), c, w.now) && Debuts(View(w.db, c), c, w.db.users)
  }

  lemma RosterIsListed(db: Db, r: RunId)
    ensures Listed(db.users, RunRoster(db, r)) && Elems(RunRoster(db, r)) == Participants(db.users, db.orders, r)
  {
    RosterListed(db.users, Participants(db.users, db.orders, r));
  }

  lemma DebutsEvent(p: Policy, w: World, e: Event, c: ChannelId)
    requires Seen(w, c) && e.tape.Ticking() && w.now < e.tape.Now()
    ensures Debuts(View(Advance(p, w, e).db, c), c, w.db.users)
  {
    LedgerStep(p, w.db, e.op, e.tape, c);
    if Resets(p, w.db, e.op, c) {
      EmptyDebuts(c, w.db.users);
    } else if Closes(p, w.db, e.op, e.tape, c) {
      RosterIsListed(w.db, e.op.run);
      DebutsStep(View(w.db, c), c, w.db.users, e.op.run, RunRoster(w.db, e.op.run), e.op.repeat, e.tape, w.now);
    }
  }

  lemma SeenAt(p: Policy, t: Trace, i: nat, c: ChannelId)
    requires IsHistory(p, t) && Timely(t) && i < |t.events| && Seen(t.worlds[i], c)
    ensures Seen(t.worlds[i + 1], c)
  {
    assert MovesAt(p, t, i) && OnClock(t, i);
    var w, e := t.worlds[i], t.events[i];
    UsersKept(p, w.db, e.op, e.tape);
    ConsistentStep(p, w, e, c);
    DebutsEvent(p, w, e, c);
  }

  lemma SeenAtFirst(w: World, c: ChannelId)
    requires Pristine(w)
    ensures Seen(w, c)
  {
    PristineView(w, c);
    EmptySound(c, w.now);
    EmptyDebuts(c, w.db.users);
  }

  lemma {:induction false} AlwaysSeen(p: Policy, t: Trace, n: nat, c: ChannelId)
    requires IsFullHistory(p, t) && Timely(t) && n < |t.worlds|
    ensures Seen(t.worlds[n], c)
  {
    SeenAtFirst(t.worlds[0], c);
    for i := 0 to n
      invariant Seen(t.worlds[i], c)
    {
      SeenAt(p, t, i, c);
    }
  }

  /** `u` ran the latest closed run of the channel. */
  ghost predicate JustRan(db: Db, c: ChannelId, u: UserId) {
    exists q :: q in RunsServed(db, c, u)
      && forall x :: x in ClosedRuns(db, c) && x != q ==> ClosingTime(db, x) < ClosingTime(db, q)
  }

  /** `u` is passed over: just ran, may not repeat, and somebody else takes part. */
  ghost predicate PassedOver(db: Db, c: ChannelId, crew: set<UserId>, repeat: bool, u: UserId) {
    !repeat && u in crew && JustRan(db, c, u) && exists v :: v in crew && v != u
  }

  /** `u` took part in a closed run of the channel before `v` first did, or `v` never did. */
  ghost predicate JoinedBefore(db: Db, c: ChannelId, u: UserId, v: UserId) {
    exists r :: r in ClosedRuns(db, c) && u in Participants(db.users, db.orders, r)
      && forall q :: q in ClosedRuns(db, c) && v in Participants(db.users, db.orders, q) ==>
        ClosingTime(db, r) < ClosingTime(db, q)
  }

  /** It is `u`'s turn before `v`'s: fewer runs; with as many, the latest of them longer ago; with none, an earlier
      first participation; with the same, an earlier place in the listing. */
  ghost predicate RunsBefore(db: Db, c: ChannelId, u: UserId, v: UserId) {
    var a, b := |RunsServed(db, c, u)|, |RunsServed(db, c, v)|;
    || a < b
    || (a == b && ClosedLater(db, c, u, v))
    || (a == b && !ClosedLater(db, c, v, u) && JoinedBefore(db, c, u, v))
    || (a == b && !ClosedLater(db, c, v, u) && !JoinedBefore(db, c, v, u)
        && u in db.users && v in db.users && ListedBefore(db.users, u, v))
  }

  lemma JustRanIsLast(db: Db, c: ChannelId, u: UserId)
    requires RunsProper(db) && JustRan(db, c, u)
    ensures LastRunner(View(db, c).closed) == Some(u)
  {
    var l := View(db, c);
    var q :| q in RunsServed(db, c, u)
      && forall x :: x in ClosedRuns(db, c) && x != q ==> ClosingTime(db, x) < ClosingTime(db, q);
    assert l.closed.Keys == ClosedRuns(db, c);
    assert forall r :: r in l.closed ==> l.closed[r].at == ClosingTime(db, r);
    LatestIs(l.closed, q);
  }

  lemma LastJustRan(db: Db, c: ChannelId, now: Time, u: UserId)
    requires RunsProper(db) && ClosingsApart(View(db, c), now) && LastRunner(View(db, c).closed) == Some(u)
    ensures JustRan(db, c, u)
  {
    var l := View(db, c);
    var q := Latest(Times(l.closed));
    assert q in l.closed && q in RunsServed(db, c, u);
    forall x | x in ClosedRuns(db, c) && x != q ensures ClosingTime(db, x) < ClosingTime(db, q) {
      assert x in l.closed && ClosedBefore(Times(l.closed), x, q);
    }
  }

  lemma JoinedInView(db: Db, c: ChannelId, u: UserId, v: UserId)
    requires RunsProper(db)
    ensures JoinedEarlier(View(db, c), u, v) <==> JoinedBefore(db, c, u, v)
  {
    var l := View(db, c);
    assert l.closed.Keys == ClosedRuns(db, c);
    assert forall r :: r in l.closed ==>
      l.closed[r].at == ClosingTime(db, r) && l.closed[r].crew == Participants(db.users, db.orders, r);
    if JoinedEarlier(l, u, v) {
      var r :| r in l.closed && u in l.closed[r].crew
        && forall q :: q in l.closed && v in l.closed[q].crew ==> l.closed[r].at < l.closed[q].at;
      assert r in ClosedRuns(db, c) && u in Participants(db.users, db.orders, r);
    }
    if JoinedBefore(db, c, u, v) {
      var r :| r in ClosedRuns(db, c) && u in Participants(db.users, db.orders, r)
        && forall q :: q in ClosedRuns(db, c) && v in Participants(db.users, db.orders, q) ==>
          ClosingTime(db, r) < ClosingTime(db, q);
      assert r in l.closed && u in l.closed[r].crew;
    }
  }

  lemma AheadInView(db: Db, c: ChannelId, u: UserId, v: UserId)
    requires RunsProper(db) && Ahead(View(db, c), db.users, u, v)
    ensures RunsBefore(db, c, u, v)
  {
    ViewShowsRuns(db, c, u);
    ViewShowsRuns(db, c, v);
    LaterInView(db, c, u, v);
    LaterInView(db, c, v, u);
    JoinedInView(db, c, u, v);
    JoinedInView(db, c, v, u);
  }

  lemma PassedOverInView(db: Db, c: ChannelId, now: Time, crew: set<UserId>, repeat: bool, u: UserId)
    requires RunsProper(db) && ClosingsApart(View(db, c), now)
    ensures SetAside(View(db, c), crew, repeat, u) <==> PassedOver(db, c, crew, repeat, u)
  {
    if JustRan(db, c, u) {
      JustRanIsLast(db, c, u);
    }
    if LastRunner(View(db, c).closed) == Some(u) {
      LastJustRan(db, c, now, u);
    }
  }

  /** The decision of a close, by the closed runs and orders before it. */
  ghost predicate FairChoice(db: Db, c: ChannelId, crew: set<UserId>, repeat: bool, d: Decision) {
    && d.runner in crew && !PassedOver(db, c, crew, repeat, d.runner)
    && (forall v :: v in crew && v != d.runner && !PassedOver(db, c, crew, repeat, v) ==>
        RunsBefore(db, c, d.runner, v))
    && (d.excludedLast <==> exists u :: PassedOver(db, c, crew, repeat, u))
    && d.previousCount == |RunsServed(db, c, d.runner)|
  }

  lemma FairInView(db: Db, c: ChannelId, now: Time, crew: set<UserId>, repeat: bool, d: Decision)
    requires RunsProper(db) && ClosingsApart(View(db, c), now)
    requires ChosenFairly(View(db, c), db.users, crew, repeat, d)
    ensures FairChoice(db, c, crew, repeat, d)
  {
    ViewShowsRuns(db, c, d.runner);
    forall u ensures SetAside(View(db, c), crew, repeat, u) <==> PassedOver(db, c, crew, repeat, u) {
      PassedOverInView(db, c, now, crew, repeat, u);
    }
    forall v | v in crew && v != d.runner && !PassedOver(db, c, crew, repeat, v)
      ensures RunsBefore(db, c, d.runner, v)
    {
      AheadInView(db, c, d.runner, v);
    }
  }

  lemma DecisionInState(p: Policy, db: Db, op: Op, tape: Tape)
    requires op.CloseRun? && Step(p, db, op, tape).reply.RunClosed?
    ensures op.run in db.runs && RunRoster(db, op.run) != []
    ensures var c := db.runs[op.run].channel;
      Step(p, db, op, tape).reply.decision
      == DecisionOf(View(db, c), c, RunRoster(db, op.run), op.repeat, tape)
  {
    var c := db.runs[op.run].channel;
    PreviousIsLast(db, c, op.run);
    AssignOnly(db.stats, c, RunRoster(db, op.run), PreviousRunner(db.runs, c, op.run), op.repeat, tape);
  }

  lemma CloseNeedsRun(p: Policy, db: Db, op: Op, tape: Tape)
    requires op.CloseRun? && Step(p, db, op, tape).reply.RunClosed?
    ensures op.run in db.runs
    ensures var reply := Step(p, db, op, tape).reply; reply.summary.runner == reply.decision.runner
  {
  }

  lemma ChoiceInState(p: Policy, w: World, e: Event)
    requires e.op.CloseRun? && Step(p, w.db, e.op, e.tape).reply.RunClosed?
    requires e.tape.Ticking() && w.now < e.tape.Now() && RunsProper(w.db)
    requires e.op.run in w.db.runs && Seen(w, w.db.runs[e.op.run].channel)
    ensures FairChoice(w.db, w.db.runs[e.op.run].channel, Participants(w.db.users, w.db.orders, e.op.run), e.op.repeat,
                       Step(p, w.db, e.op, e.tape).reply.decision)
  {
    var c, roster := w.db.runs[e.op.run].channel, RunRoster(w.db, e.op.run);
    DecisionInState(p, w.db, e.op, e.tape);
    RosterIsListed(w.db, e.op.run);
    ChoiceIsFair(View(w.db, c), c, w.db.users, roster, e.op.repeat, e.tape, w.now);
    FairInView(w.db, c, w.now, Elems(roster), e.op.repeat, DecisionOf(View(w.db, c), c, roster, e.op.repeat, e.tape));
  }

  /** Every close of every history chooses, among the participants who are not passed over, the one who by closed
      runs and orders comes before all others; it says whether somebody was passed over, and how often the runner
      had run. */
  lemma ChoiceHistory(p: Policy, t: Trace, n: nat)
    requires IsFullHistory(p, t) && Timely(t) && n < |t.events|
    requires t.events[n].op.CloseRun? && t.replies[n].RunClosed?
    ensures var db, op := t.worlds[n].db, t.events[n].op;
      && op.run in db.runs
      && t.replies[n].summary.runner == t.replies[n].decision.runner
      && FairChoice(db, db.runs[op.run].channel, Participants(db.users, db.orders, op.run), op.repeat,
                    t.replies[n].decision)
  {
    var w, e := t.worlds[n], t.events[n];
    assert MovesAt(p, t, n) && OnClock(t, n);
    CloseNeedsRun(p, w.db, e.op, e.tape);
    AlwaysSeen(p, t, n, w.db.runs[e.op.run].channel);
    AlwaysProper(p, t, n);
    ChoiceInState(p, w, e);
  }

  // ----- the same choice by the rows of the statistics table -----

  /** Lexicographic order: at the first difference, `a` has the lesser number. */
  ghost predicate LexLess(a: seq<int>, b: seq<int>) {
    exists i :: 0 <= i < |a| && i < |b| && a[..i] == b[..i] && a[i] < b[i]
  }

  lemma KeyIsLexicographic(a: Stat, u: UserId, b: Stat, v: UserId)
    ensures KeyLess(a, u, b, v) <==>
      LexLess([a.served, LastRun(a), a.createdAt, u], [b.served, LastRun(b), b.createdAt, v])
  {
    var x, y := [a.served, LastRun(a), a.createdAt, u], [b.served, LastRun(b), b.createdAt, v];
    if KeyLess(a, u, b, v) {
      var i := if x[0] != y[0] then 0 else if x[1] != y[1] then 1 else if x[2] != y[2] then 2 else 3;
      assert x[..i] == y[..i] && x[i] < y[i];
    }
    if LexLess(x, y) {
      var i :| 0 <= i < |x| && i < |y| && x[..i] == y[..i] && x[i] < y[i];
      forall k | 0 <= k < i ensures x[k] == y[k] {
        assert x[..i][k] == y[..i][k];
      }
      assert i > 0 ==> x[0] == y[0];
      assert i > 1 ==> x[1] == y[1];
      assert i > 2 ==> x[2] == y[2];
    }
  }

  function RowBefore(db: Db, c: ChannelId, u: UserId): Option<Stat> {
    if Seat(c, u) in db.stats then Some(db.stats[Seat(c, u)]) else None
  }

  /** Count and last run before the close, creation time of the row (which the close may have added), user id. */
  function SortKey(db: Db, after: Db, c: ChannelId, u: UserId): seq<int>
    requires Seat(c, u) in after.stats
  {
    var last := match RowBefore(db, c, u) case Some(row) => row.lastRunAt.GetOr(EPOCH) case None => EPOCH;
    [RowCount(db, c, u), last, after.stats[Seat(c, u)].createdAt, u]
  }

  /** Everybody has a row after the close, and the runner's key was the least of those not passed over. */
  ghost predicate LeastKey(db: Db, after: Db, c: ChannelId, crew: set<UserId>, repeat: bool, runner: UserId) {
    && runner in crew
    && (forall u :: u in crew ==> Seat(c, u) in after.stats)
    && forall v :: v in crew && v != runner && !PassedOver(db, c, crew, repeat, v) ==>
      LexLess(SortKey(db, after, c, runner), SortKey(db, after, c, v))
  }

  lemma KeyAfter(db: Db, after: Db, c: ChannelId, roster: seq<UserId>, repeat: bool, tape: Tape, u: UserId)
    requires roster != [] && u in Elems(roster)
    requires var m := MoveOf(View(db, c), c, roster, repeat, tape); Only(after.stats, c) == m.charged
    ensures var m := MoveOf(View(db, c), c, roster, repeat, tape);
      && Seat(c, u) in m.enrolled && Seat(c, u) in after.stats
      && var row := m.enrolled[Seat(c, u)];
      SortKey(db, after, c, u) == [row.served, LastRun(row), row.createdAt, u]
  {
    var m := MoveOf(View(db, c), c, roster, repeat, tape);
    MoveFacts(View(db, c), c, roster, repeat, tape);
    assert Seat(c, u) in m.charged;
    assert Seat(c, u) in Only(after.stats, c);
    SameCreation(View(db, c), c, roster, repeat, tape, u);
    assert Seat(c, u) in db.stats <==> Seat(c, u) in View(db, c).stats;
  }

  lemma LeastKeyInState(
    db: Db, after: Db, c: ChannelId, roster: seq<UserId>, repeat: bool, tape: Tape, now: Time)
    requires roster != [] && RunsProper(db) && ClosingsApart(View(db, c), now)
    requires var m := MoveOf(View(db, c), c, roster, repeat, tape); Only(after.stats, c) == m.charged
    ensures LeastKey(db, after, c, Elems(roster), repeat, MoveOf(View(db, c), c, roster, repeat, tape).runner)
  {
    var l, crew, m := View(db, c), Elems(roster), MoveOf(View(db, c), c, roster, repeat, tape);
    MoveFacts(l, c, roster, repeat, tape);
    forall u | u in crew ensures Seat(c, u) in after.stats {
      KeyAfter(db, after, c, roster, repeat, tape, u);
    }
    forall v | v in crew && v != m.runner && !PassedOver(db, c, crew, repeat, v)
      ensures LexLess(SortKey(db, after, c, m.runner), SortKey(db, after, c, v))
    {
      PassedOverInView(db, c, now, crew, repeat, v);
      AsideIsExcluded(l, crew, repeat, v);
      KeyAfter(db, after, c, roster, repeat, tape, m.runner);
      KeyAfter(db, after, c, roster, repeat, tape, v);
      KeyIsLexicographic(m.enrolled[Seat(c, m.runner)], m.runner, m.enrolled[Seat(c, v)], v);
    }
  }

  lemma CloseMoves(p: Policy, db: Db, op: Op, tape: Tape)
    requires op.CloseRun? && Step(p, db, op, tape).reply.RunClosed? && op.run in db.runs
    ensures RunRoster(db, op.run) != []
    ensures var o, c := Step(p, db, op, tape), db.runs[op.run].channel;
      var m := MoveOf(View(db, c), c, RunRoster(db, op.run), op.repeat, tape);
      Only(o.db.stats, c) == m.charged && o.reply.decision.runner == m.runner
  {
    var c := db.runs[op.run].channel;
    CloseSeen(p, db, op, tape, c);
    DecisionInState(p, db, op, tape);
    assert View(Step(p, db, op, tape).db, c).stats == Only(Step(p, db, op, tape).db.stats, c);
  }

  /** In every close of every history the runner has the lexicographically least (count, last run, creation, id) of
      all participants who are not passed over. */
  lemma LeastKeyHistory(p: Policy, t: Trace, n: nat)
    requires IsFullHistory(p, t) && Timely(t) && n < |t.events|
    requires t.events[n].op.CloseRun? && t.replies[n].RunClosed?
    ensures var db, op := t.worlds[n].db, t.events[n].op;
      && op.run in db.runs
      && LeastKey(db, t.worlds[n + 1].db, db.runs[op.run].channel, Participants(db.users, db.orders, op.run), op.repeat,
                  t.replies[n].decision.runner)
  {
    var w, e := t.worlds[n], t.events[n];
    assert MovesAt(p, t, n);
    CloseNeedsRun(p, w.db, e.op, e.tape);
    var c := w.db.runs[e.op.run].channel;
    CloseMoves(p, w.db, e.op, e.tape);
    AlwaysSeen(p, t, n, c);
    AlwaysProper(p, t, n);
    RosterIsListed(w.db, e.op.run);
    LeastKeyInState(w.db, t.worlds[n + 1].db, c, RunRoster(w.db, e.op.run), e.op.repeat, e.tape, w.now);
  }
}
