/** The runner statistics are a materialized index over a channel's closed runs:
    what one close does to them, and why they always agree with the history.
 */
module Index {
  import opened Data
  import opened Ordering
  import opened Fairness
  import opened Runs
  import opened History

  // ----- the statistics are an index of the closed runs -----

  function ServedBy(l: Ledger, u: UserId): set<RunId> {
    set r | r in l.closed && l.closed[r].runner == u
  }

  function Count(l: Ledger, c: ChannelId, u: UserId): int {
    if Seat(c, u) in l.stats then l.stats[Seat(c, u)].served else 0
  }

  ghost predicate ClosingsApart(l: Ledger, now: Time) {
    && (forall r :: r in l.closed ==> l.closed[r].at <= now)
    && (forall q, r :: q in l.closed && r in l.closed && q != r ==> l.closed[q].at != l.closed[r].at)
  }

  ghost predicate RowsSound(l: Ledger, c: ChannelId, now: Time) {
    forall s :: s in l.stats ==>
      && s.channel == c
      && l.stats[s].createdAt <= now
      && (l.stats[s].lastRunAt.None? <==> l.stats[s].served == 0)
      && (l.stats[s].lastRunAt.Some? ==> l.stats[s].lastRunAt.value <= now)
  }

  ghost predicate Indexed(l: Ledger, c: ChannelId) {
    forall u :: Count(l, c, u) == |ServedBy(l, u)|
  }

  /** Only people who took part in a closed run have a row. */
  ghost predicate RowsFromCrews(l: Ledger) {
    forall s :: s in l.stats ==> TookPart(l, s.user)
  }

  ghost predicate TookPart(l: Ledger, u: UserId) {
    exists r :: r in l.closed && u in l.closed[r].crew
  }

  /** Some run of `v` closed later than every run of `u`. */
  ghost predicate RanLater(l: Ledger, u: UserId, v: UserId) {
    exists r :: r in ServedBy(l, v) && forall q :: q in ServedBy(l, u) ==> l.closed[q].at < l.closed[r].at
  }

  function LastRunOf(l: Ledger, c: ChannelId, u: UserId): Option<Time> {
    if Seat(c, u) in l.stats then l.stats[Seat(c, u)].lastRunAt else None
  }

  ghost predicate Agrees(l: Ledger, c: ChannelId, u: UserId, v: UserId) {
    LastRunOf(l, c, u).Some? && LastRunOf(l, c, v).Some? ==>
      (LastRunOf(l, c, u).value < LastRunOf(l, c, v).value <==> RanLater(l, u, v))
  }

  /** `last_run_at` orders users as their latest closing times do. */
  ghost predicate SameOrder(l: Ledger, c: ChannelId) {
    forall u, v :: u != v ==> Agrees(l, c, u, v)
  }

  ghost predicate Sound(l: Ledger, c: ChannelId, now: Time) {
    ClosingsApart(l, now) && RowsSound(l, c, now) && Indexed(l, c) && RowsFromCrews(l)
  }

  lemma SoundLater(l: Ledger, c: ChannelId, now: Time, later: Time)
    requires Sound(l, c, now) && now <= later
    ensures Sound(l, c, later)
  {
  }

  lemma EmptySound(c: ChannelId, now: Time)
    ensures Sound(EMPTY, c, now)
  {
    forall u ensures Count(EMPTY, c, u) == |ServedBy(EMPTY, u)| {
      assert ServedBy(EMPTY, u) == {};
    }
  }

  /** The parts of one close, with the clock advancing from `now`. */
  datatype Move = Move(enrolled: Stats, runner: UserId, charged: Stats, ranAt: Time, closedAt: Time)

  ghost function MoveOf(l: Ledger, c: ChannelId, roster: seq<UserId>, repeat: bool, tape: Tape): Move
    requires roster != []
  {
    var loaded := Enrol(l.stats, c, Unique(roster), tape);
    var a := Assign(l.stats, c, roster, LastRunner(l.closed), repeat, tape);
    Move(loaded.stats, a.decision.runner, a.stats, loaded.tape.Now(), a.tape.Now())
  }

  lemma MoveFacts(l: Ledger, c: ChannelId, roster: seq<UserId>, repeat: bool, tape: Tape)
    requires roster != []
    ensures Elems(roster) != {} && Eligible(Elems(roster), LastRunner(l.closed), repeat) <= Elems(roster)
    ensures var m := MoveOf(l, c, roster, repeat, tape);
      var last := LastRunner(l.closed);
      && m.runner in Elems(roster)
      && Enrolled(m.enrolled, c, Elems(roster))
      && IsLeast(m.enrolled, c, Eligible(Elems(roster), last, repeat), m.runner)
      && (forall s :: s in l.stats ==> s in m.enrolled && m.enrolled[s] == l.stats[s])
      && (forall s :: s in m.enrolled && s !in l.stats ==>
          s.channel == c && s.user in roster && m.enrolled[s].served == 0 && m.enrolled[s].lastRunAt == None)
      && var row := m.enrolled[Seat(c, m.runner)];
      m.charged == m.enrolled[Seat(c, m.runner) :=
          row.(served := row.served + 1, lastRunAt := Some(m.ranAt), updatedAt := m.ranAt)]
  {
    UniqueElems(roster);
    assert roster[0] in Elems(roster);
    EnrolFacts(l.stats, c, Unique(roster), tape);
    assert forall u :: u in Unique(roster) ==> u in Elems(Unique(roster));
    PickFacts(Enrol(l.stats, c, Unique(roster), tape), c, Elems(roster), LastRunner(l.closed), repeat);
  }

  lemma MoveTimes(l: Ledger, c: ChannelId, roster: seq<UserId>, repeat: bool, tape: Tape, now: Time)
    requires roster != [] && tape.Ticking() && now < tape.Now()
    ensures var m := MoveOf(l, c, roster, repeat, tape);
      && now < m.ranAt < m.closedAt
      && (forall s :: s in m.enrolled && s !in l.stats ==> now < m.enrolled[s].createdAt < m.ranAt)
  {
    UniqueElems(roster);
    assert roster[0] in Elems(roster);
    EnrolFacts(l.stats, c, Unique(roster), tape);
    EnrolTimes(l.stats, c, Unique(roster), tape);
    PickFacts(Enrol(l.stats, c, Unique(roster), tape), c, Elems(roster), LastRunner(l.closed), repeat);
  }

  /** One close adds one to the runner's count and to nobody else's. */
  lemma CountsMove(l: Ledger, c: ChannelId, roster: seq<UserId>, repeat: bool, tape: Tape, r: RunId, u: UserId)
    requires roster != []
    ensures var m := MoveOf(l, c, roster, repeat, tape);
      Count(Recorded(l, c, r, roster, repeat, tape), c, u) == Count(l, c, u) + if u == m.runner then 1 else 0
  {
    MoveFacts(l, c, roster, repeat, tape);
  }

  /** The runner has served no more than any other eligible participant. */
  lemma RunnerServedLeast(l: Ledger, c: ChannelId, roster: seq<UserId>, repeat: bool, tape: Tape, v: UserId)
    requires roster != [] && v in Eligible(Elems(roster), LastRunner(l.closed), repeat)
    ensures Count(l, c, MoveOf(l, c, roster, repeat, tape).runner) <= Count(l, c, v)
  {
    MoveFacts(l, c, roster, repeat, tape);
    var m := MoveOf(l, c, roster, repeat, tape);
    assert v in Elems(roster);
  }

  lemma RunsGrow(l: Ledger, l': Ledger, r: RunId, closing: Closing, u: UserId)
    requires r !in l.closed && l'.closed == l.closed[r := closing]
    ensures ServedBy(l', u) == ServedBy(l, u) + if u == closing.runner then {r} else {}
    ensures |ServedBy(l', u)| == |ServedBy(l, u)| + if u == closing.runner then 1 else 0
  {
    assert ServedBy(l', u) == ServedBy(l, u) + if u == closing.runner then {r} else {};
  }

  lemma IndexMoves(l: Ledger, c: ChannelId, r: RunId, roster: seq<UserId>, repeat: bool, tape: Tape, u: UserId)
    requires Indexed(l, c) && roster != [] && r !in l.closed
    ensures var l' := Recorded(l, c, r, roster, repeat, tape); Count(l', c, u) == |ServedBy(l', u)|
  {
    var l' := Recorded(l, c, r, roster, repeat, tape);
    CountsMove(l, c, roster, repeat, tape, r, u);
    RunsGrow(l, l', r, l'.closed[r], u);
    assert Count(l, c, u) == |ServedBy(l, u)|;
  }

  lemma IndexStep(l: Ledger, c: ChannelId, r: RunId, roster: seq<UserId>, repeat: bool, tape: Tape)
    requires Indexed(l, c) && roster != [] && r !in l.closed
    ensures Indexed(Recorded(l, c, r, roster, repeat, tape), c)
  {
    var l' := Recorded(l, c, r, roster, repeat, tape);
    forall u ensures Count(l', c, u) == |ServedBy(l', u)| {
      IndexMoves(l, c, r, roster, repeat, tape, u);
    }
  }

  lemma ApartStep(l: Ledger, c: ChannelId, r: RunId, roster: seq<UserId>, repeat: bool, tape: Tape, now: Time)
    requires ClosingsApart(l, now) && roster != [] && r !in l.closed && tape.Ticking() && now < tape.Now()
    ensures ClosingsApart(Recorded(l, c, r, roster, repeat, tape), MoveOf(l, c, roster, repeat, tape).closedAt)
  {
    MoveTimes(l, c, roster, repeat, tape, now);
  }

  lemma SoundStep(l: Ledger, c: ChannelId, r: RunId, roster: seq<UserId>, repeat: bool, tape: Tape, now: Time)
    requires Sound(l, c, now) && roster != [] && r !in l.closed && tape.Ticking() && now < tape.Now()
    ensures Sound(Recorded(l, c, r, roster, repeat, tape), c, MoveOf(l, c, roster, repeat, tape).closedAt)
  {
    ApartStep(l, c, r, roster, repeat, tape, now);
    IndexStep(l, c, r, roster, repeat, tape);
    RowsStep(l, c, roster, repeat, tape, now, r);
  }

  lemma RowsStep(l: Ledger, c: ChannelId, roster: seq<UserId>, repeat: bool, tape: Tape, now: Time, r: RunId)
    requires RowsSound(l, c, now) && RowsFromCrews(l) && Indexed(l, c)
    requires roster != [] && r !in l.closed && tape.Ticking() && now < tape.Now()
    ensures var l' := Recorded(l, c, r, roster, repeat, tape);
      RowsSound(l', c, MoveOf(l, c, roster, repeat, tape).closedAt) && RowsFromCrews(l')
  {
    var m, l' := MoveOf(l, c, roster, repeat, tape), Recorded(l, c, r, roster, repeat, tape);
    MoveFacts(l, c, roster, repeat, tape);
    MoveTimes(l, c, roster, repeat, tape, now);
    CountIsNatural(l, c, m.runner);
    forall s | s in l'.stats ensures TookPart(l', s.user) {
      if s in l.stats {
        assert TookPart(l, s.user);
        var q :| q in l.closed && s.user in l.closed[q].crew;
        assert q in l'.closed && s.user in l'.closed[q].crew;
      } else {
        assert s.user in Elems(roster);
        assert r in l'.closed && s.user in l'.closed[r].crew;
      }
    }
  }

  lemma CountIsNatural(l: Ledger, c: ChannelId, u: UserId)
    requires Indexed(l, c)
    ensures Count(l, c, u) >= 0
  {
    assert Count(l, c, u) == |ServedBy(l, u)|;
  }

  lemma RunsMove(l: Ledger, c: ChannelId, roster: seq<UserId>, repeat: bool, tape: Tape, r: RunId, u: UserId)
    requires roster != [] && r !in l.closed
    ensures var m, l' := MoveOf(l, c, roster, repeat, tape), Recorded(l, c, r, roster, repeat, tape);
      && ServedBy(l', u) == (ServedBy(l, u) + if u == m.runner then {r} else {})
      && LastRunOf(l', c, u) == if u == m.runner then Some(m.ranAt) else LastRunOf(l, c, u)
  {
    var l' := Recorded(l, c, r, roster, repeat, tape);
    MoveFacts(l, c, roster, repeat, tape);
    RunsGrow(l, l', r, l'.closed[r], u);
  }

  lemma AgreesStep(
    l: Ledger, c: ChannelId, r: RunId, roster: seq<UserId>, repeat: bool, tape: Tape, now: Time, u: UserId, v: UserId)
    requires ClosingsApart(l, now) && RowsSound(l, c, now) && u != v && Agrees(l, c, u, v)
    requires roster != [] && r !in l.closed && tape.Ticking() && now < tape.Now()
    ensures Agrees(Recorded(l, c, r, roster, repeat, tape), c, u, v)
  {
    var m, l' := MoveOf(l, c, roster, repeat, tape), Recorded(l, c, r, roster, repeat, tape);
    MoveTimes(l, c, roster, repeat, tape, now);
    RunsMove(l, c, roster, repeat, tape, r, u);
    RunsMove(l, c, roster, repeat, tape, r, v);
    if v == m.runner {
      assert r in ServedBy(l', v);
    } else if u == m.runner {
      assert r in ServedBy(l', u);
    } else {
      SameRuns(l, l', u, v);
    }
  }

  lemma SameOrderStep(l: Ledger, c: ChannelId, r: RunId, roster: seq<UserId>, repeat: bool, tape: Tape, now: Time)
    requires ClosingsApart(l, now) && RowsSound(l, c, now) && SameOrder(l, c)
    requires roster != [] && r !in l.closed && tape.Ticking() && now < tape.Now()
    ensures SameOrder(Recorded(l, c, r, roster, repeat, tape), c)
  {
    forall u, v | u != v ensures Agrees(Recorded(l, c, r, roster, repeat, tape), c, u, v) {
      AgreesStep(l, c, r, roster, repeat, tape, now, u, v);
    }
  }

  lemma SameRuns(l: Ledger, l': Ledger, u: UserId, v: UserId)
    requires ServedBy(l', u) == ServedBy(l, u) && ServedBy(l', v) == ServedBy(l, v)
    requires forall r :: r in l.closed ==> r in l'.closed && l'.closed[r].at == l.closed[r].at
    ensures RanLater(l, u, v) <==> RanLater(l', u, v)
  {
    if RanLater(l, u, v) {
      var r :| r in ServedBy(l, v) && forall q :: q in ServedBy(l, u) ==> l.closed[q].at < l.closed[r].at;
      assert r in ServedBy(l', v);
    }
    if RanLater(l', u, v) {
      var r :| r in ServedBy(l', v) && forall q :: q in ServedBy(l', u) ==> l'.closed[q].at < l'.closed[r].at;
      assert r in ServedBy(l, v);
      forall q | q in ServedBy(l, u) ensures l.closed[q].at < l.closed[r].at {
        assert q in ServedBy(l', u);
      }
    }
  }

  // ----- the counts add up to the number of closed runs -----

  ghost function Total(stats: Stats): int
    decreases |stats|
  {
    if stats == map[] then
      0
    else
      var s :| s in stats;
      stats[s].served + Total(stats - {s})
  }

  lemma {:induction false} TotalSplit(stats: Stats, s: Seat)
    requires s in stats
    ensures Total(stats) == stats[s].served + Total(stats - {s})
    decreases |stats|
  {
    var t :| t in stats && Total(stats) == stats[t].served + Total(stats - {t});
    if t != s {
      TotalSplit(stats - {t}, s);
      TotalSplit(stats - {s}, t);
      assert stats - {t} - {s} == stats - {s} - {t};
    }
  }

  lemma TotalWrite(stats: Stats, s: Seat, row: Stat)
    ensures Total(stats[s := row]) == Total(stats) + row.served - if s in stats then stats[s].served else 0
  {
    TotalSplit(stats[s := row], s);
    if s in stats {
      TotalSplit(stats, s);
      assert stats[s := row] - {s} == stats - {s};
    } else {
      assert stats[s := row] - {s} == stats;
    }
  }

  lemma {:induction false} EnrolKeepsTotal(stats: Stats, c: ChannelId, participants: seq<UserId>, tape: Tape)
    ensures Total(Enrol(stats, c, participants, tape).stats) == Total(stats)
    decreases |participants|
  {
    if participants != [] {
      var s, row := Seat(c, participants[0]), Stat(0, None, tape.Now(), tape.Now());
      if s in stats {
        EnrolKeepsTotal(stats, c, participants[1..], tape);
      } else {
        EnrolKeepsTotal(stats[s := row], c, participants[1..], tape.Next());
        TotalWrite(stats, s, row);
      }
    }
  }

  lemma TotalStep(l: Ledger, c: ChannelId, r: RunId, roster: seq<UserId>, repeat: bool, tape: Tape)
    requires Total(l.stats) == |l.closed| && roster != [] && r !in l.closed
    ensures var l' := Recorded(l, c, r, roster, repeat, tape); Total(l'.stats) == |l'.closed|
  {
    var m := MoveOf(l, c, roster, repeat, tape);
    MoveFacts(l, c, roster, repeat, tape);
    EnrolKeepsTotal(l.stats, c, Unique(roster), tape);
    TotalWrite(m.enrolled, Seat(c, m.runner), m.charged[Seat(c, m.runner)]);
  }
}
