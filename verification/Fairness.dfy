/** Runner selection: the least-served participant, with the previous runner set aside. */
module Fairness {
  import opened Data
  import opened Ordering

  const EPOCH: Time := 0

  type Stats = map<Seat, Stat>

  // ----- the specification -----

  /** The identifiers in order of first appearance. */
  function Unique(ids: seq<UserId>): seq<UserId> {
    if ids == [] then
      []
    else
      var earlier := Unique(ids[..|ids| - 1]);
      var last := ids[|ids| - 1];
      if last in earlier then earlier else earlier + [last]
  }

  lemma {:induction false} UniqueElems(ids: seq<UserId>)
    ensures Elems(Unique(ids)) == Elems(ids)
  {
    if ids != [] {
      var front, last := ids[..|ids| - 1], ids[|ids| - 1];
      UniqueElems(front);
      assert last in Unique(front) <==> last in Elems(Unique(front));
      assert Elems(ids) == Elems(front) + {last};
      assert Elems(Unique(front) + [last]) == Elems(Unique(front)) + {last};
    }
  }

  /** Nothing is repeated, and a list without repetitions is left alone. */
  lemma {:induction false} UniqueIsDistinct(ids: seq<UserId>)
    ensures Distinct(Unique(ids))
    ensures Distinct(ids) ==> Unique(ids) == ids
  {
    if ids != [] {
      var front, last := ids[..|ids| - 1], ids[|ids| - 1];
      UniqueIsDistinct(front);
      assert ids == front + [last];
      if Distinct(ids) {
        assert forall i :: 0 <= i < |front| ==> front[i] == ids[i] && ids[i] != ids[|ids| - 1];
      }
    }
  }

  ghost predicate Enrolled(stats: Stats, c: ChannelId, users: set<UserId>) {
    forall u :: u in users ==> Seat(c, u) in stats
  }

  datatype Loaded = Loaded(stats: Stats, tape: Tape)

  /** Every participant without a row gets one, each with its own clock reading. */
  function Enrol(stats: Stats, c: ChannelId, participants: seq<UserId>, tape: Tape): Loaded
    decreases |participants|
  {
    if participants == [] then
      Loaded(stats, tape)
    else if Seat(c, participants[0]) in stats then
      Enrol(stats, c, participants[1..], tape)
    else
      Enrol(stats[Seat(c, participants[0]) := Stat(0, None, tape.Now(), tape.Now())], c, participants[1..], tape.Next())
  }

  /** Existing rows stay as they are, and the new rows are exactly the missing ones. */
  lemma {:induction false} EnrolFacts(stats: Stats, c: ChannelId, participants: seq<UserId>, tape: Tape)
    ensures var l := Enrol(stats, c, participants, tape);
      && Enrolled(l.stats, c, Elems(participants))
      && (forall s :: s in stats ==> s in l.stats && l.stats[s] == stats[s])
      && (forall s :: s in l.stats && s !in stats ==>
          && s.channel == c && s.user in participants
          && l.stats[s].served == 0 && l.stats[s].lastRunAt == None)
      && l.tape.reading == tape.reading
      && l.tape.pos >= tape.pos
    decreases |participants|
  {
    if participants != [] {
      var s := Seat(c, participants[0]);
      assert Elems(participants) == {participants[0]} + Elems(participants[1..]);
      if s in stats {
        EnrolFacts(stats, c, participants[1..], tape);
      } else {
        EnrolFacts(stats[s := Stat(0, None, tape.Now(), tape.Now())], c, participants[1..], tape.Next());
      }
    }
  }

  /** On an advancing clock new rows are created after the start and before the next reading. */
  lemma {:induction false} EnrolTimes(stats: Stats, c: ChannelId, participants: seq<UserId>, tape: Tape)
    requires tape.Ticking()
    ensures var l := Enrol(stats, c, participants, tape);
      && l.tape.Ticking() && tape.Now() <= l.tape.Now()
      && (forall s :: s in l.stats && s !in stats ==> tape.Now() <= l.stats[s].createdAt < l.tape.Now())
    decreases |participants|
  {
    if participants != [] {
      var s := Seat(c, participants[0]);
      if s in stats {
        EnrolTimes(stats, c, participants[1..], tape);
      } else {
        var more := stats[s := Stat(0, None, tape.Now(), tape.Now())];
        EnrolTimes(more, c, participants[1..], tape.Next());
        EnrolFacts(more, c, participants[1..], tape.Next());
        assert tape.Now() < tape.Next().Now();
      }
    }
  }

  lemma FirstIsOldest(stats: Stats, c: ChannelId, participants: seq<UserId>, tape: Tape, u: UserId, v: UserId)
    requires tape.Ticking() && v in participants && Seat(c, v) !in stats
    requires Seat(c, u) in stats && stats[Seat(c, u)].createdAt < tape.Now()
    ensures var l := Enrol(stats, c, participants, tape);
      && Seat(c, u) in l.stats && Seat(c, v) in l.stats
      && l.stats[Seat(c, u)].createdAt < l.stats[Seat(c, v)].createdAt
  {
    EnrolFacts(stats, c, participants, tape);
    EnrolTimes(stats, c, participants, tape);
    assert v in Elems(participants);
  }

  /** New rows are created in the order of the list. */
  lemma {:induction false} EnrolInOrder(
    stats: Stats, c: ChannelId, participants: seq<UserId>, tape: Tape, i: nat, j: nat)
    requires tape.Ticking() && Distinct(participants) && i < j < |participants|
    requires Seat(c, participants[i]) !in stats && Seat(c, participants[j]) !in stats
    ensures var l := Enrol(stats, c, participants, tape);
      && Seat(c, participants[i]) in l.stats && Seat(c, participants[j]) in l.stats
      && l.stats[Seat(c, participants[i])].createdAt < l.stats[Seat(c, participants[j])].createdAt
    decreases |participants|
  {
    var rest := participants[1..];
    assert participants[j] == rest[j - 1];
    if Seat(c, participants[0]) in stats {
      EnrolInOrder(stats, c, rest, tape, i - 1, j - 1);
    } else {
      var more := stats[Seat(c, participants[0]) := Stat(0, None, tape.Now(), tape.Now())];
      assert Enrol(stats, c, participants, tape) == Enrol(more, c, rest, tape.Next());
      assert tape.Now() < tape.Next().Now();
      if i == 0 {
        FirstIsOldest(more, c, rest, tape.Next(), participants[0], participants[j]);
      } else {
        assert participants[i] == rest[i - 1];
        EnrolInOrder(more, c, rest, tape.Next(), i - 1, j - 1);
      }
    }
  }

  function LastRun(stat: Stat): Time {
    if stat.lastRunAt.Some? then stat.lastRunAt.value else EPOCH
  }

  /** The lexicographic order of `_sort_key`: count, last run, creation, user id. */
  predicate KeyLess(a: Stat, u: UserId, b: Stat, v: UserId) {
    if a.served != b.served then
      a.served < b.served
    else if LastRun(a) != LastRun(b) then
      LastRun(a) < LastRun(b)
    else if a.createdAt != b.createdAt then
      a.createdAt < b.createdAt
    else
      u < v
  }

  ghost predicate IsLeast(stats: Stats, c: ChannelId, eligible: set<UserId>, m: UserId)
    requires Enrolled(stats, c, eligible)
  {
    && m in eligible
    && forall u :: u in eligible && u != m ==> KeyLess(stats[Seat(c, m)], m, stats[Seat(c, u)], u)
  }

  lemma LeastStatExists(stats: Stats, c: ChannelId, eligible: set<UserId>)
    requires Enrolled(stats, c, eligible) && eligible != {}
    ensures exists m :: IsLeast(stats, c, eligible, m)
  {
    var less := (u, v) =>
      Seat(c, u) in stats && Seat(c, v) in stats && KeyLess(stats[Seat(c, u)], u, stats[Seat(c, v)], v);
    LeastExists(eligible, less);
    var m :| m in eligible && forall x :: x in eligible && x != m ==> less(m, x);
    assert IsLeast(stats, c, eligible, m);
  }

  ghost function Least(stats: Stats, c: ChannelId, eligible: set<UserId>): (m: UserId)
    requires Enrolled(stats, c, eligible) && eligible != {}
    ensures IsLeast(stats, c, eligible, m)
  {
    LeastStatExists(stats, c, eligible);
    var m :| IsLeast(stats, c, eligible, m);
    m
  }

  /** User ids make the keys different, so nothing else can be least. */
  lemma LeastIsUnique(stats: Stats, stats': Stats, c: ChannelId, eligible: set<UserId>, m: UserId)
    requires Enrolled(stats, c, eligible) && Enrolled(stats', c, eligible)
    requires forall u :: u in eligible ==> stats[Seat(c, u)] == stats'[Seat(c, u)]
    requires IsLeast(stats, c, eligible, m)
    ensures m == Least(stats', c, eligible)
  {
    var m' := Least(stats', c, eligible);
    assert IsLeast(stats', c, eligible, m');
  }

  /** The previous runner is set aside unless repeating is allowed or nobody else is there. */
  predicate Excludes(participants: set<UserId>, last: Option<UserId>, repeat: bool) {
    !repeat && last.Some? && last.value in participants && |participants| > 1
  }

  function Eligible(participants: set<UserId>, last: Option<UserId>, repeat: bool): set<UserId> {
    if Excludes(participants, last, repeat) then participants - {last.value} else participants
  }

  lemma EligibleFacts(participants: set<UserId>, last: Option<UserId>, repeat: bool)
    requires participants != {}
    ensures Eligible(participants, last, repeat) != {}
    ensures Eligible(participants, last, repeat) <= participants
  {
    if Excludes(participants, last, repeat) {
      assert participants == {last.value} + (participants - {last.value});
    }
  }

  datatype Assignment = Assignment(stats: Stats, decision: Decision, tape: Tape)

  /** The choice among participants who all have a row, and the update of the chosen row. */
  ghost function Pick(l: Loaded, c: ChannelId, everyone: set<UserId>, last: Option<UserId>, repeat: bool): Assignment
    requires everyone != {} && Enrolled(l.stats, c, everyone)
  {
    EligibleFacts(everyone, last, repeat);
    Charge(l, c, Least(l.stats, c, Eligible(everyone, last, repeat)), Excludes(everyone, last, repeat))
  }

  /** The chosen row counts one more run, served now. */
  function Charge(l: Loaded, c: ChannelId, runner: UserId, excluded: bool): Assignment
    requires Seat(c, runner) in l.stats
  {
    var now, row := l.tape.Now(), l.stats[Seat(c, runner)];
    Assignment(
      l.stats[Seat(c, runner) := row.(served := row.served + 1, lastRunAt := Some(now), updatedAt := now)],
      Decision(runner, row.served, excluded),
      l.tape.Next())
  }

  lemma PickFacts(l: Loaded, c: ChannelId, everyone: set<UserId>, last: Option<UserId>, repeat: bool)
    requires everyone != {} && Enrolled(l.stats, c, everyone)
    ensures var runner := Pick(l, c, everyone, last, repeat).decision.runner;
      && runner in everyone
      && Eligible(everyone, last, repeat) <= everyone
      && IsLeast(l.stats, c, Eligible(everyone, last, repeat), runner)
      && Pick(l, c, everyone, last, repeat) == Charge(l, c, runner, Excludes(everyone, last, repeat))
  {
    EligibleFacts(everyone, last, repeat);
  }

  ghost function Assign(
    stats: Stats, c: ChannelId, ids: seq<UserId>, last: Option<UserId>, repeat: bool, tape: Tape): Assignment
    requires ids != []
  {
    var participants := Unique(ids);
    UniqueElems(ids);
    assert ids[0] in Elems(ids);
    EnrolFacts(stats, c, participants, tape);
    Pick(Enrol(stats, c, participants, tape), c, Elems(participants), last, repeat)
  }

  lemma {:induction false} EnrolPresent(stats: Stats, c: ChannelId, participants: seq<UserId>, tape: Tape)
    requires Enrolled(stats, c, Elems(participants))
    ensures Enrol(stats, c, participants, tape) == Loaded(stats, tape)
    decreases |participants|
  {
    if participants != [] {
      assert participants[0] in Elems(participants);
      assert Elems(participants[1..]) <= Elems(participants);
      EnrolPresent(stats, c, participants[1..], tape);
    }
  }

  lemma AssignPresent(stats: Stats, c: ChannelId, ids: seq<UserId>, last: Option<UserId>, repeat: bool, tape: Tape)
    requires ids != [] && Elems(ids) != {} && Enrolled(stats, c, Elems(ids))
    ensures Assign(stats, c, ids, last, repeat, tape) == Pick(Loaded(stats, tape), c, Elems(ids), last, repeat)
  {
    UniqueElems(ids);
    EnrolPresent(stats, c, Unique(ids), tape);
  }

  /** Between users who all have a row, the choice depends on who takes part and not on
      the order or the repetitions of the list, and exactly one row changes. */
  lemma ChoiceIgnoresListing(
    stats: Stats, c: ChannelId, ids: seq<UserId>, ids': seq<UserId>, last: Option<UserId>, repeat: bool, tape: Tape)
    requires ids != [] && ids' != [] && Elems(ids) == Elems(ids') && Enrolled(stats, c, Elems(ids))
    ensures Assign(stats, c, ids, last, repeat, tape) == Assign(stats, c, ids', last, repeat, tape)
    ensures var a := Assign(stats, c, ids, last, repeat, tape);
      && a.decision.runner in Elems(ids)
      && a.stats.Keys == stats.Keys
      && (forall s :: s in stats ==> (a.stats[s] != stats[s] <==> s == Seat(c, a.decision.runner)))
  {
    assert ids[0] in Elems(ids);
    AssignPresent(stats, c, ids, last, repeat, tape);
    AssignPresent(stats, c, ids', last, repeat, tape);
    PickFacts(Loaded(stats, tape), c, Elems(ids), last, repeat);
  }

  // ----- the service -----

  /** Rows loaded into a dictionary by user. */
  type Rows = map<UserId, Stat>

  /** `rows` holds exactly those of the users' rows that are in the table. */
  ghost predicate Mirrors(rows: Rows, stats: Stats, c: ChannelId, users: set<UserId>) {
    && (forall u :: u in rows ==> u in users)
    && (forall u :: u in users ==> (u in rows <==> Seat(c, u) in stats) && (u in rows ==> rows[u] == stats[Seat(c, u)]))
  }

  ghost predicate IsLeastRow(rows: Rows, candidates: set<UserId>, m: UserId)
    requires candidates <= rows.Keys
  {
    m in candidates && forall u :: u in candidates && u != m ==> KeyLess(rows[m], m, rows[u], u)
  }

  /** A choice made from the loaded rows is the specified one. */
  lemma AssignFromRows(
    stats: Stats, c: ChannelId, ids: seq<UserId>, last: Option<UserId>, repeat: bool, tape: Tape,
    rows: Rows, chosen: UserId)
    requires ids != [] && rows.Keys == Elems(Unique(ids))
    requires Mirrors(rows, Enrol(stats, c, Unique(ids), tape).stats, c, rows.Keys)
    requires var e := Eligible(rows.Keys, last, repeat); e <= rows.Keys && IsLeastRow(rows, e, chosen)
    ensures chosen in rows.Keys && Seat(c, chosen) in Enrol(stats, c, Unique(ids), tape).stats
    ensures Assign(stats, c, ids, last, repeat, tape)
         == Charge(Enrol(stats, c, Unique(ids), tape), c, chosen, Excludes(rows.Keys, last, repeat))
  {
    var l := Enrol(stats, c, Unique(ids), tape);
    EligibleFacts(rows.Keys, last, repeat);
    var e := Eligible(rows.Keys, last, repeat);
    assert IsLeast(l.stats, c, e, chosen);
    LeastIsUnique(l.stats, l.stats, c, e, chosen);
  }

  class FairnessService {
    const session: Session
    const clock: Clock

    constructor (session: Session, clock: Clock)
      ensures this.session == session && this.clock == clock
    {
      this.session := session;
      this.clock := clock;
    }

    method UniqueOrdered(ids: seq<UserId>) returns (ordered: seq<UserId>)
      ensures ordered == Unique(ids)
    {
      var seen: set<UserId> := {};
      ordered := [];
      for i := 0 to |ids|
        invariant ordered == Unique(ids[..i])
        invariant seen == Elems(ordered)
      {
        assert ids[..i + 1][..i] == ids[..i];
        if ids[i] !in seen {
          seen := seen + {ids[i]};
          ordered := ordered + [ids[i]];
        }
      }
      assert ids[..|ids|] == ids;
    }

    /** Reads the participants' rows, adding the missing ones to the table. */
    method LoadStats(channel: ChannelId, participants: seq<UserId>) returns (rows: Rows)
      modifies session, clock
      ensures Enrol(old(session.stats), channel, participants, old(clock.Rest())) == Loaded(session.stats, clock.Rest())
      ensures session.Snapshot() == old(session.Snapshot()).(stats := session.stats)
      ensures Mirrors(rows, session.stats, channel, Elems(participants)) && rows.Keys == Elems(participants)
    {
      ghost var l := Enrol(session.stats, channel, participants, clock.Rest());
      rows := map u | u in Elems(participants) && Seat(channel, u) in session.stats :: session.stats[Seat(channel, u)];
      assert participants[0..] == participants;
      for i := 0 to |participants|
        invariant Enrol(session.stats, channel, participants[i..], clock.Rest()) == l
        invariant session.Snapshot() == old(session.Snapshot()).(stats := session.stats)
        invariant Mirrors(rows, session.stats, channel, Elems(participants))
        invariant forall k :: 0 <= k < i ==> participants[k] in rows
      {
        ghost var rest := participants[i..];
        assert rest[0] == participants[i] && rest[1..] == participants[i + 1..];
        var u := participants[i];
        assert u in Elems(participants);
        if u !in rows {
          var now := clock.Now();
          var stat := Stat(0, None, now, now);
          rows := rows[u := stat];
          session.stats := session.stats[Seat(channel, u) := stat];
        }
      }
    }

    /** `min(candidates, key=_sort_key)` over rows in any order. */
    method MinByKey(rows: Rows, candidates: set<UserId>) returns (chosen: UserId)
      requires candidates != {} && candidates <= rows.Keys
      ensures IsLeastRow(rows, candidates, chosen)
    {
      chosen :| chosen in candidates;
      var rest := candidates - {chosen};
      while rest != {}
        invariant rest <= candidates && chosen in candidates && chosen !in rest
        invariant forall u :: u in candidates && u !in rest && u != chosen ==> KeyLess(rows[chosen], chosen, rows[u], u)
        decreases rest
      {
        var u :| u in rest;
        if KeyLess(rows[u], u, rows[chosen], chosen) {
          chosen := u;
        }
        rest := rest - {u};
      }
    }

    /** The candidates are the loaded rows, less the previous runner's where the rule excludes it. */
    method Choose(rows: Rows, last: Option<UserId>, repeat: bool) returns (chosen: UserId, excluded: bool)
      requires rows != map[]
      ensures excluded == Excludes(rows.Keys, last, repeat)
      ensures Eligible(rows.Keys, last, repeat) <= rows.Keys
      ensures IsLeastRow(rows, Eligible(rows.Keys, last, repeat), chosen)
    {
      var candidates := rows.Keys;
      excluded := false;
      if !repeat && last.Some? && last.value in rows && |candidates| > 1 {
        candidates := candidates - {last.value};
        excluded := true;
      }
      EligibleFacts(rows.Keys, last, repeat);
      chosen := MinByKey(rows, candidates);
    }

    /** The chosen row, loaded before, counts the run. */
    method RecordRun(channel: ChannelId, runner: UserId, row: Stat, excluded: bool) returns (decision: Decision)
      requires Seat(channel, runner) in session.stats && session.stats[Seat(channel, runner)] == row
      modifies session, clock
      ensures Charge(Loaded(old(session.stats), old(clock.Rest())), channel, runner, excluded)
           == Assignment(session.stats, decision, clock.Rest())
      ensures session.Snapshot() == old(session.Snapshot()).(stats := session.stats)
    {
      var now := clock.Now();
      session.stats := session.stats[Seat(channel, runner) :=
        row.(served := row.served + 1, lastRunAt := Some(now), updatedAt := now)];
      decision := Decision(runner, row.served, excluded);
    }

    method AssignRunner(channel: ChannelId, ids: seq<UserId>, last: Option<UserId>, repeat: bool)
      returns (decision: Option<Decision>)
      modifies session, clock
      ensures session.Snapshot() == old(session.Snapshot()).(stats := session.stats)
      ensures decision.None? <==> ids == []
      ensures ids == [] ==> session.stats == old(session.stats) && clock.Rest() == old(clock.Rest())
      ensures ids != [] ==>
        Assign(old(session.stats), channel, ids, last, repeat, old(clock.Rest()))
        == Assignment(session.stats, decision.value, clock.Rest())
    {
      var participants := UniqueOrdered(ids);
      UniqueElems(ids);
      assert ids != [] ==> ids[0] in Elems(ids);
      if participants == [] {
        return None;
      }
      assert participants[0] in Elems(participants);
      var rows := LoadStats(channel, participants);
      var chosen, excluded := Choose(rows, last, repeat);
      AssignFromRows(old(session.stats), channel, ids, last, repeat, old(clock.Rest()), rows, chosen);
      var made := RecordRun(channel, chosen, rows[chosen], excluded);
      decision := Some(made);
    }
  }
}
