/** Closing a run: authorize, pick the runner, freeze the orders, summarize. */
module Runs {
  import opened Data
  import opened Ordering
  import opened Fairness

  // ----- the specification -----

  /** Users with an uncancelled order in the run: the join of orders with users. */
  function Participants(users: map<UserId, User>, orders: map<OrderKey, Order>, r: RunId): set<UserId> {
    set u | u in users && OrderKey(r, u) in orders && orders[OrderKey(r, u)].canceledAt == None
  }

  predicate ServedIn(run: Run, c: ChannelId) {
    run.channel == c && run.status == Closed && run.closedAt.Some? && run.runner.Some?
  }

  /** The closed runs of a channel with their closing times. */
  function ClosingTimes(runs: map<RunId, Run>, c: ChannelId): map<RunId, Time> {
    map r | r in runs && ServedIn(runs[r], c) :: runs[r].closedAt.value
  }

  /** Equal times, which an advancing clock never produces, are ordered by run id. */
  predicate ClosedBefore(times: map<RunId, Time>, q: RunId, r: RunId)
    requires q in times && r in times
  {
    times[q] < times[r] || (times[q] == times[r] && q < r)
  }

  ghost predicate IsLatest(times: map<RunId, Time>, r: RunId) {
    r in times && forall q :: q in times && q != r ==> ClosedBefore(times, q, r)
  }

  lemma LatestExists(times: map<RunId, Time>)
    requires times != map[]
    ensures exists r :: IsLatest(times, r)
  {
    var later := (q, r) => q in times && r in times && ClosedBefore(times, r, q);
    LeastExists(times.Keys, later);
    var r :| r in times.Keys && forall q :: q in times.Keys && q != r ==> later(r, q);
    assert IsLatest(times, r);
  }

  ghost function Latest(times: map<RunId, Time>): (r: RunId)
    requires times != map[]
    ensures IsLatest(times, r)
  {
    LatestExists(times);
    var r :| IsLatest(times, r);
    r
  }

  ghost function PreviousRunner(runs: map<RunId, Run>, c: ChannelId, current: RunId): Option<UserId> {
    var times := ClosingTimes(runs, c) - {current};
    if times == map[] then None else runs[Latest(times)].runner
  }

  function Finalized(orders: map<OrderKey, Order>, r: RunId, users: set<UserId>, now: Time): map<OrderKey, Order> {
    map k | k in orders ::
      if k.run == r && k.user in users then orders[k].(isFinal := true, updatedAt := now) else orders[k]
  }

  ghost predicate AllOrdered(users: map<UserId, User>, orders: map<OrderKey, Order>, r: RunId, roster: seq<UserId>) {
    forall i :: 0 <= i < |roster| ==> roster[i] in users && OrderKey(r, roster[i]) in orders
  }

  function Line(users: map<UserId, User>, orders: map<OrderKey, Order>, r: RunId, u: UserId): Participant
    requires u in users && OrderKey(r, u) in orders
  {
    var order := orders[OrderKey(r, u)];
    Participant(u, users[u].displayName, order.text, order.provenance)
  }

  ghost function Lines(
    users: map<UserId, User>, orders: map<OrderKey, Order>, r: RunId, roster: seq<UserId>): seq<Participant>
    requires AllOrdered(users, orders, r, roster)
  {
    seq(|roster|, i requires 0 <= i < |roster| => Line(users, orders, r, roster[i]))
  }

  ghost function RunRoster(db: Db, r: RunId): seq<UserId> {
    Roster(db.users, Participants(db.users, db.orders, r))
  }

  lemma RosterOrdered(db: Db, r: RunId)
    ensures AllOrdered(db.users, db.orders, r, RunRoster(db, r))
    ensures Elems(RunRoster(db, r)) == Participants(db.users, db.orders, r)
  {
    RosterElems(db.users, Participants(db.users, db.orders, r));
    var roster := RunRoster(db, r);
    forall i | 0 <= i < |roster| ensures roster[i] in db.users && OrderKey(r, roster[i]) in db.orders {
      assert roster[i] in Elems(roster);
    }
  }

  function ClosedRun(run: Run, runner: UserId, now: Time): Run {
    run.(runner := Some(runner), status := Closed, closedAt := Some(now), updatedAt := now)
  }

  ghost function Summarize(db: Db, r: RunId, runner: UserId, now: Time): Summary
    requires r in db.runs && db.runs[r].channel in db.channels && runner in db.users
  {
    RosterOrdered(db, r);
    var run, roster := db.runs[r], RunRoster(db, r);
    var channel := db.channels[run.channel];
    Summary(
      r, run.channel, channel.name, runner, db.users[runner].displayName, run.pickupTime, run.pickupNote,
      Lines(db.users, db.orders, r, roster), |roster|,
      channel.config.reminderOffset, channel.config.remindersEnabled, channel.config.lastCallEnabled, now)
  }

  /** The effect of a close that passed its checks. */
  ghost function Settle(db: Db, r: RunId, repeat: bool, tape: Tape): Outcome
    requires r in db.runs && db.runs[r].channel in db.channels && RunRoster(db, r) != []
  {
    var run, roster := db.runs[r], RunRoster(db, r);
    var a := Assign(db.stats, run.channel, roster, PreviousRunner(db.runs, run.channel, r), repeat, tape);
    var runner, now := a.decision.runner, a.tape.Now();
    if runner !in db.users then
      Outcome(db.(stats := a.stats), Rejected(NoRunner), a.tape)
    else
      Outcome(
        db.(
          stats := a.stats,
          runs := db.runs[r := ClosedRun(run, runner, now)],
          orders := Finalized(db.orders, r, Elems(roster), now)),
        RunClosed(Summarize(db, r, runner, now), a.decision),
        a.tape.Next())
  }

  ghost function Close(p: Policy, db: Db, r: RunId, actor: UserId, repeat: bool, tape: Tape): Outcome {
    if r !in db.runs then
      Outcome(db, Rejected(RunNotFound), tape)
    else if db.runs[r].status != Open then
      Outcome(db, Rejected(RunNotOpen), tape)
    else if !p.mayClose(db.runs[r], actor) then
      Outcome(db, Rejected(Unauthorized), tape)
    else if db.runs[r].channel !in db.channels then
      Outcome(db, Rejected(RunNotFound), tape)
    else if RunRoster(db, r) == [] then
      Outcome(db, Rejected(NoRunner), tape)
    else
      Settle(db, r, repeat, tape)
  }

  /** The chosen runner is one of the participants, so the branch in which the runner has
      no user row (and the statistics would already have changed) is never taken. */
  lemma RunnerTakesPart(db: Db, r: RunId, repeat: bool, tape: Tape)
    requires r in db.runs && db.runs[r].channel in db.channels && RunRoster(db, r) != []
    ensures var roster := RunRoster(db, r);
      var c := db.runs[r].channel;
      var l := Enrol(db.stats, c, roster, tape);
      var last := PreviousRunner(db.runs, c, r);
      && Enrolled(l.stats, c, Elems(roster)) && Elems(roster) != {}
      && Unique(roster) == roster
      && Assign(db.stats, c, roster, last, repeat, tape) == Pick(l, c, Elems(roster), last, repeat)
      && Pick(l, c, Elems(roster), last, repeat).decision.runner in Participants(db.users, db.orders, r)
    ensures Settle(db, r, repeat, tape).reply.RunClosed?
  {
    var roster := RunRoster(db, r);
    var c := db.runs[r].channel;
    RosterOrdered(db, r);
    RosterListed(db.users, Participants(db.users, db.orders, r));
    ListedIsDistinct(db.users, roster);
    UniqueIsDistinct(roster);
    UniqueElems(roster);
    EnrolFacts(db.stats, c, roster, tape);
    assert roster[0] in Elems(roster);
    PickFacts(Enrol(db.stats, c, roster, tape), c, Elems(roster), PreviousRunner(db.runs, c, r), repeat);
  }

  ghost predicate Frames(db: Db, after: Db, r: RunId) {
    && after == db.(runs := after.runs, orders := after.orders, stats := after.stats)
    && after.runs.Keys == db.runs.Keys
    && forall q :: q in db.runs ==>
      after.runs[q].channel == db.runs[q].channel && (q != r ==> after.runs[q] == db.runs[q])
  }

  lemma SettleFrame(db: Db, r: RunId, repeat: bool, tape: Tape)
    requires r in db.runs && db.runs[r].channel in db.channels && RunRoster(db, r) != []
    ensures Frames(db, Settle(db, r, repeat, tape).db, r)
  {
  }

  /** A close touches runs, orders and statistics only, and no run but its own. */
  lemma CloseFrame(p: Policy, db: Db, r: RunId, actor: UserId, repeat: bool, tape: Tape)
    ensures Frames(db, Close(p, db, r, actor, repeat, tape).db, r)
  {
    if r in db.runs && db.runs[r].channel in db.channels && RunRoster(db, r) != [] {
      SettleFrame(db, r, repeat, tape);
    }
  }

  lemma FinalizedNext(orders: map<OrderKey, Order>, r: RunId, us: set<UserId>, now: Time, u: UserId)
    requires OrderKey(r, u) in orders
    ensures var k, done := OrderKey(r, u), Finalized(orders, r, us, now);
      Finalized(orders, r, us + {u}, now) == done[k := done[k].(isFinal := true, updatedAt := now)]
  {
  }

  // ----- the service -----

  class CloseRunService {
    const session: Session
    const clock: Clock
    const policy: Policy
    const fairness: FairnessService

    ghost predicate Wired() {
      fairness.session == session && fairness.clock == clock
    }

    constructor (session: Session, clock: Clock, policy: Policy)
      ensures Wired() && this.session == session && this.clock == clock && this.policy == policy
    {
      this.session := session;
      this.clock := clock;
      this.policy := policy;
      fairness := new FairnessService(session, clock);
    }

    /** The participant who is listed first. */
    method FirstOf(candidates: set<UserId>) returns (first: UserId)
      requires candidates != {} && candidates <= session.users.Keys
      ensures candidates <= session.users.Keys && FirstListed(session.users, candidates, first)
    {
      first :| first in candidates;
      var rest := candidates - {first};
      ListingIsTotal(session.users, candidates);
      while rest != {}
        invariant rest <= candidates && first in candidates && first !in rest
        invariant forall u :: u in candidates && u !in rest && u != first ==> ListedBefore(session.users, first, u)
        decreases rest
      {
        var u :| u in rest;
        if ListedBefore(session.users, u, first) {
          forall v | v in candidates && v !in rest && v != first ensures ListedBefore(session.users, u, v) {
            ListedTransitively(session.users, u, first, v);
          }
          first := u;
        } else {
          ListedOneWay(session.users, u, first);
        }
        rest := rest - {u};
      }
    }

    /** Participants ordered by display name and id. */
    method LoadActiveOrders(r: RunId) returns (roster: seq<UserId>)
      ensures roster == RunRoster(session.Snapshot(), r)
    {
      var rest := Participants(session.users, session.orders, r);
      roster := [];
      while rest != {}
        invariant rest <= session.users.Keys
        invariant roster + Roster(session.users, rest) == RunRoster(session.Snapshot(), r)
        decreases rest
      {
        var first := FirstOf(rest);
        RosterStartsWith(session.users, rest, first);
        roster := roster + [first];
        rest := rest - {first};
      }
    }

    /** The runner of the latest other closed run of the channel. */
    method GetPreviousRunner(c: ChannelId, current: RunId) returns (runner: Option<UserId>)
      ensures runner == PreviousRunner(session.runs, c, current)
    {
      runner := None;
      var rest := session.runs.Keys;
      var times := ClosingTimes(session.runs, c) - {current};
      var latest: Option<RunId> := None;
      while rest != {}
        invariant rest <= session.runs.Keys
        invariant latest.None? ==> forall r :: r in times ==> r in rest
        invariant latest.Some? ==> latest.value in times
        invariant latest.Some? ==> forall r :: r in times && r !in rest && r != latest.value ==>
          ClosedBefore(times, r, latest.value)
        invariant runner == if latest.Some? then session.runs[latest.value].runner else None
        decreases rest
      {
        var r :| r in rest;
        rest := rest - {r};
        if r in times && (latest.None? || ClosedBefore(times, latest.value, r)) {
          latest := Some(r);
          runner := session.runs[r].runner;
        }
      }
      if latest.Some? {
        assert IsLatest(times, latest.value);
        assert Latest(times) == latest.value;
      }
    }

    method FinalizeRun(r: RunId, runner: UserId, now: Time)
      requires r in session.runs
      modifies session
      ensures session.Snapshot() == old(session.Snapshot()).(
        runs := old(session.runs)[r := ClosedRun(old(session.runs)[r], runner, now)])
    {
      session.runs := session.runs[r := session.runs[r].(runner := Some(runner))];
      session.runs := session.runs[r := session.runs[r].(status := Closed)];
      session.runs := session.runs[r := session.runs[r].(closedAt := Some(now))];
      session.runs := session.runs[r := session.runs[r].(updatedAt := now)];
    }

    method SnapshotOrders(r: RunId, roster: seq<UserId>, now: Time) returns (participants: seq<Participant>)
      requires AllOrdered(session.users, session.orders, r, roster)
      modifies session
      ensures session.Snapshot() == old(session.Snapshot()).(
        orders := Finalized(old(session.orders), r, Elems(roster), now))
      ensures participants == Lines(old(session.users), old(session.orders), r, roster)
    {
      ghost var orders := session.orders;
      ghost var lines := Lines(session.users, orders, r, roster);
      participants := [];
      assert Finalized(orders, r, Elems(roster[..0]), now) == orders;
      for i := 0 to |roster|
        invariant session.Snapshot() == old(session.Snapshot()).(orders := session.orders)
        invariant session.orders == Finalized(orders, r, Elems(roster[..i]), now)
        invariant participants == lines[..i]
      {
        var k := OrderKey(r, roster[i]);
        FinalizedNext(orders, r, Elems(roster[..i]), now, roster[i]);
        assert Elems(roster[..i + 1]) == Elems(roster[..i]) + {roster[i]};
        session.orders := session.orders[k := session.orders[k].(isFinal := true, updatedAt := now)];
        var line := Line(session.users, session.orders, r, roster[i]);
        assert line == lines[i];
        participants := participants + [line];
      }
      assert roster[..|roster|] == roster;
    }

    method CloseRun(r: RunId, actor: UserId, repeat: bool) returns (reply: Reply)
      requires Wired()
      modifies session, clock
      ensures Close(policy, old(session.Snapshot()), r, actor, repeat, old(clock.Rest()))
           == Outcome(session.Snapshot(), reply, clock.Rest())
    {
      if r !in session.runs {
        return Rejected(RunNotFound);
      }
      var run := session.runs[r];
      if run.status != Open {
        return Rejected(RunNotOpen);
      }
      if !policy.mayClose(run, actor) {
        return Rejected(Unauthorized);
      }
      if run.channel !in session.channels {
        return Rejected(RunNotFound);
      }
      var channel := session.channels[run.channel];
      var roster := LoadActiveOrders(r);
      if roster == [] {
        return Rejected(NoRunner);
      }
      RunnerTakesPart(session.Snapshot(), r, repeat, clock.Rest());
      RosterOrdered(session.Snapshot(), r);
      var last := GetPreviousRunner(run.channel, r);
      var decision := fairness.AssignRunner(run.channel, roster, last, repeat);
      var runner := decision.value.runner;
      if runner !in session.users {
        assert false;
      }
      var now := clock.Now();
      FinalizeRun(r, runner, now);
      var participants := SnapshotOrders(r, roster, now);
      reply := RunClosed(
        Summary(
          r, run.channel, channel.name, runner, session.users[runner].displayName, run.pickupTime, run.pickupNote,
          participants, |participants|,
          channel.config.reminderOffset, channel.config.remindersEnabled, channel.config.lastCallEnabled, now),
        decision.value);
    }
  }
}
