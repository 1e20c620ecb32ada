/** Two guarantees about any history: pairwise fairness, and no back-to-back runs. */
module Turns {
  import opened Data
  import opened Fairness
  import opened Runs
  import opened History
  import opened Index

  lemma LatestIs(closed: map<RunId, Closing>, r: RunId)
    requires r in closed && forall q :: q in closed && q != r ==> closed[q].at < closed[r].at
    ensures LastRunner(closed) == Some(closed[r].runner)
  {
    var times := Times(closed);
    assert r in times;
    var q := Latest(times);
    assert q != r ==> ClosedBefore(times, r, q);
  }

  lemma RunnerBecomesLast(l: Ledger, c: ChannelId, r: RunId, roster: seq<UserId>, repeat: bool, tape: Tape, now: Time)
    requires ClosingsApart(l, now) && roster != [] && r !in l.closed && tape.Ticking() && now < tape.Now()
    ensures LastRunner(Recorded(l, c, r, roster, repeat, tape).closed)
         == Some(MoveOf(l, c, roster, repeat, tape).runner)
  {
    MoveTimes(l, c, roster, repeat, tape, now);
    LatestIs(Recorded(l, c, r, roster, repeat, tape).closed, r);
  }

  // ----- pairwise fairness -----

  /** Whenever `i` took part, so did `j`. */
  ghost predicate AlwaysWith(l: Ledger, i: UserId, j: UserId) {
    forall r :: r in l.closed && i in l.closed[r].crew ==> j in l.closed[r].crew
  }

  /** `i` is at most one run ahead of `j`, and not ahead at all when `j` has just run. */
  ghost predicate NotAhead(l: Ledger, c: ChannelId, i: UserId, j: UserId) {
    AlwaysWith(l, i, j) ==>
      && Count(l, c, i) <= Count(l, c, j) + 1
      && (LastRunner(l.closed) == Some(j) ==> Count(l, c, i) <= Count(l, c, j))
  }

  lemma NotAheadStep(
    l: Ledger, c: ChannelId, r: RunId, roster: seq<UserId>, repeat: bool, tape: Tape, now: Time, i: UserId, j: UserId)
    requires i != j && NotAhead(l, c, i, j) && ClosingsApart(l, now)
    requires roster != [] && r !in l.closed && tape.Ticking() && now < tape.Now()
    ensures NotAhead(Recorded(l, c, r, roster, repeat, tape), c, i, j)
  {
    var l', runner := Recorded(l, c, r, roster, repeat, tape), MoveOf(l, c, roster, repeat, tape).runner;
    if AlwaysWith(l', i, j) {
      assert AlwaysWith(l, i, j) by {
        forall q | q in l.closed && i in l.closed[q].crew ensures j in l.closed[q].crew {
          assert q in l'.closed && l'.closed[q] == l.closed[q];
        }
      }
      CountsMove(l, c, roster, repeat, tape, r, i);
      CountsMove(l, c, roster, repeat, tape, r, j);
      RunnerBecomesLast(l, c, r, roster, repeat, tape, now);
      if runner == i {
        MoveFacts(l, c, roster, repeat, tape);
        assert l'.closed[r].crew == Elems(roster);
        if j in Eligible(Elems(roster), LastRunner(l.closed), repeat) {
          RunnerServedLeast(l, c, roster, repeat, tape, j);
        }
      }
    }
  }

  // ----- no back-to-back runs -----

  /** `q` closed before `r`, and no other run closed between them. */
  ghost predicate Consecutive(l: Ledger, q: RunId, r: RunId)
    requires q in l.closed && r in l.closed
  {
    && l.closed[q].at < l.closed[r].at
    && forall x :: x in l.closed ==> !(l.closed[q].at < l.closed[x].at < l.closed[r].at)
  }

  /** Nobody runs twice in a row, unless the second close allowed it or nobody else took part. */
  ghost predicate NoBackToBack(l: Ledger, repeated: map<RunId, bool>) {
    forall q, r ::
      q in l.closed && r in l.closed && l.closed[q].runner == l.closed[r].runner && Consecutive(l, q, r) ==>
      (r in repeated && repeated[r]) || l.closed[r].crew == {l.closed[r].runner}
  }

  /** A run that closes right after one of the same runner was allowed to, or had no one else. */
  lemma RepeatExplained(
    l: Ledger, c: ChannelId, r: RunId, roster: seq<UserId>, repeat: bool, tape: Tape, now: Time, q: RunId)
    requires ClosingsApart(l, now) && roster != [] && r !in l.closed && tape.Ticking() && now < tape.Now()
    requires q in l.closed && l.closed[q].runner == MoveOf(l, c, roster, repeat, tape).runner
    requires Consecutive(Recorded(l, c, r, roster, repeat, tape), q, r)
    ensures repeat || Elems(roster) == {MoveOf(l, c, roster, repeat, tape).runner}
  {
    var l' := Recorded(l, c, r, roster, repeat, tape);
    MoveTimes(l, c, roster, repeat, tape, now);
    forall x | x in l.closed && x != q ensures l.closed[x].at < l.closed[q].at {
      assert x in l'.closed;
    }
    LatestIs(l.closed, q);
    MoveFacts(l, c, roster, repeat, tape);
    SoleMember(Elems(roster), l.closed[q].runner);
  }

  lemma ConsecutiveBefore(
    l: Ledger, c: ChannelId, r: RunId, roster: seq<UserId>, repeat: bool, tape: Tape, now: Time, x: RunId, y: RunId)
    requires ClosingsApart(l, now) && roster != [] && r !in l.closed && tape.Ticking() && now < tape.Now()
    requires var l' := Recorded(l, c, r, roster, repeat, tape);
      x in l'.closed && y in l'.closed && y != r && Consecutive(l', x, y)
    ensures x in l.closed && y in l.closed && Consecutive(l, x, y)
  {
    MoveTimes(l, c, roster, repeat, tape, now);
    var l' := Recorded(l, c, r, roster, repeat, tape);
    assert x != r;
    forall q | q in l.closed ensures !(l.closed[x].at < l.closed[q].at < l.closed[y].at) {
      assert q in l'.closed;
    }
  }

  lemma NoBackToBackStep(
    l: Ledger, c: ChannelId, r: RunId, roster: seq<UserId>, repeat: bool, tape: Tape, now: Time,
    repeated: map<RunId, bool>)
    requires NoBackToBack(l, repeated) && ClosingsApart(l, now)
    requires roster != [] && r !in l.closed && tape.Ticking() && now < tape.Now()
    ensures NoBackToBack(Recorded(l, c, r, roster, repeat, tape), repeated[r := repeat])
  {
    var l' := Recorded(l, c, r, roster, repeat, tape);
    forall x, y |
      x in l'.closed && y in l'.closed && l'.closed[x].runner == l'.closed[y].runner && Consecutive(l', x, y)
      ensures var flags := repeated[r := repeat];
        (y in flags && flags[y]) || l'.closed[y].crew == {l'.closed[y].runner}
    {
      if y == r {
        RepeatExplained(l, c, r, roster, repeat, tape, now, x);
      } else {
        ConsecutiveBefore(l, c, r, roster, repeat, tape, now, x, y);
      }
    }
  }

  lemma SoleMember(s: set<UserId>, u: UserId)
    requires u in s
    ensures |s| > 1 || s == {u}
  {
    assert s == {u} + (s - {u});
  }
}
