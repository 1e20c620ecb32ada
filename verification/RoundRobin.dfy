/** With a fixed crew the greedy choice is a rotation: the crew forms a FIFO queue in
    listing order, each close takes its head, and the head goes to the back.
 */
module RoundRobin {
  import opened Data
  import opened Fairness
  import opened Runs
  import opened History
  import opened Index
  import opened Turns

  // ----- positions -----

  /** The place in a crew of n of the k-th turn. */
  function Slot(k: nat, n: nat): (slot: nat)
    requires n > 0
    ensures slot < n
  {
    if k < n then k else Slot(k - n, n)
  }

  /** How many of the first t turns fall to member k of a crew of n. */
  function Quota(t: nat, n: nat, k: nat): nat
    requires n > 0
  {
    if t < n then (if k < t then 1 else 0) else 1 + Quota(t - n, n, k)
  }

  /** Turns less than n apart fall to different places, turns n apart to the same. */
  lemma {:induction false} SlotsApart(k: nat, d: nat, n: nat)
    requires 0 < d <= n
    ensures Slot(k + d, n) == Slot(k, n) <==> d == n
    decreases k
  {
    if k >= n {
      SlotsApart(k - n, d, n);
    }
  }

  lemma {:induction false} QuotaStep(t: nat, n: nat, k: nat)
    requires k < n
    ensures Quota(t + 1, n, k) == Quota(t, n, k) + if k == Slot(t, n) then 1 else 0
    decreases t
  {
    if t >= n {
      QuotaStep(t - n, n, k);
    }
  }

  /** Nobody's quota is more than one above the quota of the one whose turn it is. */
  lemma {:induction false} QuotaLeast(t: nat, n: nat, k: nat)
    requires k < n
    ensures Quota(t, n, k) <= Quota(t, n, Slot(t, n)) + 1
    decreases t
  {
    if t >= n {
      QuotaLeast(t - n, n, k);
    }
  }

  lemma DivisionIsUnique(a: int, n: int, q: int, r: int)
    requires n > 0 && a == n * q + r && 0 <= r < n
    ensures a / n == q && a % n == r
  {
    var d := a / n - q;
    assert n * d == r - a % n by {
      assert a == n * (a / n) + a % n;
      assert n * (a / n - q) == n * (a / n) - n * q;
    }
    assert d >= 1 ==> n * d >= n;
    assert d <= -1 ==> n * d <= -n;
  }

  lemma NextRound(t: nat, n: nat)
    requires n > 0
    ensures (t + n) / n == t / n + 1 && (t + n) % n == t % n
  {
    var q, r := t / n, t % n;
    assert n * (q + 1) == n * q + n;
    DivisionIsUnique(t + n, n, q + 1, r);
  }

  /** In closed form: turn t falls to place t mod n, and the quota is t div n, plus one for the first t mod n. */
  lemma {:induction false} SlotsAndQuotas(t: nat, n: nat, k: nat)
    requires k < n
    ensures Slot(t, n) == t % n
    ensures Quota(t, n, k) == t / n + if k < t % n then 1 else 0
    decreases t
  {
    if t < n {
      DivisionIsUnique(t, n, 0, t);
    } else {
      SlotsAndQuotas(t - n, n, k);
      NextRound(t - n, n);
    }
  }

  /** The crew in a queue whose head moves to the back at each turn. */
  function Queue(order: seq<UserId>, t: nat): (queue: seq<UserId>)
    requires order != []
    ensures |queue| == |order|
  {
    if t == 0 then
      order
    else
      var before := Queue(order, t - 1);
      before[1..] + [before[0]]
  }

  /** Whose turn the k-th run is. */
  function Turn(order: seq<UserId>, k: nat): UserId
    requires order != []
  {
    order[Slot(k, |order|)]
  }

  /** The queue lists whose turn it is next, after that, and so on. */
  lemma {:induction false} QueueLists(order: seq<UserId>, t: nat, i: nat)
    requires i < |order|
    ensures Queue(order, t)[i] == Turn(order, t + i)
    decreases t
  {
    if t > 0 {
      QueueLists(order, t - 1, if i < |order| - 1 then i + 1 else 0);
    }
  }

  lemma {:induction false} QueueElems(order: seq<UserId>, t: nat)
    requires order != []
    ensures Elems(Queue(order, t)) == Elems(order)
    decreases t
  {
    if t > 0 {
      var before := Queue(order, t - 1);
      QueueElems(order, t - 1);
      assert before == [before[0]] + before[1..];
      assert Elems(before) == {before[0]} + Elems(before[1..]) == Elems(before[1..] + [before[0]]);
    }
  }

  lemma {:induction false} QueueDistinct(order: seq<UserId>, t: nat)
    requires order != [] && Distinct(order)
    ensures Distinct(Queue(order, t))
    decreases t
  {
    if t > 0 {
      QueueDistinct(order, t - 1);
    }
  }

  // ----- the invariant -----

  function Earlier(l: Ledger, r: RunId): set<RunId>
    requires r in l.closed
  {
    set q | q in l.closed && l.closed[q].at < l.closed[r].at
  }

  /** How many runs of the channel closed before this one. */
  function Rank(l: Ledger, r: RunId): nat
    requires r in l.closed
  {
    |Earlier(l, r)|
  }

  ghost predicate FixedCrew(l: Ledger, crew: set<UserId>) {
    forall r :: r in l.closed ==> l.closed[r].crew == crew
  }

  ghost predicate TakesTurns(l: Ledger, order: seq<UserId>)
    requires order != []
  {
    forall r :: r in l.closed ==> l.closed[r].runner == Turn(order, Rank(l, r))
  }

  ghost predicate InKeyOrder(stats: Stats, c: ChannelId, queue: seq<UserId>)
    requires Enrolled(stats, c, Elems(queue))
  {
    forall i, j :: 0 <= i < j < |queue| ==>
      KeyLess(stats[Seat(c, queue[i])], queue[i], stats[Seat(c, queue[j])], queue[j])
  }

  ghost predicate MeetsQuota(stats: Stats, c: ChannelId, order: seq<UserId>, t: nat)
    requires order != [] && Enrolled(stats, c, Elems(order))
  {
    forall k :: 0 <= k < |order| ==> stats[Seat(c, order[k])].served == Quota(t, |order|, k)
  }

  /** After t runs the keys put the crew in queue order and everybody has met the quota. */
  ghost predicate Queued(stats: Stats, c: ChannelId, order: seq<UserId>, t: nat)
    requires order != []
  {
    && Enrolled(stats, c, Elems(order)) && Enrolled(stats, c, Elems(Queue(order, t)))
    && InKeyOrder(stats, c, Queue(order, t))
    && MeetsQuota(stats, c, order, t)
  }

  ghost predicate Rotates(l: Ledger, c: ChannelId, order: seq<UserId>)
    requires order != []
  {
    var t := |l.closed|;
    FixedCrew(l, Elems(order)) ==>
      && TakesTurns(l, order)
      && (t > 0 ==> Queued(l.stats, c, order, t) && LastRunner(l.closed) == Some(Turn(order, t - 1)))
  }

  lemma FreshRow(c: ChannelId, order: seq<UserId>, tape: Tape, u: UserId)
    requires u in order
    ensures var stats := Enrol(map[], c, order, tape).stats;
      Seat(c, u) in stats && stats[Seat(c, u)].served == 0 && stats[Seat(c, u)].lastRunAt == None
  {
    EnrolFacts(map[], c, order, tape);
    assert u in Elems(order);
  }

  /** Before the first close nobody has a row, and enrolment creates them in listing order. */
  lemma FirstQueue(c: ChannelId, order: seq<UserId>, tape: Tape)
    requires order != [] && Distinct(order) && tape.Ticking()
    ensures Queued(Enrol(map[], c, order, tape).stats, c, order, 0)
  {
    var stats := Enrol(map[], c, order, tape).stats;
    forall u | u in Elems(order) ensures Seat(c, u) in stats {
      FreshRow(c, order, tape, u);
    }
    forall k | 0 <= k < |order| ensures stats[Seat(c, order[k])].served == Quota(0, |order|, k) {
      FreshRow(c, order, tape, order[k]);
    }
    forall i, j | 0 <= i < j < |order|
      ensures KeyLess(stats[Seat(c, order[i])], order[i], stats[Seat(c, order[j])], order[j])
    {
      FreshRow(c, order, tape, order[i]);
      FreshRow(c, order, tape, order[j]);
      EnrolInOrder(map[], c, order, tape, i, j);
    }
  }

  /** The one who ran last is at the back of the queue. */
  lemma LastIsBack(order: seq<UserId>, t: nat)
    requires order != [] && t > 0
    ensures Queue(order, t)[|order| - 1] == Turn(order, t - 1)
  {
    QueueLists(order, t - 1, 0);
  }

  /** The least key is at the head of the queue, and setting the last runner aside does not change that. */
  lemma HeadIsLeast(stats: Stats, c: ChannelId, order: seq<UserId>, t: nat, last: Option<UserId>, repeat: bool)
    requires order != [] && Distinct(order) && Queued(stats, c, order, t)
    requires last == if t == 0 then None else Some(Turn(order, t - 1))
    ensures var e := Eligible(Elems(order), last, repeat);
      && Enrolled(stats, c, e)
      && IsLeast(stats, c, e, Queue(order, t)[0])
  {
    var queue := Queue(order, t);
    var head, e := queue[0], Eligible(Elems(order), last, repeat);
    QueueElems(order, t);
    QueueDistinct(order, t);
    DistinctSize(queue);
    if Excludes(Elems(order), last, repeat) {
      LastIsBack(order, t);
      assert queue[0] != queue[|order| - 1];
    }
    forall u | u in e && u != head ensures KeyLess(stats[Seat(c, head)], head, stats[Seat(c, u)], u) {
      assert u in Elems(queue);
      var i :| 0 <= i < |queue| && queue[i] == u;
    }
  }

  predicate LastRunsBefore(earlier: Stat, row: Stat) {
    row.lastRunAt.Some? && (earlier.lastRunAt.Some? ==> earlier.lastRunAt.value < row.lastRunAt.value)
  }

  /** Charging the head keeps everybody at the quota. */
  lemma QuotaMoves(stats: Stats, charged: Stats, c: ChannelId, order: seq<UserId>, t: nat, row: Stat)
    requires order != [] && Distinct(order) && Enrolled(stats, c, Elems(order)) && MeetsQuota(stats, c, order, t)
    requires var head := Seat(c, Turn(order, t));
      head in stats && charged == stats[head := row] && row.served == stats[head].served + 1
    ensures Enrolled(charged, c, Elems(order)) && MeetsQuota(charged, c, order, t + 1)
  {
    var n := |order|;
    forall k | 0 <= k < n ensures charged[Seat(c, order[k])].served == Quota(t + 1, n, k) {
      QuotaStep(t, n, k);
      assert stats[Seat(c, order[k])].served == Quota(t, n, k);
    }
  }

  /** Nobody in the crew is more than one run ahead of the head of the queue. */
  lemma HeadServedLeast(stats: Stats, c: ChannelId, order: seq<UserId>, t: nat, u: UserId)
    requires order != [] && u in order && Enrolled(stats, c, Elems(order)) && MeetsQuota(stats, c, order, t)
    ensures Seat(c, Queue(order, t)[0]) in stats && Seat(c, u) in stats
    ensures stats[Seat(c, u)].served <= stats[Seat(c, Queue(order, t)[0])].served + 1
  {
    var n := |order|;
    var k :| 0 <= k < n && order[k] == u;
    QueueLists(order, t, 0);
    QuotaLeast(t, n, k);
    assert u in Elems(order) && order[Slot(t, n)] in Elems(order);
    assert stats[Seat(c, order[Slot(t, n)])].served == Quota(t, n, Slot(t, n));
    assert stats[Seat(c, order[k])].served == Quota(t, n, k);
  }

  /** Charging the head keeps the keys in queue order, one turn later. */
  lemma KeysMove(stats: Stats, charged: Stats, c: ChannelId, order: seq<UserId>, t: nat, row: Stat)
    requires order != [] && Distinct(order) && Queued(stats, c, order, t)
    requires var head := Seat(c, Queue(order, t)[0]);
      head in stats && charged == stats[head := row] && row.served == stats[head].served + 1
    requires forall s :: s in stats ==>
      (stats[s].lastRunAt.None? ==> stats[s].served <= 0) && LastRunsBefore(stats[s], row)
    ensures Enrolled(charged, c, Elems(Queue(order, t + 1))) && InKeyOrder(charged, c, Queue(order, t + 1))
  {
    var queue, next, n := Queue(order, t), Queue(order, t + 1), |order|;
    QueueElems(order, t);
    QueueElems(order, t + 1);
    QueueDistinct(order, t);
    assert next == queue[1..] + [queue[0]];
    forall i, j | 0 <= i < j < n
      ensures KeyLess(charged[Seat(c, next[i])], next[i], charged[Seat(c, next[j])], next[j])
    {
      assert next[i] == queue[i + 1] && queue[i + 1] != queue[0];
      if j < n - 1 {
        assert next[j] == queue[j + 1] && queue[j + 1] != queue[0];
      } else {
        assert next[j] == queue[0];
        assert queue[i + 1] in Elems(queue);
        assert row.served > 0 by {
          QueueLists(order, t, 0);
          assert queue[0] == order[Slot(t, n)];
        }
        HeadServedLeast(stats, c, order, t, queue[i + 1]);
      }
    }
  }

  lemma ChargedQueue(stats: Stats, charged: Stats, c: ChannelId, order: seq<UserId>, t: nat, row: Stat)
    requires order != [] && Distinct(order) && Queued(stats, c, order, t)
    requires var head := Seat(c, Queue(order, t)[0]);
      && head in stats
      && charged == stats[head := row]
      && row.served == stats[head].served + 1
    requires forall s :: s in stats ==>
      (stats[s].lastRunAt.None? ==> stats[s].served <= 0) && LastRunsBefore(stats[s], row)
    ensures Queued(charged, c, order, t + 1)
  {
    QueueLists(order, t, 0);
    QuotaMoves(stats, charged, c, order, t, row);
    KeysMove(stats, charged, c, order, t, row);
  }

  // ----- one close -----

  /** Whoever the crew, once it is enrolled it stands in queue order. */
  lemma CrewQueued(l: Ledger, c: ChannelId, order: seq<UserId>, tape: Tape, now: Time)
    requires order != [] && Distinct(order) && tape.Ticking()
    requires Sound(l, c, now) && Rotates(l, c, order) && FixedCrew(l, Elems(order))
    ensures Queued(Enrol(l.stats, c, order, tape).stats, c, order, |l.closed|)
  {
    if l.closed == map[] {
      forall s ensures s !in l.stats {
        assert s in l.stats ==> TookPart(l, s.user);
      }
      assert l.stats == map[];
      FirstQueue(c, order, tape);
    } else {
      EnrolPresent(l.stats, c, order, tape);
    }
  }

  lemma LastInQueue(l: Ledger, c: ChannelId, order: seq<UserId>)
    requires order != [] && Rotates(l, c, order) && FixedCrew(l, Elems(order))
    ensures LastRunner(l.closed) == if |l.closed| == 0 then None else Some(Turn(order, |l.closed| - 1))
  {
    if |l.closed| == 0 {
      assert Times(l.closed) == map[];
    }
  }

  /** The greedy choice is the head of the queue, whether or not repeating is allowed. */
  lemma HeadRuns(l: Ledger, c: ChannelId, order: seq<UserId>, repeat: bool, tape: Tape, now: Time)
    requires order != [] && Distinct(order) && tape.Ticking()
    requires Sound(l, c, now) && Rotates(l, c, order) && FixedCrew(l, Elems(order))
    ensures MoveOf(l, c, order, repeat, tape).runner == Queue(order, |l.closed|)[0] == Turn(order, |l.closed|)
    ensures Queued(MoveOf(l, c, order, repeat, tape).enrolled, c, order, |l.closed|)
  {
    var t, last := |l.closed|, LastRunner(l.closed);
    var m := MoveOf(l, c, order, repeat, tape);
    UniqueIsDistinct(order);
    CrewQueued(l, c, order, tape, now);
    LastInQueue(l, c, order);
    HeadIsLeast(m.enrolled, c, order, t, last, repeat);
    MoveFacts(l, c, order, repeat, tape);
    var e := Eligible(Elems(order), last, repeat);
    LeastIsUnique(m.enrolled, m.enrolled, c, e, m.runner);
    LeastIsUnique(m.enrolled, m.enrolled, c, e, Queue(order, t)[0]);
    QueueLists(order, t, 0);
  }

  /** Nobody who had a row before the close ran later than its runner does. */
  lemma RowsBefore(l: Ledger, c: ChannelId, order: seq<UserId>, repeat: bool, tape: Tape, now: Time)
    requires order != [] && tape.Ticking() && now < tape.Now() && RowsSound(l, c, now)
    ensures var m := MoveOf(l, c, order, repeat, tape);
      && Seat(c, m.runner) in m.enrolled
      && var row := m.enrolled[Seat(c, m.runner)].(
        served := m.enrolled[Seat(c, m.runner)].served + 1, lastRunAt := Some(m.ranAt), updatedAt := m.ranAt);
      && m.charged == m.enrolled[Seat(c, m.runner) := row]
      && forall s :: s in m.enrolled ==>
        (m.enrolled[s].lastRunAt.None? ==> m.enrolled[s].served <= 0) && LastRunsBefore(m.enrolled[s], row)
  {
    MoveFacts(l, c, order, repeat, tape);
    MoveTimes(l, c, order, repeat, tape, now);
  }

  lemma HeadCharged(l: Ledger, c: ChannelId, order: seq<UserId>, repeat: bool, tape: Tape, now: Time, t: nat)
    requires order != [] && Distinct(order) && tape.Ticking() && now < tape.Now() && RowsSound(l, c, now)
    requires Queued(MoveOf(l, c, order, repeat, tape).enrolled, c, order, t)
    requires MoveOf(l, c, order, repeat, tape).runner == Queue(order, t)[0]
    ensures Queued(MoveOf(l, c, order, repeat, tape).charged, c, order, t + 1)
  {
    var m := MoveOf(l, c, order, repeat, tape);
    RowsBefore(l, c, order, repeat, tape, now);
    ChargedQueue(m.enrolled, m.charged, c, order, t, m.charged[Seat(c, m.runner)]);
  }

  lemma QueueMoves(l: Ledger, c: ChannelId, r: RunId, order: seq<UserId>, repeat: bool, tape: Tape, now: Time)
    requires order != [] && Distinct(order) && tape.Ticking() && now < tape.Now()
    requires Sound(l, c, now) && Rotates(l, c, order) && FixedCrew(l, Elems(order))
    ensures Queued(Recorded(l, c, r, order, repeat, tape).stats, c, order, |l.closed| + 1)
  {
    HeadRuns(l, c, order, repeat, tape, now);
    HeadCharged(l, c, order, repeat, tape, now, |l.closed|);
  }

  lemma RanksMove(
    l: Ledger, c: ChannelId, r: RunId, roster: seq<UserId>, repeat: bool, tape: Tape, now: Time, q: RunId)
    requires ClosingsApart(l, now) && roster != [] && r !in l.closed && tape.Ticking() && now < tape.Now()
    requires q == r || q in l.closed
    ensures var l' := Recorded(l, c, r, roster, repeat, tape);
      && q in l'.closed
      && Rank(l', q) == if q == r then |l.closed| else Rank(l, q)
  {
    MoveTimes(l, c, roster, repeat, tape, now);
    var l' := Recorded(l, c, r, roster, repeat, tape);
    if q == r {
      assert Earlier(l', r) == l.closed.Keys;
    } else {
      assert Earlier(l', q) == Earlier(l, q);
    }
  }

  lemma TurnMoves(
    l: Ledger, c: ChannelId, r: RunId, order: seq<UserId>, repeat: bool, tape: Tape, now: Time, q: RunId)
    requires order != [] && Distinct(order) && tape.Ticking() && now < tape.Now() && r !in l.closed
    requires Sound(l, c, now) && Rotates(l, c, order) && FixedCrew(l, Elems(order))
    requires q == r || q in l.closed
    ensures var l' := Recorded(l, c, r, order, repeat, tape);
      q in l'.closed && l'.closed[q].runner == Turn(order, Rank(l', q))
  {
    RanksMove(l, c, r, order, repeat, tape, now, q);
    if q == r {
      HeadRuns(l, c, order, repeat, tape, now);
    }
  }

  lemma TurnsMove(l: Ledger, c: ChannelId, r: RunId, order: seq<UserId>, repeat: bool, tape: Tape, now: Time)
    requires order != [] && Distinct(order) && tape.Ticking() && now < tape.Now() && r !in l.closed
    requires Sound(l, c, now) && Rotates(l, c, order) && FixedCrew(l, Elems(order))
    ensures TakesTurns(Recorded(l, c, r, order, repeat, tape), order)
  {
    forall q | q in Recorded(l, c, r, order, repeat, tape).closed
      ensures var l' := Recorded(l, c, r, order, repeat, tape);
        l'.closed[q].runner == Turn(order, Rank(l', q))
    {
      TurnMoves(l, c, r, order, repeat, tape, now, q);
    }
  }

  lemma RotatesStep(
    l: Ledger, c: ChannelId, r: RunId, roster: seq<UserId>, repeat: bool, tape: Tape, now: Time, order: seq<UserId>)
    requires Sound(l, c, now) && order != [] && Distinct(order) && Rotates(l, c, order)
    requires roster != [] && (Elems(roster) == Elems(order) ==> roster == order)
    requires r !in l.closed && tape.Ticking() && now < tape.Now()
    ensures Rotates(Recorded(l, c, r, roster, repeat, tape), c, order)
  {
    var l' := Recorded(l, c, r, roster, repeat, tape);
    if FixedCrew(l', Elems(order)) {
      assert l'.closed[r].crew == Elems(roster);
      assert FixedCrew(l, Elems(order)) by {
        forall q | q in l.closed ensures l.closed[q].crew == Elems(order) {
          assert q in l'.closed && l'.closed[q] == l.closed[q];
        }
      }
      QueueMoves(l, c, r, order, repeat, tape, now);
      TurnsMove(l, c, r, order, repeat, tape, now);
      RunnerBecomesLast(l, c, r, order, repeat, tape, now);
      HeadRuns(l, c, order, repeat, tape, now);
      assert |l'.closed| == |l.closed| + 1;
    }
  }

  lemma EmptyRotates(c: ChannelId, order: seq<UserId>)
    requires order != []
    ensures Rotates(EMPTY, c, order)
  {
  }

  // ----- what turns mean -----

  /** Turns n apart fall to the same member, and turns less than n apart to different ones. */
  lemma RoundsRepeat(order: seq<UserId>, a: nat, b: nat)
    requires order != [] && Distinct(order)
    ensures b == a + |order| ==> Turn(order, b) == Turn(order, a)
    ensures a < b < a + |order| ==> Turn(order, b) != Turn(order, a)
  {
    if a < b <= a + |order| {
      SlotsApart(a, b - a, |order|);
    }
  }
}
