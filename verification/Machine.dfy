/** The whole application as a state machine: requests, steps, and runs of many steps. */
module Machine {
  import opened Data
  import opened Fairness
  import opened Orders
  import opened Runs
  import Admin

  datatype Op =
    | StartRun(run: RunId, channel: ChannelId, initiator: UserId, pickupTime: Option<Time>, pickupNote: Option<string>)
    | SubmitOrder(key: OrderKey, draft: Draft)
    | UseLastOrder(key: OrderKey, orderId: RowId, preferenceId: RowId)
    | CancelOrder(key: OrderKey)
    | CloseRun(run: RunId, actor: UserId, repeat: bool)
    | UpdateConfig(channel: ChannelId, actor: UserId, patch: Admin.Patch)
    | SetEnabled(channel: ChannelId, actor: UserId, enabled: bool, reason: Option<string>)
    | ResetChannel(channel: ChannelId, actor: UserId)

  /** Insert an open run, subject to the primary and foreign keys of the runs table. */
  function Start(db: Db, op: Op, tape: Tape): Outcome
    requires op.StartRun?
  {
    if op.run in db.runs || op.channel !in db.channels || op.initiator !in db.users then
      Outcome(db, Rejected(ConstraintViolated), tape)
    else
      var run := Run(op.channel, op.initiator, None, Open, op.pickupTime, op.pickupNote, tape.Now(), None, tape.Now());
      Outcome(db.(runs := db.runs[op.run := run]), Started, tape.Next())
  }

  ghost function Step(p: Policy, db: Db, op: Op, tape: Tape): Outcome {
    match op
    case StartRun(_, _, _, _, _) => Start(db, op, tape)
    case SubmitOrder(k, d) => Submit(p, db, k, d, tape)
    case UseLastOrder(k, orderId, preferenceId) => UseLast(p, db, k, orderId, preferenceId, tape)
    case CancelOrder(k) => Cancel(db, k, tape)
    case CloseRun(r, actor, repeat) => Close(p, db, r, actor, repeat, tape)
    case UpdateConfig(c, actor, patch) => Admin.UpdateConfig(p, db, c, actor, patch, tape)
    case SetEnabled(c, actor, enabled, reason) => Admin.SetEnabled(p, db, c, actor, enabled, reason, tape)
    case ResetChannel(c, actor) => Admin.Reset(p, db, c, actor, tape)
  }

  /** A request that raises leaves the store as it was, without any rollback. */
  lemma RejectionChangesNothing(p: Policy, db: Db, op: Op, tape: Tape)
    ensures var o := Step(p, db, op, tape); o.reply.Rejected? ==> o.db == db
  {
    if op.CloseRun? && op.run in db.runs && db.runs[op.run].channel in db.channels && RunRoster(db, op.run) != [] {
      RunnerTakesPart(db, op.run, op.repeat, tape);
    }
  }

  lemma TapeMovesOn(p: Policy, db: Db, op: Op, tape: Tape)
    ensures var o := Step(p, db, op, tape); o.tape.reading == tape.reading && o.tape.pos >= tape.pos
  {
    if op.CloseRun? && op.run in db.runs && db.runs[op.run].channel in db.channels && RunRoster(db, op.run) != [] {
      RunnerTakesPart(db, op.run, op.repeat, tape);
      EnrolFacts(db.stats, db.runs[op.run].channel, RunRoster(db, op.run), tape);
    }
  }

  /** A request together with the clock readings available to it. */
  datatype Event = Event(op: Op, tape: Tape)

  /** The store, the latest clock reading used so far, and the repeat flag of each close. */
  datatype World = World(db: Db, now: Time, repeated: map<RunId, bool>)

  /** The world after an event. */
  ghost function Advance(p: Policy, w: World, e: Event): World {
    var o := Step(p, w.db, e.op, e.tape);
    World(
      o.db,
      if o.tape.pos > e.tape.pos then o.tape.reading(o.tape.pos - 1) else w.now,
      if e.op.CloseRun? && o.reply.RunClosed? then w.repeated[e.op.run := e.op.repeat] else w.repeated)
  }

  /** Worlds, the events between them, and the replies given. */
  datatype Trace = Trace(worlds: seq<World>, events: seq<Event>, replies: seq<Reply>)

  ghost predicate Moves(p: Policy, w: World, e: Event, reply: Reply, next: World) {
    next == Advance(p, w, e) && reply == Step(p, w.db, e.op, e.tape).reply
  }

  ghost predicate Shaped(t: Trace) {
    |t.worlds| == |t.events| + 1 && |t.replies| == |t.events|
  }

  ghost predicate MovesAt(p: Policy, t: Trace, i: nat)
    requires Shaped(t) && i < |t.events|
  {
    Moves(p, t.worlds[i], t.events[i], t.replies[i], t.worlds[i + 1])
  }

  /** A history: each world follows from the one before it by one event. */
  ghost predicate IsHistory(p: Policy, t: Trace) {
    Shaped(t) && forall i :: 0 <= i < |t.events| ==> MovesAt(p, t, i)
  }

  ghost predicate OnClock(t: Trace, i: nat)
    requires Shaped(t) && i < |t.events|
  {
    t.events[i].tape.Ticking() && t.worlds[i].now < t.events[i].tape.Now()
  }

  /** The clock advances at every reading, within an event and from one event to the next. */
  ghost predicate Timely(t: Trace) {
    Shaped(t) && forall i :: 0 <= i < |t.events| ==> OnClock(t, i)
  }

  /** Users and channels are set up; nothing has happened yet. */
  ghost predicate Pristine(w: World) {
    w.db.runs == map[] && w.db.orders == map[] && w.db.preferences == map[] && w.db.stats == map[] && w.db.audit == []
  }

  /** A history from the very beginning. */
  ghost predicate IsFullHistory(p: Policy, t: Trace) {
    IsHistory(p, t) && Pristine(t.worlds[0])
  }

  lemma UsersKept(p: Policy, db: Db, op: Op, tape: Tape)
    ensures Step(p, db, op, tape).db.users == db.users
  {
    if op.CloseRun? {
      CloseFrame(p, db, op.run, op.actor, op.repeat, tape);
    }
  }

  lemma {:induction false} UsersStay(p: Policy, t: Trace, n: nat)
    requires IsHistory(p, t) && n < |t.worlds|
    ensures t.worlds[n].db.users == t.worlds[0].db.users
  {
    for i := 0 to n
      invariant t.worlds[i].db.users == t.worlds[0].db.users
    {
      assert MovesAt(p, t, i);
      UsersKept(p, t.worlds[i].db, t.events[i].op, t.events[i].tape);
    }
  }
}
