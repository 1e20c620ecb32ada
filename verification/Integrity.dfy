/** What every reachable state of the tables satisfies: foreign keys, valid remembered texts, and time stamps. */
module Integrity {
  import opened Data
  import opened Text
  import opened Fairness
  import opened Orders
  import opened Runs
  import opened Machine
  import Admin

  // ----- foreign keys -----

  /** Orders belong to existing runs and to existing users: the foreign keys of the orders table. */
  ghost predicate Referenced(db: Db) {
    Admin.NoOrphans(db.orders, db.runs) && forall k :: k in db.orders ==> k.user in db.users
  }

  lemma SettleReferenced(db: Db, r: RunId, repeat: bool, tape: Tape)
    requires r in db.runs && db.runs[r].channel in db.channels && RunRoster(db, r) != [] && Referenced(db)
    ensures Referenced(Settle(db, r, repeat, tape).db)
  {
  }

  lemma CloseReferenced(p: Policy, db: Db, r: RunId, actor: UserId, repeat: bool, tape: Tape)
    requires Referenced(db)
    ensures Referenced(Close(p, db, r, actor, repeat, tape).db)
  {
    if r in db.runs && db.runs[r].channel in db.channels && RunRoster(db, r) != [] {
      SettleReferenced(db, r, repeat, tape);
    }
  }

  lemma ReferencedStep(p: Policy, db: Db, op: Op, tape: Tape)
    requires Referenced(db)
    ensures Referenced(Step(p, db, op, tape).db)
  {
    match op
    case SubmitOrder(k, d) => SubmitTouches(p, db, k, d, tape);
    case UseLastOrder(k, orderId, preferenceId) => UseLastTouches(p, db, k, orderId, preferenceId, tape);
    case CancelOrder(k) => CancelTouches(db, k, tape);
    case CloseRun(r, actor, repeat) => CloseReferenced(p, db, r, actor, repeat, tape);
    case _ =>
  }

  lemma {:induction false} AlwaysReferenced(p: Policy, t: Trace, n: nat)
    requires IsHistory(p, t) && n < |t.worlds| && Referenced(t.worlds[0].db)
    ensures Referenced(t.worlds[n].db)
  {
    for i := 0 to n
      invariant Referenced(t.worlds[i].db)
    {
      assert MovesAt(p, t, i);
      ReferencedStep(p, t.worlds[i].db, t.events[i].op, t.events[i].tape);
    }
  }

  /** Runs belong to existing channels and were started by existing users: the foreign keys of the runs table. */
  ghost predicate Housed(db: Db) {
    forall r :: r in db.runs ==> db.runs[r].channel in db.channels && db.runs[r].initiator in db.users
  }

  lemma SettleHoused(db: Db, r: RunId, repeat: bool, tape: Tape)
    requires r in db.runs && db.runs[r].channel in db.channels && RunRoster(db, r) != [] && Housed(db)
    ensures Housed(Settle(db, r, repeat, tape).db)
  {
  }

  lemma CloseHoused(p: Policy, db: Db, r: RunId, actor: UserId, repeat: bool, tape: Tape)
    requires Housed(db)
    ensures Housed(Close(p, db, r, actor, repeat, tape).db)
  {
    if r in db.runs && db.runs[r].channel in db.channels && RunRoster(db, r) != [] {
      SettleHoused(db, r, repeat, tape);
    }
  }

  lemma HousedStep(p: Policy, db: Db, op: Op, tape: Tape)
    requires Housed(db)
    ensures Housed(Step(p, db, op, tape).db)
  {
    match op
    case SubmitOrder(k, d) => SubmitTouches(p, db, k, d, tape);
    case UseLastOrder(k, orderId, preferenceId) => UseLastTouches(p, db, k, orderId, preferenceId, tape);
    case CancelOrder(k) => CancelTouches(db, k, tape);
    case CloseRun(r, actor, repeat) => CloseHoused(p, db, r, actor, repeat, tape);
    case _ =>
  }

  lemma {:induction false} AlwaysHoused(p: Policy, t: Trace, n: nat)
    requires IsHistory(p, t) && n < |t.worlds| && Housed(t.worlds[0].db)
    ensures Housed(t.worlds[n].db)
  {
    for i := 0 to n
      invariant Housed(t.worlds[i].db)
    {
      assert MovesAt(p, t, i);
      HousedStep(p, t.worlds[i].db, t.events[i].op, t.events[i].tape);
    }
  }

  // ----- remembered texts -----

  /** Every remembered text is one the validator returns unchanged. */
  ghost predicate PreferencesValid(p: Policy, db: Db) {
    forall s :: s in db.preferences ==>
      Validate(p.maxLength, db.preferences[s].lastOrderText) == Some(db.preferences[s].lastOrderText)
  }

  lemma SubmitKeepsValid(p: Policy, db: Db, k: OrderKey, d: Draft, tape: Tape)
    requires PreferencesValid(p, db)
    ensures PreferencesValid(p, Submit(p, db, k, d, tape).db)
  {
    if Validate(p.maxLength, d.text).Some? {
      ValidatedIsFixed(p.maxLength, d.text);
    }
  }

  lemma UseLastKeepsValid(p: Policy, db: Db, k: OrderKey, orderId: RowId, preferenceId: RowId, tape: Tape)
    requires PreferencesValid(p, db)
    ensures PreferencesValid(p, UseLast(p, db, k, orderId, preferenceId, tape).db)
  {
  }

  lemma PreferencesValidStep(p: Policy, db: Db, op: Op, tape: Tape)
    requires PreferencesValid(p, db)
    ensures PreferencesValid(p, Step(p, db, op, tape).db)
  {
    match op
    case SubmitOrder(k, d) => SubmitKeepsValid(p, db, k, d, tape);
    case UseLastOrder(k, orderId, preferenceId) => UseLastKeepsValid(p, db, k, orderId, preferenceId, tape);
    case _ =>
  }

  lemma {:induction false} AlwaysValid(p: Policy, t: Trace, n: nat)
    requires IsFullHistory(p, t) && n < |t.worlds|
    ensures PreferencesValid(p, t.worlds[n].db)
  {
    for i := 0 to n
      invariant PreferencesValid(p, t.worlds[i].db)
    {
      assert MovesAt(p, t, i);
      PreferencesValidStep(p, t.worlds[i].db, t.events[i].op, t.events[i].tape);
    }
  }
}
