/** Order capture: submit, reuse the last order, cancel. */
module Orders {
  import opened Data
  import opened Text

  // ----- the specification -----

  /** The uncancelled order rows of a run. */
  function ActiveKeys(orders: map<OrderKey, Order>, r: RunId): set<OrderKey> {
    set k | k in orders && k.run == r && orders[k].canceledAt == None
  }

  function CountActive(orders: map<OrderKey, Order>, r: RunId): nat {
    |ActiveKeys(orders, r)|
  }

  datatype Draft = Draft(text: string, confirm: bool, provenance: Provenance, orderId: RowId, preferenceId: RowId)

  function UpsertedOrder(orders: map<OrderKey, Order>, k: OrderKey, d: Draft, now: Time): Order {
    if k in orders then
      orders[k].(text := d.text, isFinal := d.confirm, provenance := d.provenance, canceledAt := None, updatedAt := now)
    else
      Order(d.orderId, d.text, d.confirm, d.provenance, None, now, now)
  }

  function UpsertedPreference(
    preferences: map<Seat, Preference>, s: Seat, text: string, id: RowId, now: Time): Preference
  {
    if s in preferences then
      preferences[s].(lastOrderText := text, lastUsedAt := now, updatedAt := now)
    else
      Preference(id, text, now, now, now)
  }

  function Persist(db: Db, k: OrderKey, d: Draft, tape: Tape): Outcome
    requires k.run in db.runs
  {
    var order := UpsertedOrder(db.orders, k, d, tape.Now());
    var orders := db.orders[k := order];
    var seat := Seat(db.runs[k.run].channel, k.user);
    var reply := Submitted(Submission(order.id, CountActive(orders, k.run), d.text, d.provenance, d.confirm));
    if d.confirm then
      var preference := UpsertedPreference(db.preferences, seat, d.text, d.preferenceId, tape.Next().Now());
      Outcome(db.(orders := orders, preferences := db.preferences[seat := preference]), reply, tape.Next().Next())
    else
      Outcome(db.(orders := orders), reply, tape.Next())
  }

  function Submit(p: Policy, db: Db, k: OrderKey, d: Draft, tape: Tape): Outcome {
    if k.run !in db.runs then
      Outcome(db, Rejected(RunNotFound), tape)
    else if db.runs[k.run].status != Open then
      Outcome(db, Rejected(RunNotOpen), tape)
    else if k.user !in db.users then
      Outcome(db, Rejected(UserNotFound), tape)
    else
      match Validate(p.maxLength, d.text)
      case None => Outcome(db, Rejected(OrderInvalid), tape)
      case Some(normalized) => Persist(db, k, d.(text := normalized), tape)
  }

  function UseLast(p: Policy, db: Db, k: OrderKey, orderId: RowId, preferenceId: RowId, tape: Tape): Outcome {
    if k.run !in db.runs then
      Outcome(db, Rejected(RunNotFound), tape)
    else if db.runs[k.run].status != Open then
      Outcome(db, Rejected(RunNotOpen), tape)
    else if k.user !in db.users then
      Outcome(db, Rejected(UserNotFound), tape)
    else
      var seat := Seat(db.runs[k.run].channel, k.user);
      if seat !in db.preferences then
        Outcome(db, Rejected(PreferenceNotFound), tape)
      else
        match Validate(p.maxLength, db.preferences[seat].lastOrderText)
        case None => Outcome(db, Rejected(OrderInvalid), tape)
        case Some(normalized) =>
          var o := Persist(db, k, Draft(normalized, true, FromPreference, orderId, preferenceId), tape);
          var used := o.tape.Now();
          var marked := o.db.preferences[seat].(lastUsedAt := used, updatedAt := used);
          Outcome(
            o.db.(preferences := o.db.preferences[seat := marked]),
            Reused(marked.id, o.reply.submission),
            o.tape.Next())
  }

  function Cancel(db: Db, k: OrderKey, tape: Tape): Outcome {
    if k.run !in db.runs then
      Outcome(db, Rejected(RunNotFound), tape)
    else if db.runs[k.run].status != Open then
      Outcome(db, Rejected(RunNotOpen), tape)
    else if k.user !in db.users then
      Outcome(db, Rejected(UserNotFound), tape)
    else if k !in db.orders || db.orders[k].canceledAt != None then
      Outcome(db, Rejected(OrderNotFound), tape)
    else
      var orders := db.orders[k := db.orders[k].(canceledAt := Some(tape.Now()), updatedAt := tape.Now())];
      Outcome(db.(orders := orders), Withdrawn(orders[k].id, CountActive(orders, k.run)), tape.Next())
  }

  /** The store changed at most in the order `k` of an open run and in that user's preference. */
  ghost predicate TouchesOnly(db: Db, after: Db, k: OrderKey) {
    && k.run in db.runs && db.runs[k.run].status == Open && k.user in db.users
    && k in after.orders
    && var seat := Seat(db.runs[k.run].channel, k.user);
    && after.orders == db.orders[k := after.orders[k]]
    && (after.preferences == db.preferences
        || (seat in after.preferences && after.preferences == db.preferences[seat := after.preferences[seat]]))
    && after == db.(orders := after.orders, preferences := after.preferences)
  }

  lemma SubmitTouches(p: Policy, db: Db, k: OrderKey, d: Draft, tape: Tape)
    ensures var o := Submit(p, db, k, d, tape); o.reply.Rejected? || TouchesOnly(db, o.db, k)
  {
  }

  lemma UseLastTouches(p: Policy, db: Db, k: OrderKey, orderId: RowId, preferenceId: RowId, tape: Tape)
    ensures var o := UseLast(p, db, k, orderId, preferenceId, tape); o.reply.Rejected? || TouchesOnly(db, o.db, k)
  {
  }

  lemma CancelTouches(db: Db, k: OrderKey, tape: Tape)
    ensures var o := Cancel(db, k, tape); o.reply.Rejected? || TouchesOnly(db, o.db, k)
  {
  }

  // ----- the services -----

  class OrderRepository {
    const session: Session
    const clock: Clock

    constructor (session: Session, clock: Clock)
      ensures this.session == session && this.clock == clock
    {
      this.session := session;
      this.clock := clock;
    }

    method UpsertOrder(k: OrderKey, d: Draft) returns (order: Order)
      modifies session, clock
      ensures order == UpsertedOrder(old(session.orders), k, d, old(clock.Rest()).Now())
      ensures session.Snapshot() == old(session.Snapshot()).(orders := old(session.orders)[k := order])
      ensures clock.Rest() == old(clock.Rest()).Next()
    {
      var now := clock.Now();
      if k in session.orders {
        order := session.orders[k];
        order := order.(text := d.text);
        order := order.(isFinal := d.confirm);
        order := order.(provenance := d.provenance);
        order := order.(canceledAt := None);
        order := order.(updatedAt := now);
      } else {
        order := Order(d.orderId, d.text, d.confirm, d.provenance, None, now, now);
      }
      session.orders := session.orders[k := order];
    }

    method CancelOrder(k: OrderKey)
      requires k in session.orders
      modifies session, clock
      ensures var now := old(clock.Rest()).Now();
        session.Snapshot() == old(session.Snapshot()).(
          orders := old(session.orders)[k := old(session.orders)[k].(canceledAt := Some(now), updatedAt := now)])
      ensures clock.Rest() == old(clock.Rest()).Next()
    {
      var now := clock.Now();
      session.orders := session.orders[k := session.orders[k].(canceledAt := Some(now), updatedAt := now)];
    }

    method CountActiveOrders(r: RunId) returns (count: nat)
      ensures count == CountActive(session.orders, r)
    {
      count := 0;
      var rest := session.orders.Keys;
      ghost var counted: set<OrderKey> := {};
      while rest != {}
        invariant rest <= session.orders.Keys
        invariant counted == ActiveKeys(session.orders, r) - rest
        invariant count == |counted|
        decreases rest
      {
        var k :| k in rest;
        rest := rest - {k};
        if k.run == r && session.orders[k].canceledAt == None {
          count := count + 1;
          counted := counted + {k};
        }
      }
      assert counted == ActiveKeys(session.orders, r);
    }
  }

  class PreferenceService {
    const session: Session
    const clock: Clock

    constructor (session: Session, clock: Clock)
      ensures this.session == session && this.clock == clock
    {
      this.session := session;
      this.clock := clock;
    }

    method GetPreference(s: Seat) returns (preference: Option<Preference>)
      ensures preference == if s in session.preferences then Some(session.preferences[s]) else None
    {
      preference := if s in session.preferences then Some(session.preferences[s]) else None;
    }

    method SetPreference(s: Seat, text: string, id: RowId)
      modifies session, clock
      ensures session.Snapshot() == old(session.Snapshot()).(preferences := old(session.preferences)[s :=
        UpsertedPreference(old(session.preferences), s, text, id, old(clock.Rest()).Now())])
      ensures clock.Rest() == old(clock.Rest()).Next()
    {
      var existing := GetPreference(s);
      var now := clock.Now();
      var preference;
      if existing.Some? {
        preference := existing.value.(lastOrderText := text, lastUsedAt := now, updatedAt := now);
      } else {
        preference := Preference(id, text, now, now, now);
      }
      session.preferences := session.preferences[s := preference];
    }

    method MarkUsed(s: Seat)
      requires s in session.preferences
      modifies session, clock
      ensures var now := old(clock.Rest()).Now();
        session.Snapshot() == old(session.Snapshot()).(
          preferences := old(session.preferences)[s :=
            old(session.preferences)[s].(lastUsedAt := now, updatedAt := now)])
      ensures clock.Rest() == old(clock.Rest()).Next()
    {
      var now := clock.Now();
      session.preferences := session.preferences[s := session.preferences[s].(lastUsedAt := now)];
      var used := session.preferences[s];
      session.preferences := session.preferences[s := used.(updatedAt := used.lastUsedAt)];
    }
  }

  class OrderService {
    const session: Session
    const clock: Clock
    const policy: Policy
    const orders: OrderRepository
    const preferences: PreferenceService

    ghost predicate Wired() {
      orders.session == preferences.session == session && orders.clock == preferences.clock == clock
    }

    constructor (session: Session, clock: Clock, policy: Policy)
      ensures Wired() && this.session == session && this.clock == clock && this.policy == policy
    {
      this.session := session;
      this.clock := clock;
      this.policy := policy;
      orders := new OrderRepository(session, clock);
      preferences := new PreferenceService(session, clock);
    }

    method GetOpenRun(r: RunId) returns (error: Option<Error>)
      ensures error ==
        if r !in session.runs then Some(RunNotFound)
        else if session.runs[r].status != Open then Some(RunNotOpen)
        else None
    {
      if r !in session.runs {
        return Some(RunNotFound);
      }
      if session.runs[r].status != Open {
        return Some(RunNotOpen);
      }
      return None;
    }

    method PersistOrder(k: OrderKey, d: Draft) returns (reply: Reply)
      requires Wired() && k.run in session.runs
      modifies session, clock
      ensures Persist(old(session.Snapshot()), k, d, old(clock.Rest()))
           == Outcome(session.Snapshot(), reply, clock.Rest())
    {
      var order := orders.UpsertOrder(k, d);
      var preferenceUpdated := false;
      if d.confirm {
        preferences.SetPreference(Seat(session.runs[k.run].channel, k.user), order.text, d.preferenceId);
        preferenceUpdated := true;
      }
      var count := orders.CountActiveOrders(k.run);
      reply := Submitted(Submission(order.id, count, order.text, d.provenance, preferenceUpdated));
    }

    method SubmitOrder(k: OrderKey, d: Draft) returns (reply: Reply)
      requires Wired()
      modifies session, clock
      ensures Submit(policy, old(session.Snapshot()), k, d, old(clock.Rest()))
           == Outcome(session.Snapshot(), reply, clock.Rest())
    {
      var error := GetOpenRun(k.run);
      if error.Some? {
        return Rejected(error.value);
      }
      if k.user !in session.users {
        return Rejected(UserNotFound);
      }
      var normalized := Validate(policy.maxLength, d.text);
      if normalized.None? {
        return Rejected(OrderInvalid);
      }
      reply := PersistOrder(k, d.(text := normalized.value));
    }

    method UseLastOrder(k: OrderKey, orderId: RowId, preferenceId: RowId) returns (reply: Reply)
      requires Wired()
      modifies session, clock
      ensures UseLast(policy, old(session.Snapshot()), k, orderId, preferenceId, old(clock.Rest()))
           == Outcome(session.Snapshot(), reply, clock.Rest())
    {
      var error := GetOpenRun(k.run);
      if error.Some? {
        return Rejected(error.value);
      }
      if k.user !in session.users {
        return Rejected(UserNotFound);
      }
      var seat := Seat(session.runs[k.run].channel, k.user);
      var preference := preferences.GetPreference(seat);
      if preference.None? {
        return Rejected(PreferenceNotFound);
      }
      var normalized := Validate(policy.maxLength, preference.value.lastOrderText);
      if normalized.None? {
        return Rejected(OrderInvalid);
      }
      reply := PersistOrder(k, Draft(normalized.value, true, FromPreference, orderId, preferenceId));
      preferences.MarkUsed(seat);
      reply := Reused(preference.value.id, reply.submission);
    }

    method CancelOrder(k: OrderKey) returns (reply: Reply)
      requires Wired()
      modifies session, clock
      ensures Cancel(old(session.Snapshot()), k, old(clock.Rest())) == Outcome(session.Snapshot(), reply, clock.Rest())
    {
      var error := GetOpenRun(k.run);
      if error.Some? {
        return Rejected(error.value);
      }
      if k.user !in session.users {
        return Rejected(UserNotFound);
      }
      if k !in session.orders || session.orders[k].canceledAt != None {
        return Rejected(OrderNotFound);
      }
      orders.CancelOrder(k);
      var count := orders.CountActiveOrders(k.run);
      reply := Withdrawn(session.orders[k].id, count);
    }
  }
}
