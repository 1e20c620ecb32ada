/** The tables hold what an observer of requests and replies would have written down: runs, channel settings,
    orders, remembered texts, and the log.
 */
module Contents {
  import opened Data
  import opened Ordering
  import opened Text
  import opened Orders
  import opened Runs
  import opened Machine
  import opened Integrity
  import Admin

  /** What a user wants in a run, or wanted until cancelling. */
  datatype Wish = Wish(id: RowId, text: string, final: bool, provenance: Provenance, active: bool)

  /** What a user last confirmed in a channel. */
  datatype Memo = Memo(id: RowId, text: string)

  datatype Abstract = Abstract(
    runs: map<RunId, Run>,
    channels: map<ChannelId, Channel>,
    wishes: map<OrderKey, Wish>,
    memos: map<Seat, Memo>,
    log: seq<AuditEntry>)

  function WishOf(order: Order): Wish {
    Wish(order.id, order.text, order.isFinal, order.provenance, order.canceledAt == None)
  }

  function Wishes(orders: map<OrderKey, Order>): map<OrderKey, Wish> {
    map k | k in orders :: WishOf(orders[k])
  }

  function Memos(preferences: map<Seat, Preference>): map<Seat, Memo> {
    map s | s in preferences :: Memo(preferences[s].id, preferences[s].lastOrderText)
  }

  function Alpha(db: Db): Abstract {
    Abstract(db.runs, db.channels, Wishes(db.orders), Memos(db.preferences), db.audit)
  }

  /** The users with an active order in the run. */
  function ActiveUsers(a: Abstract, r: RunId): set<UserId> {
    set k | k in a.wishes && k.run == r && a.wishes[k].active :: k.user
  }

  // ----- what an observer writes down -----

  /** The user now wants this; a row that is there keeps its id. */
  function Wanted(
    a: Abstract, k: OrderKey, newId: RowId, text: string, final: bool, provenance: Provenance): Abstract
  {
    var id := if k in a.wishes then a.wishes[k].id else newId;
    a.(wishes := a.wishes[k := Wish(id, text, final, provenance, true)])
  }

  function Kept(a: Abstract, s: Seat, newId: RowId, text: string): Abstract {
    a.(memos := a.memos[s := Memo(if s in a.memos then a.memos[s].id else newId, text)])
  }

  /** The run is closed, and what is wanted in it is final. */
  function Frozen(a: Abstract, r: RunId, runner: UserId, at: Time): Abstract
    requires r in a.runs
  {
    a.(
      runs := a.runs[r := a.runs[r].(status := Closed, runner := Some(runner), closedAt := Some(at), updatedAt := at)],
      wishes := map k | k in a.wishes ::
        if k.run == r && a.wishes[k].active then a.wishes[k].(final := true) else a.wishes[k])
  }

  /** Of the channel only its settings are left. */
  function Cleared(a: Abstract, c: ChannelId): Abstract {
    a.(
      runs := map r | r in a.runs && a.runs[r].channel != c :: a.runs[r],
      wishes := map k | k in a.wishes && !(k.run in a.runs && a.runs[k.run].channel == c) :: a.wishes[k],
      memos := map s | s in a.memos && s.channel != c :: a.memos[s])
  }

  /** A patch gives each field the value it names, if it names one. */
  function Patched(config: Config, p: Admin.Patch): Config {
    Config(
      p.reminderOffset.GetOr(config.reminderOffset),
      p.fairnessWindow.GetOr(config.fairnessWindow),
      p.retentionDays.GetOr(config.retentionDays),
      p.remindersEnabled.GetOr(config.remindersEnabled),
      p.lastCallEnabled.GetOr(config.lastCallEnabled),
      if p.lastCallLead.Some? then p.lastCallLead else config.lastCallLead)
  }

  const NOTHING := Admin.Patch(None, None, None, None, None, None)

  function Reason(given: Option<string>): string {
    if given == None || given == Some("") then "unspecified" else given.value
  }

  function Logged(a: Abstract, c: ChannelId, channel: Channel, admin: UserId, action: AuditAction): Abstract {
    a.(channels := a.channels[c := channel], log := a.log + [AuditEntry(c, admin, action)])
  }

  /** What a request of a member and its reply say. */
  function ObserveMember(a: Abstract, op: Op, now: Time, reply: Reply): Abstract {
    match op
    case StartRun(r, c, initiator, time, note) =>
      if reply.Started? then
        a.(runs := a.runs[r := Run(c, initiator, None, Open, time, note, now, None, now)])
      else
        a
    case SubmitOrder(k, d) =>
      if reply.Submitted? && k.run in a.runs then
        var wanted := Wanted(a, k, d.orderId, Strip(d.text), d.confirm, d.provenance);
        if d.confirm then
          Kept(wanted, Seat(a.runs[k.run].channel, k.user), d.preferenceId, Strip(d.text))
        else
          wanted
      else
        a
    case UseLastOrder(k, orderId, _) =>
      if reply.Reused? && k.run in a.runs && Seat(a.runs[k.run].channel, k.user) in a.memos then
        Wanted(a, k, orderId, a.memos[Seat(a.runs[k.run].channel, k.user)].text, true, FromPreference)
      else
        a
    case CancelOrder(k) =>
      if reply.Withdrawn? && k in a.wishes then a.(wishes := a.wishes[k := a.wishes[k].(active := false)]) else a
    case CloseRun(r, _, _) =>
      if reply.RunClosed? && r in a.runs then Frozen(a, r, reply.summary.runner, reply.summary.closedAt) else a
    case _ => a
  }

  /** What a request of an administrator and its reply say. */
  function ObserveAdmin(a: Abstract, op: Op, now: Time, reply: Reply): Abstract {
    match op
    case UpdateConfig(c, admin, patch) =>
      if reply.Configured? && c in a.channels && patch != NOTHING then
        var channel := a.channels[c].(config := Patched(a.channels[c].config, patch), updatedAt := now);
        Logged(a, c, channel, admin, ConfigUpdated(reply.settings))
      else
        a
    case SetEnabled(c, admin, enabled, reason) =>
      if reply.EnabledSet? && c in a.channels then
        var previous := a.channels[c].enabled;
        Logged(a, c, a.channels[c].(enabled := enabled, updatedAt := now), admin,
               Toggled(enabled, Reason(reason), previous, previous != enabled))
      else
        a
    case ResetChannel(c, admin) =>
      if reply.Purged? && c in a.channels then
        Logged(Cleared(a, c), c, a.channels[c].(lastResetAt := Some(now), updatedAt := now), admin,
               DataReset(reply.counts))
      else
        a
    case _ => a
  }

  function Observe(a: Abstract, op: Op, now: Time, reply: Reply): Abstract {
    if op.UpdateConfig? || op.SetEnabled? || op.ResetChannel? then
      ObserveAdmin(a, op, now, reply)
    else
      ObserveMember(a, op, now, reply)
  }

  // ----- every step refines -----

  lemma WishesWrite(orders: map<OrderKey, Order>, k: OrderKey, order: Order)
    ensures Wishes(orders[k := order]) == Wishes(orders)[k := WishOf(order)]
  {
  }

  lemma MemosWrite(preferences: map<Seat, Preference>, s: Seat, preference: Preference)
    ensures Memos(preferences[s := preference])
         == Memos(preferences)[s := Memo(preference.id, preference.lastOrderText)]
  {
  }

  lemma SubmitRefines(p: Policy, db: Db, k: OrderKey, d: Draft, tape: Tape)
    ensures var o := Submit(p, db, k, d, tape);
      Alpha(o.db) == ObserveMember(Alpha(db), SubmitOrder(k, d), tape.Now(), o.reply)
  {
    var o := Submit(p, db, k, d, tape);
    if o.reply.Submitted? {
      WishesWrite(db.orders, k, o.db.orders[k]);
      if d.confirm {
        var seat := Seat(db.runs[k.run].channel, k.user);
        MemosWrite(db.preferences, seat, o.db.preferences[seat]);
      }
    }
  }

  /** Reusing an order writes the remembered text twice and thereby leaves it as it was. */
  lemma ReuseKeepsMemo(preferences: map<Seat, Preference>, s: Seat, id: RowId, now: Time, used: Time)
    requires s in preferences
    ensures var written := preferences[s := UpsertedPreference(preferences, s, preferences[s].lastOrderText, id, now)];
      Memos(written[s := written[s].(lastUsedAt := used, updatedAt := used)]) == Memos(preferences)
  {
  }

  lemma UseLastRefines(p: Policy, db: Db, k: OrderKey, orderId: RowId, preferenceId: RowId, tape: Tape)
    requires PreferencesValid(p, db)
    ensures var o := UseLast(p, db, k, orderId, preferenceId, tape);
      Alpha(o.db) == ObserveMember(Alpha(db), UseLastOrder(k, orderId, preferenceId), tape.Now(), o.reply)
  {
    var o := UseLast(p, db, k, orderId, preferenceId, tape);
    if o.reply.Reused? {
      var seat := Seat(db.runs[k.run].channel, k.user);
      WishesWrite(db.orders, k, o.db.orders[k]);
      ReuseKeepsMemo(db.preferences, seat, preferenceId, tape.Next().Now(), tape.Next().Next().Now());
    }
  }

  lemma CancelRefines(db: Db, k: OrderKey, tape: Tape)
    ensures var o := Cancel(db, k, tape);
      Alpha(o.db) == ObserveMember(Alpha(db), CancelOrder(k), tape.Now(), o.reply)
  {
    var o := Cancel(db, k, tape);
    if o.reply.Withdrawn? {
      WishesWrite(db.orders, k, o.db.orders[k]);
    }
  }

  lemma FinalizedWishes(db: Db, r: RunId, runner: UserId, now: Time)
    requires Referenced(db) && r in db.runs
    ensures Wishes(Finalized(db.orders, r, Participants(db.users, db.orders, r), now))
         == Frozen(Alpha(db), r, runner, now).wishes
  {
    forall k | k in db.orders && k.run == r
      ensures k.user in Participants(db.users, db.orders, r) <==> db.orders[k].canceledAt == None
    {
      assert k == OrderKey(r, k.user);
    }
  }

  lemma SettleRefines(db: Db, r: RunId, repeat: bool, tape: Tape)
    requires r in db.runs && db.runs[r].channel in db.channels && RunRoster(db, r) != [] && Referenced(db)
    requires Settle(db, r, repeat, tape).reply.RunClosed?
    ensures var o := Settle(db, r, repeat, tape);
      Alpha(o.db) == Frozen(Alpha(db), r, o.reply.summary.runner, o.reply.summary.closedAt)
  {
    var o := Settle(db, r, repeat, tape);
    RosterOrdered(db, r);
    FinalizedWishes(db, r, o.reply.summary.runner, o.reply.summary.closedAt);
  }

  lemma CloseRefines(p: Policy, db: Db, r: RunId, actor: UserId, repeat: bool, tape: Tape)
    requires Referenced(db)
    ensures var o := Close(p, db, r, actor, repeat, tape);
      if o.reply.RunClosed? then
        r in db.runs && Alpha(o.db) == Frozen(Alpha(db), r, o.reply.summary.runner, o.reply.summary.closedAt)
      else
        o.db == db
  {
    var o := Close(p, db, r, actor, repeat, tape);
    if o.reply.RunClosed? {
      assert o == Settle(db, r, repeat, tape);
      SettleRefines(db, r, repeat, tape);
    } else {
      RejectionChangesNothing(p, db, CloseRun(r, actor, repeat), tape);
    }
  }

  lemma MemberRefines(p: Policy, db: Db, op: Op, tape: Tape)
    requires PreferencesValid(p, db) && Referenced(db)
    requires !(op.UpdateConfig? || op.SetEnabled? || op.ResetChannel?)
    ensures var o := Step(p, db, op, tape); Alpha(o.db) == ObserveMember(Alpha(db), op, tape.Now(), o.reply)
  {
    match op
    case SubmitOrder(k, d) => SubmitRefines(p, db, k, d, tape);
    case UseLastOrder(k, orderId, preferenceId) => UseLastRefines(p, db, k, orderId, preferenceId, tape);
    case CancelOrder(k) => CancelRefines(db, k, tape);
    case CloseRun(r, actor, repeat) => CloseRefines(p, db, r, actor, repeat, tape);
    case StartRun(_, _, _, _, _) =>
  }

  lemma PurgeRefines(db: Db, c: ChannelId)
    ensures Alpha(Admin.Purge(db, c)) == Cleared(Alpha(db), c)
  {
    var after, clear := Admin.Purge(db, c), Cleared(Alpha(db), c);
    assert after.runs == clear.runs;
    assert Wishes(after.orders) == clear.wishes;
    assert Memos(after.preferences) == clear.memos;
  }

  lemma SetNext(config: Config, settings: seq<Setting>, s: Setting)
    ensures Admin.SetAll(config, settings + [s]) == Admin.Set(Admin.SetAll(config, settings), s)
  {
    assert (settings + [s])[..|settings|] == settings;
  }

  lemma PatchedNumbers(config: Config, p: Admin.Patch)
    ensures Admin.SetAll(config, Admin.NumberSettings(p)) == config.(
      reminderOffset := p.reminderOffset.GetOr(config.reminderOffset),
      fairnessWindow := p.fairnessWindow.GetOr(config.fairnessWindow),
      retentionDays := p.retentionDays.GetOr(config.retentionDays))
  {
    var a := if p.reminderOffset.Some? then [ReminderOffset(p.reminderOffset.value)] else [];
    var b := if p.fairnessWindow.Some? then a + [FairnessWindow(p.fairnessWindow.value)] else a;
    if p.fairnessWindow.Some? { SetNext(config, a, FairnessWindow(p.fairnessWindow.value)); }
    if p.retentionDays.Some? { SetNext(config, b, RetentionDays(p.retentionDays.value)); }
  }

  /** Applying the settings of a patch one by one gives each of the six fields the patched value where there is
      one, and keeps the others. */
  lemma PatchedConfig(config: Config, p: Admin.Patch)
    ensures Admin.SetAll(config, Admin.SettingsOf(p)) == Patched(config, p)
  {
    PatchedNumbers(config, p);
    var d := Admin.NumberSettings(p);
    var e := if p.remindersEnabled.Some? then d + [RemindersEnabled(p.remindersEnabled.value)] else d;
    var f := if p.lastCallEnabled.Some? then e + [LastCallEnabled(p.lastCallEnabled.value)] else e;
    if p.remindersEnabled.Some? { SetNext(config, d, RemindersEnabled(p.remindersEnabled.value)); }
    if p.lastCallEnabled.Some? { SetNext(config, e, LastCallEnabled(p.lastCallEnabled.value)); }
    if p.lastCallLead.Some? { SetNext(config, f, LastCallLead(p.lastCallLead.value)); }
  }

  lemma ConfigRefines(p: Policy, db: Db, c: ChannelId, admin: UserId, patch: Admin.Patch, tape: Tape)
    ensures var o := Admin.UpdateConfig(p, db, c, admin, patch, tape);
      Alpha(o.db) == ObserveAdmin(Alpha(db), UpdateConfig(c, admin, patch), tape.Now(), o.reply)
  {
    if c in db.channels { PatchedConfig(db.channels[c].config, patch); }
  }

  lemma SwitchRefines(
    p: Policy, db: Db, c: ChannelId, admin: UserId, enabled: bool, reason: Option<string>, tape: Tape)
    ensures var o := Admin.SetEnabled(p, db, c, admin, enabled, reason, tape);
      Alpha(o.db) == ObserveAdmin(Alpha(db), SetEnabled(c, admin, enabled, reason), tape.Now(), o.reply)
  {
  }

  lemma ResetRefines(p: Policy, db: Db, c: ChannelId, admin: UserId, tape: Tape)
    ensures var o := Admin.Reset(p, db, c, admin, tape);
      Alpha(o.db) == ObserveAdmin(Alpha(db), ResetChannel(c, admin), tape.Now(), o.reply)
  {
    PurgeRefines(db, c);
  }

  /** Every step changes runs, channels, orders, remembered texts and log exactly as its request, its first clock
      reading and its reply say. */
  lemma StepRefines(p: Policy, db: Db, op: Op, tape: Tape)
    requires PreferencesValid(p, db) && Referenced(db)
    ensures var o := Step(p, db, op, tape); Alpha(o.db) == Observe(Alpha(db), op, tape.Now(), o.reply)
  {
    match op
    case UpdateConfig(c, admin, patch) => ConfigRefines(p, db, c, admin, patch, tape);
    case SetEnabled(c, admin, enabled, reason) => SwitchRefines(p, db, c, admin, enabled, reason, tape);
    case ResetChannel(c, admin) => ResetRefines(p, db, c, admin, tape);
    case _ => MemberRefines(p, db, op, tape);
  }

  // ----- over whole histories -----

  /** What an observer of the first n requests and replies has written down, knowing the channels at the start. */
  function Observed(t: Trace, n: nat): Abstract
    requires Shaped(t) && n <= |t.events|
  {
    if n == 0 then
      Abstract(map[], t.worlds[0].db.channels, map[], map[], [])
    else
      var e := t.events[n - 1];
      Observe(Observed(t, n - 1), e.op, e.tape.Now(), t.replies[n - 1])
  }

  /** The tables at world i are as observed. */
  ghost predicate AsObserved(t: Trace, i: nat)
    requires Shaped(t) && i < |t.worlds|
  {
    Alpha(t.worlds[i].db) == Observed(t, i)
  }

  lemma ContentsAt(p: Policy, t: Trace, i: nat)
    requires IsHistory(p, t) && i < |t.events| && AsObserved(t, i)
    requires PreferencesValid(p, t.worlds[i].db) && Referenced(t.worlds[i].db)
    ensures AsObserved(t, i + 1)
  {
    assert MovesAt(p, t, i);
    StepRefines(p, t.worlds[i].db, t.events[i].op, t.events[i].tape);
  }

  lemma {:induction false} AlwaysAsObserved(p: Policy, t: Trace, n: nat)
    requires IsFullHistory(p, t) && n < |t.worlds|
    ensures AsObserved(t, n)
  {
    for i := 0 to n
      invariant AsObserved(t, i)
    {
      AlwaysValid(p, t, i);
      AlwaysReferenced(p, t, i);
      ContentsAt(p, t, i);
    }
  }

  /** In every reachable state the tables of runs, channels, orders and preferences (but for the time stamps of the
      last two) and the log are what requests and replies say. */
  lemma ContentsHistory(p: Policy, t: Trace, n: nat)
    requires IsFullHistory(p, t) && n < |t.worlds|
    ensures Alpha(t.worlds[n].db) == Observed(t, n)
  {
    AlwaysAsObserved(p, t, n);
  }
}
