/** Which requests are accepted, which error the others get, and what the replies say: all of it is foretold by
    the earlier requests and replies.
 */
module Answers {
  import opened Data
  import opened Ordering
  import opened Text
  import opened Orders
  import opened Runs
  import opened Machine
  import opened Integrity
  import opened Contents
  import opened Counts
  import Admin

  // ----- when a request is refused -----

  predicate IsOpen(a: Abstract, r: RunId) {
    r in a.runs && a.runs[r].status == Open
  }

  /** The order belongs to an open run and a known user. */
  predicate Orderable(users: map<UserId, User>, a: Abstract, k: OrderKey) {
    IsOpen(a, k.run) && k.user in users
  }

  /** Why no order request can name this run and user. */
  predicate OrderRefused(users: map<UserId, User>, a: Abstract, k: OrderKey, e: Error) {
    || (e == RunNotFound && k.run !in a.runs)
    || (e == RunNotOpen && k.run in a.runs && !IsOpen(a, k.run))
    || (e == UserNotFound && IsOpen(a, k.run) && k.user !in users)
  }

  ghost predicate Unacceptable(text: string, maxLength: int) {
    Blank(text) || |Strip(text)| > maxLength
  }

  predicate AdminRefused(p: Policy, a: Abstract, c: ChannelId, actor: UserId, e: Error) {
    || (e == ChannelNotFound && c !in a.channels)
    || (e == Unauthorized && c in a.channels && !p.mayAdminister(actor))
  }

  /** The patch asks for this setting. */
  predicate Names(patch: Admin.Patch, s: Setting) {
    match s
    case ReminderOffset(n) => patch.reminderOffset == Some(n)
    case FairnessWindow(n) => patch.fairnessWindow == Some(n)
    case RetentionDays(n) => patch.retentionDays == Some(n)
    case RemindersEnabled(on) => patch.remindersEnabled == Some(on)
    case LastCallEnabled(on) => patch.lastCallEnabled == Some(on)
    case LastCallLead(n) => patch.lastCallLead == Some(n)
  }

  predicate Fits(s: Setting) {
    match s
    case ReminderOffset(n) => 1 <= n <= 60
    case FairnessWindow(n) => 1 <= n <= 50
    case RetentionDays(n) => 30 <= n <= 365
    case LastCallLead(n) => 1 <= n <= 30
    case _ => true
  }

  /** A value is out of its range, or last call would be switched on without a lead time. */
  ghost predicate Unfit(config: Config, patch: Admin.Patch) {
    || (exists s :: Names(patch, s) && !Fits(s))
    || (Names(patch, LastCallEnabled(true)) && Patched(config, patch).lastCallLead == None)
  }

  /** Request `op` gets error `e`. */
  ghost predicate Refused(p: Policy, users: map<UserId, User>, a: Abstract, op: Op, e: Error) {
    match op
    case StartRun(r, c, initiator, _, _) =>
      e == ConstraintViolated && (r in a.runs || c !in a.channels || initiator !in users)
    case SubmitOrder(k, d) =>
      || OrderRefused(users, a, k, e)
      || (e == OrderInvalid && Orderable(users, a, k) && Unacceptable(d.text, p.maxLength))
    case UseLastOrder(k, _, _) =>
      || OrderRefused(users, a, k, e)
      || (e == PreferenceNotFound && Orderable(users, a, k) && Seat(a.runs[k.run].channel, k.user) !in a.memos)
    case CancelOrder(k) =>
      || OrderRefused(users, a, k, e)
      || (e == OrderNotFound && Orderable(users, a, k) && k.user !in ActiveUsers(a, k.run))
    case CloseRun(r, actor, _) =>
      || (e == RunNotFound && r !in a.runs)
      || (e == RunNotOpen && r in a.runs && !IsOpen(a, r))
      || (e == Unauthorized && IsOpen(a, r) && !p.mayClose(a.runs[r], actor))
      || (e == NoRunner && IsOpen(a, r) && p.mayClose(a.runs[r], actor) && ActiveUsers(a, r) == {})
    case UpdateConfig(c, actor, patch) =>
      || AdminRefused(p, a, c, actor, e)
      || (e == ConfigInvalid && c in a.channels && p.mayAdminister(actor) && Unfit(a.channels[c].config, patch))
    case SetEnabled(c, actor, _, _) => AdminRefused(p, a, c, actor, e)
    case ResetChannel(c, actor) => AdminRefused(p, a, c, actor, e)
  }

  lemma SubmitRefused(p: Policy, db: Db, k: OrderKey, d: Draft, tape: Tape, e: Error)
    ensures Submit(p, db, k, d, tape).reply == Rejected(e) <==> Refused(p, db.users, Alpha(db), SubmitOrder(k, d), e)
  {
    ValidateAccepts(p.maxLength, d.text);
  }

  lemma UseLastRefused(
    p: Policy, db: Db, k: OrderKey, orderId: RowId, preferenceId: RowId, tape: Tape, e: Error)
    requires PreferencesValid(p, db)
    ensures UseLast(p, db, k, orderId, preferenceId, tape).reply == Rejected(e)
      <==> Refused(p, db.users, Alpha(db), UseLastOrder(k, orderId, preferenceId), e)
  {
  }

  lemma CancelRefused(p: Policy, db: Db, k: OrderKey, tape: Tape, e: Error)
    ensures Cancel(db, k, tape).reply == Rejected(e) <==> Refused(p, db.users, Alpha(db), CancelOrder(k), e)
  {
    ActiveUserHasKey(db, k);
  }

  /** Somebody takes part exactly when somebody has an active order. */
  lemma NobodyActive(db: Db, r: RunId)
    requires Referenced(db)
    ensures RunRoster(db, r) == [] <==> ActiveUsers(Alpha(db), r) == {}
  {
    ParticipantsCounted(db, r);
    CountIsUsers(db, r);
  }

  lemma SettleCloses(db: Db, r: RunId, repeat: bool, tape: Tape)
    requires r in db.runs && db.runs[r].channel in db.channels && RunRoster(db, r) != []
    ensures Settle(db, r, repeat, tape).reply.RunClosed?
  {
    RunnerTakesPart(db, r, repeat, tape);
  }

  /** Closing works exactly on an open run with participants, for an actor who may close it. */
  lemma CloseWorks(p: Policy, db: Db, r: RunId, actor: UserId, repeat: bool, tape: Tape)
    requires Housed(db)
    ensures var reply := Close(p, db, r, actor, repeat, tape).reply;
      if r !in db.runs then reply == Rejected(RunNotFound)
      else if db.runs[r].status != Open then reply == Rejected(RunNotOpen)
      else if !p.mayClose(db.runs[r], actor) then reply == Rejected(Unauthorized)
      else if RunRoster(db, r) == [] then reply == Rejected(NoRunner)
      else reply.RunClosed?
  {
    if r in db.runs && RunRoster(db, r) != [] {
      SettleCloses(db, r, repeat, tape);
    }
  }

  lemma CloseRefused(p: Policy, db: Db, r: RunId, actor: UserId, repeat: bool, tape: Tape, e: Error)
    requires Referenced(db) && Housed(db)
    ensures Close(p, db, r, actor, repeat, tape).reply == Rejected(e)
      <==> Refused(p, db.users, Alpha(db), CloseRun(r, actor, repeat), e)
  {
    CloseWorks(p, db, r, actor, repeat, tape);
    NobodyActive(db, r);
    var reply := Close(p, db, r, actor, repeat, tape).reply;
    assert Alpha(db).runs == db.runs;
  }

  lemma PatchFits(config: Config, patch: Admin.Patch, channel: Channel)
    requires channel.config == config
    ensures Admin.PatchValid(channel, patch) <==> !Unfit(config, patch)
  {
    if !Admin.Allowed(patch.reminderOffset, 1, 60) {
      assert Names(patch, ReminderOffset(patch.reminderOffset.value));
    }
    if !Admin.Allowed(patch.fairnessWindow, 1, 50) {
      assert Names(patch, FairnessWindow(patch.fairnessWindow.value));
    }
    if !Admin.Allowed(patch.retentionDays, 30, 365) {
      assert Names(patch, RetentionDays(patch.retentionDays.value));
    }
    if !Admin.Allowed(patch.lastCallLead, 1, 30) {
      assert Names(patch, LastCallLead(patch.lastCallLead.value));
    }
  }

  lemma AdminRefusals(p: Policy, db: Db, op: Op, tape: Tape, e: Error)
    requires op.UpdateConfig? || op.SetEnabled? || op.ResetChannel?
    ensures Step(p, db, op, tape).reply == Rejected(e) <==> Refused(p, db.users, Alpha(db), op, e)
  {
    if op.UpdateConfig? && op.channel in db.channels {
      PatchFits(db.channels[op.channel].config, op.patch, db.channels[op.channel]);
    }
  }

  lemma RefusedInState(p: Policy, db: Db, op: Op, tape: Tape, e: Error)
    requires PreferencesValid(p, db) && Referenced(db) && Housed(db)
    ensures Step(p, db, op, tape).reply == Rejected(e) <==> Refused(p, db.users, Alpha(db), op, e)
  {
    match op
    case SubmitOrder(k, d) => SubmitRefused(p, db, k, d, tape, e);
    case UseLastOrder(k, orderId, preferenceId) => UseLastRefused(p, db, k, orderId, preferenceId, tape, e);
    case CancelOrder(k) => CancelRefused(p, db, k, tape, e);
    case CloseRun(r, actor, repeat) => CloseRefused(p, db, r, actor, repeat, tape, e);
    case StartRun(_, _, _, _, _) =>
    case _ => AdminRefusals(p, db, op, tape, e);
  }

  lemma SoundWorld(p: Policy, t: Trace, n: nat)
    requires IsFullHistory(p, t) && n < |t.worlds|
    ensures PreferencesValid(p, t.worlds[n].db) && Referenced(t.worlds[n].db) && Housed(t.worlds[n].db)
    ensures t.worlds[n].db.users == t.worlds[0].db.users && Alpha(t.worlds[n].db) == Observed(t, n)
  {
    AlwaysValid(p, t, n);
    AlwaysReferenced(p, t, n);
    AlwaysHoused(p, t, n);
    UsersStay(p, t, n);
    ContentsHistory(p, t, n);
  }

  /** In every history, a request gets error `e` exactly when, by the requests and replies before it, the ground
      for `e` is there; where there is no ground for any error, it is accepted. */
  lemma RefusalsHistory(p: Policy, t: Trace, n: nat, e: Error)
    requires IsFullHistory(p, t) && n < |t.events|
    ensures t.replies[n] == Rejected(e)
      <==> Refused(p, t.worlds[0].db.users, Observed(t, n), t.events[n].op, e)
  {
    SoundWorld(p, t, n);
    assert MovesAt(p, t, n);
    RefusedInState(p, t.worlds[n].db, t.events[n].op, t.events[n].tape, e);
  }

  // ----- what an accepted request is told -----

  /** The submission reported for order `k`, with the state after it. */
  ghost predicate Reports(
    after: Abstract, k: OrderKey, s: Submission, text: string, provenance: Provenance, confirmed: bool)
  {
    && k in after.wishes && s.orderId == after.wishes[k].id
    && s.participantCount == |ActiveUsers(after, k.run)|
    && s.text == text && s.provenance == provenance && s.preferenceUpdated == confirmed
  }

  /** The summary of a close, read from the state before it: all fields but runner, lines and closing time. */
  predicate Summarizes(a: Abstract, r: RunId, s: Summary) {
    && s.run == r && r in a.runs && a.runs[r].channel in a.channels
    && s.channel == a.runs[r].channel
    && s.pickupTime == a.runs[r].pickupTime && s.pickupNote == a.runs[r].pickupNote
    && var channel := a.channels[s.channel];
    && s.channelName == channel.name
    && s.reminderOffset == channel.config.reminderOffset
    && s.remindersEnabled == channel.config.remindersEnabled
    && s.lastCallEnabled == channel.config.lastCallEnabled
  }

  /** The line shows what its user wants. */
  predicate Shows(users: map<UserId, User>, a: Abstract, r: RunId, line: Participant) {
    && line.user in users && line.displayName == users[line.user].displayName
    && OrderKey(r, line.user) in a.wishes
    && var wish := a.wishes[OrderKey(r, line.user)];
    wish.active && line.text == wish.text && line.provenance == wish.provenance
  }

  /** Every active user has one line, in listing order, and one of them is the runner. */
  ghost predicate ListsAll(users: map<UserId, User>, a: Abstract, r: RunId, s: Summary) {
    && s.totalOrders == |s.participants| == |ActiveUsers(a, r)|
    && (forall i :: 0 <= i < |s.participants| ==> Shows(users, a, r, s.participants[i]))
    && (forall i, j :: 0 <= i < j < |s.participants| ==>
        InOrder(users, s.participants[i].user, s.participants[j].user))
    && s.runner in ActiveUsers(a, r) && s.runner in users && s.runnerName == users[s.runner].displayName
  }

  function RunsHere(a: Abstract, c: ChannelId): set<RunId> {
    set r | r in a.runs && a.runs[r].channel == c
  }

  function WishesHere(a: Abstract, c: ChannelId): set<OrderKey> {
    set k | k in a.wishes && k.run in a.runs && a.runs[k.run].channel == c
  }

  function MemosHere(a: Abstract, c: ChannelId): set<Seat> {
    set s | s in a.memos && s.channel == c
  }

  /** The reply is a refusal, or it is of the right kind and says what the states before and after it show. */
  ghost predicate Answered(users: map<UserId, User>, a: Abstract, after: Abstract, op: Op, reply: Reply) {
    reply.Rejected? ||
    match op
    case StartRun(_, _, _, _, _) => reply.Started?
    case SubmitOrder(k, d) =>
      reply.Submitted? && Reports(after, k, reply.submission, Strip(d.text), d.provenance, d.confirm)
    case UseLastOrder(k, _, _) =>
      && reply.Reused? && k.run in a.runs && Seat(a.runs[k.run].channel, k.user) in a.memos
      && var memo := a.memos[Seat(a.runs[k.run].channel, k.user)];
      reply.preferenceId == memo.id && Reports(after, k, reply.submission, memo.text, FromPreference, true)
    case CancelOrder(k) =>
      && reply.Withdrawn? && k in a.wishes && reply.orderId == a.wishes[k].id
      && reply.participantCount == |ActiveUsers(after, k.run)|
    case CloseRun(r, _, _) =>
      && reply.RunClosed? && Summarizes(a, r, reply.summary) && ListsAll(users, a, r, reply.summary)
      && reply.decision.runner == reply.summary.runner
    case UpdateConfig(_, _, patch) =>
      reply.Configured? && Distinct(reply.settings) && forall s :: s in reply.settings <==> Names(patch, s)
    case SetEnabled(_, _, enabled, _) => reply == EnabledSet(enabled)
    case ResetChannel(c, _) =>
      && reply.Purged? && reply.counts.runs == |RunsHere(a, c)|
      && reply.counts.orders == |WishesHere(a, c)| && reply.counts.preferences == |MemosHere(a, c)|
  }

  lemma SubmitAnswered(p: Policy, db: Db, k: OrderKey, d: Draft, tape: Tape)
    ensures var o := Submit(p, db, k, d, tape);
      Answered(db.users, Alpha(db), Alpha(o.db), SubmitOrder(k, d), o.reply)
  {
    CountIsUsers(Submit(p, db, k, d, tape).db, k.run);
  }

  lemma UseLastAnswered(p: Policy, db: Db, k: OrderKey, orderId: RowId, preferenceId: RowId, tape: Tape)
    requires PreferencesValid(p, db)
    ensures var o := UseLast(p, db, k, orderId, preferenceId, tape);
      Answered(db.users, Alpha(db), Alpha(o.db), UseLastOrder(k, orderId, preferenceId), o.reply)
  {
    CountIsUsers(UseLast(p, db, k, orderId, preferenceId, tape).db, k.run);
  }

  lemma CancelAnswered(db: Db, k: OrderKey, tape: Tape)
    ensures var o := Cancel(db, k, tape);
      Answered(db.users, Alpha(db), Alpha(o.db), CancelOrder(k), o.reply)
  {
    CountIsUsers(Cancel(db, k, tape).db, k.run);
  }

  lemma SettleAnswered(db: Db, r: RunId, repeat: bool, tape: Tape)
    requires r in db.runs && db.runs[r].channel in db.channels && RunRoster(db, r) != [] && Referenced(db)
    ensures var o := Settle(db, r, repeat, tape);
      && o.reply.RunClosed? && Summarizes(Alpha(db), r, o.reply.summary)
      && ListsAll(db.users, Alpha(db), r, o.reply.summary) && o.reply.decision.runner == o.reply.summary.runner
  {
    RunnerTakesPart(db, r, repeat, tape);
    ParticipantsCounted(db, r);
    CountIsUsers(db, r);
    SummaryLines(db, r, repeat, tape);
    var s := Settle(db, r, repeat, tape).reply.summary;
    forall i | 0 <= i < |s.participants| ensures Shows(db.users, Alpha(db), r, s.participants[i]) {
      assert TrueLine(db, r, s.participants[i]);
    }
  }

  lemma CloseAnswered(p: Policy, db: Db, r: RunId, actor: UserId, repeat: bool, tape: Tape)
    requires Referenced(db)
    ensures var o := Close(p, db, r, actor, repeat, tape);
      Answered(db.users, Alpha(db), Alpha(o.db), CloseRun(r, actor, repeat), o.reply)
  {
    if r in db.runs && db.runs[r].channel in db.channels && RunRoster(db, r) != [] {
      SettleAnswered(db, r, repeat, tape);
    }
  }

  /** One more setting of another kind. */
  lemma OneMore(settings: seq<Setting>, s: Setting)
    requires Distinct(settings) && s !in settings
    ensures Distinct(settings + [s])
  {
  }

  lemma NumbersNamed(patch: Admin.Patch)
    ensures var settings := Admin.NumberSettings(patch);
      && Distinct(settings)
      && forall s :: s in settings <==>
        Names(patch, s) && (s.ReminderOffset? || s.FairnessWindow? || s.RetentionDays?)
  {
    var a := if patch.reminderOffset.Some? then [ReminderOffset(patch.reminderOffset.value)] else [];
    var b := if patch.fairnessWindow.Some? then a + [FairnessWindow(patch.fairnessWindow.value)] else a;
    if patch.fairnessWindow.Some? { OneMore(a, FairnessWindow(patch.fairnessWindow.value)); }
    if patch.retentionDays.Some? { OneMore(b, RetentionDays(patch.retentionDays.value)); }
  }

  /** The settings of a patch are those it names, each once. */
  lemma SettingsNamed(patch: Admin.Patch)
    ensures var settings := Admin.SettingsOf(patch);
      Distinct(settings) && forall s :: s in settings <==> Names(patch, s)
  {
    NumbersNamed(patch);
    var d := Admin.NumberSettings(patch);
    var e := if patch.remindersEnabled.Some? then d + [RemindersEnabled(patch.remindersEnabled.value)] else d;
    var f := if patch.lastCallEnabled.Some? then e + [LastCallEnabled(patch.lastCallEnabled.value)] else e;
    if patch.remindersEnabled.Some? { OneMore(d, RemindersEnabled(patch.remindersEnabled.value)); }
    if patch.lastCallEnabled.Some? { OneMore(e, LastCallEnabled(patch.lastCallEnabled.value)); }
    if patch.lastCallLead.Some? { OneMore(f, LastCallLead(patch.lastCallLead.value)); }
  }

  lemma AdminAnswered(p: Policy, db: Db, op: Op, tape: Tape)
    requires op.UpdateConfig? || op.SetEnabled? || op.ResetChannel?
    ensures var o := Step(p, db, op, tape); Answered(db.users, Alpha(db), Alpha(o.db), op, o.reply)
  {
    match op
    case UpdateConfig(_, _, patch) => SettingsNamed(patch);
    case SetEnabled(_, _, _, _) =>
    case ResetChannel(c, _) =>
      assert Admin.RunsOf(db, c) == RunsHere(Alpha(db), c);
      assert Admin.OrdersOf(db, c) == WishesHere(Alpha(db), c);
      assert Admin.PreferencesOf(db, c) == MemosHere(Alpha(db), c);
  }

  lemma AnsweredInState(p: Policy, db: Db, op: Op, tape: Tape)
    requires PreferencesValid(p, db) && Referenced(db)
    ensures var o := Step(p, db, op, tape); Answered(db.users, Alpha(db), Alpha(o.db), op, o.reply)
  {
    match op
    case SubmitOrder(k, d) => SubmitAnswered(p, db, k, d, tape);
    case UseLastOrder(k, orderId, preferenceId) => UseLastAnswered(p, db, k, orderId, preferenceId, tape);
    case CancelOrder(k) => CancelAnswered(db, k, tape);
    case CloseRun(r, actor, repeat) => CloseAnswered(p, db, r, actor, repeat, tape);
    case StartRun(_, _, _, _, _) =>
    case _ => AdminAnswered(p, db, op, tape);
  }

  lemma AnswersAt(p: Policy, t: Trace, n: nat)
    requires IsHistory(p, t) && n < |t.events|
    requires PreferencesValid(p, t.worlds[n].db) && Referenced(t.worlds[n].db)
    ensures Answered(t.worlds[n].db.users, Alpha(t.worlds[n].db), Alpha(t.worlds[n + 1].db),
                     t.events[n].op, t.replies[n])
  {
    assert MovesAt(p, t, n);
    AnsweredInState(p, t.worlds[n].db, t.events[n].op, t.events[n].tape);
  }

  /** In every history, every reply is a refusal or says what requests and replies before and at it say. */
  lemma AnswersHistory(p: Policy, t: Trace, n: nat)
    requires IsFullHistory(p, t) && n < |t.events|
    ensures Answered(t.worlds[0].db.users, Observed(t, n), Observed(t, n + 1), t.events[n].op, t.replies[n])
  {
    SoundWorld(p, t, n);
    AnswersAt(p, t, n);
    ContentsHistory(p, t, n + 1);
  }

  lemma ObservedNext(p: Policy, t: Trace, n: nat)
    requires IsFullHistory(p, t) && n < |t.events|
    ensures Alpha(t.worlds[n + 1].db)
         == Observe(Alpha(t.worlds[n].db), t.events[n].op, t.events[n].tape.Now(), t.replies[n])
  {
    ContentsHistory(p, t, n);
    ContentsHistory(p, t, n + 1);
  }

  // ----- single requests, in terms of rows -----

  /** The time is the last reading taken between two states of the clock. */
  ghost predicate IsLastReading(at: Time, from: Tape, to: Tape) {
    to.reading == from.reading && to.pos > from.pos && at == to.reading(to.pos - 1)
  }

  /** Row `k` is the user's active order with this content; it keeps the id it had, and no other order changes. */
  ghost predicate Ordered(
    db: Db, after: Db, k: OrderKey, newId: RowId, text: string, final: bool, provenance: Provenance)
  {
    && k in after.orders
    && var order := after.orders[k];
    && order.text == text && order.isFinal == final && order.provenance == provenance && order.canceledAt == None
    && order.id == (if k in db.orders then db.orders[k].id else newId)
    && after.orders - {k} == db.orders - {k}
  }

  /** A submit is accepted exactly when the run is open, the user is known and the text is acceptable; it then
      stores the stripped text as given and then remembers it, exactly when it was confirmed. */
  lemma SubmitWorks(p: Policy, db: Db, k: OrderKey, d: Draft, tape: Tape)
    ensures var o := Submit(p, db, k, d, tape);
      && (o.reply.Submitted? <==>
          && k.run in db.runs && db.runs[k.run].status == Open && k.user in db.users
          && !Blank(d.text) && |Strip(d.text)| <= p.maxLength)
      && (o.reply.Submitted? ==>
          && Ordered(db, o.db, k, d.orderId, Strip(d.text), d.confirm, d.provenance)
          && o.db.orders[k].updatedAt == tape.Now()
          && (if d.confirm then
                var seat := Seat(db.runs[k.run].channel, k.user);
                && seat in o.db.preferences && o.db.preferences[seat].lastOrderText == Strip(d.text)
                && IsLastReading(o.db.preferences[seat].lastUsedAt, tape.Next(), o.tape)
                && o.db.preferences - {seat} == db.preferences - {seat}
              else
                o.db.preferences == db.preferences))
  {
    ValidateAccepts(p.maxLength, d.text);
  }

  /** What a reuse leaves: the remembered text ordered, the preference unchanged but for being marked last. */
  ghost predicate OrderedAgain(db: Db, after: Db, k: OrderKey, orderId: RowId, from: Tape, to: Tape)
    requires k.run in db.runs
  {
    var seat := Seat(db.runs[k.run].channel, k.user);
    && seat in db.preferences && seat in after.preferences
    && Ordered(db, after, k, orderId, db.preferences[seat].lastOrderText, true, FromPreference)
    && after.orders[k].updatedAt == from.Now()
    && MarkedUsed(db.preferences, after.preferences, seat, from, to)
  }

  ghost predicate MarkedUsed(
    before: map<Seat, Preference>, after: map<Seat, Preference>, seat: Seat, from: Tape, to: Tape)
  {
    && seat in before && seat in after
    && after[seat].id == before[seat].id && after[seat].lastOrderText == before[seat].lastOrderText
    && after - {seat} == before - {seat}
    && IsLastReading(after[seat].lastUsedAt, from.Next().Next(), to)
  }

  lemma ReuseOrders(p: Policy, db: Db, k: OrderKey, orderId: RowId, preferenceId: RowId, tape: Tape)
    requires PreferencesValid(p, db) && UseLast(p, db, k, orderId, preferenceId, tape).reply.Reused?
    ensures var o, seat := UseLast(p, db, k, orderId, preferenceId, tape), Seat(db.runs[k.run].channel, k.user);
      && Ordered(db, o.db, k, orderId, db.preferences[seat].lastOrderText, true, FromPreference)
      && o.db.orders[k].updatedAt == tape.Now()
      && o.reply.submission.text == db.preferences[seat].lastOrderText
  {
  }

  lemma ReuseMarks(p: Policy, db: Db, k: OrderKey, orderId: RowId, preferenceId: RowId, tape: Tape)
    requires PreferencesValid(p, db) && UseLast(p, db, k, orderId, preferenceId, tape).reply.Reused?
    ensures var o, seat := UseLast(p, db, k, orderId, preferenceId, tape), Seat(db.runs[k.run].channel, k.user);
      MarkedUsed(db.preferences, o.db.preferences, seat, tape, o.tape)
  {
  }

  lemma ReuseInState(p: Policy, db: Db, k: OrderKey, orderId: RowId, preferenceId: RowId, tape: Tape)
    requires PreferencesValid(p, db)
    ensures var o := UseLast(p, db, k, orderId, preferenceId, tape);
      && (o.reply.Reused? <==>
          && k.run in db.runs && db.runs[k.run].status == Open && k.user in db.users
          && Seat(db.runs[k.run].channel, k.user) in db.preferences)
      && (o.reply.Reused? ==>
          && OrderedAgain(db, o.db, k, orderId, tape, o.tape)
          && o.reply.submission.text == db.preferences[Seat(db.runs[k.run].channel, k.user)].lastOrderText)
  {
    if UseLast(p, db, k, orderId, preferenceId, tape).reply.Reused? {
      ReuseOrders(p, db, k, orderId, preferenceId, tape);
      ReuseMarks(p, db, k, orderId, preferenceId, tape);
    }
  }

  /** In every reachable state reusing the last order works exactly when the run is open and user and
      preference exist; it never fails validation, it orders exactly the remembered text, and it marks the
      preference as used after having stored both. */
  lemma ReuseWorks(p: Policy, t: Trace, n: nat, k: OrderKey, orderId: RowId, preferenceId: RowId, tape: Tape)
    requires IsFullHistory(p, t) && n < |t.worlds|
    ensures var db := t.worlds[n].db;
      var o := UseLast(p, db, k, orderId, preferenceId, tape);
      && (o.reply.Reused? <==>
          && k.run in db.runs && db.runs[k.run].status == Open && k.user in db.users
          && Seat(db.runs[k.run].channel, k.user) in db.preferences)
      && (o.reply.Reused? ==>
          && OrderedAgain(db, o.db, k, orderId, tape, o.tape)
          && o.reply.submission.text == db.preferences[Seat(db.runs[k.run].channel, k.user)].lastOrderText)
  {
    AlwaysValid(p, t, n);
    ReuseInState(p, t.worlds[n].db, k, orderId, preferenceId, tape);
  }

  /** A cancel is accepted exactly when the user has an active order in an open run; the order keeps its content. */
  lemma CancelWorks(db: Db, k: OrderKey, tape: Tape)
    ensures var o := Cancel(db, k, tape);
      && (o.reply.Withdrawn? <==>
          && k.run in db.runs && db.runs[k.run].status == Open && k.user in db.users
          && k.user in ActiveUsers(Alpha(db), k.run))
      && (o.reply.Withdrawn? ==>
          && k in db.orders && o.reply.orderId == db.orders[k].id
          && k in o.db.orders && o.db.orders[k].canceledAt == Some(tape.Now())
          && WishOf(o.db.orders[k]) == WishOf(db.orders[k]).(active := false)
          && o.db.orders - {k} == db.orders - {k} && o.db.preferences == db.preferences)
  {
    ActiveUserHasKey(db, k);
  }

  // ----- closed runs and settings, traced back to the requests -----

  /** Event m closed run r: it was open, and the actor was allowed to close it. */
  ghost predicate AllowedClose(p: Policy, t: Trace, m: nat, r: RunId)
    requires Shaped(t) && m < |t.events|
  {
    && t.events[m].op.CloseRun? && t.events[m].op.run == r && t.replies[m].RunClosed?
    && var runs := t.worlds[m].db.runs;
    r in runs && runs[r].status == Open && p.mayClose(runs[r], t.events[m].op.actor)
  }

  /** Run r, as it now stands, was closed by an allowed close. */
  ghost predicate ClosedByAllowed(p: Policy, t: Trace, n: nat, r: RunId)
    requires Shaped(t) && n < |t.worlds|
  {
    r in t.worlds[n].db.runs && t.worlds[n].db.runs[r].status == Closed ==>
      exists m :: 0 <= m < n && AllowedClose(p, t, m, r)
        && var run, s := t.worlds[n].db.runs[r], t.replies[m].summary;
        run.channel == s.channel && run.runner == Some(s.runner) && run.closedAt == Some(s.closedAt)
  }

  lemma ClosedOrigin(a: Abstract, op: Op, now: Time, reply: Reply, r: RunId)
    requires var after := Observe(a, op, now, reply); r in after.runs && after.runs[r].status == Closed
    ensures var run := Observe(a, op, now, reply).runs[r];
      || (r in a.runs && a.runs[r] == run)
      || (op.CloseRun? && op.run == r && reply.RunClosed? && r in a.runs && a.runs[r].channel == run.channel
          && run.runner == Some(reply.summary.runner) && run.closedAt == Some(reply.summary.closedAt))
  {
  }

  /** A step leaves a closed run as it is, removes it, or has just closed it. */
  lemma ClosedRunOrigin(p: Policy, t: Trace, n: nat, r: RunId)
    requires IsFullHistory(p, t) && n < |t.events|
    requires r in t.worlds[n + 1].db.runs && t.worlds[n + 1].db.runs[r].status == Closed
    ensures var op, reply, run := t.events[n].op, t.replies[n], t.worlds[n + 1].db.runs[r];
      || (r in t.worlds[n].db.runs && t.worlds[n].db.runs[r] == run)
      || (op.CloseRun? && op.run == r && reply.RunClosed? && r in t.worlds[n].db.runs
          && t.worlds[n].db.runs[r].channel == run.channel
          && run.runner == Some(reply.summary.runner) && run.closedAt == Some(reply.summary.closedAt))
  {
    ContentsHistory(p, t, n);
    ContentsHistory(p, t, n + 1);
    assert t.worlds[n].db.runs == Observed(t, n).runs && t.worlds[n + 1].db.runs == Observed(t, n + 1).runs;
    ClosedOrigin(Observed(t, n), t.events[n].op, t.events[n].tape.Now(), t.replies[n], r);
  }

  lemma CloseWasAllowed(p: Policy, t: Trace, n: nat)
    requires IsFullHistory(p, t) && n < |t.events|
    requires t.events[n].op.CloseRun? && t.replies[n].RunClosed?
    ensures AllowedClose(p, t, n, t.events[n].op.run)
  {
    ContentsHistory(p, t, n);
    assert Alpha(t.worlds[n].db).runs == Observed(t, n).runs;
    RefusalsHistory(p, t, n, RunNotFound);
    RefusalsHistory(p, t, n, RunNotOpen);
    RefusalsHistory(p, t, n, Unauthorized);
  }

  /** In every reachable state every closed run was closed by a request whose actor was allowed to, and its runner
      and closing time are those the summary told. */
  lemma {:induction false} ClosedRunsWereAllowed(p: Policy, t: Trace, n: nat, r: RunId)
    requires IsFullHistory(p, t) && n < |t.worlds|
    ensures ClosedByAllowed(p, t, n, r)
  {
    for i := 0 to n
      invariant ClosedByAllowed(p, t, i, r)
    {
      if r in t.worlds[i + 1].db.runs && t.worlds[i + 1].db.runs[r].status == Closed {
        ClosedRunOrigin(p, t, i, r);
        if !(r in t.worlds[i].db.runs && t.worlds[i].db.runs[r] == t.worlds[i + 1].db.runs[r]) {
          CloseWasAllowed(p, t, i);
          AnswersHistory(p, t, i);
          ContentsHistory(p, t, i);
          assert Alpha(t.worlds[i].db).runs == Observed(t, i).runs;
        }
      }
    }
  }

  /** Event i asked for the channel's switch to be set, and was accepted. */
  predicate Switches(t: Trace, i: nat, c: ChannelId)
    requires Shaped(t) && i < |t.events|
  {
    t.events[i].op.SetEnabled? && t.events[i].op.channel == c && !t.replies[i].Rejected?
  }

  lemma SwitchStep(a: Abstract, op: Op, now: Time, reply: Reply, c: ChannelId)
    requires c in a.channels && (op.SetEnabled? && !reply.Rejected? ==> reply.EnabledSet?)
    ensures var after := Observe(a, op, now, reply);
      && c in after.channels
      && after.channels[c].enabled ==
        if op.SetEnabled? && op.channel == c && !reply.Rejected? then op.enabled else a.channels[c].enabled
  {
  }

  ghost predicate SwitchIs(db: Db, c: ChannelId, on: bool) {
    c in db.channels && db.channels[c].enabled == on
  }

  lemma SwitchAt(p: Policy, t: Trace, i: nat, c: ChannelId, on: bool)
    requires IsFullHistory(p, t) && i < |t.events| && SwitchIs(t.worlds[i].db, c, on)
    ensures SwitchIs(t.worlds[i + 1].db, c, if Switches(t, i, c) then t.events[i].op.enabled else on)
  {
    AnswersHistory(p, t, i);
    ObservedNext(p, t, i);
    SwitchStep(Alpha(t.worlds[i].db), t.events[i].op, t.events[i].tape.Now(), t.replies[i], c);
  }

  lemma ChannelsKept(p: Policy, db: Db, op: Op, tape: Tape)
    ensures Step(p, db, op, tape).db.channels.Keys == db.channels.Keys
  {
    if op.CloseRun? {
      CloseFrame(p, db, op.run, op.actor, op.repeat, tape);
    }
  }

  lemma {:induction false} ChannelsStay(p: Policy, t: Trace, n: nat)
    requires IsHistory(p, t) && n < |t.worlds|
    ensures t.worlds[n].db.channels.Keys == t.worlds[0].db.channels.Keys
  {
    for i := 0 to n
      invariant t.worlds[i].db.channels.Keys == t.worlds[0].db.channels.Keys
    {
      assert MovesAt(p, t, i);
      ChannelsKept(p, t.worlds[i].db, t.events[i].op, t.events[i].tape);
    }
  }

  /** In every history a channel's switch is the value its last accepted request asked for, or the initial one:
      here `m` is the start, or right after that request, and none was accepted since. */
  lemma {:induction false} SwitchIsLastAsked(p: Policy, t: Trace, m: nat, n: nat, c: ChannelId)
    requires IsFullHistory(p, t) && m <= n < |t.worlds| && c in t.worlds[0].db.channels
    requires m == 0 || Switches(t, m - 1, c)
    requires forall i :: m <= i < n ==> !Switches(t, i, c)
    ensures SwitchIs(t.worlds[n].db, c,
      if m == 0 then t.worlds[0].db.channels[c].enabled else t.events[m - 1].op.enabled)
  {
    var on := if m == 0 then t.worlds[0].db.channels[c].enabled else t.events[m - 1].op.enabled;
    if m > 0 {
      ChannelsStay(p, t, m - 1);
      SwitchAt(p, t, m - 1, c, t.worlds[m - 1].db.channels[c].enabled);
    }
    for i := m to n
      invariant SwitchIs(t.worlds[i].db, c, on)
    {
      SwitchAt(p, t, i, c, on);
    }
  }

  /** An administrator's request is carried out exactly when channel, actor and patch allow it. */
  lemma AdminAccepted(p: Policy, t: Trace, n: nat)
    requires IsFullHistory(p, t) && n < |t.events|
    requires t.events[n].op.SetEnabled? || t.events[n].op.UpdateConfig?
    ensures var op, before := t.events[n].op, t.worlds[n].db;
      t.replies[n].Rejected? <==>
        || op.channel !in before.channels || !p.mayAdminister(op.actor)
        || (op.UpdateConfig? && Unfit(before.channels[op.channel].config, op.patch))
    ensures t.replies[n].Rejected? ==> t.worlds[n + 1].db == t.worlds[n].db
  {
    var e := t.events[n];
    assert MovesAt(p, t, n);
    SoundWorld(p, t, n);
    RefusalsHistory(p, t, n, ChannelNotFound);
    RefusalsHistory(p, t, n, Unauthorized);
    RefusalsHistory(p, t, n, ConfigInvalid);
    if t.replies[n].Rejected? {
      RefusalsHistory(p, t, n, t.replies[n].error);
      RejectionChangesNothing(p, t.worlds[n].db, e.op, e.tape);
    }
  }

  /** What the switch request asks for is stored and logged, with the previous value and the reason. */
  ghost predicate Switched(op: Op, before: Db, after: Db)
    requires op.SetEnabled? && op.channel in before.channels
  {
    var c, previous := op.channel, before.channels[op.channel].enabled;
    && c in after.channels && after.channels[c].enabled == op.enabled
    && after.channels[c].config == before.channels[c].config
    && after.audit == before.audit
      + [AuditEntry(c, op.actor, Toggled(op.enabled, Reason(op.reason), previous, previous != op.enabled))]
  }

  /** The settings are the patched ones, and they are logged unless the patch is empty. */
  ghost predicate Reconfigured(op: Op, reply: Reply, before: Db, after: Db)
    requires op.UpdateConfig? && reply.Configured? && op.channel in before.channels
  {
    var c := op.channel;
    && c in after.channels && after.channels[c].config == Patched(before.channels[c].config, op.patch)
    && after.channels[c].enabled == before.channels[c].enabled
    && after.audit == before.audit
      + (if op.patch == NOTHING then [] else [AuditEntry(c, op.actor, ConfigUpdated(reply.settings))])
  }

  lemma SwitchObserved(op: Op, now: Time, reply: Reply, before: Db, after: Db)
    requires op.SetEnabled? && reply.EnabledSet? && op.channel in before.channels
    requires Alpha(after) == Observe(Alpha(before), op, now, reply)
    ensures Switched(op, before, after)
  {
    var a := Observe(Alpha(before), op, now, reply);
    assert after.channels == a.channels && after.audit == a.log;
  }

  lemma ConfigObserved(op: Op, now: Time, reply: Reply, before: Db, after: Db)
    requires op.UpdateConfig? && reply.Configured? && op.channel in before.channels
    requires Alpha(after) == Observe(Alpha(before), op, now, reply)
    ensures Reconfigured(op, reply, before, after)
  {
    var a := Observe(Alpha(before), op, now, reply);
    assert after.channels == a.channels && after.audit == a.log;
  }

  /** A switch request is carried out exactly when the channel exists and the actor may administer. */
  lemma SwitchWorks(p: Policy, t: Trace, n: nat)
    requires IsFullHistory(p, t) && n < |t.events| && t.events[n].op.SetEnabled?
    ensures var op, before, after := t.events[n].op, t.worlds[n].db, t.worlds[n + 1].db;
      if op.channel in before.channels && p.mayAdminister(op.actor) then
        t.replies[n] == EnabledSet(op.enabled) && Switched(op, before, after)
      else
        t.replies[n].Rejected? && after == before
  {
    AdminAccepted(p, t, n);
    if !t.replies[n].Rejected? {
      AnswersHistory(p, t, n);
      ObservedNext(p, t, n);
      SwitchObserved(t.events[n].op, t.events[n].tape.Now(), t.replies[n], t.worlds[n].db, t.worlds[n + 1].db);
    }
  }

  /** A configuration request is carried out exactly when the channel exists, the actor may administer and nothing
      in the patch is unfit. */
  lemma ConfigWorks(p: Policy, t: Trace, n: nat)
    requires IsFullHistory(p, t) && n < |t.events| && t.events[n].op.UpdateConfig?
    ensures var op, before, after := t.events[n].op, t.worlds[n].db, t.worlds[n + 1].db;
      if op.channel in before.channels && p.mayAdminister(op.actor)
        && !Unfit(before.channels[op.channel].config, op.patch)
      then
        t.replies[n].Configured? && Reconfigured(op, t.replies[n], before, after)
      else
        t.replies[n].Rejected? && after == before
  {
    AdminAccepted(p, t, n);
    if !t.replies[n].Rejected? {
      AnswersHistory(p, t, n);
      ObservedNext(p, t, n);
      ConfigObserved(t.events[n].op, t.events[n].tape.Now(), t.replies[n], t.worlds[n].db, t.worlds[n + 1].db);
    }
  }
}
