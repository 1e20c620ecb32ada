/** The audit log is a complete record of a channel's settings: replaying it rebuilds them. */
module Audit {
  import opened Data
  import opened Orders
  import opened Runs
  import opened Machine
  import opened History
  import opened Contents
  import opened Reminders
  import Admin

  datatype Settings = Settings(config: Config, enabled: bool)

  function SettingsIn(db: Db, c: ChannelId): Settings
    requires c in db.channels
  {
    Settings(db.channels[c].config, db.channels[c].enabled)
  }

  function Apply(s: Settings, e: AuditEntry, c: ChannelId): Settings {
    if e.channel != c then s
    else match e.action
      case ConfigUpdated(settings) => s.(config := Admin.SetAll(s.config, settings))
      case Toggled(enabled, _, _, _) => s.(enabled := enabled)
      case DataReset(_) => s
  }

  function Replay(start: Settings, log: seq<AuditEntry>, c: ChannelId): Settings {
    if log == [] then start else Apply(Replay(start, log[..|log| - 1], c), log[|log| - 1], c)
  }

  /** Every enable and disable entry records the switch as the replay of the entries before it has it. */
  ghost predicate Truthful(start: Settings, log: seq<AuditEntry>, c: ChannelId) {
    log != [] ==>
      var front, e := log[..|log| - 1], log[|log| - 1];
      && Truthful(start, front, c)
      && (e.channel == c && e.action.Toggled? ==>
          && e.action.previous == Replay(start, front, c).enabled
          && e.action.changed == (e.action.previous != e.action.enabled))
  }

  ghost predicate Recorded(start: Settings, db: Db, c: ChannelId) {
    c in db.channels && Replay(start, db.audit, c) == SettingsIn(db, c) && Truthful(start, db.audit, c)
  }

  lemma LogRecorded(start: Settings, db: Db, after: Db, c: ChannelId, e: AuditEntry)
    requires Recorded(start, db, c) && c in after.channels && after.audit == db.audit + [e]
    requires SettingsIn(after, c) == Apply(SettingsIn(db, c), e, c)
    requires e.channel == c && e.action.Toggled? ==>
      e.action.previous == db.channels[c].enabled && e.action.changed == (e.action.previous != e.action.enabled)
    ensures Recorded(start, after, c)
  {
    assert after.audit[..|after.audit| - 1] == db.audit;
  }

  /** Requests of members do not touch channels or the log. */
  lemma MembersLeaveSettings(p: Policy, db: Db, op: Op, tape: Tape)
    requires op.StartRun? || op.SubmitOrder? || op.UseLastOrder? || op.CancelOrder? || op.CloseRun?
    ensures var o := Step(p, db, op, tape); o.db.channels == db.channels && o.db.audit == db.audit
  {
    match op
    case SubmitOrder(k, d) => SubmitTouches(p, db, k, d, tape);
    case UseLastOrder(k, orderId, preferenceId) => UseLastTouches(p, db, k, orderId, preferenceId, tape);
    case CancelOrder(k) => CancelTouches(db, k, tape);
    case CloseRun(r, actor, repeat) => CloseFrame(p, db, r, actor, repeat, tape);
    case StartRun(_, _, _, _, _) =>
  }

  lemma ConfigRecorded(
    p: Policy, start: Settings, db: Db, d: ChannelId, actor: UserId, patch: Admin.Patch, tape: Tape, c: ChannelId)
    requires Recorded(start, db, c)
    ensures Recorded(start, Admin.UpdateConfig(p, db, d, actor, patch, tape).db, c)
  {
    var o := Admin.UpdateConfig(p, db, d, actor, patch, tape);
    if o.reply.Configured? && o.reply.settings != [] {
      LogRecorded(start, db, o.db, c, AuditEntry(d, actor, ConfigUpdated(o.reply.settings)));
    }
  }

  lemma EnabledRecorded(
    p: Policy, start: Settings, db: Db, d: ChannelId, actor: UserId, enabled: bool, reason: Option<string>, tape: Tape,
    c: ChannelId)
    requires Recorded(start, db, c)
    ensures Recorded(start, Admin.SetEnabled(p, db, d, actor, enabled, reason, tape).db, c)
  {
    var o := Admin.SetEnabled(p, db, d, actor, enabled, reason, tape);
    if o.reply.EnabledSet? {
      LogRecorded(start, db, o.db, c, o.db.audit[|db.audit|]);
    }
  }

  lemma ResetRecorded(p: Policy, start: Settings, db: Db, d: ChannelId, actor: UserId, tape: Tape, c: ChannelId)
    requires Recorded(start, db, c)
    ensures Recorded(start, Admin.Reset(p, db, d, actor, tape).db, c)
  {
    var o := Admin.Reset(p, db, d, actor, tape);
    if o.reply.Purged? {
      LogRecorded(start, db, o.db, c, AuditEntry(d, actor, DataReset(o.reply.counts)));
    }
  }

  lemma RecordedStep(p: Policy, start: Settings, db: Db, op: Op, tape: Tape, c: ChannelId)
    requires Recorded(start, db, c)
    ensures Recorded(start, Step(p, db, op, tape).db, c)
  {
    match op
    case UpdateConfig(d, actor, patch) => ConfigRecorded(p, start, db, d, actor, patch, tape, c);
    case SetEnabled(d, actor, enabled, reason) => EnabledRecorded(p, start, db, d, actor, enabled, reason, tape, c);
    case ResetChannel(d, actor) => ResetRecorded(p, start, db, d, actor, tape, c);
    case _ => MembersLeaveSettings(p, db, op, tape);
  }

  /** In every reachable state, replaying a channel's log over its first settings gives its settings now,
      and every recorded previous state is the one the replay has at that point. */
  lemma {:induction false} AuditReplays(p: Policy, t: Trace, n: nat, c: ChannelId)
    requires IsFullHistory(p, t) && n < |t.worlds| && c in t.worlds[0].db.channels
    ensures Recorded(SettingsIn(t.worlds[0].db, c), t.worlds[n].db, c)
  {
    var start := SettingsIn(t.worlds[0].db, c);
    for i := 0 to n
      invariant Recorded(start, t.worlds[i].db, c)
    {
      assert MovesAt(p, t, i);
      RecordedStep(p, start, t.worlds[i].db, t.events[i].op, t.events[i].tape, c);
    }
  }

  // ----- the ranges -----

  predicate InRange(config: Config) {
    && 1 <= config.reminderOffset <= 60
    && 1 <= config.fairnessWindow <= 50
    && 30 <= config.retentionDays <= 365
    && (config.lastCallLead.Some? ==> 1 <= config.lastCallLead.value <= 30)
  }

  /** The ranges hold of every channel in every state if they hold at the start. */
  ghost predicate AllInRange(db: Db) {
    forall c :: c in db.channels ==> InRange(db.channels[c].config)
  }

  lemma RangeStep(p: Policy, db: Db, op: Op, tape: Tape)
    requires AllInRange(db)
    ensures AllInRange(Step(p, db, op, tape).db)
  {
    match op
    case UpdateConfig(c, _, patch) =>
      if c in db.channels {
        PatchedConfig(db.channels[c].config, patch);
      }
    case SetEnabled(_, _, _, _) =>
    case ResetChannel(_, _) =>
    case _ =>
      MembersLeaveSettings(p, db, op, tape);
  }

  lemma {:induction false} AlwaysInRange(p: Policy, t: Trace, n: nat)
    requires IsHistory(p, t) && n < |t.worlds| && AllInRange(t.worlds[0].db)
    ensures AllInRange(t.worlds[n].db)
  {
    for i := 0 to n
      invariant AllInRange(t.worlds[i].db)
    {
      assert MovesAt(p, t, i);
      RangeStep(p, t.worlds[i].db, t.events[i].op, t.events[i].tape);
    }
  }

  // ----- last call never lacks a lead time, so the reminders asked for are published -----

  /** Where last call is on, a lead time is set. */
  ghost predicate LeadsKnown(db: Db) {
    forall c :: c in db.channels && db.channels[c].config.lastCallEnabled ==> db.channels[c].config.lastCallLead.Some?
  }

  lemma LeadStep(p: Policy, db: Db, op: Op, tape: Tape)
    requires LeadsKnown(db)
    ensures LeadsKnown(Step(p, db, op, tape).db)
  {
    match op
    case UpdateConfig(c, _, patch) =>
      if c in db.channels {
        PatchedConfig(db.channels[c].config, patch);
      }
    case SetEnabled(_, _, _, _) =>
    case ResetChannel(_, _) =>
    case _ =>
      MembersLeaveSettings(p, db, op, tape);
  }

  lemma {:induction false} LeadsStayKnown(p: Policy, t: Trace, n: nat)
    requires IsHistory(p, t) && n < |t.worlds| && LeadsKnown(t.worlds[0].db)
    ensures LeadsKnown(t.worlds[n].db)
  {
    for i := 0 to n
      invariant LeadsKnown(t.worlds[i].db)
    {
      assert MovesAt(p, t, i);
      LeadStep(p, t.worlds[i].db, t.events[i].op, t.events[i].tape);
    }
  }

  function RemindersOf(c: ChannelId, config: Config): ReminderConfig {
    ReminderConfig(c, config.remindersEnabled, config.reminderOffset, config.lastCallEnabled, config.lastCallLead)
  }

  /** From settings in range, a run with a pickup time and a named runner gets its runner reminder exactly when
      reminders are on, and its last call exactly when last call is on as well; both are for before the pickup. */
  lemma RemindersFollowSettings(
    p: Policy, t: Trace, n: nat, c: ChannelId, ids: nat -> RowId, run: RunId, pickup: Stamp, runner: string)
    requires IsHistory(p, t) && n < |t.worlds| && c in t.worlds[n].db.channels && runner != ""
    requires AllInRange(t.worlds[0].db) && LeadsKnown(t.worlds[0].db)
    ensures var config := t.worlds[n].db.channels[c].config;
      var ps := Schedule(ids, run, Some(pickup), Some(runner), RemindersOf(c, config));
      && ((exists i :: 0 <= i < |ps| && ps[i].kind.RunnerReminder?) <==> config.remindersEnabled)
      && ((exists i :: 0 <= i < |ps| && ps[i].kind.LastCallReminder?)
          <==> config.remindersEnabled && config.lastCallEnabled)
      && forall i :: 0 <= i < |ps| ==> ps[i].channel == c && ps[i].scheduledFor.at < pickup.at
  {
    AlwaysInRange(p, t, n);
    LeadsStayKnown(p, t, n);
    var config := t.worlds[n].db.channels[c].config;
    assert InRange(config);
    SchedulerPublishes(ids, run, Some(pickup), Some(runner), RemindersOf(c, config));
  }
}
