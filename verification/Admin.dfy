/** Channel administration: configuration, enable/disable, and data reset, all audited. */
module Admin {
  import opened Data

  datatype Patch = Patch(
    reminderOffset: Option<int>,
    fairnessWindow: Option<int>,
    retentionDays: Option<int>,
    remindersEnabled: Option<bool>,
    lastCallEnabled: Option<bool>,
    lastCallLead: Option<int>)

  // ----- the specification -----

  predicate Allowed(value: Option<int>, lo: int, hi: int) {
    value.Some? ==> lo <= value.value <= hi
  }

  /** Every value is in its range, and last call is not switched on without a lead time. */
  predicate PatchValid(channel: Channel, p: Patch) {
    && Allowed(p.reminderOffset, 1, 60)
    && Allowed(p.fairnessWindow, 1, 50)
    && Allowed(p.retentionDays, 30, 365)
    && Allowed(p.lastCallLead, 1, 30)
    && !(p.lastCallEnabled == Some(true) && p.lastCallLead.None? && channel.config.lastCallLead.None?)
  }

  function NumberSettings(p: Patch): seq<Setting> {
    var a := if p.reminderOffset.Some? then [ReminderOffset(p.reminderOffset.value)] else [];
    var b := if p.fairnessWindow.Some? then a + [FairnessWindow(p.fairnessWindow.value)] else a;
    if p.retentionDays.Some? then b + [RetentionDays(p.retentionDays.value)] else b
  }

  /** The settings named by a patch, in the order in which they are applied. */
  function SettingsOf(p: Patch): seq<Setting> {
    var d := NumberSettings(p);
    var e := if p.remindersEnabled.Some? then d + [RemindersEnabled(p.remindersEnabled.value)] else d;
    var f := if p.lastCallEnabled.Some? then e + [LastCallEnabled(p.lastCallEnabled.value)] else e;
    if p.lastCallLead.Some? then f + [LastCallLead(p.lastCallLead.value)] else f
  }

  /** `setattr(channel, field, value)` */
  function Set(config: Config, s: Setting): Config {
    match s
    case ReminderOffset(n) => config.(reminderOffset := n)
    case FairnessWindow(n) => config.(fairnessWindow := n)
    case RetentionDays(n) => config.(retentionDays := n)
    case RemindersEnabled(on) => config.(remindersEnabled := on)
    case LastCallEnabled(on) => config.(lastCallEnabled := on)
    case LastCallLead(n) => config.(lastCallLead := Some(n))
  }

  function SetAll(config: Config, settings: seq<Setting>): Config {
    if settings == [] then config else Set(SetAll(config, settings[..|settings| - 1]), settings[|settings| - 1])
  }

  function Log(db: Db, c: ChannelId, admin: UserId, action: AuditAction): Db {
    db.(audit := db.audit + [AuditEntry(c, admin, action)])
  }

  function UpdateConfig(pol: Policy, db: Db, c: ChannelId, actor: UserId, p: Patch, tape: Tape): Outcome {
    if c !in db.channels then
      Outcome(db, Rejected(ChannelNotFound), tape)
    else if !pol.mayAdminister(actor) then
      Outcome(db, Rejected(Unauthorized), tape)
    else if !PatchValid(db.channels[c], p) then
      Outcome(db, Rejected(ConfigInvalid), tape)
    else if SettingsOf(p) == [] then
      Outcome(db, Configured([]), tape)
    else
      var channel := db.channels[c];
      var updated := channel.(config := SetAll(channel.config, SettingsOf(p)), updatedAt := tape.Now());
      Outcome(
        Log(db.(channels := db.channels[c := updated]), c, actor, ConfigUpdated(SettingsOf(p))),
        Configured(SettingsOf(p)),
        tape.Next())
  }

  function SetEnabled(
    pol: Policy, db: Db, c: ChannelId, actor: UserId, enabled: bool, reason: Option<string>, tape: Tape): Outcome
  {
    if c !in db.channels then
      Outcome(db, Rejected(ChannelNotFound), tape)
    else if !pol.mayAdminister(actor) then
      Outcome(db, Rejected(Unauthorized), tape)
    else
      var channel := db.channels[c];
      var why := if reason.Some? && reason.value != "" then reason.value else "unspecified";
      Outcome(
        Log(
          db.(channels := db.channels[c := channel.(enabled := enabled, updatedAt := tape.Now())]),
          c, actor, Toggled(enabled, why, channel.enabled, channel.enabled != enabled)),
        EnabledSet(enabled),
        tape.Next())
  }

  function RunsOf(db: Db, c: ChannelId): set<RunId> {
    set r | r in db.runs && db.runs[r].channel == c
  }

  function OrdersOf(db: Db, c: ChannelId): set<OrderKey> {
    set k | k in db.orders && k.run in db.runs && db.runs[k.run].channel == c
  }

  function PreferencesOf(db: Db, c: ChannelId): set<Seat> {
    set s | s in db.preferences && s.channel == c
  }

  function StatRowsOf(db: Db, c: ChannelId): set<Seat> {
    set s | s in db.stats && s.channel == c
  }

  function Purge(db: Db, c: ChannelId): Db {
    db.(
      orders := db.orders - OrdersOf(db, c),
      runs := db.runs - RunsOf(db, c),
      preferences := db.preferences - PreferencesOf(db, c),
      stats := db.stats - StatRowsOf(db, c))
  }

  function PurgeSizes(db: Db, c: ChannelId): PurgeCounts {
    PurgeCounts(|OrdersOf(db, c)|, |RunsOf(db, c)|, |PreferencesOf(db, c)|, |StatRowsOf(db, c)|)
  }

  function Reset(pol: Policy, db: Db, c: ChannelId, actor: UserId, tape: Tape): Outcome {
    if c !in db.channels then
      Outcome(db, Rejected(ChannelNotFound), tape)
    else if !pol.mayAdminister(actor) then
      Outcome(db, Rejected(Unauthorized), tape)
    else
      var purged := Purge(db, c);
      var channel := db.channels[c].(lastResetAt := Some(tape.Now()), updatedAt := tape.Now());
      Outcome(
        Log(purged.(channels := db.channels[c := channel]), c, actor, DataReset(PurgeSizes(db, c))),
        Purged(PurgeSizes(db, c)),
        tape.Next())
  }

  /** Each count is the number of rows the table lost. */
  lemma PurgeSizesAreLosses(db: Db, c: ChannelId)
    ensures var after := Purge(db, c);
      PurgeSizes(db, c) == PurgeCounts(
        |db.orders| - |after.orders|, |db.runs| - |after.runs|,
        |db.preferences| - |after.preferences|, |db.stats| - |after.stats|)
  {
    var after := Purge(db, c);
    assert |OrdersOf(db, c)| == |db.orders| - |after.orders| by {
      RemovalCount(db.orders, OrdersOf(db, c));
    }
    assert |RunsOf(db, c)| == |db.runs| - |after.runs| by {
      RemovalCount(db.runs, RunsOf(db, c));
    }
    assert |PreferencesOf(db, c)| == |db.preferences| - |after.preferences| by {
      RemovalCount(db.preferences, PreferencesOf(db, c));
    }
    assert |StatRowsOf(db, c)| == |db.stats| - |after.stats| by {
      RemovalCount(db.stats, StatRowsOf(db, c));
    }
  }

  lemma RemovalCount<K, V>(table: map<K, V>, doomed: set<K>)
    requires doomed <= table.Keys
    ensures |table| - |table - doomed| == |doomed|
  {
    assert (table - doomed).Keys == table.Keys - doomed;
    assert |table.Keys| == |table.Keys - doomed| + |doomed|;
  }

  /** Every order belongs to a run: the foreign key of the orders table. */
  ghost predicate NoOrphans(orders: map<OrderKey, Order>, runs: map<RunId, Run>) {
    forall k :: k in orders ==> k.run in runs
  }

  // ----- the service -----

  class AdminService {
    const session: Session
    const clock: Clock
    const policy: Policy

    constructor (session: Session, clock: Clock, policy: Policy)
      ensures this.session == session && this.clock == clock && this.policy == policy
    {
      this.session := session;
      this.clock := clock;
      this.policy := policy;
    }

    method Guard(c: ChannelId, actor: UserId) returns (error: Option<Error>)
      ensures error ==
        if c !in session.channels then Some(ChannelNotFound)
        else if !policy.mayAdminister(actor) then Some(Unauthorized)
        else None
    {
      if c !in session.channels {
        return Some(ChannelNotFound);
      }
      return if policy.mayAdminister(actor) then None else Some(Unauthorized);
    }

    /** The settings to apply, or None where validation raises. */
    method BuildConfigUpdates(channel: Channel, p: Patch) returns (updates: Option<seq<Setting>>)
      ensures updates == if PatchValid(channel, p) then Some(SettingsOf(p)) else None
    {
      var found: seq<Setting> := [];
      if p.reminderOffset.Some? {
        if !Allowed(p.reminderOffset, 1, 60) { return None; }
        found := [ReminderOffset(p.reminderOffset.value)];
      }
      if p.fairnessWindow.Some? {
        if !Allowed(p.fairnessWindow, 1, 50) { return None; }
        found := found + [FairnessWindow(p.fairnessWindow.value)];
      }
      if p.retentionDays.Some? {
        if !Allowed(p.retentionDays, 30, 365) { return None; }
        found := found + [RetentionDays(p.retentionDays.value)];
      }
      if p.remindersEnabled.Some? {
        found := found + [RemindersEnabled(p.remindersEnabled.value)];
      }
      if p.lastCallEnabled.Some? {
        found := found + [LastCallEnabled(p.lastCallEnabled.value)];
      }
      if p.lastCallLead.Some? {
        if !Allowed(p.lastCallLead, 1, 30) { return None; }
        found := found + [LastCallLead(p.lastCallLead.value)];
      }
      if p.lastCallEnabled == Some(true) && p.lastCallLead.None? && channel.config.lastCallLead.None? {
        return None;
      }
      return Some(found);
    }

    method LogAction(c: ChannelId, admin: UserId, action: AuditAction)
      modifies session
      ensures session.Snapshot() == Log(old(session.Snapshot()), c, admin, action)
    {
      session.audit := session.audit + [AuditEntry(c, admin, action)];
    }

    method ApplySettings(c: ChannelId, settings: seq<Setting>)
      requires c in session.channels
      modifies session
      ensures var channel := old(session.channels)[c];
        session.Snapshot() == old(session.Snapshot()).(
          channels := old(session.channels)[c := channel.(config := SetAll(channel.config, settings))])
    {
      ghost var channels, channel := session.channels, session.channels[c];
      assert channels == channels[c := channel];
      for i := 0 to |settings|
        invariant session.Snapshot() == old(session.Snapshot()).(channels := session.channels)
        invariant session.channels == channels[c := channel.(config := SetAll(channel.config, settings[..i]))]
      {
        assert settings[..i + 1][..i] == settings[..i];
        var row := session.channels[c];
        session.channels := session.channels[c := row.(config := Set(row.config, settings[i]))];
      }
      assert settings[..|settings|] == settings;
    }

    method UpdateChannelConfig(c: ChannelId, actor: UserId, p: Patch) returns (reply: Reply)
      modifies session, clock
      ensures UpdateConfig(policy, old(session.Snapshot()), c, actor, p, old(clock.Rest()))
           == Outcome(session.Snapshot(), reply, clock.Rest())
    {
      var error := Guard(c, actor);
      if error.Some? {
        return Rejected(error.value);
      }
      var updates := BuildConfigUpdates(session.channels[c], p);
      if updates.None? {
        return Rejected(ConfigInvalid);
      }
      if updates.value == [] {
        return Configured([]);
      }
      var timestamp := clock.Now();
      var settings := updates.value;
      ApplySettings(c, settings);
      session.channels := session.channels[c := session.channels[c].(updatedAt := timestamp)];
      LogAction(c, actor, ConfigUpdated(settings));
      reply := Configured(settings);
    }

    method SetChannelEnabled(c: ChannelId, actor: UserId, enabled: bool, reason: Option<string>) returns (reply: Reply)
      modifies session, clock
      ensures SetEnabled(policy, old(session.Snapshot()), c, actor, enabled, reason, old(clock.Rest()))
           == Outcome(session.Snapshot(), reply, clock.Rest())
    {
      var error := Guard(c, actor);
      if error.Some? {
        return Rejected(error.value);
      }
      var timestamp := clock.Now();
      var previous := session.channels[c].enabled;
      session.channels := session.channels[c := session.channels[c].(enabled := enabled, updatedAt := timestamp)];
      var why := if reason.Some? && reason.value != "" then reason.value else "unspecified";
      LogAction(c, actor, Toggled(enabled, why, previous, previous != enabled));
      reply := EnabledSet(enabled);
    }

    /** The four deletes, orders before runs; no order is ever left without its run. */
    method PurgeChannelData(c: ChannelId) returns (counts: PurgeCounts)
      modifies session
      ensures session.Snapshot() == Purge(old(session.Snapshot()), c)
      ensures counts == PurgeSizes(old(session.Snapshot()), c)
      ensures old(NoOrphans(session.orders, session.runs)) ==> NoOrphans(session.orders, session.runs)
    {
      ghost var sound := NoOrphans(session.orders, session.runs);
      ghost var before := session.Snapshot();
      var orders := set k | k in session.orders && k.run in session.runs && session.runs[k.run].channel == c;
      session.orders := session.orders - orders;
      assert sound ==> NoOrphans(session.orders, session.runs);
      var runs := set r | r in session.runs && session.runs[r].channel == c;
      session.runs := session.runs - runs;
      assert sound ==> NoOrphans(session.orders, session.runs);
      var preferences := set s | s in session.preferences && s.channel == c;
      session.preferences := session.preferences - preferences;
      var stats := set s | s in session.stats && s.channel == c;
      session.stats := session.stats - stats;
      assert orders == OrdersOf(before, c) && runs == RunsOf(before, c);
      assert preferences == PreferencesOf(before, c) && stats == StatRowsOf(before, c);
      counts := PurgeCounts(|orders|, |runs|, |preferences|, |stats|);
    }

    method ResetChannelData(c: ChannelId, actor: UserId) returns (reply: Reply)
      modifies session, clock
      ensures Reset(policy, old(session.Snapshot()), c, actor, old(clock.Rest()))
           == Outcome(session.Snapshot(), reply, clock.Rest())
    {
      var error := Guard(c, actor);
      if error.Some? {
        return Rejected(error.value);
      }
      var counts := PurgeChannelData(c);
      var timestamp := clock.Now();
      session.channels := session.channels[c :=
        session.channels[c].(lastResetAt := Some(timestamp), updatedAt := timestamp)];
      LogAction(c, actor, DataReset(counts));
      reply := Purged(counts);
    }
  }
}
