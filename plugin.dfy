/** Plugin start-up: the one-time option migration run on every load, hook
    registration, and the lazily created front-end and admin components. */
module Plugin {
  import opened Values
  import opened Versions
  import opened Config
  import opened Frontend
  import opened Settings

  /** The boolean options that 1.0.6 replaced with 'auto' choices. */
  const LEGACY: set<string> := {"theme_auto", "badge_auto", "v2_checkbox_adjust_size"}

  /** The release that replaced the legacy flags; `ParseVersion106` shows
      this is how "1.0.6" parses. */
  const MIGRATION_VERSION: seq<nat> := [1, 0, 6]

  function PreviousVersion(options: map<string, Value>): Value {
    GetOption(options, "version", Str(""))
  }

  /** A previous version is recorded and it is older than 1.0.6. */
  predicate NeedsLegacyMigration(options: map<string, Value>) {
    var prev := PreviousVersion(options);
    Truthy(prev) && VersionLess(ParseVersion(AsString(prev)), MIGRATION_VERSION)
  }

  /** `version_compare($current, $prev, '!=')`. */
  predicate VersionChanged(options: map<string, Value>, current: string) {
    ParseVersion(current) != ParseVersion(AsString(PreviousVersion(options)))
  }

  /** `$options['theme' | 'badge' | 'v2_checkbox_size'] = 'auto'` for the
      flags that are set. */
  function AutoChoices(theme: bool, badge: bool, size: bool): (entries: map<string, Value>)
    ensures forall k :: k in entries ==> entries[k] == Str("auto")
    ensures "theme" in entries <==> theme
    ensures "badge" in entries <==> badge
    ensures "v2_checkbox_size" in entries <==> size
    ensures "version" !in entries
    ensures forall k :: k in entries ==> k == "theme" || k == "badge" || k == "v2_checkbox_size"
  {
    var e0: map<string, Value> := map[];
    var e1 := if theme then e0["theme" := Str("auto")] else e0;
    var e2 := if badge then e1["badge" := Str("auto")] else e1;
    if size then e2["v2_checkbox_size" := Str("auto")] else e2
  }

  /** The 'auto' choices a pre-1.0.6 blob migrates to. */
  function LegacyEntries(options: map<string, Value>): map<string, Value> {
    if NeedsLegacyMigration(options) then
      AutoChoices(
        Truthy(GetOption(options, "theme_auto", Bool(false))),
        Truthy(GetOption(options, "badge_auto", Bool(false))),
        Truthy(GetOption(options, "v2_checkbox_adjust_size", Bool(true))))
    else map[]
  }

  /** The entries `update` hands to `update_option`. */
  function MigrationEntries(options: map<string, Value>, current: string): (entries: map<string, Value>)
    ensures forall k :: k in entries ==> k == "theme" || k == "badge" || k == "v2_checkbox_size" || k == "version"
    ensures "version" in entries <==> VersionChanged(options, current)
    ensures "version" in entries ==> entries["version"] == Str(current)
    ensures !NeedsLegacyMigration(options) ==> forall k :: k in entries ==> k == "version"
  {
    var legacy := LegacyEntries(options);
    if VersionChanged(options, current) then legacy["version" := Str(current)] else legacy
  }

  /** The options blob after `update`: legacy keys deleted when migrating,
      then the entries merged in (when there are any). */
  function Migrated(options: map<string, Value>, current: string): map<string, Value> {
    var afterDelete := if NeedsLegacyMigration(options) then WithoutKeys(options, LEGACY) else options;
    var entries := MigrationEntries(options, current);
    if entries == map[] then afterDelete else StripDefaults(afterDelete + entries)
  }

  /** The plugin object (`Plugin`). */
  class Plugin {
    const config: Config
    var hooksRegistered: bool
    var frontend: Frontend?
    var admin: Settings?

    /** `__construct` and `init`: load the options, run the migration, and
        register the hooks, which always happens since `update` always
        reports success. */
    constructor (stored: map<string, Value>, version: string)
      ensures fresh(config)
      ensures config.options == Migrated(stored, version)
      ensures config.currentVersion == version
      ensures hooksRegistered
      ensures frontend == null && admin == null
    {
      config := new Config(stored, version);
      hooksRegistered := false;
      frontend := null;
      admin := null;
      new;
      var updated := Update();
      if updated {
        hooksRegistered := true;
      }
    }

    /** `update`: migrate pre-1.0.6 options and record the running version. */
    method Update() returns (updated: bool)
      modifies config
      ensures updated
      ensures config.options == Migrated(old(config.options), config.currentVersion)
      ensures !NeedsLegacyMigration(old(config.options)) && MigrationEntries(old(config.options), config.currentVersion) == map[] ==>
                config.persisted == old(config.persisted)
      ensures NeedsLegacyMigration(old(config.options)) || MigrationEntries(old(config.options), config.currentVersion) != map[] ==>
                config.persisted == config.options
    {
      var before := config.options;
      var entries := MigrationEntries(before, config.currentVersion);
      if NeedsLegacyMigration(before) {
        var _ := config.DeleteOption(Names(["theme_auto", "badge_auto", "v2_checkbox_adjust_size"]));
        assert (set n | n in ["theme_auto", "badge_auto", "v2_checkbox_adjust_size"]) == LEGACY;
      }
      if entries != map[] {
        var _ := config.UpdateOption(Entries(entries), Null);
      }
      updated := true;
    }

    /** `load_frontend`: outside the admin screens, create the front-end
        component on the first call; every later call returns it. */
    method LoadFrontend(isAdmin: bool) returns (instance: Frontend?)
      modifies this`frontend
      ensures old(frontend) != null ==> frontend == old(frontend)
      ensures old(frontend) == null && !isAdmin ==> frontend != null && fresh(frontend) && frontend.config == config
      ensures old(frontend) == null && isAdmin ==> frontend == null
      ensures instance == frontend
    {
      if !isAdmin && frontend == null {
        frontend := new Frontend(config);
      }
      instance := frontend;
    }

    /** `load_admin`: on the admin screens, create the settings component on
        the first call; every later call returns it. */
    method LoadAdmin(isAdmin: bool, multisiteMain: bool) returns (instance: Settings?)
      modifies this`admin
      ensures old(admin) != null ==> admin == old(admin)
      ensures old(admin) == null && isAdmin ==> admin != null && fresh(admin) && admin.config == config
      ensures old(admin) == null && !isAdmin ==> admin == null
      ensures instance == admin
    {
      if isAdmin && admin == null {
        admin := new Settings(config, multisiteMain);
      }
      instance := admin;
    }
  }

  // ---------------------------------------------------------------------
  // What the migration does

  /** A blob without a previous version (a fresh install) only gets the
      running version written. */
  lemma FreshInstallWritesOnlyVersion(options: map<string, Value>, current: string)
    requires !Truthy(PreviousVersion(options))
    ensures Migrated(options, current) ==
              if VersionChanged(options, current) then StripDefaults(options + map["version" := Str(current)]) else options
  {
    var entries := MigrationEntries(options, current);
    if VersionChanged(options, current) {
      assert entries == map["version" := Str(current)];
    } else {
      assert entries == map[];
    }
  }

  /** The legacy flags and the version have no entry in the defaults
      table. */
  lemma NoDefault(k: string)
    requires k in LEGACY || k == "version"
    ensures k !in DEFAULTS
  {
  }

  /** Deleting some keys changes nothing `get_option` reads for the others. */
  lemma WithoutKeysKeepsOtherReads(options: map<string, Value>, names: set<string>, k: string, fallback: Value)
    requires k !in names
    ensures GetOption(WithoutKeys(options, names), k, fallback) == GetOption(options, k, fallback)
  {
    if k in options {
      assert k in WithoutKeys(options, names);
    }
  }

  /** What the migration leaves behind for one option, read via
      `get_option(k, '')`. */
  lemma {:induction false} MigratedRead(options: map<string, Value>, current: string, k: string)
    requires k !in LEGACY
    ensures GetOption(Migrated(options, current), k, Str("")) ==
              if k in MigrationEntries(options, current) && MigrationEntries(options, current)[k] != Null
              then (if k !in DEFAULTS && MigrationEntries(options, current)[k] == Str("") then Str("") else MigrationEntries(options, current)[k])
              else GetOption(options, k, Str(""))
  {
    var afterDelete := if NeedsLegacyMigration(options) then WithoutKeys(options, LEGACY) else options;
    var entries := MigrationEntries(options, current);
    WithoutKeysKeepsOtherReads(options, LEGACY, k, Str(""));
    assert GetOption(afterDelete, k, Str("")) == GetOption(options, k, Str(""));
    if entries != map[] {
      if k in entries && entries[k] != Null {
        var merged := afterDelete + entries;
        assert merged[k] == entries[k];
        StripDefaultsPreservesReads(merged, k);
      } else if k in entries {
        assert false;
      } else {
        UpdateKeepsOtherReads(afterDelete, entries, k);
      }
    }
  }

  /** Below 1.0.6 a truthy `theme_auto` makes the theme 'auto'; otherwise
      the theme reads as before. */
  lemma ThemeMigration(options: map<string, Value>, current: string)
    requires NeedsLegacyMigration(options)
    ensures GetOption(Migrated(options, current), "theme", Str("")) ==
              if Truthy(GetOption(options, "theme_auto", Bool(false))) then Str("auto") else GetOption(options, "theme", Str(""))
  {
    MigratedRead(options, current, "theme");
    assert "theme" in DEFAULTS;
  }

  /** Below 1.0.6 a truthy `badge_auto` makes the badge 'auto'. */
  lemma BadgeMigration(options: map<string, Value>, current: string)
    requires NeedsLegacyMigration(options)
    ensures GetOption(Migrated(options, current), "badge", Str("")) ==
              if Truthy(GetOption(options, "badge_auto", Bool(false))) then Str("auto") else GetOption(options, "badge", Str(""))
  {
    MigratedRead(options, current, "badge");
    assert "badge" in DEFAULTS;
  }

  /** Below 1.0.6 the checkbox size becomes 'auto' unless
      `v2_checkbox_adjust_size` was stored as a falsy value: an absent one
      counts as on. */
  lemma SizeMigration(options: map<string, Value>, current: string)
    requires NeedsLegacyMigration(options)
    ensures GetOption(Migrated(options, current), "v2_checkbox_size", Str("")) ==
              if Truthy(GetOption(options, "v2_checkbox_adjust_size", Bool(true))) then Str("auto")
              else GetOption(options, "v2_checkbox_size", Str(""))
    ensures "v2_checkbox_adjust_size" !in options ==> GetOption(Migrated(options, current), "v2_checkbox_size", Str("")) == Str("auto")
  {
    MigratedRead(options, current, "v2_checkbox_size");
    assert "v2_checkbox_size" in DEFAULTS;
    if "v2_checkbox_adjust_size" !in options {
      NoDefault("v2_checkbox_adjust_size");
    }
  }

  /** At 1.0.6 or later (or on a fresh install) the theme, badge and size
      are not touched. */
  lemma NoLegacyMigrationKeepsChoices(options: map<string, Value>, current: string, k: string)
    requires !NeedsLegacyMigration(options)
    requires k in {"theme", "badge", "v2_checkbox_size"}
    ensures GetOption(Migrated(options, current), k, Str("")) == GetOption(options, k, Str(""))
  {
    MigratedRead(options, current, k);
  }

  /** After a legacy migration none of the legacy options holds a value. */
  lemma LegacyKeysDeleted(options: map<string, Value>, current: string, k: string)
    requires NeedsLegacyMigration(options) && k in LEGACY
    ensures k in Migrated(options, current) ==> Migrated(options, current)[k] == Null
  {
    LegacyKeyNotWritten(options, current, k);
    MergeKeepsUnwritten(WithoutKeys(options, LEGACY), MigrationEntries(options, current), k);
  }

  /** The migration never writes a legacy flag. */
  lemma LegacyKeyNotWritten(options: map<string, Value>, current: string, k: string)
    requires k in LEGACY
    ensures k !in MigrationEntries(options, current)
  {
    assert k == "theme_auto" || k == "badge_auto" || k == "v2_checkbox_adjust_size";
  }

  /** A key the update does not write keeps its value, if it is kept. */
  lemma MergeKeepsUnwritten(options: map<string, Value>, entries: map<string, Value>, k: string)
    requires k !in entries
    ensures k in StripDefaults(options + entries) ==> k in options && StripDefaults(options + entries)[k] == options[k]
  {
  }

  /** Afterwards the stored version reads as the running one. */
  lemma VersionRecorded(options: map<string, Value>, current: string)
    ensures ParseVersion(AsString(GetOption(Migrated(options, current), "version", Str("")))) == ParseVersion(current)
  {
    MigratedRead(options, current, "version");
    NoDefault("version");
  }

  /** Every option the migration does not name reads as before. */
  lemma OtherOptionsUnchanged(options: map<string, Value>, current: string, k: string)
    requires k !in LEGACY && k !in {"theme", "badge", "v2_checkbox_size", "version"}
    ensures GetOption(Migrated(options, current), k, Str("")) == GetOption(options, k, Str(""))
  {
    MigratedRead(options, current, k);
  }

  /** Running the migration twice is running it once: the second run finds
      the running version recorded and nothing to migrate. */
  lemma MigrationSettles(options: map<string, Value>, current: string)
    requires !VersionLess(ParseVersion(current), MIGRATION_VERSION)
    ensures Migrated(Migrated(options, current), current) == Migrated(options, current)
  {
    var once := Migrated(options, current);
    VersionRecorded(options, current);
    assert !VersionChanged(once, current);
    assert MigrationEntries(once, current) == map[];
  }
}
