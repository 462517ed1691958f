/** The options store: one blob of option name -> value, with a fixed table
    of defaults. Only overrides of a default are ever kept in the blob. */
module Config {
  import opened Values

  const PREFIX: string := "cdr"

  /** Rotation interval -> ISO 8601 date format. */
  const DATE_FORMATS: map<string, string> := map[
    "daily" := "Y-m-d",
    "weekly" := "o-\\WW",
    "monthly" := "Y-m",
    "yearly" := "Y"
  ]

  /** The domains the API script and the verification endpoint may live on. */
  const DOMAINS: map<string, string> := map[
    "GOOGLE" := "google.com",
    "RECAPTCHA" := "recaptcha.net"
  ]

  const DEFAULTS: map<string, Value> := map[
    "recaptcha_version" := Str("v2_checkbox"),
    "recaptcha_domain" := Str("google.com"),
    "recaptcha_log" := Bool(false),
    "recaptcha_log_rotate_interval" := Str("monthly"),
    "recaptcha_log_ip" := Bool(true),
    "debug_log" := Bool(false),
    "debug_log_rotate_interval" := Str("monthly"),
    "debug_log_seperate" := Bool(false),
    "debug_log_min_level" := Int(2),
    "log_directory" := Str(""),
    "theme" := Str("light"),
    "badge" := Str("bottomright"),
    "v2_checkbox_size" := Str("normal"),
    "v2_checkbox_add_css" := Bool(true),
    "v3_script_load" := Str("all_pages"),
    "loggedin_hide" := Bool(true),
    "verify_origin" := Bool(false),
    "require_remote_ip" := Bool(true),
    "enabled_forms" := List([]),
    "action_login" := Str("login"),
    "action_registration" := Str("register"),
    "action_multisite_signup" := Str("multisite_signup"),
    "action_lost_password" := Str("lost_password"),
    "action_reset_password" := Str("reset_password"),
    "action_comment" := Str("comment"),
    "threshold_login" := Float(0.5),
    "threshold_registration" := Float(0.5),
    "threshold_multisite_signup" := Float(0.5),
    "threshold_lost_password" := Float(0.5),
    "threshold_reset_password" := Float(0.5),
    "threshold_comment" := Float(0.5)
  ]

  /** `get_default`: the table entry, or '' for an option without one. */
  function GetDefault(option: string): (d: Value)
    ensures d != Null
    ensures option !in DEFAULTS ==> d == Str("")
  {
    if option in DEFAULTS then DEFAULTS[option] else Str("")
  }

  /** `get_option`: a stored (non-null) value wins; otherwise the table's
      default, which takes precedence over the caller's fallback. */
  function GetOption(options: map<string, Value>, option: string, fallback: Value): (r: Value)
    ensures option in options && options[option] != Null ==> r == options[option]
    ensures (option !in options || options[option] == Null) && option in DEFAULTS ==> r == DEFAULTS[option]
    ensures (option !in options || options[option] == Null) && option !in DEFAULTS ==> r == fallback
  {
    var default := if option in DEFAULTS then DEFAULTS[option] else fallback;
    if option in options && options[option] != Null then options[option] else default
  }

  /** `get_domain`: the configured domain when it is one of DOMAINS, else
      the default one. */
  function GetDomain(options: map<string, Value>): (d: string)
    ensures d in DOMAINS.Values
    ensures GetOption(options, "recaptcha_domain", Str("")).Str? &&
            GetOption(options, "recaptcha_domain", Str("")).s in DOMAINS.Values ==>
              d == GetOption(options, "recaptcha_domain", Str("")).s
    ensures !(GetOption(options, "recaptcha_domain", Str("")) in [Str("google.com"), Str("recaptcha.net")]) ==>
              d == "google.com"
  {
    var domain := GetOption(options, "recaptcha_domain", Str(""));
    assert DOMAINS["GOOGLE"] == "google.com" && DOMAINS["RECAPTCHA"] == "recaptcha.net";
    if domain == Str("google.com") || domain == Str("recaptcha.net") then domain.s else "google.com"
  }

  /** `get_date_format`. */
  function GetDateFormat(kind: string): (f: string)
    ensures f in DATE_FORMATS.Values
    ensures kind in DATE_FORMATS ==> f == DATE_FORMATS[kind]
    ensures kind !in {"daily", "weekly", "monthly", "yearly"} ==> f == "Y-m"
  {
    if kind in DATE_FORMATS then DATE_FORMATS[kind] else DATE_FORMATS["monthly"]
  }

  const V2_ERROR_MSG: string := "The CAPTCHA solution you provided was incorrect."
  const V3_ERROR_MSG: string := "reCAPTCHA v3 returns a score based on your interaction with this site. Your score did not meet our threshold requirement set for this particular action."

  /** `get_default_error_msg` (untranslated). */
  function GetDefaultErrorMsg(version: Value): (m: string)
    ensures m != "" <==> version in [Str("v2_checkbox"), Str("v2_invisible"), Str("v3")]
    ensures version == Str("v3") ==> m == V3_ERROR_MSG
    ensures m == V2_ERROR_MSG <==> version == Str("v2_checkbox") || version == Str("v2_invisible")
  {
    match version
    case Str(s) =>
      if s == "v2_checkbox" || s == "v2_invisible" then V2_ERROR_MSG
      else if s == "v3" then V3_ERROR_MSG
      else ""
    case _ => ""
  }

  /** What `update_option` keeps of a merged blob: every entry that differs
      from its default. */
  function StripDefaults(merged: map<string, Value>): (kept: map<string, Value>)
    ensures kept.Keys <= merged.Keys
    ensures forall k :: k in kept ==> kept[k] == merged[k] && kept[k] != GetDefault(k)
    ensures forall k :: k in merged && merged[k] != GetDefault(k) ==> k in kept
  {
    map k | k in merged && merged[k] != GetDefault(k) :: merged[k]
  }

  /** What `delete_option` leaves: the `isset` test skips keys that are
      absent or hold null, so a null entry survives. */
  function WithoutKeys(options: map<string, Value>, names: set<string>): (left: map<string, Value>)
    ensures left.Keys <= options.Keys
    ensures forall k :: k in left ==> left[k] == options[k]
    ensures forall k :: k in options && k !in names ==> k in left
    ensures forall k :: k in names && k in left ==> left[k] == Null
  {
    map k | k in options && (k !in names || options[k] == Null) :: options[k]
  }

  /** The first argument of `update_option`: absent (null), one option name
      (paired with the second argument), or an array of name => value. */
  datatype UpdateArg = NoOption | Name(name: string) | Entries(entries: map<string, Value>)

  /** The argument of `delete_option`: absent, one name, or an array of names. */
  datatype DeleteArg = NoNames | OneName(name: string) | Names(names: seq<string>)

  predicate UpdateArgEmpty(arg: UpdateArg) {
    match arg
    case NoOption => true
    case Name(n) => EmptyString(n)
    case Entries(e) => e == map[]
  }

  predicate DeleteArgEmpty(arg: DeleteArg) {
    match arg
    case NoNames => true
    case OneName(n) => EmptyString(n)
    case Names(ns) => ns == []
  }

  function UpdateEntries(arg: UpdateArg, value: Value): map<string, Value> {
    match arg
    case NoOption => map[]
    case Name(n) => map[n := value]
    case Entries(e) => e
  }

  function DeleteNames(arg: DeleteArg): seq<string> {
    match arg
    case NoNames => []
    case OneName(n) => [n]
    case Names(ns) => ns
  }

  /** Reading through `get_option` with '' as the fallback cannot tell a
      stripped blob from the unstripped one. */
  lemma StripDefaultsPreservesReads(merged: map<string, Value>, k: string)
    ensures GetOption(StripDefaults(merged), k, Str("")) == GetOption(merged, k, Str(""))
  {
    if k in merged && merged[k] != Null && merged[k] == GetDefault(k) {
      assert k !in StripDefaults(merged);
    }
  }

  /** Round trip of the merge `update_option([k => v])` performs, followed
      by `get_option(k, d)`: v comes back, except that a value equal to ''
      for an option without a default is dropped and the caller's fallback
      is read instead, and a stored null reads as if nothing were stored. */
  lemma UpdateRoundTrip(options: map<string, Value>, k: string, v: Value, fallback: Value)
    ensures GetOption(StripDefaults(options + map[k := v]), k, fallback) ==
              if v == Null then (if k in DEFAULTS then DEFAULTS[k] else fallback)
              else if k !in DEFAULTS && v == Str("") then fallback
              else v
  {
    var merged := options + map[k := v];
    if v == GetDefault(k) {
      assert k !in StripDefaults(merged);
    } else {
      assert k in StripDefaults(merged);
    }
  }

  /** Round trip for an array argument: each entry of the update that is not
      null and differs from its default is what `get_option` reads back. */
  lemma UpdatedEntryRead(options: map<string, Value>, entries: map<string, Value>, k: string, fallback: Value)
    requires k in entries && entries[k] != Null && entries[k] != GetDefault(k)
    ensures GetOption(StripDefaults(options + entries), k, fallback) == entries[k]
  {
    assert (options + entries)[k] == entries[k];
  }

  /** An option the update does not name keeps what `get_option` reads
      for it. */
  lemma UpdateKeepsOtherReads(options: map<string, Value>, entries: map<string, Value>, k: string)
    requires k !in entries
    ensures GetOption(StripDefaults(options + entries), k, Str("")) == GetOption(options, k, Str(""))
  {
    StripDefaultsPreservesReads(options + entries, k);
  }

  /** The options store (`Config`): the blob loaded at start-up, and what was
      last handed to storage. */
  class Config {
    var options: map<string, Value>
    var persisted: map<string, Value>
    const currentVersion: string

    /** `__construct`: the blob as read from site or network storage, and the
        plugin header's version. */
    constructor (stored: map<string, Value>, version: string)
      ensures options == stored && persisted == stored && currentVersion == version
    {
      options := stored;
      persisted := stored;
      currentVersion := version;
    }

    /** `save_options`: hands the blob to WordPress's `update_option`, which
        reports false when the stored value did not change. */
    method SaveOptions() returns (ok: bool)
      modifies this`persisted
      ensures persisted == options
      ensures ok == (old(persisted) != options)
    {
      ok := persisted != options;
      persisted := options;
    }

    /** `update_option`: merge the new entries over the blob (new values win),
        drop every entry equal to its default, and save. */
    method UpdateOption(option: UpdateArg, value: Value) returns (ok: bool)
      modifies this`options, this`persisted
      ensures UpdateArgEmpty(option) ==>
                !ok && options == old(options) && persisted == old(persisted)
      ensures !UpdateArgEmpty(option) ==>
                && options == StripDefaults(old(options) + UpdateEntries(option, value))
                && persisted == options
                && ok == (old(persisted) != options)
    {
      if option.NoOption? { return false; }
      if UpdateArgEmpty(option) { return false; }

      var merged := options + UpdateEntries(option, value);
      var kept := merged;
      var pending := merged.Keys;
      while pending != {}
        invariant pending <= merged.Keys
        invariant kept.Keys <= merged.Keys
        invariant forall k :: k in kept ==> kept[k] == merged[k]
        invariant forall k :: k in pending ==> k in kept
        invariant forall k :: k in merged && k !in pending ==> (k in kept <==> merged[k] != GetDefault(k))
        decreases pending
      {
        var k :| k in pending;
        if GetDefault(k) == kept[k] {
          kept := kept - {k};
        }
        pending := pending - {k};
      }
      assert kept == StripDefaults(merged);
      options := kept;
      ok := SaveOptions();
    }

    /** `delete_option`: unset each listed option that is set, and save. */
    method DeleteOption(option: DeleteArg) returns (ok: bool)
      modifies this`options, this`persisted
      ensures DeleteArgEmpty(option) ==>
                !ok && options == old(options) && persisted == old(persisted)
      ensures !DeleteArgEmpty(option) ==>
                && options == WithoutKeys(old(options), set n | n in DeleteNames(option))
                && persisted == options
                && ok == (old(persisted) != options)
    {
      if option.NoNames? { return false; }
      if DeleteArgEmpty(option) { return false; }

      var names := DeleteNames(option);
      var i := 0;
      while i < |names|
        invariant 0 <= i <= |names|
        invariant options == WithoutKeys(old(options), set n | n in names[..i])
        invariant persisted == old(persisted)
      {
        var o := names[i];
        if o in options && options[o] != Null {
          options := options - {o};
        }
        assert names[..i + 1] == names[..i] + [o];
        i := i + 1;
      }
      assert names[..i] == names;
      ok := SaveOptions();
    }
  }
}
