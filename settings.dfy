/** The admin settings screen's data side: the field table, the defaults
    every field is filled with, and the sanitizers that posted values pass
    through before `update_option` stores them. */
module Settings {
  import opened Values
  import opened Config

  // ---------------------------------------------------------------------
  // Action names

  /** The characters an action name may contain: `[A-Za-z0-9_/]`. */
  predicate Allowed(c: char) {
    ('a' <= c <= 'z') || ('A' <= c <= 'Z') || ('0' <= c <= '9') || c == '_' || c == '/'
  }

  predicate AllAllowed(s: string) {
    forall i :: 0 <= i < |s| ==> Allowed(s[i])
  }

  /** The `preg_replace` of `sanitize_action_name`: every run of disallowed
      characters is replaced by nothing. */
  function StripDisallowed(s: string): (r: string)
    ensures AllAllowed(r)
    ensures |r| <= |s|
  {
    if s == [] then []
    else if Allowed(s[0]) then [s[0]] + StripDisallowed(s[1..])
    else StripDisallowed(s[1..])
  }

  /** Exactly the allowed characters of the input survive. */
  lemma {:induction false} StripKeepsExactlyAllowed(s: string, c: char)
    ensures c in StripDisallowed(s) <==> c in s && Allowed(c)
  {
    if s != [] {
      StripKeepsExactlyAllowed(s[1..], c);
      assert c in s <==> c == s[0] || c in s[1..];
    }
  }

  /** `a` is `b` with some characters taken out, order kept. */
  predicate IsSubsequence(a: string, b: string)
    decreases |b|
  {
    if a == [] then true
    else if b == [] then false
    else if a[0] == b[0] then IsSubsequence(a[1..], b[1..])
    else IsSubsequence(a, b[1..])
  }

  /** Stripping keeps the input's characters in their order. */
  lemma {:induction false} StripIsSubsequence(s: string)
    ensures IsSubsequence(StripDisallowed(s), s)
  {
    if s != [] {
      StripIsSubsequence(s[1..]);
    }
  }

  /** Stripping works character by character: it distributes over
      concatenation, so it removes exactly the disallowed characters. */
  lemma {:induction false} StripConcat(a: string, b: string)
    ensures StripDisallowed(a + b) == StripDisallowed(a) + StripDisallowed(b)
  {
    if a == [] {
      assert a + b == b;
    } else {
      assert (a + b)[0] == a[0] && (a + b)[1..] == a[1..] + b;
      StripConcat(a[1..], b);
    }
  }

  /** A name made only of allowed characters is left as it is. */
  lemma {:induction false} StripKeepsAllowed(s: string)
    requires AllAllowed(s)
    ensures StripDisallowed(s) == s
  {
    if s != [] {
      assert AllAllowed(s[1..]) by {
        forall i | 0 <= i < |s[1..]| ensures Allowed(s[1..][i]) {
          assert s[1..][i] == s[i + 1];
        }
      }
      StripKeepsAllowed(s[1..]);
    }
  }

  /** `sanitize_action_name`: strip, then fall back to the default when the
      result is empty in PHP's sense (which includes "0"). */
  function SanitizeActionName(name: string, default: string): (r: string)
    ensures r == default || (AllAllowed(r) && !EmptyString(r))
    ensures r == default <== EmptyString(StripDisallowed(name))
    ensures !EmptyString(StripDisallowed(name)) ==> r == StripDisallowed(name)
  {
    var stripped := StripDisallowed(name);
    if EmptyString(stripped) then default else stripped
  }

  /** Sanitizing a sanitized name changes nothing, provided the default is
      itself a valid action name. */
  lemma SanitizeActionNameIdempotent(name: string, default: string)
    requires AllAllowed(default)
    ensures SanitizeActionName(SanitizeActionName(name, default), default) == SanitizeActionName(name, default)
  {
    var once := SanitizeActionName(name, default);
    StripKeepsAllowed(once);
  }

  /** A hyphen is dropped: "lo-gin" becomes "login". */
  lemma SanitizeHyphenExample()
    ensures SanitizeActionName("lo-gin", "x") == "login"
  {
    StripHyphen();
  }

  lemma StripHyphen()
    ensures StripDisallowed("lo-gin") == "login"
  {
    assert "lo-gin"[1..] == "o-gin";
  }

  /** A name with no allowed character, or one that strips to "0", falls
      back to the default. */
  lemma SanitizeFallbackExamples()
    ensures SanitizeActionName("!!!", "login") == "login"
    ensures SanitizeActionName("0", "login") == "login"
  {
    assert StripDisallowed("!!!") == "";
    assert StripDisallowed("0") == "0";
  }

  /** The action-name callback on whatever was posted. On a scalar it is
      `sanitize_action_name`. `preg_replace` given an array strips every
      element, each taken as a string, and keeps the keys; `empty` then
      replaces only an empty array by the default. */
  function SanitizeActionValue(value: Value, default: string): (r: Value)
    ensures !IsArray(value) ==> r == Str(SanitizeActionName(AsString(value), default))
    ensures IsArray(value) && IsEmpty(value) ==> r == Str(default)
    ensures value.List? && value.items != [] ==>
              && r.List? && |r.items| == |value.items|
              && (forall i :: 0 <= i < |r.items| ==> r.items[i].Str? && AllAllowed(r.items[i].s))
              && (forall i :: 0 <= i < |r.items| ==> r.items[i] == Str(StripDisallowed(AsString(value.items[i]))))
    ensures value.Dict? && value.entries != map[] ==>
              && r.Dict? && r.entries.Keys == value.entries.Keys
              && (forall k :: k in r.entries ==> r.entries[k].Str? && AllAllowed(r.entries[k].s))
              && (forall k :: k in r.entries ==> r.entries[k] == Str(StripDisallowed(AsString(value.entries[k]))))
  {
    match value
    case List(items) =>
      if items == [] then Str(default)
      else List(seq(|items|, i requires 0 <= i < |items| => Str(StripDisallowed(AsString(items[i])))))
    case Dict(entries) =>
      if entries == map[] then Str(default)
      else Dict(map k | k in entries :: Str(StripDisallowed(AsString(entries[k]))))
    case _ => Str(SanitizeActionName(AsString(value), default))
  }

  /** A posted array of names: each element is stripped on its own. */
  lemma ActionArrayExample()
    ensures SanitizeActionValue(List([Str("lo-gin")]), "x") == List([Str("login")])
  {
    StripHyphen();
    var r := SanitizeActionValue(List([Str("lo-gin")]), "x");
    assert r.items[0] == Str("login");
  }

  /** Sanitizing a sanitized value changes nothing, arrays included,
      provided the default is itself a valid action name. */
  lemma SanitizeActionValueIdempotent(value: Value, default: string)
    requires AllAllowed(default)
    ensures SanitizeActionValue(SanitizeActionValue(value, default), default) == SanitizeActionValue(value, default)
  {
    var once := SanitizeActionValue(value, default);
    match once
    case List(items) =>
      var twice := SanitizeActionValue(once, default);
      forall i | 0 <= i < |items| ensures twice.items[i] == items[i] {
        StripKeepsAllowed(items[i].s);
      }
    case Dict(entries) =>
      var twice := SanitizeActionValue(once, default);
      forall k | k in entries ensures twice.entries[k] == entries[k] {
        StripKeepsAllowed(entries[k].s);
      }
    case Str(name) =>
      StripKeepsAllowed(name);
    case _ =>
  }

  // ---------------------------------------------------------------------
  // Fields

  /** The field-level `sanitize_callback`s: an action-name closure with the
      option's default as fallback, or `sanitize_threshold_value`. */
  datatype Sanitizer = ActionName(fallback: string) | Threshold

  /** A field attribute: text, the `std` value, the keys of the `options`
      table, or a `sanitize_callback`. */
  datatype Attr = Text(text: string) | Std(value: Value) | Choices(keys: set<string>) | Callback(sanitizer: Sanitizer)

  /** A field definition: attribute name -> attribute. */
  type Field = map<string, Attr>

  /** The attributes `get_fields` fills in when a definition lacks them. */
  function FieldDefaults(id: string): Field {
    map[
      "id" := Text(id),
      "label" := Text(""),
      "cb_label" := Text(""),
      "type" := Text("text"),
      "class" := Text("regular-text"),
      "section_id" := Text(""),
      "desc" := Text(""),
      "std" := Std(Str(""))
    ]
  }

  /** `wp_parse_args($field, defaults)`: the given attributes win; missing
      ones come from the defaults. */
  function WithDefaults(id: string, raw: Field): (f: Field)
    ensures f.Keys == raw.Keys + FieldDefaults(id).Keys
    ensures forall a :: a in raw ==> f[a] == raw[a]
    ensures forall a :: a in FieldDefaults(id) && a !in raw ==> f[a] == FieldDefaults(id)[a]
  {
    FieldDefaults(id) + raw
  }

  /** Filling in defaults twice is filling them in once. */
  lemma WithDefaultsIdempotent(id: string, raw: Field)
    ensures WithDefaults(id, WithDefaults(id, raw)) == WithDefaults(id, raw)
  {
  }

  /** The loop at the end of `get_fields`. */
  method NormaliseFields(raw: map<string, Field>) returns (fields: map<string, Field>)
    ensures fields.Keys == raw.Keys
    ensures forall id :: id in raw ==> fields[id] == WithDefaults(id, raw[id])
  {
    fields := raw;
    var pending := raw.Keys;
    while pending != {}
      invariant pending <= raw.Keys
      invariant fields.Keys == raw.Keys
      invariant forall id :: id in raw && id !in pending ==> fields[id] == WithDefaults(id, raw[id])
      decreases pending
    {
      var id :| id in pending;
      fields := fields[id := WithDefaults(id, raw[id])];
      pending := pending - {id};
    }
  }

  function FieldType(f: Field): string {
    if "type" in f && f["type"].Text? then f["type"].text else ""
  }

  /** The keys of the field's `options` table (none when it has no table). */
  function OptionKeys(f: Field): set<string> {
    if "options" in f && f["options"].Choices? then f["options"].keys else {}
  }

  /** `$field['std'] ?? ''`. */
  function StdValue(f: Field): Value {
    if "std" in f && f["std"].Std? && f["std"].value != Null then f["std"].value else Str("")
  }

  function CallbackOf(f: Field): Option<Sanitizer> {
    if "sanitize_callback" in f && f["sanitize_callback"].Callback? then Some(f["sanitize_callback"].sanitizer)
    else None
  }

  function SelectField(section: string, css: string, std: Value, keys: set<string>): Field {
    map["section_id" := Text(section), "type" := Text("select"), "class" := Text(css),
        "std" := Std(std), "options" := Choices(keys)]
  }

  function CheckboxField(section: string, css: string): Field {
    map["section_id" := Text(section), "type" := Text("checkbox"), "class" := Text(css)]
  }

  function TextField(section: string, css: string): Field {
    map["section_id" := Text(section), "class" := Text(css)]
  }

  function TextareaField(css: string): Field {
    map["section_id" := Text("general"), "type" := Text("textarea"), "class" := Text(css)]
  }

  function ActionField(option: string): Field {
    map["section_id" := Text("actions"), "class" := Text("regular hidden show-field-for-v3"),
        "sanitize_callback" := Callback(ActionName(AsString(GetDefault(option))))]
  }

  /** The keys of the score table built by the 0.0, 0.1, ..., 1.0 loop. */
  const SCORE_KEYS: set<string> := {"0", "0.1", "0.2", "0.3", "0.4", "0.5", "0.6", "0.7", "0.8", "0.9", "1"}

  function ThresholdField(option: string): Field {
    SelectField("thresholds", "regular hidden show-field-for-v3", GetDefault(option), SCORE_KEYS)
      ["sanitize_callback" := Callback(Threshold)]
  }

  const VERSIONS: set<string> := {"v2_checkbox", "v2_invisible", "v3"}

  /** The version select as the source writes it: its `std` asks for the
      default of 'captcha_version', an option that does not exist, so it
      is ''. */
  function VersionFieldAsWritten(): Field {
    SelectField("general", "regular", GetDefault("captcha_version"), VERSIONS)
  }

  /** The version select with the default evidently meant: that of
      'recaptcha_version'. */
  function VersionField(): Field {
    SelectField("general", "regular", GetDefault("recaptcha_version"), VERSIONS)
  }

  const FORM_KEYS: set<string> := {"login", "registration", "lost_password", "reset_password", "comment"}

  /** The definitions `get_fields` starts from (labels, descriptions and
      placeholders left out). On the main site of a network the multisite
      signup form and its action and threshold fields are added. */
  function RawFields(multisiteMain: bool): (r: map<string, Field>)
    ensures "recaptcha_version" in r && r["recaptcha_version"] == VersionField()
    ensures "enabled_forms" in r && r["enabled_forms"] == EnabledFormsField(multisiteMain)
    ensures multisiteMain ==> "action_multisite_signup" in r && "threshold_multisite_signup" in r
  {
    var base := SingleSiteFields();
    var sites := if multisiteMain then
        base["action_multisite_signup" := ActionField("action_multisite_signup")]
            ["threshold_multisite_signup" := ThresholdField("threshold_multisite_signup")]
      else base;
    ReplaceField(ReplaceField(sites, "enabled_forms", EnabledFormsField(multisiteMain)), "recaptcha_version", VersionField())
  }

  /** The forms the multicheck offers. */
  function EnabledFormsField(multisiteMain: bool): (f: Field)
    ensures FieldType(f) == "multicheck"
    ensures OptionKeys(f) == if multisiteMain then FORM_KEYS + {"ms_user_signup"} else FORM_KEYS
  {
    map["section_id" := Text("forms"), "type" := Text("multicheck"), "class" := Text("checkbox"),
        "options" := Choices(if multisiteMain then FORM_KEYS + {"ms_user_signup"} else FORM_KEYS)]
  }

  /** The fields every site has, other than the version select and the
      forms multicheck. */
  function SingleSiteFields(): map<string, Field> {
    map[
      "v2_checkbox_site_key" := TextField("general", "hidden regular-text show-field-for-v2_checkbox"),
      "v2_checkbox_secret_key" := TextField("general", "hidden regular-text show-field-for-v2_checkbox"),
      "v2_invisible_site_key" := TextField("general", "hidden regular-text show-field-for-v2_invisible"),
      "v2_invisible_secret_key" := TextField("general", "hidden regular-text show-field-for-v2_invisible"),
      "v3_site_key" := TextField("general", "hidden regular-text show-field-for-v3"),
      "v3_secret_key" := TextField("general", "hidden regular-text show-field-for-v3"),
      "v2_checkbox_error_message" := TextareaField("hidden regular-text show-field-for-v2_checkbox"),
      "v2_invisible_error_message" := TextareaField("hidden regular-text show-field-for-v2_invisible"),
      "v3_error_message" := TextareaField("hidden regular-text show-field-for-v3"),
      "loggedin_hide" := CheckboxField("general", "checkbox"),
      "recaptcha_domain" := SelectField("general", "regular", GetDefault("recaptcha_domain"), {"google.com", "recaptcha.net"}),
      "verify_origin" := CheckboxField("general", "checkbox"),
      "v3_script_load" := SelectField("general", "regular hidden show-field-for-v3", GetDefault("v3_script_load"), {"all_pages", "form_pages"}),
      "recaptcha_log" := CheckboxField("general", "checkbox"),
      "action_login" := ActionField("action_login"),
      "action_registration" := ActionField("action_registration"),
      "action_lost_password" := ActionField("action_lost_password"),
      "action_reset_password" := ActionField("action_reset_password"),
      "action_comment" := ActionField("action_comment"),
      "threshold_login" := ThresholdField("threshold_login"),
      "threshold_registration" := ThresholdField("threshold_registration"),
      "threshold_lost_password" := ThresholdField("threshold_lost_password"),
      "threshold_reset_password" := ThresholdField("threshold_reset_password"),
      "threshold_comment" := ThresholdField("threshold_comment"),
      "language" := TextField("other", "small-text"),
      "theme" := SelectField("other", "regular", GetDefault("theme"), {"light", "dark", "auto"}),
      "badge" := SelectField("other", "regular hidden show-field-for-v2_invisible show-field-for-v3", GetDefault("badge"),
                             {"bottomright", "bottomleft", "inline", "auto"}),
      "v2_checkbox_size" := SelectField("other", "regular hidden show-field-for-v2_checkbox", GetDefault("v2_checkbox_size"),
                                        {"normal", "compact", "auto"}),
      "v2_checkbox_add_css" := CheckboxField("other", "checkbox hidden show-field-for-v2_checkbox")
    ]
  }

  /** `get_fields` exactly as written: the same table with the version
      select's as-written fallback. */
  function RawFieldsAsWritten(multisiteMain: bool): (r: map<string, Field>)
    ensures "recaptcha_version" in r && r["recaptcha_version"] == VersionFieldAsWritten()
    ensures forall id :: id in r && id != "recaptcha_version" ==> id in RawFields(multisiteMain) && r[id] == RawFields(multisiteMain)[id]
  {
    ReplaceField(RawFields(multisiteMain), "recaptcha_version", VersionFieldAsWritten())
  }

  /** A table with one field replaced. */
  function ReplaceField(table: map<string, Field>, id: string, f: Field): (r: map<string, Field>)
    ensures r.Keys == table.Keys + {id}
    ensures id in r && r[id] == f
    ensures forall other :: other in r && other != id ==> other in table && r[other] == table[other]
  {
    table[id := f]
  }

  // ---------------------------------------------------------------------
  // Posted values

  /** The WordPress and PHP helpers the sanitizers call and this model does
      not define: `sanitize_text_field(trim(...))`, `esc_url`,
      `sanitize_textarea_field`, `intval` of a non-integer and `floatval`. */
  datatype Foreign = Foreign(
    sanitizeTextField: Value -> string,
    escUrl: Value -> string,
    sanitizeTextareaField: Value -> string,
    intval: Value -> int,
    floatval: Value -> real)

  /** `array_key_exists($v, $options)` for a table with string keys: PHP
      turns a null key into '', a bool or float into an integer, and an
      integer-like string key into that integer. An array is not a key. */
  predicate IsOptionKey(v: Value, keys: set<string>) {
    match v
    case Null => "" in keys
    case Bool(b) => (if b then "1" else "0") in keys
    case Int(i) => IntToString(i) in keys
    case Float(r) => IntToString(if r >= 0.0 then r.Floor else -((-r).Floor)) in keys
    case Str(s) => s in keys
    case List(_) => false
    case Dict(_) => false
  }

  /** `array_filter` without a callback: the truthy entries, in order. */
  function TruthyItems(items: seq<Value>): (r: seq<Value>)
    ensures forall x :: x in r <==> x in items && Truthy(x)
  {
    if items == [] then []
    else
      var last := items[|items| - 1];
      TruthyItems(items[..|items| - 1]) + (if Truthy(last) then [last] else [])
  }

  /** The entries that are keys of the option table, in order. */
  function OptionItems(items: seq<Value>, keys: set<string>): (r: seq<Value>)
    ensures forall x :: x in r <==> x in items && IsOptionKey(x, keys)
    ensures |r| <= |items|
  {
    if items == [] then []
    else
      var last := items[|items| - 1];
      OptionItems(items[..|items| - 1], keys) + (if IsOptionKey(last, keys) then [last] else [])
  }

  /** `array_filter` works entry by entry: it distributes over
      concatenation, so it keeps order and multiplicity. */
  lemma {:induction false} TruthyItemsConcat(a: seq<Value>, b: seq<Value>)
    ensures TruthyItems(a + b) == TruthyItems(a) + TruthyItems(b)
    decreases |b|
  {
    if b == [] {
      assert a + b == a;
    } else {
      var last := b[|b| - 1];
      assert (a + b)[..|a + b| - 1] == a + b[..|b| - 1];
      assert (a + b)[|a + b| - 1] == last;
      TruthyItemsConcat(a, b[..|b| - 1]);
    }
  }

  lemma {:induction false} OptionItemsConcat(a: seq<Value>, b: seq<Value>, keys: set<string>)
    ensures OptionItems(a + b, keys) == OptionItems(a, keys) + OptionItems(b, keys)
    decreases |b|
  {
    if b == [] {
      assert a + b == a;
    } else {
      var last := b[|b| - 1];
      assert (a + b)[..|a + b| - 1] == a + b[..|b| - 1];
      assert (a + b)[|a + b| - 1] == last;
      OptionItemsConcat(a, b[..|b| - 1], keys);
    }
  }

  /** The multicheck filter, entry by entry: a single entry survives
      exactly when it is truthy and a key of the table, and the filter of a
      concatenation is the concatenation of the filters. Together these fix
      the result: the surviving entries, each as often as it was posted, in
      the posted order. */
  lemma MulticheckFilter(a: seq<Value>, b: seq<Value>, keys: set<string>)
    ensures OptionItems(TruthyItems(a + b), keys) ==
            OptionItems(TruthyItems(a), keys) + OptionItems(TruthyItems(b), keys)
  {
    TruthyItemsConcat(a, b);
    OptionItemsConcat(TruthyItems(a), TruthyItems(b), keys);
  }

  lemma MulticheckSingle(x: Value, keys: set<string>)
    ensures OptionItems(TruthyItems([x]), keys) == if Truthy(x) && IsOptionKey(x, keys) then [x] else []
  {
    assert [x][..0] == [];
  }

  /** The multicheck branch on a list: drop the falsy entries, then every
      entry that is not a key of the option table. */
  method SanitizeMulticheck(items: seq<Value>, keys: set<string>) returns (kept: seq<Value>)
    ensures kept == OptionItems(TruthyItems(items), keys)
    ensures forall x :: x in kept <==> x in items && Truthy(x) && IsOptionKey(x, keys)
  {
    var filtered := TruthyItems(items);
    kept := [];
    var i := 0;
    while i < |filtered|
      invariant 0 <= i <= |filtered|
      invariant kept == OptionItems(filtered[..i], keys)
    {
      assert filtered[..i + 1][..i] == filtered[..i];
      if IsOptionKey(filtered[i], keys) {
        kept := kept + [filtered[i]];
      }
      i := i + 1;
    }
    assert filtered[..i] == filtered;
  }

  /** `posted_value_sanitize`, by field type. */
  function PostedValue(value: Value, field: Field, foreign: Foreign): Value {
    var t := FieldType(field);
    if t == "text" || t == "hidden" then Str(foreign.sanitizeTextField(value))
    else if t == "url" then Str(foreign.escUrl(value))
    else if t == "number" then
      var n := if value.Int? then value.i else foreign.intval(value);
      Int(if n < 0 then -n else n)
    else if t == "textarea" || t == "wp_editor" || t == "teeny" then Str(foreign.sanitizeTextareaField(value))
    else if t == "checkbox" then Bool(Truthy(value))
    else if t == "multicheck" then
      match value
      case List(items) => List(OptionItems(TruthyItems(items), OptionKeys(field)))
      case Dict(entries) =>
        Dict(map k | k in entries && Truthy(entries[k]) && IsOptionKey(entries[k], OptionKeys(field)) :: entries[k])
      case _ => List([])
    else if t == "select" then
      if IsOptionKey(value, OptionKeys(field)) then value else StdValue(field)
    else value
  }

  /** The select branch always yields a key of the table, provided the
      field's `std` is one. */
  lemma SelectYieldsOptionKey(value: Value, field: Field, foreign: Foreign)
    requires FieldType(field) == "select" && IsOptionKey(StdValue(field), OptionKeys(field))
    ensures IsOptionKey(PostedValue(value, field, foreign), OptionKeys(field))
    ensures IsOptionKey(value, OptionKeys(field)) ==> PostedValue(value, field, foreign) == value
  {
  }

  /** `posted_value_sanitize` as the source runs it, with the multicheck
      loop. */
  method PostedValueSanitize(value: Value, field: Field, foreign: Foreign) returns (sanitized: Value)
    ensures sanitized == PostedValue(value, field, foreign)
    ensures FieldType(field) == "checkbox" ==> sanitized == Bool(Truthy(value))
    ensures FieldType(field) == "multicheck" && !IsArray(value) ==> sanitized == List([])
    ensures FieldType(field) == "multicheck" && value.List? ==>
              sanitized.List? &&
              forall x :: x in sanitized.items <==> x in value.items && Truthy(x) && IsOptionKey(x, OptionKeys(field))
    ensures FieldType(field) == "select" ==>
              sanitized == if IsOptionKey(value, OptionKeys(field)) then value else StdValue(field)
  {
    var t := FieldType(field);
    if t == "multicheck" {
      match value
      case List(items) =>
        var kept := SanitizeMulticheck(items, OptionKeys(field));
        sanitized := List(kept);
      case Dict(entries) =>
        sanitized := Dict(map k | k in entries && Truthy(entries[k]) && IsOptionKey(entries[k], OptionKeys(field)) :: entries[k]);
      case _ =>
        sanitized := List([]);
    } else {
      sanitized := PostedValue(value, field, foreign);
    }
  }

  /** What a field's `sanitize_callback` returns. */
  function ApplyCallback(sanitizer: Sanitizer, value: Value, foreign: Foreign): (r: Value)
    ensures sanitizer.Threshold? ==> r.Float?
    ensures sanitizer.ActionName? && !IsArray(value) ==>
              r.Str? && (r.s == sanitizer.fallback || (AllAllowed(r.s) && !EmptyString(r.s)))
    ensures sanitizer.ActionName? && IsArray(value) && !IsEmpty(value) ==> IsArray(r)
  {
    match sanitizer
    case ActionName(fallback) => SanitizeActionValue(value, fallback)
    case Threshold => Float(foreign.floatval(value))
  }

  /** What `options_sanitize` makes of one posted entry. */
  function SanitizedEntry(fields: map<string, Field>, slug: string, value: Value, foreign: Foreign): (r: Value)
    ensures slug !in fields ==> r == value
    ensures slug in fields && CallbackOf(fields[slug]).None? && FieldType(fields[slug]) == "checkbox" ==> r == Bool(Truthy(value))
  {
    if slug in fields then
      match CallbackOf(fields[slug])
      case Some(sanitizer) => ApplyCallback(sanitizer, value, foreign)
      case None => PostedValue(value, fields[slug], foreign)
    else value
  }

  /** The admin settings component (`Admin\Settings`). */
  class Settings {
    const config: Config
    const fields: map<string, Field>

    /** `__construct` / `init`: build the normalised field table. */
    constructor (config: Config, multisiteMain: bool)
      ensures this.config == config
      ensures fields.Keys == RawFields(multisiteMain).Keys
      ensures forall id :: id in fields ==> fields[id] == WithDefaults(id, RawFields(multisiteMain)[id])
      ensures "recaptcha_version" in fields && fields["recaptcha_version"] == WithDefaults("recaptcha_version", VersionField())
    {
      this.config := config;
      var normalised := NormaliseFields(RawFields(multisiteMain));
      fields := normalised;
    }

    /** `options_sanitize`: every posted entry goes through its field's
        callback or `posted_value_sanitize`; entries without a field, and
        input that is empty or not an array, pass through. */
    method OptionsSanitize(value: Value, foreign: Foreign) returns (r: Value)
      ensures IsEmpty(value) || !value.Dict? ==> r == value
      ensures !IsEmpty(value) && value.Dict? ==>
                && r.Dict?
                && r.entries.Keys == value.entries.Keys
                && (forall k :: k in value.entries && k !in fields ==> r.entries[k] == value.entries[k])
                && (forall k :: k in value.entries ==> r.entries[k] == SanitizedEntry(fields, k, value.entries[k], foreign))
    {
      if IsEmpty(value) || !IsArray(value) {
        return value;
      }
      if value.List? {
        // Integer keys never name a field.
        return value;
      }
      var posted := value.entries;
      var out := posted;
      var pending := posted.Keys;
      while pending != {}
        invariant pending <= posted.Keys
        invariant out.Keys == posted.Keys
        invariant forall k :: k in posted && k !in pending ==> out[k] == SanitizedEntry(fields, k, posted[k], foreign)
        invariant forall k :: k in pending ==> out[k] == posted[k]
        decreases pending
      {
        var slug :| slug in pending;
        if slug in fields && CallbackOf(fields[slug]).Some? {
          out := out[slug := ApplyCallback(CallbackOf(fields[slug]).value, posted[slug], foreign)];
        } else if slug in fields {
          var s := PostedValueSanitize(posted[slug], fields[slug], foreign);
          out := out[slug := s];
        }
        pending := pending - {slug};
      }
      r := Dict(out);
    }
  }

  // ---------------------------------------------------------------------
  // The version field's fallback

  /** 'captcha_version' has no entry in the defaults table. */
  lemma CaptchaVersionHasNoDefault()
    ensures GetDefault("captcha_version") == Str("")
  {
  }

  lemma VersionDefault()
    ensures GetDefault("recaptcha_version") == Str("v2_checkbox")
  {
  }

  /** As written, a posted version that is not one of the three sanitizes
      to '', which is not one of the versions. */
  lemma VersionFallbackAsWritten(foreign: Foreign)
    ensures PostedValue(Str("v4"), WithDefaults("recaptcha_version", VersionFieldAsWritten()), foreign) == Str("")
    ensures !IsOptionKey(Str(""), VERSIONS)
  {
    CaptchaVersionHasNoDefault();
    var f := WithDefaults("recaptcha_version", VersionFieldAsWritten());
    assert FieldType(f) == "select";
    assert OptionKeys(f) == VERSIONS;
    assert StdValue(f) == Str("");
    assert "v4" !in VERSIONS && "" !in VERSIONS;
  }

  /** The '' is then stored, since it differs from the 'v2_checkbox'
      default, and read back as the version. */
  lemma EmptyVersionIsStored(options: map<string, Value>)
    ensures StripDefaults(options["recaptcha_version" := Str("")])["recaptcha_version"] == Str("")
    ensures GetOption(StripDefaults(options["recaptcha_version" := Str("")]), "recaptcha_version", Str("")) == Str("")
  {
    VersionDefault();
    var m := options["recaptcha_version" := Str("")];
    assert m["recaptcha_version"] != GetDefault("recaptcha_version");
  }

  /** With the intended fallback, whatever is posted for the version is
      sanitized to one of the three versions. */
  lemma VersionFieldYieldsVersion(value: Value, foreign: Foreign)
    ensures PostedValue(value, WithDefaults("recaptcha_version", VersionField()), foreign).Str?
    ensures PostedValue(value, WithDefaults("recaptcha_version", VersionField()), foreign).s in VERSIONS
  {
    VersionDefault();
    var f := WithDefaults("recaptcha_version", VersionField());
    assert FieldType(f) == "select";
    assert OptionKeys(f) == VERSIONS;
    assert StdValue(f) == Str("v2_checkbox");
    if IsOptionKey(value, VERSIONS) {
      match value
      case Int(i) => NotAVersion(i);
      case Float(x) => NotAVersion(if x >= 0.0 then x.Floor else -((-x).Floor));
      case _ =>
    }
  }

  /** In a table normalised from `get_fields` as written, `options_sanitize`
      turns a posted "v4" into ''. */
  lemma AsWrittenTableStoresEmptyVersion(fields: map<string, Field>, foreign: Foreign)
    requires "recaptcha_version" in fields
    requires fields["recaptcha_version"] == WithDefaults("recaptcha_version", VersionFieldAsWritten())
    ensures SanitizedEntry(fields, "recaptcha_version", Str("v4"), foreign) == Str("")
  {
    VersionFallbackAsWritten(foreign);
    VersionFieldsHaveNoCallback();
    EntryWithoutCallback(fields, "recaptcha_version", Str("v4"), foreign);
  }

  /** In the table this model's `Settings` builds, whatever is posted for
      the version is stored as one of the three versions. */
  lemma SettingsTableYieldsVersion(fields: map<string, Field>, value: Value, foreign: Foreign)
    requires "recaptcha_version" in fields
    requires fields["recaptcha_version"] == WithDefaults("recaptcha_version", VersionField())
    ensures SanitizedEntry(fields, "recaptcha_version", value, foreign).Str?
    ensures SanitizedEntry(fields, "recaptcha_version", value, foreign).s in VERSIONS
  {
    VersionFieldYieldsVersion(value, foreign);
    VersionFieldsHaveNoCallback();
    EntryWithoutCallback(fields, "recaptcha_version", value, foreign);
  }

  lemma VersionFieldsHaveNoCallback()
    ensures CallbackOf(WithDefaults("recaptcha_version", VersionField())).None?
    ensures CallbackOf(WithDefaults("recaptcha_version", VersionFieldAsWritten())).None?
  {
  }

  /** An entry whose field has no callback goes through `posted_value_sanitize`. */
  lemma EntryWithoutCallback(fields: map<string, Field>, slug: string, value: Value, foreign: Foreign)
    requires slug in fields && CallbackOf(fields[slug]).None?
    ensures SanitizedEntry(fields, slug, value, foreign) == PostedValue(value, fields[slug], foreign)
  {
  }

  /** No integer renders as a version name. */
  lemma NotAVersion(i: int)
    ensures IntToString(i) !in VERSIONS
  {
    var s := IntToString(i);
    if i < 0 {
      assert s[0] == '-';
    } else {
      assert IsDigit(s[0]);
    }
    assert "v2_checkbox"[0] == 'v' && "v2_invisible"[0] == 'v' && "v3"[0] == 'v';
  }
}
