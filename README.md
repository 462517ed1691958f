# CD reCAPTCHA — a Dafny model

This project models the core of the WordPress plugin *CD reCAPTCHA*. The plugin
puts a Google reCAPTCHA (v2 checkbox, v2 invisible or v3) on the login,
registration, lost-password, reset-password, comment and multisite-signup forms.
It rejects a submission whose token the verification endpoint does not accept.

The model covers four parts of the plugin:

- **Options store** (`Config`, in `config.dfy`). The plugin keeps all its
  options in one blob, with a fixed table of defaults. `update_option` merges
  new entries over the blob and then drops every entry equal to its default.
  `delete_option` unsets the listed options that are set. `get_option` prefers
  a stored value, then the table's default, and only then the caller's
  fallback.
- **Front end** (`Frontend`, in `frontend.dfy`). This covers:
  - the verification decision for a posted token;
  - which forms are enabled, and whether the CAPTCHA is available;
  - the page's CAPTCHA counter, and which footer script is chosen;
  - how each form hook turns a failed check into a `WP_Error`.
- **Admin settings** (`Settings`, in `settings.dfy`). This covers the field
  table, the attribute defaults every field is filled with, the action-name
  sanitizer, the per-type sanitizing of posted values, and `options_sanitize`.
- **Start-up** (`Plugin`, in `plugin.dfy`).
  - The `update` migration. Before 1.0.6 the theme, badge and checkbox size
    were stored as legacy boolean flags. The migration turns them into 'auto'
    choices, deletes the flags and records the running version.
  - Hook registration, and the lazy, single creation of the front-end and
    admin components.

Two supporting modules:

- `values.dfy` models PHP values and the PHP conversions the plugin relies on:
  `empty()`, boolean conversion, and integer-to-string.
- `versions.dfy` models PHP's `version_compare` for dotted numeric versions.

The classes whose fields the source updates in place stay classes:
- the options store (`Config.Config`);
- the front end, with its CAPTCHA counter and current form (`Frontend.Frontend`);
- the settings component (`Settings.Settings`);
- the plugin object (`Plugin.Plugin`);
- WordPress's `WP_Error` (`Frontend.WpError`).

Storage writes are modelled by the `persisted` field of `Config.Config`.
`save_options` reports whether the blob changed, as WordPress's
`update_option` does.

The HTTP exchange with the verification endpoint is an input. `Frontend.Request`
carries:
- the posted token, `REMOTE_ADDR` and `SERVER_NAME`;
- the raw reply body and its JSON decoding.

Other inputs are parameters:
- `is_admin()` and "main site of a network";
- the number of POST entries;
- the WordPress helpers the settings sanitizers call. `Settings.Foreign`
  groups `sanitize_text_field`, `esc_url`, `sanitize_textarea_field`, `intval`
  on non-integers and `floatval` as uninterpreted functions.

## Model

| member | source | states |
|---|---|---|
| Config.GetDefault | recaptcha/src/Config.php:220-222 | never null: the table entry, or '' for an option without one, so a field's `std ?? ''` fallback never applies to a `std` taken from here |
| Config.GetOption | recaptcha/src/Config.php:180-185 | a stored non-null value wins; otherwise the defaults-table entry, even when the caller passes a fallback; otherwise the fallback |
| Config.GetDomain | recaptcha/src/Config.php:231-236 | the result is always one of DOMAINS; it is the configured domain when that is whitelisted, 'google.com' otherwise |
| Config.GetDateFormat | recaptcha/src/Config.php:368-370 | the result is always one of DATE_FORMATS; the mapped format for daily/weekly/monthly/yearly, 'Y-m' for anything else |
| Config.GetDefaultErrorMsg | recaptcha/src/Config.php:195-210 | the message is non-empty exactly for the three versions; both v2 versions share the "incorrect solution" message, v3 gets the score message |
| Config.StripDefaults | recaptcha/src/Config.php:268-273 | exactly the merged entries that differ from their default survive, with their values |
| Config.WithoutKeys | recaptcha/src/Config.php:294-298 | every unlisted key survives unchanged; a listed key survives only when it held null (the `isset` test) |
| Config.StripDefaultsPreservesReads | recaptcha/src/Config.php:268-273 | dropping default-valued entries changes nothing `get_option(k)` reads |
| Config.UpdateRoundTrip | recaptcha/src/Config.php:264-275 | for the merge `update_option(k, v)` performs on a non-empty name k (an empty name is rejected unchanged, see Config.Config.UpdateOption), `get_option(k, d)` then returns v, except that '' for an option with no default reads back as the fallback d, and a null v reads as the default, or d when there is none |
| Config.UpdatedEntryRead | recaptcha/src/Config.php:264-275 | each non-null, non-default entry of an array update is what `get_option` reads back |
| Config.UpdateKeepsOtherReads | recaptcha/src/Config.php:266-273 | an option the update does not name reads as before |
| Config.Config.constructor | recaptcha/src/Config.php:124-136 | the blob and its stored copy are what storage held; the current version is the plugin header's |
| Config.Config.SaveOptions | recaptcha/src/Config.php:310-314 | storage receives the blob; the result is whether storage changed |
| Config.Config.UpdateOption | recaptcha/src/Config.php:260-278 | an unset or empty argument returns false and changes nothing; otherwise the blob becomes the merge (new values win) without default-valued entries, and is saved |
| Config.Config.DeleteOption | recaptcha/src/Config.php:288-301 | an unset or empty argument returns false and changes nothing; otherwise exactly the listed set options are removed, and the blob is saved |
| Frontend.Verify | recaptcha/src/Frontend.php:205-261 | false for an empty token, IP or reply body; v2 accepts iff success and, when origin checking is on, hostname (missing = '') identical to SERVER_NAME; v3 also needs score (missing = 0.0) ≥ the form's threshold and action (missing = '') identical to the form's action |
| Frontend.V2IgnoresScoreAndAction | recaptcha/src/Frontend.php:254-256 | for v2 the reply's score and action do not affect the decision |
| Frontend.V3LowScoreRejected | recaptcha/src/Frontend.php:246-253 | (example) a v3 reply with success, the right action and score 0.3 fails against the default 0.5 threshold |
| Frontend.IsFormEnabled | recaptcha/src/Frontend.php:124-131 | false when the enabled-forms option is not an array; otherwise strict membership of the form among the array's values |
| Frontend.IsAvailable | recaptcha/src/Frontend.php:88-91 | (definition, no contract of its own) available when the selected version's site key and secret key both read non-empty; its consequences are stated by Frontend.NoKeysNotAvailable and Frontend.KeysMakeAvailable |
| Frontend.NoKeysNotAvailable | recaptcha/src/Frontend.php:88-91 | with no site key stored for any version, the CAPTCHA is not available |
| Frontend.KeysMakeAvailable | recaptcha/src/Frontend.php:88-91 | storing non-empty v2 checkbox site and secret keys via `update_option` makes the CAPTCHA available for that version |
| Frontend.GetErrorMsg | recaptcha/src/Frontend.php:290-300 | (definition, no contract of its own) the version's stored `<version>_error_message`, else that version's default message, prefixed by "<strong>Error</strong>: " when asked; stated by Frontend.ErrorMsgStored and Frontend.ErrorMsgFallsBackToDefault |
| Frontend.ErrorMsgStored | recaptcha/src/Frontend.php:293-299 | a custom message stored for the version is what is shown, with or without the "Error" prefix |
| Frontend.ErrorMsgFallsBackToDefault | recaptcha/src/Frontend.php:290-300 | with no custom message stored, the version's default message is shown, with or without the "Error" prefix |
| Frontend.ChooseFooterScript | recaptcha/src/Frontend.php:346-367 | no script on a page without a CAPTCHA unless v3 loads on all pages; v3 picks form-pages with a CAPTCHA and all-pages without; each v2 version picks its own script; an unknown version gets none |
| Frontend.Frontend.constructor | recaptcha/src/Frontend.php:72-79 | the enabled forms are read once from the options; the counter starts at 0 |
| Frontend.Frontend.CaptchaFormField | recaptcha/src/Frontend.php:320-337 | the shared counter grows by exactly one and numbers the field; the hidden action input, holding `action_<form>`, is emitted exactly for v3 |
| Frontend.Frontend.FormField | recaptcha/src/Frontend.php:656-767 | a form hook records its form and adds one CAPTCHA whose hidden action is that form's |
| Frontend.Frontend.LoginVerify | recaptcha/src/Frontend.php:797-813 | without POST data nothing happens; on failure the error joins an existing `WP_Error` (earlier errors kept) or replaces the user with a new one; on success the user passes through |
| Frontend.Frontend.ErrorsVerify | recaptcha/src/Frontend.php:827-920 | the registration, lost-password, reset-password and blog-signup hooks add exactly one error on failure and none on success |
| Frontend.Frontend.MsFormFieldVerify | recaptcha/src/Frontend.php:846-857 | only the 'validate-user-signup' stage is checked; there a failure adds one error without the prefix |
| Frontend.Frontend.CommentVerify | recaptcha/src/Frontend.php:922-928 | a failure yields a new 403 `WP_Error`; otherwise the incoming approval, status or earlier `WP_Error`, is returned unchanged |
| Settings.StripDisallowed | recaptcha/src/Admin/Settings.php:696 | every remaining character is in `[A-Za-z0-9_/]`; the result is no longer than the input |
| Settings.StripKeepsExactlyAllowed | recaptcha/src/Admin/Settings.php:696 | a character survives iff it occurs in the input and is allowed |
| Settings.StripIsSubsequence | recaptcha/src/Admin/Settings.php:696 | the stripped name is a subsequence of the input, order kept |
| Settings.StripConcat | recaptcha/src/Admin/Settings.php:696 | stripping distributes over concatenation, so it acts character by character |
| Settings.StripKeepsAllowed | recaptcha/src/Admin/Settings.php:696 | a name made only of allowed characters is unchanged |
| Settings.SanitizeActionName | recaptcha/src/Admin/Settings.php:694-704 | the result is the default or a non-empty all-allowed string; the default is used exactly when the stripped name is PHP-empty, "0" included |
| Settings.SanitizeActionNameIdempotent | recaptcha/src/Admin/Settings.php:694-704 | with an all-allowed default, sanitizing a sanitized name changes nothing |
| Settings.SanitizeHyphenExample | recaptcha/src/Admin/Settings.php:696 | (example) "lo-gin" sanitizes to "login" |
| Settings.SanitizeFallbackExamples | recaptcha/src/Admin/Settings.php:699-701 | (example) "!!!" and "0" both fall back to the default |
| Settings.SanitizeActionValue | recaptcha/src/Admin/Settings.php:694-704 | a scalar goes through `sanitize_action_name`; an empty array becomes the default; a non-empty array keeps its keys, and each element becomes its stripped string, made only of allowed characters |
| Settings.ActionArrayExample | recaptcha/src/Admin/Settings.php:696 | (example) a posted `['lo-gin']` sanitizes to `['login']` |
| Settings.SanitizeActionValueIdempotent | recaptcha/src/Admin/Settings.php:694-704 | with an all-allowed default, sanitizing a sanitized value changes nothing, arrays included |
| Settings.WithDefaults | recaptcha/src/Admin/Settings.php:467-476 | given attributes are kept as given; missing id/label/cb_label/type/class/section_id/desc/std are filled with the defaults |
| Settings.WithDefaultsIdempotent | recaptcha/src/Admin/Settings.php:467-476 | filling in defaults twice is filling them in once |
| Settings.NormaliseFields | recaptcha/src/Admin/Settings.php:466-478 | the same field ids, each filled with its defaults |
| Settings.EnabledFormsField | recaptcha/src/Admin/Settings.php:272-285 | a multicheck offering the five forms, plus 'ms_user_signup' exactly on the main site of a network |
| Settings.RawFields | recaptcha/src/Admin/Settings.php:142-463 | the field table: the version select is the one with the corrected 'v2_checkbox' fallback (see Findings); the enabled-forms field is Settings.EnabledFormsField; on the main site of a network the multisite action and threshold fields are present |
| Settings.RawFieldsAsWritten | recaptcha/src/Admin/Settings.php:156-167 | `get_fields` exactly as written: the same table except that the version select has the '' fallback |
| Settings.TruthyItemsConcat | recaptcha/src/Admin/Settings.php:663 | `array_filter` distributes over concatenation |
| Settings.OptionItemsConcat | recaptcha/src/Admin/Settings.php:664-668 | the option-key filter distributes over concatenation |
| Settings.MulticheckFilter | recaptcha/src/Admin/Settings.php:663-668 | the multicheck filter of a concatenation is the concatenation of the filters |
| Settings.MulticheckSingle | recaptcha/src/Admin/Settings.php:663-668 | a single entry survives exactly when it is truthy and a key of the table; with Settings.MulticheckFilter this fixes the result: the survivors in posted order, each as often as posted |
| Settings.SanitizeMulticheck | recaptcha/src/Admin/Settings.php:663-668 | the survivors are exactly the truthy entries that are keys of the option table, computed as the two filters in turn, so Settings.MulticheckFilter and Settings.MulticheckSingle give their order and multiplicity |
| Settings.PostedValue | recaptcha/src/Admin/Settings.php:641-680 | (definition, no contract of its own) `posted_value_sanitize` by field type; stated by Settings.PostedValueSanitize and Settings.SelectYieldsOptionKey |
| Settings.SelectYieldsOptionKey | recaptcha/src/Admin/Settings.php:670-674 | a select whose `std` is an option key always yields an option key, and returns a valid posted key unchanged |
| Settings.PostedValueSanitize | recaptcha/src/Admin/Settings.php:641-680 | checkbox gives `boolval`; multicheck of a non-array gives []; multicheck keeps exactly the truthy option keys; select keeps an option key, else falls back to `std` (or ''), an array post included (see "Left out") |
| Settings.ApplyCallback | recaptcha/src/Admin/Settings.php:292-294 | a threshold callback always yields a float; the action-name callback yields the default or a non-empty all-allowed name for a scalar, and an array for a non-empty array |
| Settings.SanitizedEntry | recaptcha/src/Admin/Settings.php:622-627 | an entry without a field passes through unchanged; a checkbox field without a callback yields `boolval` of the entry |
| Settings.Settings.constructor | recaptcha/src/Admin/Settings.php:40-56 | the field table is Settings.RawFields, each field filled with its defaults; its version field is the corrected one (see Findings and "Left out") |
| Settings.Settings.OptionsSanitize | recaptcha/src/Admin/Settings.php:616-630 | falsy or non-array input is returned as-is; otherwise the key set is unchanged, keys without a field pass through, and each field's callback or `posted_value_sanitize` is applied |
| Settings.CaptchaVersionHasNoDefault | recaptcha/src/Admin/Settings.php:161 | the default the version select asks for is '' |
| Settings.VersionFallbackAsWritten | recaptcha/src/Admin/Settings.php:157-167 | as written, a posted invalid version ("v4") sanitizes to '', which is no version |
| Settings.EmptyVersionIsStored | recaptcha/src/Config.php:268-273 | '' differs from the 'v2_checkbox' default, so it is stored and read back as the version |
| Settings.AsWrittenTableStoresEmptyVersion | recaptcha/src/Admin/Settings.php:616-630 | in a table built from `get_fields` as written, `options_sanitize` turns a posted "v4" into '' |
| Settings.SettingsTableYieldsVersion | recaptcha/src/Admin/Settings.php:616-630 | in the table Settings.Settings builds, any posted version is stored as one of the three versions |
| Settings.VersionFieldYieldsVersion | recaptcha/src/Admin/Settings.php:157-167 | with the intended `std`, any posted version sanitizes to one of the three versions |
| Versions.ParseVersion | recaptcha/src/Plugin.php:122 | a non-empty version string has at least one part |
| Versions.VersionLess | recaptcha/src/Plugin.php:122 | (definition, no contract of its own) `version_compare(a, b, '<')` on parsed versions: part by part, a proper prefix being smaller; stated by the four lemmas below |
| Versions.VersionLessIrreflexive | recaptcha/src/Plugin.php:122 | no version is older than itself |
| Versions.VersionLessAsymmetric | recaptcha/src/Plugin.php:122 | two versions are never each older than the other |
| Versions.VersionLessTransitive | recaptcha/src/Plugin.php:122 | "older than" is transitive |
| Versions.VersionLessTotal | recaptcha/src/Plugin.php:138 | two different versions are always ordered, so `!=` means one is older |
| Versions.ParseRenderRoundTrip | recaptcha/src/Plugin.php:122 | rendering a version as dotted digits and parsing it back gives the same version |
| Versions.ParseVersion106 | recaptcha/src/Plugin.php:122 | (example) "1.0.6" parses to [1, 0, 6] |
| Plugin.AutoChoices | recaptcha/src/Plugin.php:124-131 | exactly the set flags become 'auto' entries, and nothing else |
| Plugin.Migrated | recaptcha/src/Plugin.php:114-147 | (definition, no contract of its own) legacy flags deleted when migrating, then the migration entries merged by `update_option`; stated by the Plugin lemmas below |
| Plugin.MigrationEntries | recaptcha/src/Plugin.php:119-140 | only theme, badge, v2_checkbox_size and version are ever written; the version is written iff it changed, with the running version; without a legacy migration only the version can be written |
| Plugin.Plugin.constructor | recaptcha/src/Plugin.php:32-51 | the options are migrated and the hooks are always registered, since `update` always succeeds |
| Plugin.Plugin.Update | recaptcha/src/Plugin.php:114-147 | always returns true; the blob becomes the migrated blob; storage is written only when there is something to delete or write |
| Plugin.Plugin.LoadFrontend | recaptcha/src/Plugin.php:73-79 | outside the admin screens the first call creates the front end; every later call returns the same instance |
| Plugin.Plugin.LoadAdmin | recaptcha/src/Plugin.php:88-94 | on the admin screens the first call creates the settings component; every later call returns the same instance |
| Plugin.FreshInstallWritesOnlyVersion | recaptcha/src/Plugin.php:120-140 | with no previous version, no legacy migration runs and at most the version is written |
| Plugin.WithoutKeysKeepsOtherReads | recaptcha/src/Config.php:294-298 | deleting options changes nothing read for the others |
| Plugin.MigratedRead | recaptcha/src/Plugin.php:114-147 | after the migration a non-legacy option reads as the written entry, or as before when none was written |
| Plugin.ThemeMigration | recaptcha/src/Plugin.php:124-125 | below 1.0.6 the theme reads 'auto' iff `theme_auto` was truthy, and as before otherwise |
| Plugin.BadgeMigration | recaptcha/src/Plugin.php:127-128 | below 1.0.6 the badge reads 'auto' iff `badge_auto` was truthy, and as before otherwise |
| Plugin.SizeMigration | recaptcha/src/Plugin.php:130-131 | below 1.0.6 the checkbox size reads 'auto' iff `v2_checkbox_adjust_size` was truthy or absent |
| Plugin.NoLegacyMigrationKeepsChoices | recaptcha/src/Plugin.php:120-136 | at 1.0.6 or later, or on a fresh install, theme, badge and size read as before |
| Plugin.LegacyKeysDeleted | recaptcha/src/Plugin.php:133 | after a legacy migration no legacy flag holds a value |
| Plugin.VersionRecorded | recaptcha/src/Plugin.php:138-144 | afterwards the stored version compares equal to the running one |
| Plugin.OtherOptionsUnchanged | recaptcha/src/Plugin.php:114-147 | every option the migration does not name reads as before |
| Plugin.MigrationSettles | recaptcha/src/Plugin.php:114-147 | for a running version of 1.0.6 or later, a second run of the migration changes nothing |

## Left out

- PHP's loose `==` is modelled as structural equality of values. This affects
  the default comparison in `update_option`, `in_array` in `get_domain`, the
  `$version == 'v3'` tests in `verify` and `captcha_form_field`, and the
  `switch` on the version in `get_default_error_msg`. For example, PHP treats
  `0.5` and `"0.5"` as equal, and `in_array(true, DOMAINS)` is true; the model
  does not. (`$result['success'] == true` in `verify` is PHP truthiness, which
  the model states exactly.)
- An empty PHP array has two representations here, `List([])` and
  `Dict(map[])`, which are different values. Config.StripDefaults therefore
  keeps an `enabled_forms` of `Dict(map[])`, which PHP would drop as equal to
  the `[]` default. Likewise a multicheck post given as a list is stored as a
  packed `List`, while PHP's `array_filter` keeps the original integer keys,
  gaps included; reads through `in_array` do not see the difference.
- Config.GetDomain: a stored `true` makes `in_array` loosely true in PHP, so
  PHP would return it; the model returns 'google.com'.
- `(string)` of a float is not rendered. `Values.AsString` gives '' for a
  float. This only matters for a float posted as an action name.
- The HTTP request, the JSON decoding, the verify log (`recaptcha_log`) and
  the debug log are left out: the reply is an input. A score is a real number
  when present; a string score is not modelled.
- Frontend.Verify: a threshold stored as a string counts as unmet. The
  threshold is always stored as a float by `sanitize_threshold_value`, so PHP's
  numeric-string comparison rules are not modelled.
- Markup and client-side scripts are left out: field rendering, the settings
  page, the footer scripts themselves and the theme script. Only which footer
  script is chosen, and what a CAPTCHA field holds, are modelled.
- WordPress hook registration (`actions_filters`, `admin_init`, menu pages,
  `network_settings_save`, `add_settings_link`) is reduced to the
  `hooksRegistered` flag.
- Translation (`__`, `load_plugin_textdomain`) is left out. Messages are
  untranslated, and field labels, descriptions and placeholders are dropped.
- `sanitize_text_field`, `esc_url`, `sanitize_textarea_field`, `intval` of a
  non-integer and `floatval` are WordPress/PHP helpers left abstract. The text,
  url, number, textarea and threshold branches are stated in terms of them.
- Settings.Settings.constructor: builds its table from Settings.RawFields,
  whose version select has the intended 'v2_checkbox' fallback rather than
  the '' that `get_fields` computes (see Findings). The table as written is
  Settings.RawFieldsAsWritten, and what it does to a posted version is
  stated by Settings.AsWrittenTableStoresEmptyVersion.
- Settings.PostedValueSanitize: an array entry inside a multicheck post is
  dropped. PHP 8 raises a TypeError from `array_key_exists` instead.
- Settings.PostedValue, Settings.PostedValueSanitize: an array posted to a
  select field yields the field's `std`. PHP 8 raises a TypeError from
  `array_key_exists` there and nothing is stored; the model has no error
  outcome for `posted_value_sanitize`.
- Frontend.GetErrorMsg: a stored message that is not a string is returned
  converted by `Values.AsString`; PHP returns it unconverted when no prefix is
  asked for.
- Settings.IsOptionKey: a fractional float key is truncated and an
  integer-like string key is not renumbered, so PHP's key normalisation of
  option tables is only partly modelled.
- Settings.Settings.OptionsSanitize: a posted list (integer keys) is returned
  unchanged, since no field has an integer id. PHP's key order is not
  modelled, because the options are a map.
- Versions.ParseVersion handles dotted numeric versions only. The special
  forms `version_compare` also orders ("dev", "alpha", "RC", "pl", and so on)
  are not modelled.
- Storage failure is not modelled: `save_options` succeeds exactly when the
  blob changed.
- Whether storage is site or network (`is_plugin_active_for_network`),
  `is_admin()`, `is_main_site() && is_multisite()` and the POST count are
  parameters.
- The static `$captcha_count` is a field of the single front-end instance.
  `load_frontend` guarantees that one instance per request.
- `get_api_script_url`, `shake_error_codes`, `clear_login_attempts` and
  `show_login_captcha` build URLs or markup, or do nothing, and are left out.

## Findings

| source | as written | input that shows it | evidently intended | confidence | as-written member | corrected member |
|---|---|---|---|---|---|---|
| recaptcha/src/Admin/Settings.php:161 | the version select's fallback `std` is `get_default('captcha_version')`, an option with no default, so it is '' | a settings post with `recaptcha_version` = "v4": it sanitizes to '', which is stored (it differs from the 'v2_checkbox' default); then no version is selected, no footer script is chosen and the error message is empty | `get_default('recaptcha_version')`, so an invalid post falls back to 'v2_checkbox' | medium, not executed | Settings.VersionFallbackAsWritten | Settings.VersionFieldYieldsVersion |
