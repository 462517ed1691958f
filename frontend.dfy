/** The front end: which forms carry a CAPTCHA, the verification decision
    for a submitted token, and how each form hook turns a failed check into
    an error. */
module Frontend {
  import opened Values
  import opened Config

  const ERROR_CODE: string := "cdr_error"

  /** The decoded JSON reply of the verification endpoint, as `json_decode`
      yields it; `Null` stands for a missing or null member. A body that does
      not decode to an object yields `Reply(Null, Null, None, Null)`. A score
      that is present and not null is a JSON number. */
  datatype Reply = Reply(success: Value, hostname: Value, score: Option<real>, action: Value)

  /** What `verify` reads from the current request and from the endpoint:
      the posted token (`Null` when not posted), REMOTE_ADDR, SERVER_NAME, the
      raw reply body and its decoding. */
  datatype Request = Request(token: Value, remoteIp: string, serverName: string, body: string, reply: Reply)

  /** `$score >= $threshold` with PHP 8's comparison rules for a float
      against the value stored as the threshold. */
  predicate ScoreMeets(score: real, threshold: Value) {
    match threshold
    case Float(t) => score >= t
    case Int(t) => score >= t as real
    case Null => true
    case Bool(t) => !t || score != 0.0
    case Str(_) => false
    case List(_) => false
    case Dict(_) => false
  }

  function Version(options: map<string, Value>): Value {
    GetOption(options, "recaptcha_version", Str(""))
  }

  /** `isset($result['success']) && $result['success'] == true`. */
  predicate SuccessReported(reply: Reply) {
    reply.success != Null && Truthy(reply.success)
  }

  /** The origin check: off unless `verify_origin` is set; when on, the
      reported hostname (missing -> '') must be identical to SERVER_NAME. */
  predicate HostnameMatches(options: map<string, Value>, req: Request) {
    Truthy(GetOption(options, "verify_origin", Str(""))) ==>
      (if req.reply.hostname == Null then Str("") else req.reply.hostname) == Str(req.serverName)
  }

  /** The v3 score test against `threshold_<form>` (a missing score is 0.0). */
  predicate ScoreAccepted(options: map<string, Value>, form: string, reply: Reply) {
    var score := if reply.score.Some? then reply.score.value else 0.0;
    ScoreMeets(score, GetOption(options, "threshold_" + form, Str("")))
  }

  /** The v3 action test: identical to `action_<form>` (a missing action is ''). */
  predicate ActionAccepted(options: map<string, Value>, form: string, reply: Reply) {
    (if reply.action == Null then Str("") else reply.action) == GetOption(options, "action_" + form, Str(""))
  }

  /** `verify`, for the form whose key the calling hook stored in
      `recaptcha_action`. The HTTP request itself is not modelled: its body
      and decoded reply are part of `req`. */
  function Verify(options: map<string, Value>, form: string, req: Request): (ok: bool)
    ensures IsEmpty(req.token) || EmptyString(req.remoteIp) ==> !ok
    ensures EmptyString(req.body) ==> !ok
    ensures Version(options) != Str("v3") ==>
              (ok <==> && !IsEmpty(req.token) && !EmptyString(req.remoteIp) && !EmptyString(req.body)
                       && SuccessReported(req.reply) && HostnameMatches(options, req))
    ensures Version(options) == Str("v3") ==>
              (ok <==> && !IsEmpty(req.token) && !EmptyString(req.remoteIp) && !EmptyString(req.body)
                       && SuccessReported(req.reply) && HostnameMatches(options, req)
                       && ScoreAccepted(options, form, req.reply) && ActionAccepted(options, form, req.reply))
  {
    if IsEmpty(req.token) || EmptyString(req.remoteIp) then false
    else if EmptyString(req.body) then false
    else
      var result := req.reply;
      if result.success != Null && Truthy(result.success) then
        var hostnameMatch :=
          if Truthy(GetOption(options, "verify_origin", Str("")))
          then (if result.hostname == Null then Str("") else result.hostname) == Str(req.serverName)
          else true;
        if hostnameMatch then
          if Version(options) == Str("v3") then
            var threshold := GetOption(options, "threshold_" + form, Str(""));
            var expectedAction := GetOption(options, "action_" + form, Str(""));
            var score := if result.score.Some? then result.score.value else 0.0;
            var action := if result.action == Null then Str("") else result.action;
            ScoreMeets(score, threshold) && action == expectedAction
          else
            true
        else
          false
      else
        false
  }

  /** For v2 the reply's score and action play no part in the decision. */
  lemma V2IgnoresScoreAndAction(options: map<string, Value>, form: string, req: Request,
                                score: Option<real>, action: Value)
    requires Version(options) != Str("v3")
    ensures Verify(options, form, req) ==
              Verify(options, form, req.(reply := req.reply.(score := score, action := action)))
  {
  }

  /** The example of a low v3 score: success and the right action, score 0.3
      against the default threshold 0.5, is rejected. */
  lemma V3LowScoreRejected(options: map<string, Value>, req: Request)
    requires Version(options) == Str("v3")
    requires "threshold_login" !in options && "action_login" !in options
    requires req.reply == Reply(Bool(true), Null, Some(0.3), Str("login"))
    ensures !Verify(options, "login", req)
  {
    assert "threshold_" + "login" == "threshold_login";
  }

  /** `is_form_enabled`: strict membership of the form in the enabled-forms
      array; false when that option is not an array. */
  function IsFormEnabled(enabledForms: Value, form: string): (enabled: bool)
    ensures !IsArray(enabledForms) ==> !enabled
    ensures enabledForms.List? ==> (enabled <==> Str(form) in enabledForms.items)
    ensures enabledForms.Dict? ==> (enabled <==> Str(form) in enabledForms.entries.Values)
  {
    match enabledForms
    case List(items) => Str(form) in items
    case Dict(entries) => exists k :: k in entries && entries[k] == Str(form)
    case _ => false
  }

  /** `is_available`: both keys of the selected version are non-empty. */
  function IsAvailable(options: map<string, Value>): bool {
    var version := AsString(Version(options));
    Truthy(GetOption(options, version + "_site_key", Str(""))) &&
    Truthy(GetOption(options, version + "_secret_key", Str("")))
  }

  /** The option name `is_available` reads for a version's key. */
  lemma KeyNames(version: Value)
    requires version in [Str("v2_checkbox"), Str("v2_invisible"), Str("v3")]
    ensures AsString(version) + "_site_key" in ["v2_checkbox_site_key", "v2_invisible_site_key", "v3_site_key"]
    ensures AsString(version) + "_error_message" in ["v2_checkbox_error_message", "v2_invisible_error_message", "v3_error_message"]
  {
    if version == Str("v2_checkbox") {
      assert AsString(version) + "_site_key" == "v2_checkbox_site_key";
      assert AsString(version) + "_error_message" == "v2_checkbox_error_message";
    } else if version == Str("v2_invisible") {
      assert AsString(version) + "_site_key" == "v2_invisible_site_key";
      assert AsString(version) + "_error_message" == "v2_invisible_error_message";
    } else {
      assert AsString(version) + "_site_key" == "v3_site_key";
      assert AsString(version) + "_error_message" == "v3_error_message";
    }
  }

  /** A store that holds no site key never makes the CAPTCHA available. */
  lemma NoKeysNotAvailable(options: map<string, Value>)
    requires Version(options) in [Str("v2_checkbox"), Str("v2_invisible"), Str("v3")]
    requires "v2_checkbox_site_key" !in options && "v2_invisible_site_key" !in options && "v3_site_key" !in options
    ensures !IsAvailable(options)
  {
    var name := AsString(Version(options)) + "_site_key";
    KeyNames(Version(options));
    SiteKeyHasNoDefault(name);
    assert name !in options;
    assert GetOption(options, name, Str("")) == Str("");
  }

  lemma SiteKeyHasNoDefault(k: string)
    requires k in ["v2_checkbox_site_key", "v2_invisible_site_key", "v3_site_key"]
    ensures k !in DEFAULTS
  {
  }

  /** Storing both v2 checkbox keys through `update_option` makes the
      CAPTCHA available when that version is selected. */
  lemma KeysMakeAvailable(options: map<string, Value>, site: string, secret: string)
    requires Version(options) == Str("v2_checkbox")
    requires !EmptyString(site) && !EmptyString(secret)
    ensures IsAvailable(StripDefaults(options + map["v2_checkbox_site_key" := Str(site), "v2_checkbox_secret_key" := Str(secret)]))
  {
    var siteKey, secretKey := "v2_checkbox_site_key", "v2_checkbox_secret_key";
    var updates := map[siteKey := Str(site), secretKey := Str(secret)];
    var after := StripDefaults(options + updates);
    UpdateKeepsOtherReads(options, updates, "recaptcha_version");
    KeyHasNoDefault(siteKey);
    KeyHasNoDefault(secretKey);
    UpdatedEntryRead(options, updates, siteKey, Str(""));
    UpdatedEntryRead(options, updates, secretKey, Str(""));
    AvailableFromKeys(after, siteKey, secretKey);
  }

  lemma KeyHasNoDefault(k: string)
    requires k in ["v2_checkbox_site_key", "v2_checkbox_secret_key"]
    ensures GetDefault(k) == Str("")
  {
  }

  lemma AvailableFromKeys(options: map<string, Value>, siteKey: string, secretKey: string)
    requires Version(options) == Str("v2_checkbox")
    requires siteKey == "v2_checkbox_site_key" && secretKey == "v2_checkbox_secret_key"
    requires Truthy(GetOption(options, siteKey, Str(""))) && Truthy(GetOption(options, secretKey, Str("")))
    ensures IsAvailable(options)
  {
    assert AsString(Version(options)) + "_site_key" == siteKey;
    assert AsString(Version(options)) + "_secret_key" == secretKey;
  }

  /** The error message for a failed check: the configured
      `<version>_error_message`, else the version's default one. */
  function GetErrorMsg(options: map<string, Value>, prepend: bool): (msg: string) {
    var version := Version(options);
    var m := AsString(GetOption(options, AsString(version) + "_error_message", Str(GetDefaultErrorMsg(version))));
    if prepend then "<strong>Error</strong>: " + m else m
  }

  /** With no custom message stored (an empty textarea is never stored,
      being equal to the '' default) the default message is shown. */
  lemma ErrorMsgFallsBackToDefault(options: map<string, Value>)
    requires Version(options) in [Str("v2_checkbox"), Str("v2_invisible"), Str("v3")]
    requires AsString(Version(options)) + "_error_message" !in options
    ensures GetErrorMsg(options, false) == GetDefaultErrorMsg(Version(options)) != ""
    ensures GetErrorMsg(options, true) == "<strong>Error</strong>: " + GetDefaultErrorMsg(Version(options))
  {
    KeyNames(Version(options));
  }

  /** A custom message stored for the version is what is shown. */
  lemma ErrorMsgStored(options: map<string, Value>)
    requires AsString(Version(options)) + "_error_message" in options
    requires options[AsString(Version(options)) + "_error_message"] != Null
    ensures GetErrorMsg(options, false) == AsString(options[AsString(Version(options)) + "_error_message"])
    ensures GetErrorMsg(options, true) ==
              "<strong>Error</strong>: " + AsString(options[AsString(Version(options)) + "_error_message"])
  {
  }

  /** The footer script `footer_script` outputs, by branch. */
  datatype FooterScript = NoScript | V2CheckboxScript | V2InvisibleScript | V3FormPagesScript | V3AllPagesScript

  /** `footer_script`: nothing on a page without a CAPTCHA, except v3 set to
      load on all pages; v3 picks the form-pages script when the page has a
      CAPTCHA and the all-pages script otherwise. */
  function ChooseFooterScript(options: map<string, Value>, captchaCount: nat): (s: FooterScript)
    ensures s != NoScript ==>
              captchaCount > 0 || (Version(options) == Str("v3") && GetOption(options, "v3_script_load", Str("")) == Str("all_pages"))
    ensures Version(options) == Str("v3") && captchaCount > 0 ==> s == V3FormPagesScript
    ensures (Version(options) == Str("v3") && captchaCount == 0 &&
             GetOption(options, "v3_script_load", Str("")) == Str("all_pages")) ==> s == V3AllPagesScript
    ensures captchaCount > 0 && Version(options) == Str("v2_checkbox") ==> s == V2CheckboxScript
    ensures captchaCount > 0 && Version(options) == Str("v2_invisible") ==> s == V2InvisibleScript
    ensures !(Version(options) in [Str("v2_checkbox"), Str("v2_invisible"), Str("v3")]) ==> s == NoScript
  {
    var version := Version(options);
    if captchaCount == 0 && (version != Str("v3") || GetOption(options, "v3_script_load", Str("")) != Str("all_pages")) then
      NoScript
    else if version == Str("v2_checkbox") then V2CheckboxScript
    else if version == Str("v2_invisible") then V2InvisibleScript
    else if version == Str("v3") then
      (if captchaCount > 0 then V3FormPagesScript else V3AllPagesScript)
    else NoScript
  }

  /** One entry of a `WP_Error`: code, message and optional status data. */
  datatype ErrorEntry = ErrorEntry(code: string, message: string, status: Option<int>)

  /** The host's error collection (`WP_Error`), as far as the hooks use it. */
  class WpError {
    var entries: seq<ErrorEntry>

    constructor (code: string, message: string, status: Option<int>)
      ensures entries == [ErrorEntry(code, message, status)]
    {
      entries := [ErrorEntry(code, message, status)];
    }

    /** `WP_Error::add`: keeps every earlier error. */
    method Add(code: string, message: string)
      modifies this
      ensures entries == old(entries) + [ErrorEntry(code, message, None)]
    {
      entries := entries + [ErrorEntry(code, message, None)];
    }
  }

  /** The `$user` argument of the `authenticate` filter. */
  datatype AuthResult = NoUser | User(login: string) | Failed(error: WpError)

  /** The `$approved` value of the `pre_comment_approved` filter: a status,
      or a `WP_Error` an earlier callback returned. */
  datatype Approval = Approved(status: Value) | Rejected(error: WpError)

  /** What `captcha_form_field` outputs: the container numbered with the new
      count, and for v3 the hidden `recaptcha_action` input with its value. */
  datatype CaptchaField = CaptchaField(number: nat, hiddenAction: Option<Value>)

  /** The front-end component (`Frontend`). `captchaCount` is the class's
      static counter; one instance exists per request. */
  class Frontend {
    const config: Config
    const enabledForms: Value
    var captchaCount: nat
    var recaptchaAction: string

    constructor (config: Config)
      ensures this.config == config
      ensures enabledForms == GetOption(config.options, "enabled_forms", Str(""))
      ensures captchaCount == 0 && recaptchaAction == ""
    {
      this.config := config;
      enabledForms := GetOption(config.options, "enabled_forms", Str(""));
      captchaCount := 0;
      recaptchaAction := "";
    }

    /** `captcha_form_field`: one more CAPTCHA on the page. */
    method CaptchaFormField() returns (field: CaptchaField)
      modifies this`captchaCount
      ensures captchaCount == old(captchaCount) + 1
      ensures field.number == captchaCount
      ensures field.hiddenAction.Some? <==> Version(config.options) == Str("v3")
      ensures field.hiddenAction.Some? ==>
                field.hiddenAction.value == GetOption(config.options, "action_" + recaptchaAction, Str(""))
    {
      captchaCount := captchaCount + 1;
      var action := GetOption(config.options, "action_" + recaptchaAction, Str(""));
      field := CaptchaField(captchaCount, if Version(config.options) == Str("v3") then Some(action) else None);
    }

    /** The `*_form_field` / `*_form_return` hooks: record which form is
        being rendered, then add its CAPTCHA. */
    method FormField(form: string) returns (field: CaptchaField)
      modifies this`captchaCount, this`recaptchaAction
      ensures recaptchaAction == form
      ensures captchaCount == old(captchaCount) + 1 && field.number == captchaCount
      ensures field.hiddenAction.Some? <==> Version(config.options) == Str("v3")
      ensures field.hiddenAction.Some? ==>
                field.hiddenAction.value == GetOption(config.options, "action_" + form, Str(""))
    {
      recaptchaAction := form;
      field := CaptchaFormField();
    }

    /** `login_verify`: only when something was posted; a failure joins an
        existing error or replaces the user with a new error. */
    method LoginVerify(user: AuthResult, postCount: nat, req: Request) returns (result: AuthResult)
      modifies this`recaptchaAction, if user.Failed? then {user.error} else {}
      ensures postCount == 0 ==> result == user && recaptchaAction == old(recaptchaAction)
      ensures postCount > 0 ==> recaptchaAction == "login"
      ensures postCount > 0 && Verify(config.options, "login", req) ==> result == user
      ensures postCount > 0 && !Verify(config.options, "login", req) && user.Failed? ==>
                result == user &&
                user.error.entries == old(user.error.entries) + [ErrorEntry(ERROR_CODE, GetErrorMsg(config.options, true), None)]
      ensures postCount > 0 && !Verify(config.options, "login", req) && !user.Failed? ==>
                result.Failed? && fresh(result.error) &&
                result.error.entries == [ErrorEntry(ERROR_CODE, GetErrorMsg(config.options, true), None)]
      ensures user.Failed? && (postCount == 0 || Verify(config.options, "login", req)) ==>
                user.error.entries == old(user.error.entries)
    {
      result := user;
      if postCount > 0 {
        recaptchaAction := "login";
        if !Verify(config.options, recaptchaAction, req) {
          if user.Failed? {
            user.error.Add(ERROR_CODE, GetErrorMsg(config.options, true));
          } else {
            var e := new WpError(ERROR_CODE, GetErrorMsg(config.options, true), None);
            result := Failed(e);
          }
        }
      }
    }

    /** The hooks that add to a `WP_Error` they are given:
        `registration_verify`, `lostpassword_verify`, `reset_password_verify`
        (message with the "Error" prefix) and `ms_blog_verify` (without). */
    method ErrorsVerify(form: string, errors: WpError, prepend: bool, req: Request)
      modifies this`recaptchaAction, errors
      ensures recaptchaAction == form
      ensures errors.entries ==
                if Verify(config.options, form, req) then old(errors.entries)
                else old(errors.entries) + [ErrorEntry(ERROR_CODE, GetErrorMsg(config.options, prepend), None)]
    {
      recaptchaAction := form;
      if !Verify(config.options, recaptchaAction, req) {
        errors.Add(ERROR_CODE, GetErrorMsg(config.options, prepend));
      }
    }

    /** `ms_form_field_verify`: verifies only at the user-signup stage. */
    method MsFormFieldVerify(stage: Value, errors: WpError, req: Request)
      modifies this`recaptchaAction, errors
      ensures stage != Str("validate-user-signup") ==>
                errors.entries == old(errors.entries) && recaptchaAction == old(recaptchaAction)
      ensures stage == Str("validate-user-signup") ==>
                recaptchaAction == "multisite_signup" &&
                errors.entries ==
                  if Verify(config.options, "multisite_signup", req) then old(errors.entries)
                  else old(errors.entries) + [ErrorEntry(ERROR_CODE, GetErrorMsg(config.options, false), None)]
    {
      if stage == Str("validate-user-signup") {
        ErrorsVerify("multisite_signup", errors, false, req);
      }
    }

    /** `comment_verify`: a failure becomes a new 403 error; otherwise the
        incoming approval, an earlier error included, passes through
        unchanged. */
    method CommentVerify(approved: Approval, req: Request) returns (result: Approval)
      modifies this`recaptchaAction
      ensures recaptchaAction == "comment"
      ensures Verify(config.options, "comment", req) ==> result == approved
      ensures !Verify(config.options, "comment", req) ==>
                result.Rejected? && fresh(result.error) &&
                result.error.entries == [ErrorEntry(ERROR_CODE, GetErrorMsg(config.options, true), Some(403))]
    {
      recaptchaAction := "comment";
      if !Verify(config.options, recaptchaAction, req) {
        var e := new WpError(ERROR_CODE, GetErrorMsg(config.options, true), Some(403));
        return Rejected(e);
      }
      return approved;
    }
  }
}
