/**
 * ManualAuthoriser: logging in with a login and password through the OAuth
 * pages of oauth.vk.com. The pages and the network are outside the model: a
 * page is the facts the HTML and JSON readers extract from it, and the
 * transport is a script of responses, handed out one per request in order.
 * What is modelled is the logic between them: the argument checks, the login
 * page address, the checks of the pages, the login body, the captcha retry
 * loop and the reading of the final redirect address.
 */
module ManualAuthoriser {
  import opened Errors
  import opened Int64
  import opened Text
  import opened FilteredEnum
  import opened Captcha
  import opened VkApi
  import opened Authoriser

  // ---------------------------------------------------------------------------
  // Pages and responses, as the HTML and JSON readers see them

  /** One named `<input>` of the login form; `value` is null when the attribute is absent. */
  datatype Input = Input(name: string, value: Option<string>)

  /** The captcha fields of a form: the `captcha_sid` input's value text and the captcha image address. */
  datatype CaptchaField = CaptchaField(sid: string, image: string)

  /** The one `<form>` of a page, with what the authoriser reads from it. */
  datatype Form = Form(
    action: string,
    inputs: seq<Input>,
    captcha: Option<CaptchaField>,
    serviceMessage: Option<string>)

  /**
   * A body that parses as JSON: an object, with its `error` and
   * `error_description` fields and its compact text; an array (or a
   * constructor call), whose indexer refuses a text key; or a single value,
   * which has no indexer.
   */
  datatype Json =
    | Object(error: Option<string>, errorDescription: Option<string>, text: string)
    | Array
    | Scalar

  /**
   * A response body: its JSON reading (none when it is not JSON) and its one
   * form (none when the page does not hold exactly one).
   */
  datatype Page = Page(json: Option<Json>, form: Option<Form>)

  /** A transport response: the address it came from after redirects, and its body. */
  datatype Response = Response(uri: string, page: Page)

  /** A login request: the form's address and the body bytes. */
  datatype LoginRequest = LoginRequest(uri: string, body: seq<char>)

  /** A request sent through the transport. */
  datatype Request = Get(uri: string) | Post(uri: string, body: Option<seq<char>>)

  /** What the captcha resolver does with a captcha: answers (possibly null), or cancels. */
  datatype Answer = Answered(text: Option<string>) | Cancelled

  // ---------------------------------------------------------------------------
  // Authorise: argument checks and the login page address

  /**
   * The preconditions of `Authorise`, in order: a positive application id, a
   * non-null non-empty login, a non-null non-empty password, non-null settings.
   */
  function AuthoriseCheck(appId: Long, login: Option<string>, password: Option<string>,
                          settings: Option<Filter>): (o: Outcome)
    ensures o.Pass? <==> appId > 0 && login.Some? && |login.value| > 0
                         && password.Some? && |password.value| > 0 && settings.Some?
    ensures appId <= 0 ==> o == Fail(ArgumentOutOfRange("appId"))
    ensures appId > 0 && login.None? ==> o == Fail(ArgumentNull("login"))
    ensures appId > 0 && login == Some("") ==> o == Fail(Argument("login"))
    ensures appId > 0 && login.Some? && |login.value| > 0 && password.None? ==>
              o == Fail(ArgumentNull("password"))
    ensures appId > 0 && login.Some? && |login.value| > 0 && password == Some("") ==>
              o == Fail(Argument("password"))
    ensures (appId > 0 && login.Some? && |login.value| > 0 && password.Some? && |password.value| > 0
             && settings.None?) ==> o == Fail(ArgumentNull("settings"))
  {
    if appId <= 0 then Fail(ArgumentOutOfRange("appId"))
    else if login.None? then Fail(ArgumentNull("login"))
    else if |login.value| == 0 then Fail(Argument("login"))
    else if password.None? then Fail(ArgumentNull("password"))
    else if |password.value| == 0 then Fail(Argument("password"))
    else if settings.None? then Fail(ArgumentNull("settings"))
    else Pass
  }

  const AuthorizeEndpoint: string := "https://oauth.vk.com/authorize"
  const BlankPage: string := "https://oauth.vk.com/blank.html"

  /** The query of the login page address, as entries. */
  function LoginPageQuery(appId: Long, settings: Filter): seq<(string, string)>
  {
    [("client_id", IntToDecimal(appId)), ("scope", IntToDecimal(Signed(settings.value))),
     ("redirect_uri", BlankPage), ("display", "mobile"), ("v", "5.24"), ("response_type", "token")]
  }

  /**
   * The login page address: the template
   * `https://oauth.vk.com/authorize?client_id={0}&scope={1}&redirect_uri=https://oauth.vk.com/blank.html&display=mobile&v=5.24&response_type=token`
   * filled with the application id and the rights value, that is, the authorize
   * endpoint with the query of `LoginPageQuery`.
   */
  function LoginPageUri(appId: Long, settings: Filter): string
  {
    AuthorizeEndpoint + "?" + Query(LoginPageQuery(appId, settings))
  }

  /** A rendered `long` holds neither `&` nor `=`. */
  lemma DecimalIsPlain(x: int)
    ensures '&' !in IntToDecimal(x) && '=' !in IntToDecimal(x)
  {
    var s := IntToDecimal(x);
    if x < 0 {
      assert s == [s[0]] + s[1..];
    }
  }

  /** Reading the query of the login page address back gives its entries, `scope` the numeric rights value. */
  lemma LoginPageUriReadsBack(appId: Long, settings: Filter)
    ensures ParseQuery(LoginPageUri(appId, settings)[|AuthorizeEndpoint| + 1..]) == LoginPageQuery(appId, settings)
  {
    var es := LoginPageQuery(appId, settings);
    LoginPageQueryPlain(appId, settings);
    ParseQueryOfQuery(es);
    assert |AuthorizeEndpoint + "?"| == |AuthorizeEndpoint| + 1;
    assert (AuthorizeEndpoint + "?" + Query(es))[|AuthorizeEndpoint| + 1..] == Query(es);
  }

  lemma LoginPageQueryPlain(appId: Long, settings: Filter)
    ensures forall i :: 0 <= i < |LoginPageQuery(appId, settings)| ==> Plain(LoginPageQuery(appId, settings)[i])
  {
    DecimalIsPlain(appId);
    DecimalIsPlain(Signed(settings.value));
    FixedEntriesPlain();
  }

  lemma FixedEntriesPlain()
    ensures Plain(("redirect_uri", BlankPage)) && Plain(("display", "mobile"))
    ensures Plain(("v", "5.24")) && Plain(("response_type", "token"))
  {
  }

  /** For a rights value without bit 63, the `scope` entry reads back as the value itself. */
  lemma ScopeIsValue(appId: Long, settings: Filter)
    requires settings.value < 0x8000_0000_0000_0000
    ensures AllDigits(LoginPageQuery(appId, settings)[1].1)
    ensures ParseDecimal(LoginPageQuery(appId, settings)[1].1) == settings.value as int
  {
    ParseNatToDecimal(settings.value as int);
  }

  // ---------------------------------------------------------------------------
  // The login page check

  /**
   * `ThrowIfLoginPageIncorrect`: a body that parses as a JSON object is
   * always an authorisation failure with code 0 (naming `error` and
   * `error_description` when both are present, quoting the body otherwise);
   * reading `error` from any other JSON throws, an ArgumentException for an
   * array and an InvalidOperationException for a single value; a body that is
   * not JSON passes.
   */
  function CheckLoginPage(response: Response): (o: Outcome)
    ensures o.Pass? <==> response.page.json.None?
    ensures response.page.json == Some(Array) ==> o == Fail(Argument(""))
    ensures response.page.json == Some(Scalar) ==> o == Fail(InvalidOperation)
    ensures o.Fail? && response.page.json.value.Object? ==> o.error.AuthorizationFailed? && o.error.code == 0
    ensures o.Fail? && response.page.json.value.Object?
            && response.page.json.value.error.Some? && response.page.json.value.errorDescription.Some? ==>
              o.error.message == "Authorisation failed: " + response.page.json.value.error.value
                                 + response.page.json.value.errorDescription.value
    ensures o.Fail? && response.page.json.value.Object?
            && (response.page.json.value.error.None? || response.page.json.value.errorDescription.None?) ==>
              o.error.message == "Response: " + response.page.json.value.text
  {
    match response.page.json
    case None => Pass
    case Some(Array) => Fail(Argument(""))
    case Some(Scalar) => Fail(InvalidOperation)
    case Some(j) =>
      if j.error.Some? && j.errorDescription.Some? then
        Fail(AuthorizationFailed("Authorisation failed: " + j.error.value + j.errorDescription.value, 0))
      else
        Fail(AuthorizationFailed("Response: " + j.text, 0))
  }

  // ---------------------------------------------------------------------------
  // The login body

  /** The value posted for an input: the login for `email`, the password for `pass`, the page's value otherwise. */
  function PostedValue(input: Input, login: string, password: string): Option<string>
  {
    if input.name == "pass" then Some(password)
    else if input.name == "email" then Some(login)
    else input.value
  }

  /** A null value is formatted as the empty text. */
  function Formatted(value: Option<string>): string
  {
    if value.Some? then value.value else ""
  }

  /** The body entries for the form inputs, in form order. */
  function LoginEntries(inputs: seq<Input>, login: string, password: string): (es: seq<(string, string)>)
    ensures |es| == |inputs|
    ensures forall i :: 0 <= i < |inputs| ==> es[i].0 == inputs[i].name
    ensures forall i :: 0 <= i < |inputs| ==>
              es[i].1 == (if inputs[i].name == "email" then login
                          else if inputs[i].name == "pass" then password
                          else Formatted(inputs[i].value))
  {
    if inputs == [] then []
    else LoginEntries(inputs[..|inputs| - 1], login, password)
         + [(inputs[|inputs| - 1].name, Formatted(PostedValue(inputs[|inputs| - 1], login, password)))]
  }

  predicate HasName(inputs: seq<Input>, name: string)
  {
    exists i :: 0 <= i < |inputs| && inputs[i].name == name
  }

  /** Two inputs of the form share a name. */
  predicate HasDuplicateName(inputs: seq<Input>)
  {
    exists i, j :: 0 <= i < j < |inputs| && inputs[i].name == inputs[j].name
  }

  /**
   * `GetLoginRequestParametersFromLoginPage`: a page without its one form is
   * an invalid operation; a name that occurs twice is refused by the
   * dictionary; a form without `email` or `pass` breaks the assumptions;
   * otherwise the form's address and the body `name=value&…` in form order.
   */
  function LoginParameters(page: Page, login: string, password: string): (r: Result<LoginRequest>)
    ensures page.form.None? ==> r == Err(InvalidOperation)
    ensures page.form.Some? && HasDuplicateName(page.form.value.inputs) ==> r == Err(Argument(""))
    ensures page.form.Some? && !HasDuplicateName(page.form.value.inputs)
            && !(HasName(page.form.value.inputs, "email") && HasName(page.form.value.inputs, "pass")) ==>
              r == Err(ContractAssumption)
    ensures r.Ok? <==> page.form.Some? && !HasDuplicateName(page.form.value.inputs)
                       && HasName(page.form.value.inputs, "email") && HasName(page.form.value.inputs, "pass")
    ensures r.Ok? ==> r.value.uri == page.form.value.action
    ensures r.Ok? ==> r.value.body == Query(LoginEntries(page.form.value.inputs, login, password))
  {
    match page.form
    case None => Err(InvalidOperation)
    case Some(f) =>
      if HasDuplicateName(f.inputs) then Err(Argument(""))
      else if !(HasName(f.inputs, "email") && HasName(f.inputs, "pass")) then Err(ContractAssumption)
      else Ok(LoginRequest(f.action, Query(LoginEntries(f.inputs, login, password))))
  }

  /**
   * The login body of a well-formed form reads back as one entry per input,
   * in form order, with the login under `email` and the password under `pass`.
   */
  lemma LoginBodyReadsBack(page: Page, login: string, password: string)
    requires LoginParameters(page, login, password).Ok?
    requires forall i :: 0 <= i < |page.form.value.inputs| ==>
               Plain((page.form.value.inputs[i].name, Formatted(page.form.value.inputs[i].value)))
    requires '&' !in login && '&' !in password
    ensures ParseQuery(LoginParameters(page, login, password).value.body)
              == LoginEntries(page.form.value.inputs, login, password)
  {
    var inputs := page.form.value.inputs;
    var es := LoginEntries(inputs, login, password);
    forall i | 0 <= i < |es|
      ensures Plain(es[i])
    {
      assert Plain((inputs[i].name, Formatted(inputs[i].value)));
    }
    ParseQueryOfQuery(es);
  }

  /** The login body holds the entry `email=<login>` and the entry `pass=<password>`. */
  lemma LoginEntriesHaveCredentials(inputs: seq<Input>, login: string, password: string)
    requires HasName(inputs, "email") && HasName(inputs, "pass")
    ensures ("email", login) in LoginEntries(inputs, login, password)
    ensures ("pass", password) in LoginEntries(inputs, login, password)
  {
    var es := LoginEntries(inputs, login, password);
    var e :| 0 <= e < |inputs| && inputs[e].name == "email";
    assert es[e] == ("email", login);
    var p :| 0 <= p < |inputs| && inputs[p].name == "pass";
    assert es[p] == ("pass", password);
  }

  /** A duplicate among the first `k + 1` inputs is a duplicate among the first `k`, or a repeat of input `k`. */
  lemma DuplicateStep(inputs: seq<Input>, k: nat)
    requires k < |inputs|
    ensures HasDuplicateName(inputs[..k + 1]) <==>
              HasDuplicateName(inputs[..k]) || HasName(inputs[..k], inputs[k].name)
  {
    var p := inputs[..k + 1];
    if HasDuplicateName(p) {
      var i, j :| 0 <= i < j < |p| && p[i].name == p[j].name;
      if j < k {
        assert inputs[..k][i] == p[i] && inputs[..k][j] == p[j];
      } else {
        assert inputs[..k][i] == p[i];
      }
    }
    if HasDuplicateName(inputs[..k]) {
      var i, j :| 0 <= i < j < k && inputs[..k][i].name == inputs[..k][j].name;
      assert p[i] == inputs[..k][i] && p[j] == inputs[..k][j];
    }
    if HasName(inputs[..k], inputs[k].name) {
      var i :| 0 <= i < k && inputs[..k][i].name == inputs[k].name;
      assert p[i] == inputs[..k][i] && p[k] == inputs[k];
    }
  }

  /** Whether the dictionary filled so far has the key `name`. */
  predicate HasKey(parameters: seq<(string, string)>, name: string)
  {
    exists j :: 0 <= j < |parameters| && parameters[j].0 == name
  }

  /** The keys of the body entries are the names of the inputs. */
  lemma KeysAreNames(inputs: seq<Input>, login: string, password: string, name: string)
    ensures HasKey(LoginEntries(inputs, login, password), name) <==> HasName(inputs, name)
  {
    var es := LoginEntries(inputs, login, password);
    if HasName(inputs, name) {
      var j :| 0 <= j < |inputs| && inputs[j].name == name;
      assert es[j].0 == name;
    }
    if HasKey(es, name) {
      var j :| 0 <= j < |es| && es[j].0 == name;
      assert inputs[j].name == name;
    }
  }

  /** A duplicate name among the first `k` inputs is one of the whole form. */
  lemma DuplicateInPrefix(inputs: seq<Input>, k: nat)
    requires k <= |inputs| && HasDuplicateName(inputs[..k])
    ensures HasDuplicateName(inputs)
  {
    var i, j :| 0 <= i < j < k && inputs[..k][i].name == inputs[..k][j].name;
    assert inputs[i] == inputs[..k][i] && inputs[j] == inputs[..k][j];
  }

  /** One more input adds its entry at the end of the body entries. */
  lemma EntriesStep(inputs: seq<Input>, k: nat, login: string, password: string)
    requires k < |inputs|
    ensures LoginEntries(inputs[..k + 1], login, password)
              == LoginEntries(inputs[..k], login, password)
                 + [(inputs[k].name, Formatted(PostedValue(inputs[k], login, password)))]
  {
    assert inputs[..k + 1][..k] == inputs[..k];
  }

  /**
   * The dictionary loop of `GetLoginRequestParametersFromLoginPage`: each
   * named input is added under its name, with the login or the password
   * substituted; adding a name already present throws; then the two
   * assumptions and the body.
   */
  method BuildLoginParameters(page: Page, login: string, password: string) returns (r: Result<LoginRequest>)
    ensures r == LoginParameters(page, login, password)
  {
    if page.form.None? {
      return Err(InvalidOperation);
    }
    var form := page.form.value;
    var inputs := form.inputs;
    var parameters: seq<(string, string)> := [];
    var k := 0;
    while k < |inputs|
      invariant 0 <= k <= |inputs|
      invariant parameters == LoginEntries(inputs[..k], login, password)
      invariant !HasDuplicateName(inputs[..k])
    {
      var name := inputs[k].name;
      var value := inputs[k].value;
      if name == "email" {
        value := Some(login);
      }
      if name == "pass" {
        value := Some(password);
      }
      DuplicateStep(inputs, k);
      KeysAreNames(inputs[..k], login, password, name);
      if HasKey(parameters, name) {
        DuplicateInPrefix(inputs, k + 1);
        return Err(Argument(""));
      }
      EntriesStep(inputs, k, login, password);
      parameters := parameters + [(name, Formatted(value))];
      k := k + 1;
    }
    assert inputs[..k] == inputs;
    KeysAreNames(inputs, login, password, "email");
    KeysAreNames(inputs, login, password, "pass");
    if !HasKey(parameters, "email") || !HasKey(parameters, "pass") {
      return Err(ContractAssumption);
    }
    r := Ok(LoginRequest(form.action, Query(parameters)));
  }

  // ---------------------------------------------------------------------------
  // Captcha

  const NoResolverMessage: string :=
    "Captcha not resolved because there is no resolver at ManualAuthoriser. "
    + "Use ManualAuthoriser constructor with capthaResolver parameter to resolve captchas."
  const NotResolvedMessage: string := "Captcha needed and was not resolved."

  /** `&captcha_sid=<sid>&captcha_key=<escaped answer>`; `escape` is the address escaping of the answer. */
  function CaptchaSuffix(captcha: Captcha, answer: string, escape: string -> string): string
  {
    "&" + Query([("captcha_sid", IntToDecimal(captcha.sid)), ("captcha_key", escape(answer))])
  }

  /**
   * `ResolveCaptcha`: without a resolver, or when the resolver cancels, the
   * captcha is still needed; a null or empty answer leaves the request as it
   * is; otherwise the captcha fields are appended to the body, at the same address.
   */
  function Resolved(captcha: Captcha, request: LoginRequest, resolver: Option<CaptchaResolver>,
                    answer: Answer, escape: string -> string): (r: Result<LoginRequest>)
    ensures resolver.None? ==> r == Err(CaptchaNeeded(NoResolverMessage, captcha.sid, captcha.image))
    ensures resolver.Some? && answer.Cancelled? ==>
              r == Err(CaptchaNeeded(NotResolvedMessage, captcha.sid, captcha.image))
    ensures r.Ok? <==> resolver.Some? && answer.Answered?
    ensures r.Ok? ==> r.value.uri == request.uri
    ensures r.Ok? && Formatted(answer.text) == "" ==> r.value == request
    ensures r.Ok? && Formatted(answer.text) != "" ==>
              && |r.value.body| == |request.body| + |CaptchaSuffix(captcha, answer.text.value, escape)|
              && r.value.body[..|request.body|] == request.body
              && r.value.body[|request.body|..] == CaptchaSuffix(captcha, answer.text.value, escape)
  {
    if resolver.None? then Err(CaptchaNeeded(NoResolverMessage, captcha.sid, captcha.image))
    else if answer.Cancelled? then Err(CaptchaNeeded(NotResolvedMessage, captcha.sid, captcha.image))
    else if Formatted(answer.text) == "" then Ok(request)
    else
      var body := request.body + CaptchaSuffix(captcha, answer.text.value, escape);
      assert body[..|request.body|] == request.body;
      Ok(LoginRequest(request.uri, body))
  }

  /** Joining the items of two non-empty entry lists with `&` is the query of both, in order. */
  lemma {:induction false} QueryAppend(es: seq<(string, string)>, more: seq<(string, string)>)
    requires |es| > 0 && |more| > 0
    ensures Query(es) + "&" + Query(more) == Query(es + more)
  {
    if |es| == 1 {
      assert Items(es + more) == [Item(es[0])] + Items(more);
      assert Items(es + more)[1..] == Items(more);
    } else {
      assert (es + more)[1..] == es[1..] + more;
      QueryAppend(es[1..], more);
      assert Items(es)[1..] == Items(es[1..]);
      assert Items(es + more)[1..] == Items(es[1..] + more);
    }
  }

  /**
   * A login body with the captcha appended is the body of the form's entries
   * followed by `captcha_sid` and `captcha_key`, and reads back as such when
   * the escaped answer holds no `&`.
   */
  lemma CaptchaBodyReadsBack(es: seq<(string, string)>, captcha: Captcha, answer: string, escape: string -> string)
    requires |es| > 0 && forall i :: 0 <= i < |es| ==> Plain(es[i])
    requires '&' !in escape(answer)
    ensures Query(es) + CaptchaSuffix(captcha, answer, escape)
              == Query(es + [("captcha_sid", IntToDecimal(captcha.sid)), ("captcha_key", escape(answer))])
    ensures ParseQuery(Query(es) + CaptchaSuffix(captcha, answer, escape))
              == es + [("captcha_sid", IntToDecimal(captcha.sid)), ("captcha_key", escape(answer))]
  {
    var more := [("captcha_sid", IntToDecimal(captcha.sid)), ("captcha_key", escape(answer))];
    QueryAppend(es, more);
    assert Query(es) + CaptchaSuffix(captcha, answer, escape) == Query(es) + "&" + Query(more);
    DecimalIsPlain(captcha.sid);
    assert Plain(more[0]) && Plain(more[1]);
    ParseQueryOfQuery(es + more);
  }

  /** `Encoding.UTF8.GetBytes` of a text of single-byte characters. */
  method Bytes(text: string) returns (bytes: array<char>)
    ensures fresh(bytes) && bytes[..] == text
  {
    bytes := new char[|text|](i requires 0 <= i < |text| => text[i]);
  }

  /** A new array of both lengths, `first` copied to position 0 and `second` after it. */
  method Combine(first: array<char>, second: array<char>) returns (combined: array<char>)
    ensures fresh(combined) && combined[..] == first[..] + second[..]
  {
    combined := new char[first.Length + second.Length];
    var i := 0;
    while i < first.Length
      invariant 0 <= i <= first.Length
      invariant combined[..i] == first[..i]
    {
      combined[i] := first[i];
      i := i + 1;
    }
    var j := 0;
    while j < second.Length
      invariant 0 <= j <= second.Length
      invariant combined[..first.Length] == first[..]
      invariant combined[first.Length..first.Length + j] == second[..j]
    {
      combined[first.Length + j] := second[j];
      j := j + 1;
    }
    assert combined[..] == combined[..first.Length] + combined[first.Length..];
  }

  /**
   * `ResolveCaptcha` on a request whose body is a byte array: a non-empty
   * answer gives a new array holding the old bytes, then the captcha fields;
   * otherwise the same request.
   */
  method ResolveCaptcha(captcha: Captcha, uri: string, body: array<char>, resolver: Option<CaptchaResolver>,
                        answer: Answer, escape: string -> string) returns (r: Result<(string, array<char>)>)
    ensures r.Err? <==> Resolved(captcha, LoginRequest(uri, body[..]), resolver, answer, escape).Err?
    ensures r.Err? ==> r.error == Resolved(captcha, LoginRequest(uri, body[..]), resolver, answer, escape).error
    ensures r.Ok? ==> LoginRequest(r.value.0, r.value.1[..]) == Resolved(captcha, LoginRequest(uri, body[..]), resolver, answer, escape).value
    ensures r.Ok? ==> r.value.1 == body || fresh(r.value.1)
  {
    if resolver.None? {
      return Err(CaptchaNeeded(NoResolverMessage, captcha.sid, captcha.image));
    }
    if answer.Cancelled? {
      return Err(CaptchaNeeded(NotResolvedMessage, captcha.sid, captcha.image));
    }
    if Formatted(answer.text) == "" {
      return Ok((uri, body));
    }
    var captchaParameters := Bytes(CaptchaSuffix(captcha, answer.text.value, escape));
    var combined := Combine(body, captchaParameters);
    r := Ok((uri, combined));
  }

  // ---------------------------------------------------------------------------
  // The login loop

  /** `ThrowIfLoginFailed`: a page without its one form, or with a warning message, fails. */
  function CheckLoginFailed(response: Response): (o: Outcome)
    ensures o.Pass? <==> response.page.form.Some? && response.page.form.value.serviceMessage.None?
    ensures response.page.form.None? ==> o == Fail(InvalidOperation)
    ensures response.page.form.Some? && response.page.form.value.serviceMessage.Some? ==>
              o == Fail(AuthorizationFailed("Authorisation failed: " + response.page.form.value.serviceMessage.value, 0))
  {
    match response.page.form
    case None => Fail(InvalidOperation)
    case Some(f) =>
      if f.serviceMessage.Some? then Fail(AuthorizationFailed("Authorisation failed: " + f.serviceMessage.value, 0))
      else Pass
  }

  /**
   * `TryGetCaptchaFromPage`: no captcha when the form has no `captcha_sid`
   * input; otherwise its value is read with `long.Parse`, and the captcha is
   * built from that number and the image address, which refuses a
   * non-positive number.
   */
  function CaptchaOf(page: Page): (r: Result<Option<Captcha>>)
    ensures page.form.None? ==> r == Err(InvalidOperation)
    ensures page.form.Some? && page.form.value.captcha.None? ==> r == Ok(None)
    ensures page.form.Some? && page.form.value.captcha.Some? ==>
              var field := page.form.value.captcha.value;
              && (r.Ok? <==> ParseLong(field.sid).Ok? && ParseLong(field.sid).value > 0)
              && (ParseLong(field.sid).Err? ==> r == Err(ParseLong(field.sid).error))
              && (r.Ok? ==> r.value == Some(Captcha(ParseLong(field.sid).value, field.image)))
              && (ParseLong(field.sid).Ok? && r.Err? ==> r.error == ArgumentOutOfRange("sid"))
  {
    match page.form
    case None => Err(InvalidOperation)
    case Some(f) =>
      match f.captcha
      case None => Ok(None)
      case Some(field) =>
        match ParseLong(field.sid)
        case Err(e) => Err(e)
        case Ok(sid) =>
          match NewCaptcha(sid, Some(field.image))
          case Err(e) => Err(e)
          case Ok(c) => Ok(Some(c))
  }

  /** What the loop reads from the response to a post: a failure, or the captcha shown, if any. */
  function Reply(response: Response): Result<Option<Captcha>>
  {
    match CheckLoginFailed(response)
    case Fail(e) => Err(e)
    case Pass => CaptchaOf(response.page)
  }

  /**
   * The parts of a login that come from outside: the login and password, the
   * captcha resolver, its answer to the captcha shown before post `k`, and
   * the address escaping of answers.
   */
  datatype Credentials = Credentials(
    login: string,
    password: string,
    resolver: Option<CaptchaResolver>,
    answers: nat -> Answer,
    escape: string -> string)

  /** The request of post `k`: the parameters of the page, with the pending captcha resolved. */
  function Round(page: Page, captcha: Option<Captcha>, k: nat, cs: Credentials): Result<LoginRequest>
  {
    match LoginParameters(page, cs.login, cs.password)
    case Err(e) => Err(e)
    case Ok(request) =>
      if captcha.None? then Ok(request)
      else Resolved(captcha.value, request, cs.resolver, cs.answers(k), cs.escape)
  }

  /** How the loop ends: on a response without captcha, with an error, or with a post the script does not answer. */
  datatype LoopEnd = Done(response: Response) | Stopped(error: VkError) | Unanswered

  /** The requests a run posts, and how it ends. */
  datatype Trace = Trace(posts: seq<LoginRequest>, end: LoopEnd)

  /** How post `k` is built from the current page and the pending captcha. */
  type RoundFunction = (Page, Option<Captcha>, nat) -> Result<LoginRequest>

  /** The login's own way of building post `k`. */
  function Rounds(cs: Credentials): RoundFunction
  {
    (page: Page, captcha: Option<Captcha>, k: nat) => Round(page, captcha, k, cs)
  }

  /**
   * The loop from post `k` on, on `page` with `captcha` pending, where
   * `script[k]` answers post `k`; `round` builds a post and `reply` reads a
   * response.
   */
  function Run(round: RoundFunction, reply: Response -> Result<Option<Captcha>>,
               page: Page, captcha: Option<Captcha>, k: nat, script: seq<Response>): Trace
    decreases |script| - k
  {
    match round(page, captcha, k)
    case Err(e) => Trace([], Stopped(e))
    case Ok(request) =>
      if k >= |script| then Trace([request], Unanswered)
      else
        match reply(script[k])
        case Err(e) => Trace([request], Stopped(e))
        case Ok(None) => Trace([request], Done(script[k]))
        case Ok(Some(c)) =>
          var rest := Run(round, reply, script[k].page, Some(c), k + 1, script);
          Trace([request] + rest.posts, rest.end)
  }

  /** A run posts a first request exactly when its round builds one, and that is the one it posts. */
  lemma RunFirst(round: RoundFunction, reply: Response -> Result<Option<Captcha>>,
                 page: Page, captcha: Option<Captcha>, k: nat, script: seq<Response>)
    ensures |Run(round, reply, page, captcha, k, script).posts| > 0 <==> round(page, captcha, k).Ok?
    ensures |Run(round, reply, page, captcha, k, script).posts| > 0 ==>
              round(page, captcha, k) == Ok(Run(round, reply, page, captcha, k, script).posts[0])
  {
  }

  /** A run that posts and is answered by a response showing a captcha continues with a run on that response. */
  lemma RunAgain(round: RoundFunction, reply: Response -> Result<Option<Captcha>>,
                 page: Page, captcha: Option<Captcha>, k: nat, script: seq<Response>)
    requires round(page, captcha, k).Ok? && k < |script| && reply(script[k]).Ok? && reply(script[k]).value.Some?
    ensures Run(round, reply, page, captcha, k, script)
              == Trace([round(page, captcha, k).value] + Run(round, reply, script[k].page, reply(script[k]).value, k + 1, script).posts,
                       Run(round, reply, script[k].page, reply(script[k]).value, k + 1, script).end)
  {
  }

  /** A run that stops at post `k`: its round fails, the script has no answer, or the answer ends the loop. */
  lemma RunStops(round: RoundFunction, reply: Response -> Result<Option<Captcha>>,
                 page: Page, captcha: Option<Captcha>, k: nat, script: seq<Response>)
    ensures round(page, captcha, k).Err? ==>
              Run(round, reply, page, captcha, k, script) == Trace([], Stopped(round(page, captcha, k).error))
    ensures round(page, captcha, k).Ok? && k >= |script| ==>
              Run(round, reply, page, captcha, k, script) == Trace([round(page, captcha, k).value], Unanswered)
    ensures round(page, captcha, k).Ok? && k < |script| && reply(script[k]).Err? ==>
              Run(round, reply, page, captcha, k, script)
              == Trace([round(page, captcha, k).value], Stopped(reply(script[k]).error))
    ensures round(page, captcha, k).Ok? && k < |script| && reply(script[k]) == Ok(None) ==>
              Run(round, reply, page, captcha, k, script) == Trace([round(page, captcha, k).value], Done(script[k]))
  {
  }

  /**
   * A loop that has posted `posts` of a whole run and goes round again on a
   * response showing a captcha has posted one more request of it.
   */
  lemma RunContinues(round: RoundFunction, reply: Response -> Result<Option<Captcha>>,
                     page: Page, captcha: Option<Captcha>, script: seq<Response>,
                     posts: seq<LoginRequest>, whole: Trace)
    requires posts + Run(round, reply, page, captcha, |posts|, script).posts == whole.posts
    requires Run(round, reply, page, captcha, |posts|, script).end == whole.end
    requires round(page, captcha, |posts|).Ok? && |posts| < |script|
    requires reply(script[|posts|]).Ok? && reply(script[|posts|]).value.Some?
    ensures var rest := Run(round, reply, script[|posts|].page, reply(script[|posts|]).value, |posts| + 1, script);
            && (posts + [round(page, captcha, |posts|).value]) + rest.posts == whole.posts
            && rest.end == whole.end
  {
    var k := |posts|;
    var request := round(page, captcha, k).value;
    var rest := Run(round, reply, script[k].page, reply(script[k]).value, k + 1, script);
    RunAgain(round, reply, page, captcha, k, script);
    assert Run(round, reply, page, captcha, k, script).posts == [request] + rest.posts;
    assert posts + ([request] + rest.posts) == (posts + [request]) + rest.posts;
  }

  /**
   * Each request `j` of a run after the first is built from the response to
   * request `j - 1`, which showed a captcha.
   */
  lemma {:induction false} RunLater(round: RoundFunction, reply: Response -> Result<Option<Captcha>>,
                                    page: Page, captcha: Option<Captcha>, k: nat, script: seq<Response>, j: nat)
    requires 0 < j < |Run(round, reply, page, captcha, k, script).posts|
    ensures k + j - 1 < |script|
    ensures reply(script[k + j - 1]).Ok? && reply(script[k + j - 1]).value.Some?
    ensures round(script[k + j - 1].page, reply(script[k + j - 1]).value, k + j)
              == Ok(Run(round, reply, page, captcha, k, script).posts[j])
    decreases j
  {
    assert round(page, captcha, k).Ok? && k < |script| && reply(script[k]).Ok? && reply(script[k]).value.Some?;
    var c := reply(script[k]).value;
    RunAgain(round, reply, page, captcha, k, script);
    var rest := Run(round, reply, script[k].page, c, k + 1, script).posts;
    assert Run(round, reply, page, captcha, k, script).posts[j] == rest[j - 1];
    if j == 1 {
      RunFirst(round, reply, script[k].page, c, k + 1, script);
    } else {
      RunLater(round, reply, script[k].page, c, k + 1, script, j - 1);
    }
  }

  /**
   * A run ends `Done` exactly on an answered response without failure and
   * without captcha, the one answering its last post.
   */
  lemma {:induction false} RunDone(round: RoundFunction, reply: Response -> Result<Option<Captcha>>,
                                   page: Page, captcha: Option<Captcha>, k: nat, script: seq<Response>)
    ensures var t := Run(round, reply, page, captcha, k, script);
            t.end.Done? <==> |t.posts| > 0 && k + |t.posts| - 1 < |script|
                             && t.end == Done(script[k + |t.posts| - 1])
                             && reply(script[k + |t.posts| - 1]) == Ok(None)
    decreases |script| - k
  {
    if round(page, captcha, k).Ok? && k < |script| && reply(script[k]).Ok? && reply(script[k]).value.Some? {
      RunDone(round, reply, script[k].page, reply(script[k]).value, k + 1, script);
    }
  }

  lemma RoundsApply(cs: Credentials, page: Page, captcha: Option<Captcha>, k: nat)
    ensures Rounds(cs)(page, captcha, k) == Round(page, captcha, k, cs)
  {
  }

  /**
   * One pass of the loop up to the post: the parameters freshly built from
   * the current page, and the pending captcha, if any, resolved into them.
   */
  method BuildRound(page: Page, captcha: Option<Captcha>, k: nat, cs: Credentials) returns (r: Result<LoginRequest>)
    ensures r == Round(page, captcha, k, cs)
  {
    var parameters := BuildLoginParameters(page, cs.login, cs.password);
    if parameters.Err? {
      return Err(parameters.error);
    }
    var request := parameters.value;
    if captcha.None? {
      return Ok(request);
    }
    var body := Bytes(request.body);
    var resolved := ResolveCaptcha(captcha.value, request.uri, body, cs.resolver, cs.answers(k), cs.escape);
    if resolved.Err? {
      return Err(resolved.error);
    }
    r := Ok(LoginRequest(resolved.value.0, resolved.value.1[..]));
  }

  /**
   * The do/while of `AuthoriseInternal`, on the first login page and the
   * script of responses to the posts: build the parameters from the current
   * page, resolve the pending captcha, post, check the response, and go
   * round again while the response shows a captcha.
   */
  method LoginLoop(first: Page, cs: Credentials, script: seq<Response>) returns (trace: Trace)
    ensures trace == Run(Rounds(cs), Reply, first, None, 0, script)
  {
    var page := first;
    var captcha: Option<Captcha> := None;
    var posts: seq<LoginRequest> := [];
    ghost var whole := Run(Rounds(cs), Reply, first, None, 0, script);
    while true
      invariant |posts| <= |script|
      invariant posts + Run(Rounds(cs), Reply, page, captcha, |posts|, script).posts == whole.posts
      invariant Run(Rounds(cs), Reply, page, captcha, |posts|, script).end == whole.end
      decreases |script| - |posts|
    {
      var request := BuildRound(page, captcha, |posts|, cs);
      RoundsApply(cs, page, captcha, |posts|);
      RunStops(Rounds(cs), Reply, page, captcha, |posts|, script);
      if request.Err? {
        return Trace(posts, Stopped(request.error));
      }
      if |posts| == |script| {
        return Trace(posts + [request.value], Unanswered);
      }
      var response := script[|posts|];
      var answer := Reply(response);
      if answer.Err? {
        return Trace(posts + [request.value], Stopped(answer.error));
      }
      if answer.value.None? {
        return Trace(posts + [request.value], Done(response));
      }
      RunContinues(Rounds(cs), Reply, page, captcha, script, posts, whole);
      posts := posts + [request.value];
      page := response.page;
      captcha := answer.value;
    }
  }

  /** The first post of a login is the parameters of the first page, with no captcha. */
  lemma LoginFirstPost(first: Page, cs: Credentials, script: seq<Response>)
    ensures var t := Run(Rounds(cs), Reply, first, None, 0, script);
            && (|t.posts| > 0 <==> LoginParameters(first, cs.login, cs.password).Ok?)
            && (|t.posts| > 0 ==> LoginParameters(first, cs.login, cs.password) == Ok(t.posts[0]))
  {
    RunFirst(Rounds(cs), Reply, first, None, 0, script);
    RoundsApply(cs, first, None, 0);
  }

  /** A post built with a captcha pending is the page's parameters with that captcha resolved. */
  lemma RoundResolves(page: Page, captcha: Captcha, k: nat, cs: Credentials)
    requires Round(page, Some(captcha), k, cs).Ok?
    ensures LoginParameters(page, cs.login, cs.password).Ok?
    ensures Resolved(captcha, LoginParameters(page, cs.login, cs.password).value, cs.resolver, cs.answers(k), cs.escape)
            == Round(page, Some(captcha), k, cs)
  {
  }

  // ---------------------------------------------------------------------------
  // AuthoriseFromUri: reading the final redirect address

  /** `https://oauth.vk.com/blank.html#access_token=`: the start of a granted redirect. */
  const SuccessPrefix: string := BlankPage + "#access_token="
  const ExpiresKey: string := "expires_in="
  const UserIdKey: string := "user_id="

  /** `https://oauth.vk.com/blank.html?error=`: the start of a refused redirect. */
  const FailurePrefix: string := BlankPage + "?error="
  const DescriptionKey: string := "error_description="

  /** The named groups of the success pattern. */
  datatype SuccessGroups = SuccessGroups(token: string, expires: string, uid: string)

  /** The named groups of the failure pattern. */
  datatype FailureGroups = FailureGroups(error: string, desc: string)

  /** `key` and `value` written as one field of an address, followed by `&` and the rest. */
  function Field(key: string, value: string, rest: string): string
  {
    key + value + "&" + rest
  }

  /** What `$` accepts after the last group: nothing, or one final newline. */
  function LineEnd(newline: bool): string
  {
    if newline then "\n" else ""
  }

  /** The address the success pattern matches with groups `g`, its literal parts passed in. */
  function SuccessShape(prefix: string, key1: string, key2: string, g: SuccessGroups, newline: bool): string
  {
    Field(prefix, g.token, Field(key1, g.expires, key2 + g.uid + LineEnd(newline)))
  }

  /** The address the failure pattern matches with groups `g`, its literal parts passed in. */
  function FailureShape(prefix: string, key: string, g: FailureGroups, newline: bool): string
  {
    Field(prefix, g.error, key + g.desc + LineEnd(newline))
  }

  predicate ValidSuccessGroups(g: SuccessGroups)
  {
    && |g.token| > 0 && AllLowerHex(g.token)
    && |g.expires| > 0 && AllDigits(g.expires)
    && |g.uid| > 0 && AllDigits(g.uid)
  }

  predicate ValidFailureGroups(g: FailureGroups)
  {
    |g.error| > 0 && '&' !in g.error && |g.desc| > 0 && '\n' !in g.desc
  }

  /**
   * `^…#access_token=(?<token>[0-9a-f]+)&expires_in=(?<expires>[0-9]+)&user_id=(?<uid>[0-9]+)$`
   * matches `uri` with groups `g`; `$` also matches before a final newline.
   */
  predicate SuccessMatch(uri: string, g: SuccessGroups)
  {
    && ValidSuccessGroups(g)
    && (uri == SuccessShape(SuccessPrefix, ExpiresKey, UserIdKey, g, false)
        || uri == SuccessShape(SuccessPrefix, ExpiresKey, UserIdKey, g, true))
  }

  /**
   * `^…\?error=(?<error>[^&]+)&error_description=(?<desc>.+)$` matches `uri`
   * with groups `g`; `.` is any character but a newline.
   */
  predicate FailureMatch(uri: string, g: FailureGroups)
  {
    && ValidFailureGroups(g)
    && (uri == FailureShape(FailurePrefix, DescriptionKey, g, false)
        || uri == FailureShape(FailurePrefix, DescriptionKey, g, true))
  }

  /** What follows `prefix` in `s`, if `s` starts with it. */
  function After(prefix: string, s: string): (r: Option<string>)
    ensures r.Some? <==> prefix <= s
    ensures r.Some? ==> s == prefix + r.value
  {
    if prefix <= s then
      assert s == prefix + s[|prefix|..];
      Some(s[|prefix|..])
    else None
  }

  /** Reads one field: `s` is `key`, then a value up to the first `&`, then the rest. */
  function ReadField(key: string, s: string): (r: Option<(string, string)>)
    ensures r.Some? ==> s == Field(key, r.value.0, r.value.1) && '&' !in r.value.0
  {
    match After(key, s)
    case None => None
    case Some(t) =>
      match IndexOf(t, '&')
      case None => None
      case Some(i) =>
        assert t == t[..i] + "&" + t[i + 1..];
        Some((t[..i], t[i + 1..]))
  }

  /** A field whose value holds no `&` reads back as that value and the rest. */
  lemma ReadFieldOf(key: string, value: string, rest: string)
    requires '&' !in value
    ensures ReadField(key, Field(key, value, rest)) == Some((value, rest))
  {
    var s := Field(key, value, rest);
    var t := value + "&" + rest;
    assert s == key + t;
    assert s[..|key|] == key && s[|key|..] == t;
    IndexOfAfterPrefix(value, '&', rest);
    assert t[..|value|] == value && t[|value| + 1..] == rest;
  }

  /** `s` without one final newline, if it has one: what `$` leaves to a group that cannot hold a newline. */
  function BeforeLineEnd(s: string): (r: string)
    ensures s == r || s == r + "\n"
  {
    if |s| > 0 && s[|s| - 1] == '\n' then
      assert s == s[..|s| - 1] + "\n";
      s[..|s| - 1]
    else s
  }

  /** The success pattern's groups in `uri`, read left to right. */
  function ParseSuccess(uri: string): (r: Option<SuccessGroups>)
    ensures r.Some? ==> ValidSuccessGroups(r.value)
  {
    ReadSuccess(uri, SuccessPrefix, ExpiresKey, UserIdKey)
  }

  /** Reads the groups of the success shape with the literal parts `prefix`, `key1` and `key2`. */
  function ReadSuccess(uri: string, prefix: string, key1: string, key2: string): (r: Option<SuccessGroups>)
    ensures r.Some? ==> ValidSuccessGroups(r.value)
  {
    match ReadField(prefix, uri)
    case None => None
    case Some((token, r1)) =>
      match ReadField(key1, r1)
      case None => None
      case Some((expires, r2)) =>
        match After(key2, r2)
        case None => None
        case Some(r3) =>
          var g := SuccessGroups(token, expires, BeforeLineEnd(r3));
          if ValidSuccessGroups(g) then Some(g) else None
  }

  /** The failure pattern's groups in `uri`, read left to right. */
  function ParseFailure(uri: string): Option<FailureGroups>
  {
    ReadFailure(uri, FailurePrefix, DescriptionKey)
  }

  /** Reads the groups of the failure shape with the literal parts `prefix` and `key`. */
  function ReadFailure(uri: string, prefix: string, key: string): Option<FailureGroups>
  {
    match ReadField(prefix, uri)
    case None => None
    case Some((error, r1)) =>
      match After(key, r1)
      case None => None
      case Some(r2) =>
        var g := FailureGroups(error, BeforeLineEnd(r2));
        if ValidFailureGroups(g) then Some(g) else None
  }

  lemma AfterOf(prefix: string, rest: string)
    ensures After(prefix, prefix + rest) == Some(rest)
  {
    assert (prefix + rest)[..|prefix|] == prefix;
  }

  /** The last group, followed by what `$` accepts, reads back as the group. */
  lemma BeforeLineEndOf(group: string, newline: bool)
    requires |group| > 0 && '\n' !in group
    ensures BeforeLineEnd(group + LineEnd(newline)) == group
  {
    var s := group + LineEnd(newline);
    if newline {
      assert s[..|s| - 1] == group;
    } else {
      assert s == group;
      assert group[|group| - 1] in group;
    }
  }

  lemma ValidSuccessGroupsPlain(g: SuccessGroups)
    requires ValidSuccessGroups(g)
    ensures '&' !in g.token && '&' !in g.expires && '\n' !in g.uid
  {
    assert forall i :: 0 <= i < |g.token| ==> IsLowerHex(g.token[i]);
    assert forall i :: 0 <= i < |g.expires| ==> IsDigit(g.expires[i]);
    assert forall i :: 0 <= i < |g.uid| ==> IsDigit(g.uid[i]);
  }

  lemma ReadSuccessSound(uri: string, prefix: string, key1: string, key2: string)
    requires ReadSuccess(uri, prefix, key1, key2).Some?
    ensures var g := ReadSuccess(uri, prefix, key1, key2).value;
            ValidSuccessGroups(g)
            && (uri == SuccessShape(prefix, key1, key2, g, false) || uri == SuccessShape(prefix, key1, key2, g, true))
  {
    var g := ReadSuccess(uri, prefix, key1, key2).value;
    var r1 := ReadField(prefix, uri).value.1;
    assert uri == Field(prefix, g.token, r1);
    var r2 := ReadField(key1, r1).value.1;
    assert r1 == Field(key1, g.expires, r2);
    var r3 := After(key2, r2).value;
    var newline := r3 != g.uid;
    assert r3 == g.uid + LineEnd(newline);
    assert r2 == key2 + g.uid + LineEnd(newline);
  }

  lemma ReadSuccessComplete(uri: string, prefix: string, key1: string, key2: string, g: SuccessGroups, newline: bool)
    requires ValidSuccessGroups(g) && uri == SuccessShape(prefix, key1, key2, g, newline)
    ensures ReadSuccess(uri, prefix, key1, key2) == Some(g)
  {
    ValidSuccessGroupsPlain(g);
    var r3 := g.uid + LineEnd(newline);
    var r2 := key2 + r3;
    var r1 := Field(key1, g.expires, r2);
    ReadFieldOf(prefix, g.token, r1);
    ReadFieldOf(key1, g.expires, r2);
    assert key2 + g.uid + LineEnd(newline) == r2;
    AfterOf(key2, r3);
    BeforeLineEndOf(g.uid, newline);
  }

  lemma ReadFailureSound(uri: string, prefix: string, key: string)
    requires ReadFailure(uri, prefix, key).Some?
    ensures var g := ReadFailure(uri, prefix, key).value;
            ValidFailureGroups(g)
            && (uri == FailureShape(prefix, key, g, false) || uri == FailureShape(prefix, key, g, true))
  {
    var g := ReadFailure(uri, prefix, key).value;
    var r1 := ReadField(prefix, uri).value.1;
    var r2 := After(key, r1).value;
    var newline := r2 != g.desc;
    assert r2 == g.desc + LineEnd(newline);
  }

  lemma ReadFailureComplete(uri: string, prefix: string, key: string, g: FailureGroups, newline: bool)
    requires ValidFailureGroups(g) && uri == FailureShape(prefix, key, g, newline)
    ensures ReadFailure(uri, prefix, key) == Some(g)
  {
    var r2 := g.desc + LineEnd(newline);
    var r1 := key + r2;
    ReadFieldOf(prefix, g.error, r1);
    assert key + g.desc + LineEnd(newline) == r1;
    AfterOf(key, r2);
    BeforeLineEndOf(g.desc, newline);
  }

  /** What ParseSuccess reads is a match of the success pattern, and every match is what it reads. */
  lemma ParseSuccessCorrect(uri: string, g: SuccessGroups)
    ensures ParseSuccess(uri) == Some(g) <==> SuccessMatch(uri, g)
  {
    if ParseSuccess(uri).Some? {
      ReadSuccessSound(uri, SuccessPrefix, ExpiresKey, UserIdKey);
    }
    if SuccessMatch(uri, g) {
      var newline := uri != SuccessShape(SuccessPrefix, ExpiresKey, UserIdKey, g, false);
      ReadSuccessComplete(uri, SuccessPrefix, ExpiresKey, UserIdKey, g, newline);
    }
  }

  /** What ParseFailure reads is a match of the failure pattern, and every match is what it reads. */
  lemma ParseFailureCorrect(uri: string, g: FailureGroups)
    ensures ParseFailure(uri) == Some(g) <==> FailureMatch(uri, g)
  {
    if ParseFailure(uri).Some? {
      ReadFailureSound(uri, FailurePrefix, DescriptionKey);
    }
    if FailureMatch(uri, g) {
      var newline := uri != FailureShape(FailurePrefix, DescriptionKey, g, false);
      ReadFailureComplete(uri, FailurePrefix, DescriptionKey, g, newline);
    }
  }

  /** No address matches both patterns: after the blank page one has `#`, the other `?`. */
  lemma PatternsDisjoint(uri: string)
    ensures ParseSuccess(uri).Some? ==> ParseFailure(uri).None?
  {
    if ParseSuccess(uri).Some? {
      assert SuccessPrefix <= uri;
      assert uri[|BlankPage|] == SuccessPrefix[|BlankPage|] == '#';
      assert FailurePrefix[|BlankPage|] == '?';
      assert !(FailurePrefix <= uri);
    }
  }

  /** A matched `token` passes FromToken's anchored token pattern. */
  lemma TokenPassesCheck(g: SuccessGroups)
    requires ValidSuccessGroups(g)
    ensures MatchesAnchored(g.token)
  {
  }

  /**
   * `AuthoriseFromUri` on what the two patterns read from the address, with
   * the failure branch reading the failure pattern's groups: a granted
   * redirect gives the user id (`long.Parse`, which overflows past
   * `long.MaxValue`) and the token, once FromToken's checks pass; a refused
   * one fails with `error: desc`; any other address breaks the closing
   * assumption.
   */
  function FromGroups(success: Option<SuccessGroups>, failure: Option<FailureGroups>, transport: Transport)
    : (r: Result<(Long, string)>)
    requires success.Some? ==> ValidSuccessGroups(success.value)
    ensures r.Ok? <==> success.Some? && 0 < ParseDecimal(success.value.uid) <= MaxLong
    ensures r.Ok? ==> r.value == (ParseDecimal(success.value.uid), success.value.token)
    ensures r.Ok? ==> FromTokenCheck(r.value.0, Some(r.value.1), Some(transport)).Pass?
    ensures success.Some? && ParseDecimal(success.value.uid) > MaxLong ==> r == Err(Overflow)
    ensures success.Some? && ParseDecimal(success.value.uid) == 0 ==> r == Err(ArgumentOutOfRange("userId"))
    ensures success.None? && failure.Some? ==>
              r == Err(AuthorizationFailed(failure.value.error + ": " + failure.value.desc, 0))
    ensures success.None? && failure.None? ==> r == Err(ContractAssumption)
  {
    match success
    case Some(g) =>
      var uid := ParseDecimal(g.uid);
      if uid > MaxLong then Err(Overflow)
      else
        TokenPassesCheck(g);
        (match FromTokenCheck(uid, Some(g.token), Some(transport))
         case Fail(e) => Err(e)
         case Pass => Ok((uid, g.token)))
    case None =>
      match failure
      case Some(f) => Err(AuthorizationFailed(f.error + ": " + f.desc, 0))
      case None => Err(ContractAssumption)
  }

  /**
   * `FromGroups` as written: on a refused redirect it reads the groups
   * `error` and `desc` from a match of the success pattern, which has failed
   * and has no such groups, so both read as empty.
   */
  function FromGroupsAsWritten(success: Option<SuccessGroups>, failure: Option<FailureGroups>, transport: Transport)
    : (r: Result<(Long, string)>)
    requires success.Some? ==> ValidSuccessGroups(success.value)
    ensures success.None? && failure.Some? ==> r == Err(AuthorizationFailed(": ", 0))
    ensures success.Some? || failure.None? ==> r == FromGroups(success, failure, transport)
  {
    match success
    case Some(_) => FromGroups(success, failure, transport)
    case None =>
      match failure
      case Some(_) =>
        var failed := FailureGroups("", "");
        assert failed.error + ": " + failed.desc == ": ";
        Err(AuthorizationFailed(failed.error + ": " + failed.desc, 0))
      case None => Err(ContractAssumption)
  }

  /** `AuthoriseFromUri(accessUri)` up to the new session: its user id and token, or the exception. */
  function FromUri(uri: string, transport: Transport): Result<(Long, string)>
  {
    FromGroups(ParseSuccess(uri), ParseFailure(uri), transport)
  }

  /** `AuthoriseFromUri` as written: a refused redirect loses its error and description. */
  function FromUriAsWritten(uri: string, transport: Transport): Result<(Long, string)>
  {
    FromGroupsAsWritten(ParseSuccess(uri), ParseFailure(uri), transport)
  }

  /** A granted redirect with user id `uid` and token `token` gives exactly those to the new session. */
  lemma GrantedRedirect(uri: string, g: SuccessGroups, transport: Transport)
    requires SuccessMatch(uri, g)
    ensures 0 < ParseDecimal(g.uid) <= MaxLong ==> FromUri(uri, transport) == Ok((ParseDecimal(g.uid), g.token))
    ensures ParseDecimal(g.uid) > MaxLong ==> FromUri(uri, transport) == Err(Overflow)
    ensures ParseDecimal(g.uid) == 0 ==> FromUri(uri, transport) == Err(ArgumentOutOfRange("userId"))
  {
    ParseSuccessCorrect(uri, g);
  }

  /** A refused redirect fails with its error and description. */
  lemma RefusedRedirect(uri: string, f: FailureGroups, transport: Transport)
    requires FailureMatch(uri, f)
    ensures FromUri(uri, transport) == Err(AuthorizationFailed(f.error + ": " + f.desc, 0))
  {
    ParseFailureCorrect(uri, f);
    PatternsDisjoint(uri);
  }

  /**
   * As written, every refused redirect fails with the same message `": "`,
   * whatever its error and description, where the evident intent is
   * `error: desc`.
   */
  lemma FailureTextLost(uri: string, f: FailureGroups, transport: Transport)
    requires FailureMatch(uri, f)
    ensures FromUriAsWritten(uri, transport) == Err(AuthorizationFailed(": ", 0))
    ensures FromUriAsWritten(uri, transport) != FromUri(uri, transport)
  {
    RefusedRedirect(uri, f, transport);
    assert |f.error + ": " + f.desc| > 2;
  }

  /**
   * The refusal `error=access_denied`, `error_description=denied` is reported
   * as `": "` as written, and as `"access_denied: denied"` once corrected.
   */
  lemma FailureTextLostExample(transport: Transport)
    ensures FromGroupsAsWritten(None, Some(FailureGroups("access_denied", "denied")), transport)
            == Err(AuthorizationFailed(": ", 0))
    ensures FromGroups(None, Some(FailureGroups("access_denied", "denied")), transport)
            == Err(AuthorizationFailed("access_denied: denied", 0))
  {
    assert "access_denied" + ": " + "denied" == "access_denied: denied";
  }

  // ---------------------------------------------------------------------------
  // AuthoriseInternal: the whole exchange

  /**
   * `GetGrantAccessUriFromPermissionsPage`: the action of the permissions
   * page's form; a page without a form breaks the assumption.
   */
  function GrantAccessUri(page: Page): (r: Result<string>)
    ensures r.Ok? <==> page.form.Some?
    ensures r.Ok? ==> r.value == page.form.value.action
    ensures r.Err? ==> r.error == ContractAssumption
  {
    match page.form
    case None => Err(ContractAssumption)
    case Some(f) => Ok(f.action)
  }

  /** The login posts as transport requests. */
  function PostsOf(posts: seq<LoginRequest>): (rs: seq<Request>)
    ensures |rs| == |posts|
    ensures forall i :: 0 <= i < |posts| ==> rs[i] == Post(posts[i].uri, Some(posts[i].body))
  {
    if posts == [] then [] else [Post(posts[0].uri, Some(posts[0].body))] + PostsOf(posts[1..])
  }

  /** How the exchange ends before `AuthoriseFromUri`: with an error, out of responses, or at the access address. */
  datatype FlowEnd = Failed(error: VkError) | Exhausted | Accessed(uri: string)

  /** The requests the exchange sends, in order, and how it ends. */
  datatype Flow = Flow(sent: seq<Request>, end: FlowEnd)

  /**
   * The exchange of `AuthoriseInternal` with a transport whose responses are
   * `script`, in order: two loads of the login page, the second checked;
   * the login loop on the first; the post to the permissions form's action;
   * and the address that post ends at.
   */
  function LoginFlow(appId: Long, settings: Filter, cs: Credentials, script: seq<Response>): Flow
  {
    Exchange(LoginPageUri(appId, settings), Rounds(cs), Reply, script)
  }

  /** The exchange on the login page `address`, with `round` and `reply` for the login loop. */
  function Exchange(address: string, round: RoundFunction, reply: Response -> Result<Option<Captcha>>,
                    script: seq<Response>): Flow
  {
    if |script| == 0 then Flow([Get(address)], Exhausted)
    else if |script| == 1 then Flow([Get(address), Get(address)], Exhausted)
    else
      var gets := [Get(address), Get(address)];
      match CheckLoginPage(script[1])
      case Fail(e) => Flow(gets, Failed(e))
      case Pass => AfterLogin(gets, Run(round, reply, script[0].page, None, 0, script[2..]), script)
  }

  /**
   * The exchange once the login loop has run as `t`, after the requests
   * `sent`: its posts, then the post to the permissions form's action,
   * answered by the next response.
   */
  function AfterLogin(sent: seq<Request>, t: Trace, script: seq<Response>): Flow
  {
    var posted := sent + PostsOf(t.posts);
    match t.end
    case Stopped(e) => Flow(posted, Failed(e))
    case Unanswered => Flow(posted, Exhausted)
    case Done(response) =>
      match GrantAccessUri(response.page)
      case Err(e) => Flow(posted, Failed(e))
      case Ok(grant) =>
        if |posted| >= |script| then Flow(posted + [Post(grant, None)], Exhausted)
        else Flow(posted + [Post(grant, None)], Accessed(script[|posted|].uri))
  }

  /**
   * A run from post `k` answers each post with the next response: it runs out
   * exactly when it has posted one request more than the script answers.
   */
  lemma {:induction false} RunLength(round: RoundFunction, reply: Response -> Result<Option<Captcha>>,
                                     page: Page, captcha: Option<Captcha>, k: nat, script: seq<Response>)
    requires k <= |script|
    ensures var t := Run(round, reply, page, captcha, k, script);
            && (t.end.Unanswered? <==> k + |t.posts| == |script| + 1)
            && (!t.end.Unanswered? ==> k + |t.posts| <= |script|)
    decreases |script| - k
  {
    if round(page, captcha, k).Ok? && k < |script| && reply(script[k]).Ok? && reply(script[k]).value.Some? {
      RunLength(round, reply, script[k].page, reply(script[k]).value, k + 1, script);
    }
  }

  /** The exchange opens with the login page, loaded twice. */
  lemma ExchangeOpens(address: string, round: RoundFunction, reply: Response -> Result<Option<Captcha>>,
                      script: seq<Response>)
    ensures var f := Exchange(address, round, reply, script);
            && |f.sent| >= 1 && f.sent[0] == Get(address)
            && (|script| >= 1 ==> |f.sent| >= 2 && f.sent[1] == Get(address))
  {
  }

  /**
   * Every request but the last unanswered one is answered, in order: the
   * exchange runs out exactly when it has sent one request more than there
   * are responses, and otherwise sends no more than there are.
   */
  lemma ExchangeAnsweredInOrder(address: string, round: RoundFunction, reply: Response -> Result<Option<Captcha>>,
                                script: seq<Response>)
    ensures var f := Exchange(address, round, reply, script);
            && (f.end.Exhausted? <==> |f.sent| == |script| + 1)
            && (!f.end.Exhausted? ==> |f.sent| <= |script|)
  {
    if |script| >= 2 && CheckLoginPage(script[1]).Pass? {
      RunLength(round, reply, script[0].page, None, 0, script[2..]);
    }
  }

  /**
   * An exchange that reaches an access address got it from the response to
   * its last request, a post without body to the action of the page that
   * answered the last login post without failure or captcha.
   */
  lemma ExchangeAccess(address: string, round: RoundFunction, reply: Response -> Result<Option<Captcha>>,
                       script: seq<Response>)
    ensures var f := Exchange(address, round, reply, script);
            f.end.Accessed? ==>
              && 4 <= |f.sent| <= |script|
              && f.end.uri == script[|f.sent| - 1].uri
              && reply(script[|f.sent| - 2]) == Ok(None)
              && GrantAccessUri(script[|f.sent| - 2].page).Ok?
              && f.sent[|f.sent| - 1] == Post(GrantAccessUri(script[|f.sent| - 2].page).value, None)
  {
    if |script| >= 2 && CheckLoginPage(script[1]).Pass? {
      var rest := script[2..];
      var t := Run(round, reply, script[0].page, None, 0, rest);
      RunDone(round, reply, script[0].page, None, 0, rest);
      if t.end.Done? {
        assert rest[|t.posts| - 1] == script[|t.posts| + 1];
      }
    }
  }

  // ---------------------------------------------------------------------------
  // The authoriser object

  /** How `Authorise` ends: it completes or throws, or the transport has no response left for a request. */
  datatype Completion = Finished(outcome: Outcome) | Unfinished

  /** A ManualAuthoriser: an Authoriser (its transport, resolver, session and raised events) with the login flow. */
  class ManualAuthoriser {
    const base: Authoriser

    /** `new ManualAuthoriser(transport, captchaResolver)`: the base constructor, with no session yet. */
    constructor (transport: Transport, captchaResolver: Option<CaptchaResolver>)
      ensures fresh(base)
      ensures base.transport == transport && base.captchaResolver == captchaResolver
      ensures base.api == None && base.events == []
    {
      base := new Authoriser(transport, captchaResolver);
    }

    /**
     * The state after reading the access address `uri` with outcome `o`: on a
     * granted redirect the base's session is a new one with the redirect's
     * user id and token, and `Authorised` and `PropertyChanged("API")` were
     * raised; on a failure, `o` is FromUri's error and nothing changed.
     */
    twostate predicate ReadAccess(uri: string, o: Outcome)
      reads this, base
    {
      Installed(FromUri(uri, base.transport), o)
    }

    /**
     * The state after an outcome `o` that should be `r`: `o` passes exactly
     * when `r` is a user id and token, which the base's new session then
     * holds, with `Authorised` and `PropertyChanged("API")` raised; otherwise
     * `o` is `r`'s error and nothing changed.
     */
    twostate predicate Installed(r: Result<(Long, string)>, o: Outcome)
      reads this, base
    {
      && (o.Pass? <==> r.Ok?)
      && (o.Fail? ==> o.error == r.error)
      && (o.Fail? ==> base.api == old(base.api) && base.events == old(base.events))
      && (o.Pass? ==> base.api.Some? && fresh(base.api.value)
                      && (base.api.value.userId, base.api.value.accessToken) == r.value
                      && base.events == old(base.events) + [Authorised, PropertyChanged("API")])
    }

    /**
     * The state after an exchange `flow` that sent `sent` and ended with
     * `done`: the requests are the flow's; out of responses or failed before
     * the access address, nothing changed; at the access address, as
     * `AuthoriseFromUri` leaves it.
     */
    twostate predicate Followed(flow: Flow, sent: seq<Request>, done: Completion)
      reads this, base
    {
      && sent == flow.sent
      && (flow.end.Exhausted? ==> done == Unfinished)
      && (flow.end.Failed? ==> done == Finished(Fail(flow.end.error)))
      && (!flow.end.Accessed? ==> base.api == old(base.api) && base.events == old(base.events))
      && (flow.end.Accessed? ==> done.Finished? && ReadAccess(flow.end.uri, done.outcome))
    }

    /**
     * `AuthoriseFromUri(accessUri)`: on a granted redirect the base's session
     * becomes a new one with the redirect's user id and token, raising
     * `Authorised` and `PropertyChanged("API")`; on any failure nothing changes.
     */
    method AuthoriseFromUri(uri: string) returns (o: Outcome)
      modifies base
      ensures ReadAccess(uri, o)
    {
      var success := ParseSuccess(uri);
      var failure := ParseFailure(uri);
      assert FromUri(uri, base.transport) == FromGroups(success, failure, base.transport);
      o := InstallGroups(success, failure);
    }

    /**
     * The body of `AuthoriseFromUri` once the success pattern has matched
     * with `success`, or not, and the failure pattern with `failure`.
     */
    method InstallGroups(success: Option<SuccessGroups>, failure: Option<FailureGroups>) returns (o: Outcome)
      requires success.Some? ==> ValidSuccessGroups(success.value)
      modifies base
      ensures Installed(FromGroups(success, failure, base.transport), o)
    {
      if success.Some? {
        var uid := ParseDecimal(success.value.uid);
        if uid > MaxLong {
          return Fail(Overflow);
        }
        var api := FromToken(uid, Some(success.value.token), Some(base.transport), base.captchaResolver);
        if api.Err? {
          return Fail(api.error);
        }
        base.SetApi(Some(api.value));
        return Pass;
      }
      if failure.Some? {
        return Fail(AuthorizationFailed(failure.value.error + ": " + failure.value.desc, 0));
      }
      return Fail(ContractAssumption);
    }

    /**
     * `AuthoriseInternal` with a transport answering from `script`: the
     * exchange of `LoginFlow`, the resolver's answers and the address
     * escaping of answers passed in, then `AuthoriseFromUri` on the access
     * address.
     */
    method AuthoriseInternal(appId: Long, login: string, password: string, settings: Filter,
                             answers: nat -> Answer, escape: string -> string, script: seq<Response>)
      returns (sent: seq<Request>, done: Completion)
      modifies base
      ensures Followed(LoginFlow(appId, settings, Credentials(login, password, base.captchaResolver, answers, escape), script),
                       sent, done)
    {
      var cs := Credentials(login, password, base.captchaResolver, answers, escape);
      var address := LoginPageUri(appId, settings);
      sent, done := Login(address, cs, script);
    }

    /** `AuthoriseInternal` from the login page address `address` on. */
    method Login(address: string, cs: Credentials, script: seq<Response>) returns (sent: seq<Request>, done: Completion)
      modifies base
      ensures Followed(Exchange(address, Rounds(cs), Reply, script), sent, done)
    {
      ghost var flow := Exchange(address, Rounds(cs), Reply, script);
      var end: FlowEnd;
      sent := [Get(address)];
      if |script| == 0 {
        end := Exhausted;
      } else {
        var loginResponse := script[0];
        sent := sent + [Get(address)];
        if |script| == 1 {
          end := Exhausted;
        } else {
          var check := CheckLoginPage(script[1]);
          if check.Fail? {
            end := Failed(check.error);
          } else {
            assert sent == [Get(address), Get(address)];
            var trace := LoginLoop(loginResponse.page, cs, script[2..]);
            assert flow == AfterLogin(sent, trace, script);
            sent, end := PostGrant(sent, trace, script);
          }
        }
      }
      assert Flow(sent, end) == flow;
      done := Conclude(Flow(sent, end));
    }

    /**
     * The requests after the login loop has run as `trace`: its posts, then,
     * when it ended on a page, the post to that page's form action.
     */
    method PostGrant(gets: seq<Request>, trace: Trace, script: seq<Response>) returns (sent: seq<Request>, end: FlowEnd)
      ensures Flow(sent, end) == AfterLogin(gets, trace, script)
    {
      sent := gets + PostsOf(trace.posts);
      match trace.end {
        case Stopped(e) =>
          end := Failed(e);
        case Unanswered =>
          end := Exhausted;
        case Done(response) =>
          var grant := GrantAccessUri(response.page);
          if grant.Err? {
            return sent, Failed(grant.error);
          }
          var index := |sent|;
          sent := sent + [Post(grant.value, None)];
          if index >= |script| {
            end := Exhausted;
          } else {
            end := Accessed(script[index].uri);
          }
      }
    }

    /** The end of `AuthoriseInternal`: the error of a failed flow, or `AuthoriseFromUri` on the access address. */
    method Conclude(flow: Flow) returns (done: Completion)
      modifies base
      ensures Followed(flow, flow.sent, done)
    {
      match flow.end {
        case Exhausted =>
          done := Unfinished;
        case Failed(e) =>
          done := Finished(Fail(e));
        case Accessed(uri) =>
          var o := AuthoriseFromUri(uri);
          done := Finished(o);
      }
    }

    /**
     * `Authorise(appId, login, password, settings)`: the argument checks,
     * which send nothing and change nothing when they fail, then
     * `AuthoriseInternal`.
     */
    method Authorise(appId: Long, login: Option<string>, password: Option<string>, settings: Option<Filter>,
                     answers: nat -> Answer, escape: string -> string, script: seq<Response>)
      returns (sent: seq<Request>, done: Completion)
      modifies base
      ensures AuthoriseCheck(appId, login, password, settings).Fail? ==>
                sent == [] && done == Finished(AuthoriseCheck(appId, login, password, settings))
                && base.api == old(base.api) && base.events == old(base.events)
      ensures AuthoriseCheck(appId, login, password, settings).Pass? ==>
                Followed(LoginFlow(appId, settings.value,
                                   Credentials(login.value, password.value, base.captchaResolver, answers, escape),
                                   script),
                         sent, done)
    {
      var check := AuthoriseCheck(appId, login, password, settings);
      if check.Fail? {
        return [], Finished(check);
      }
      sent, done := AuthoriseInternal(appId, login.value, password.value, settings.value, answers, escape, script);
    }
  }
}
