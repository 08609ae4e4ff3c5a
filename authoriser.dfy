/**
 * Authoriser: the base of the authorisation flows. It holds the network
 * transport and the optional captcha resolver given at construction, and the
 * current session `API`, whose setter notifies `Authorised` and
 * `PropertyChanged` observers. `FromToken` builds a session from a known token.
 */
module Authoriser {
  import opened Errors
  import opened Int64
  import opened Text
  import opened VkApi

  /** The network transport object, by identity; its requests are not part of this model. */
  datatype Transport = Transport(id: nat)

  /** The captcha resolver object, by identity. */
  datatype CaptchaResolver = CaptchaResolver(id: nat)

  /** A raised event: `Authorised`, or `PropertyChanged` with the property's name. */
  datatype Event = Authorised | PropertyChanged(propertyName: string)

  /**
   * FromToken's argument checks, in order: a null transport, a non-positive
   * user id, a null token, then a token that is not all lower-case hex digits.
   */
  function FromTokenCheck(userId: Long, accessToken: Option<string>, transport: Option<Transport>): (o: Outcome)
    ensures o.Pass? <==> transport.Some? && userId > 0 && accessToken.Some? && MatchesAnchored(accessToken.value)
    ensures transport.None? ==> o == Fail(ArgumentNull("transport"))
    ensures transport.Some? && userId <= 0 ==> o == Fail(ArgumentOutOfRange("userId"))
    ensures transport.Some? && userId > 0 && accessToken.None? ==> o == Fail(ArgumentNull("accessToken"))
    ensures transport.Some? && userId > 0 && accessToken.Some? && !MatchesAnchored(accessToken.value) ==>
              o == Fail(Format("accessToken"))
  {
    if transport.None? then Fail(ArgumentNull("transport"))
    else if userId <= 0 then Fail(ArgumentOutOfRange("userId"))
    else if accessToken.None? then Fail(ArgumentNull("accessToken"))
    else if !MatchesAnchored(accessToken.value) then Fail(Format("accessToken"))
    else Pass
  }

  /** FromToken's checks are stricter than the session constructor's: whatever FromToken accepts, the constructor accepts. */
  lemma FromTokenPassesConstructor(userId: Long, accessToken: Option<string>, transport: Option<Transport>)
    requires FromTokenCheck(userId, accessToken, transport).Pass?
    ensures CheckArguments(userId, accessToken).Pass?
  {
    AnchoredImpliesUnanchored(accessToken.value);
  }

  /**
   * `FromToken(userId, accessToken, transport, resolver)`: the checks, then a
   * new session holding the user id and the token.
   */
  method FromToken(userId: Long, accessToken: Option<string>, transport: Option<Transport>,
                   captchaResolver: Option<CaptchaResolver>) returns (r: Result<Api>)
    ensures r.Err? <==> FromTokenCheck(userId, accessToken, transport).Fail?
    ensures r.Err? ==> r.error == FromTokenCheck(userId, accessToken, transport).error
    ensures r.Ok? ==> fresh(r.value) && r.value.userId == userId && Some(r.value.accessToken) == accessToken
  {
    var check := FromTokenCheck(userId, accessToken, transport);
    if check.Fail? {
      return Err(check.error);
    }
    FromTokenPassesConstructor(userId, accessToken, transport);
    r := NewApi(userId, accessToken);
  }

  /**
   * The events the `API` setter raises when the session `current` is replaced
   * by `value`: none for the same session (or null for null); otherwise
   * `Authorised` when the new session is not null, then `PropertyChanged("API")`.
   */
  function Notifications(current: Option<Api>, value: Option<Api>): seq<Event>
  {
    if value == current then []
    else (if value.Some? then [Authorised] else []) + [PropertyChanged("API")]
  }

  /**
   * The setter raises events exactly when the session changes; `Authorised`
   * exactly when it changes to a session; and `PropertyChanged` once, last.
   */
  lemma NotificationRules(current: Option<Api>, value: Option<Api>)
    ensures Notifications(current, value) == [] <==> value == current
    ensures Authorised in Notifications(current, value) <==> value != current && value.Some?
    ensures value != current ==>
              var es := Notifications(current, value);
              es[|es| - 1] == PropertyChanged("API") && PropertyChanged("API") !in es[..|es| - 1]
  {
  }

  /** Assigning the same value twice raises the events of the first assignment only. */
  lemma SecondAssignmentSilent(current: Option<Api>, value: Option<Api>)
    ensures Notifications(current, value) + Notifications(value, value) == Notifications(current, value)
  {
  }

  class Authoriser {
    const transport: Transport
    const captchaResolver: Option<CaptchaResolver>
    var api: Option<Api>
    /** The events raised so far, oldest first. */
    var events: seq<Event>

    constructor (transport: Transport, captchaResolver: Option<CaptchaResolver>)
      ensures this.transport == transport && this.captchaResolver == captchaResolver
      ensures api == None && events == []
    {
      this.transport := transport;
      this.captchaResolver := captchaResolver;
      api := None;
      events := [];
    }

    /** The `API` setter: stores a different value and raises its notifications; the same value changes nothing. */
    method SetApi(value: Option<Api>)
      modifies this
      ensures api == value
      ensures events == old(events) + Notifications(old(api), value)
      ensures old(api) == value ==> events == old(events)
    {
      if value == api {
        return;
      }
      api := value;
      if value.Some? {
        events := events + [Authorised];
      }
      events := events + [PropertyChanged("API")];
    }
  }

  /** `new Authoriser(transport, resolver)`: a null transport is refused. */
  method NewAuthoriser(transport: Option<Transport>, captchaResolver: Option<CaptchaResolver>) returns (r: Result<Authoriser>)
    ensures transport.None? <==> r.Err?
    ensures r.Err? ==> r.error == ArgumentNull("transport")
    ensures r.Ok? ==> fresh(r.value) && r.value.transport == transport.value && r.value.captchaResolver == captchaResolver
    ensures r.Ok? ==> r.value.api == None && r.value.events == []
  {
    if transport.None? {
      return Err(ArgumentNull("transport"));
    }
    var a := new Authoriser(transport.value, captchaResolver);
    r := Ok(a);
  }
}
