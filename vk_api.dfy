/**
 * VkApi: an authorised session, a user id and an access token fixed at
 * construction. The constructor's token check is the unanchored pattern
 * `[0-9a-f]+`, which any string with one lower-case hex digit passes;
 * `Authoriser.FromToken` uses the anchored `^[0-9a-f]+$`.
 */
module VkApi {
  import opened Errors
  import opened Int64
  import opened Text

  // ---------------------------------------------------------------------------
  // The two token patterns

  /** `Regex.IsMatch(s, "[0-9a-f]+")`: some non-empty run of `s` consists of lower-case hex digits. */
  predicate MatchesUnanchored(s: string)
  {
    exists i, j :: 0 <= i < j <= |s| && AllLowerHex(s[i..j])
  }

  /**
   * `Regex.IsMatch(s, "^[0-9a-f]+$")`: all of `s` is one non-empty run of
   * lower-case hex digits; `$` also matches before a final newline.
   */
  predicate MatchesAnchored(s: string)
  {
    || (|s| > 0 && AllLowerHex(s))
    || (|s| > 1 && s[|s| - 1] == '\n' && AllLowerHex(s[..|s| - 1]))
  }

  /** The unanchored pattern asks only for one hex digit somewhere. */
  lemma UnanchoredIsSomeDigit(s: string)
    ensures MatchesUnanchored(s) <==> exists k :: 0 <= k < |s| && IsLowerHex(s[k])
  {
    if exists k :: 0 <= k < |s| && IsLowerHex(s[k]) {
      var k :| 0 <= k < |s| && IsLowerHex(s[k]);
      assert AllLowerHex(s[k..k + 1]);
    }
    if MatchesUnanchored(s) {
      var i, j :| 0 <= i < j <= |s| && AllLowerHex(s[i..j]);
      assert IsLowerHex(s[i..j][0]);
    }
  }

  /** Every token the anchored pattern accepts, the unanchored one accepts too. */
  lemma AnchoredImpliesUnanchored(s: string)
    requires MatchesAnchored(s)
    ensures MatchesUnanchored(s)
  {
    assert IsLowerHex(s[0]);
    assert AllLowerHex(s[0..1]);
  }

  /** The converse fails: "xyz1" passes the constructor's pattern but not FromToken's. */
  lemma UnanchoredIsWeaker()
    ensures MatchesUnanchored("xyz1") && !MatchesAnchored("xyz1")
  {
    assert AllLowerHex("xyz1"[3..4]);
    assert !IsLowerHex("xyz1"[0]);
  }

  // ---------------------------------------------------------------------------
  // The session object

  /**
   * The constructor's argument checks, in order: a non-positive user id, a
   * null token, then a token without a hex digit, are refused.
   */
  function CheckArguments(userId: Long, accessToken: Option<string>): (o: Outcome)
    ensures o.Pass? <==> userId > 0 && accessToken.Some? && MatchesUnanchored(accessToken.value)
    ensures userId <= 0 ==> o == Fail(ArgumentOutOfRange("userId"))
    ensures userId > 0 && accessToken.None? ==> o == Fail(ArgumentNull("accessToken"))
    ensures userId > 0 && accessToken.Some? && !MatchesUnanchored(accessToken.value) ==>
              o == Fail(Format("accessToken"))
  {
    if userId <= 0 then Fail(ArgumentOutOfRange("userId"))
    else if accessToken.None? then Fail(ArgumentNull("accessToken"))
    else if !MatchesUnanchored(accessToken.value) then Fail(Format("accessToken"))
    else Pass
  }

  /** A session; compared by reference, as the class does not override Equals. */
  class Api {
    const userId: Long
    const accessToken: string

    /** `new VkApi(userId, accessToken)` once its checks have passed. */
    constructor (userId: Long, accessToken: string)
      requires CheckArguments(userId, Some(accessToken)).Pass?
      ensures this.userId == userId && this.accessToken == accessToken
    {
      this.userId := userId;
      this.accessToken := accessToken;
    }
  }

  /** `new VkApi(userId, accessToken)`: the checks, then a new session holding exactly the arguments. */
  method NewApi(userId: Long, accessToken: Option<string>) returns (r: Result<Api>)
    ensures r.Err? <==> CheckArguments(userId, accessToken).Fail?
    ensures r.Err? ==> r.error == CheckArguments(userId, accessToken).error
    ensures r.Ok? ==> fresh(r.value) && r.value.userId == userId && Some(r.value.accessToken) == accessToken
  {
    var check := CheckArguments(userId, accessToken);
    if check.Fail? {
      return Err(check.error);
    }
    var api := new Api(userId, accessToken.value);
    r := Ok(api);
  }
}
