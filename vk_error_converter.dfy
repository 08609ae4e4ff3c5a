/**
 * VkErrorConverter: turns the `error` object of an API response into the
 * exception that stands for it, by the numeric error code.
 */
module VkErrorConverter {
  import opened Errors
  import opened Int64
  import Captcha

  /** The fields of the `error` object the conversion reads. */
  datatype ErrorObject = ErrorObject(
    code: int,                   // error_code
    message: string,             // error_msg
    captchaSid: Long,            // captcha_sid, read for code 14 only
    captchaImg: Option<string>)  // captcha_img, read for code 14 only

  /** Codes of a missing or invalid parameter. */
  const InvalidParameterCodes: set<int> := {4, 100, 113, 120, 125}

  /** Codes of an action the user or the application is not allowed. */
  const AccessDeniedCodes: set<int> := {7, 15, 148, 170, 201, 203, 220, 221, 260, 500}

  const AuthorizationFailedCode: int := 5
  const TooManyRequestsCode: int := 6
  const CaptchaNeededCode: int := 14

  /** Every code that has an exception type of its own. */
  const SpecialCodes: set<int> :=
    InvalidParameterCodes + AccessDeniedCodes + {AuthorizationFailedCode, TooManyRequestsCode, CaptchaNeededCode}

  /**
   * `Convert(error)`: the exception for the error's code, carrying its message
   * and code; code 14 builds the image URI and then the captcha from the
   * error's captcha fields, and throws when they do not make one. A null error
   * object throws.
   */
  function Convert(error: Option<ErrorObject>): (r: Result<VkError>)
    ensures error.None? ==> r == Err(ArgumentNull("error"))
    ensures error.Some? && error.value.code == AuthorizationFailedCode ==>
              r == Ok(AuthorizationFailed(error.value.message, error.value.code))
    ensures error.Some? && error.value.code == CaptchaNeededCode && error.value.captchaImg.None? ==>
              r == Err(ArgumentNull("uriString"))
    ensures error.Some? && error.value.code == CaptchaNeededCode && error.value.captchaImg.Some? ==>
              (r.Ok? <==> Captcha.NewCaptcha(error.value.captchaSid, error.value.captchaImg).Ok?)
    ensures error.Some? && error.value.code == CaptchaNeededCode && r.Ok? ==>
              r.value == CaptchaNeeded(error.value.message, error.value.captchaSid, error.value.captchaImg.value)
    ensures error.Some? && error.value.code == CaptchaNeededCode && error.value.captchaImg.Some? && r.Err? ==>
              r.error == Captcha.NewCaptcha(error.value.captchaSid, error.value.captchaImg).error
    ensures error.Some? && error.value.code in InvalidParameterCodes ==>
              r == Ok(InvalidParameter(error.value.message, error.value.code))
    ensures error.Some? && error.value.code == TooManyRequestsCode ==>
              r == Ok(TooManyRequests(error.value.message, error.value.code))
    ensures error.Some? && error.value.code in AccessDeniedCodes ==>
              r == Ok(AccessDenied(error.value.message, error.value.code))
    ensures error.Some? && error.value.code !in SpecialCodes ==>
              r == Ok(VkException(error.value.message, error.value.code))
  {
    if error.None? then Err(ArgumentNull("error"))
    else
      var e := error.value;
      match e.code
      case 5 => Ok(AuthorizationFailed(e.message, e.code))
      case 14 =>
        // The image URI is built before the captcha, so a null image fails there first.
        if e.captchaImg.None? then Err(ArgumentNull("uriString"))
        else (match Captcha.NewCaptcha(e.captchaSid, e.captchaImg)
         case Err(x) => Err(x)
         case Ok(c) => Ok(CaptchaNeeded(e.message, c.sid, c.image)))
      case 4 => Ok(InvalidParameter(e.message, e.code))
      case 100 => Ok(InvalidParameter(e.message, e.code))
      case 113 => Ok(InvalidParameter(e.message, e.code))
      case 120 => Ok(InvalidParameter(e.message, e.code))
      case 125 => Ok(InvalidParameter(e.message, e.code))
      case 6 => Ok(TooManyRequests(e.message, e.code))
      case 7 => Ok(AccessDenied(e.message, e.code))
      case 15 => Ok(AccessDenied(e.message, e.code))
      case 148 => Ok(AccessDenied(e.message, e.code))
      case 170 => Ok(AccessDenied(e.message, e.code))
      case 201 => Ok(AccessDenied(e.message, e.code))
      case 203 => Ok(AccessDenied(e.message, e.code))
      case 220 => Ok(AccessDenied(e.message, e.code))
      case 221 => Ok(AccessDenied(e.message, e.code))
      case 260 => Ok(AccessDenied(e.message, e.code))
      case 500 => Ok(AccessDenied(e.message, e.code))
      case _ => Ok(VkException(e.message, e.code))
  }

  /** No code belongs to two of the groups, so each code has exactly one exception type. */
  lemma CodeGroupsDisjoint()
    ensures forall c :: c in InvalidParameterCodes ==> c !in AccessDeniedCodes
    ensures forall c :: c in {AuthorizationFailedCode, TooManyRequestsCode, CaptchaNeededCode} ==>
                          c !in InvalidParameterCodes && c !in AccessDeniedCodes
  {
  }

  /** The exception type a code selects, as a name. */
  datatype Kind = AuthorizationFailedKind | CaptchaNeededKind | InvalidParameterKind
                | TooManyRequestsKind | AccessDeniedKind | GenericKind

  function KindOf(x: VkError): Kind
  {
    match x
    case AuthorizationFailed(_, _) => AuthorizationFailedKind
    case CaptchaNeeded(_, _, _) => CaptchaNeededKind
    case InvalidParameter(_, _) => InvalidParameterKind
    case TooManyRequests(_, _) => TooManyRequestsKind
    case AccessDenied(_, _) => AccessDeniedKind
    case _ => GenericKind
  }

  /**
   * The exception type depends on the code alone: two error objects with the
   * same code convert to the same type, whatever their messages (given a valid
   * captcha for code 14).
   */
  lemma KindByCode(a: ErrorObject, b: ErrorObject)
    requires a.code == b.code
    requires a.code == CaptchaNeededCode ==>
               Captcha.NewCaptcha(a.captchaSid, a.captchaImg).Ok? && Captcha.NewCaptcha(b.captchaSid, b.captchaImg).Ok?
    ensures Convert(Some(a)).Ok? && Convert(Some(b)).Ok?
    ensures KindOf(Convert(Some(a)).value) == KindOf(Convert(Some(b)).value)
  {
  }

  /** The error of the "Invalid user id" response, code 113, converts to InvalidParameter with code 113. */
  lemma InvalidUserId()
    ensures Convert(Some(ErrorObject(113, "Invalid user id", 0, None))) == Ok(InvalidParameter("Invalid user id", 113))
  {
  }
}
