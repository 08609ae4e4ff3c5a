/**
 * Captcha: the identifier and the image address of a captcha the API asks the
 * user to solve. Immutable once built; the identifier is positive and the
 * image address is present.
 */
module Captcha {
  import opened Errors
  import opened Int64

  datatype Captcha = Captcha(sid: Long, image: string)

  /** The object invariant. */
  predicate Valid(c: Captcha)
  {
    c.sid > 0
  }

  /**
   * `new Captcha(sid, image)`: a non-positive identifier, then a null image,
   * is refused; otherwise the captcha holds exactly the arguments.
   */
  function NewCaptcha(sid: Long, image: Option<string>): (r: Result<Captcha>)
    ensures r.Ok? <==> sid > 0 && image.Some?
    ensures sid <= 0 ==> r == Err(ArgumentOutOfRange("sid"))
    ensures sid > 0 && image.None? ==> r == Err(ArgumentNull("image"))
    ensures r.Ok? ==> r.value.sid == sid && r.value.image == image.value
    ensures r.Ok? ==> Valid(r.value)
  {
    if sid <= 0 then Err(ArgumentOutOfRange("sid"))
    else if image.None? then Err(ArgumentNull("image"))
    else Ok(Captcha(sid, image.value))
  }

  /** Every valid captcha is the one its own fields build. */
  lemma Rebuild(c: Captcha)
    requires Valid(c)
    ensures NewCaptcha(c.sid, Some(c.image)) == Ok(c)
  {
  }
}
