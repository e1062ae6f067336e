/** The classifier that tells an expired or rejected session from other
    failed requests. The failed request is reduced to its response, if it
    got one: the status and the message in the body. */
module AuthHelpers {
  import opened Wrappers

  datatype Response = Response(status: int, message: Option<string>)

  const KEY_INCORRECT: string := "key incorrect"

  /** `isTokenExpiredError`. */
  function IsTokenExpired(response: Option<Response>): (b: bool)
    ensures response.None? ==> !b
    ensures response.Some? && response.value.status == 401 ==> b
    ensures response.Some? && response.value.status == 400 ==>
      (b <==> response.value.message == Some(KEY_INCORRECT))
    ensures b <==> (response.Some? && (response.value.status == 401
      || (response.value.status == 400 && response.value.message == Some(KEY_INCORRECT))))
  {
    if response.None? then false
    else if response.value.status == 400 && response.value.message == Some(KEY_INCORRECT) then true
    else if response.value.status == 401 then true
    else false
  }

  /** Any status other than 400 and 401 is some other failure, whatever
      its message. */
  lemma OtherStatusesAreNotExpiry(status: int, message: Option<string>)
    requires status != 400 && status != 401
    ensures !IsTokenExpired(Some(Response(status, message)))
  {
  }
}
