/** Envelope unwrapping in the auth service
    (lib/api/services/auth.service.ts), over the HTTP response as a value:
    `resp` is the client's response object, whose `data` is the body. */
module AuthService {
  import opened Wrappers
  import opened Strings
  import opened Json

  /** `getMessageFromResponse`: a top-level string `message`, else the
      body's string `message` when the body is an object. */
  function GetMessage(resp: Json): Option<string> {
    if !Truthy(resp) || !TypeofObject(resp) then None
    else if Get(resp, "message").Str? then Some(Get(resp, "message").s)
    else
      var d := Get(resp, "data");
      if Truthy(d) && TypeofObject(d) && Get(d, "message").Str? then Some(Get(d, "message").s)
      else None
  }

  /** Non-objects give no message; a top-level string message wins over
      the body's, even when it is empty; non-string messages are ignored. */
  lemma GetMessageRule(resp: Json)
    ensures !resp.Obj? ==> GetMessage(resp).None?
    ensures Get(resp, "message").Str? ==> GetMessage(resp) == Some(Get(resp, "message").s)
    ensures var d := Get(resp, "data");
      !Get(resp, "message").Str? ==>
        (GetMessage(resp).Some? <==> d.Obj? && Get(d, "message").Str?)
        && (GetMessage(resp).Some? ==> GetMessage(resp) == Some(Get(d, "message").s))
  {
  }

  /** An empty top-level message still wins, so the body's message is not
      consulted and `postApi` falls back to its generic text. */
  lemma EmptyTopMessageHidesBodyMessage()
    ensures var resp := Obj(map["message" := Str(""), "data" := Obj(map["message" := Str("Email taken")])]);
      GetMessage(resp) == Some("")
      && PostApi(resp) == Failure("API request failed")
  {
  }

  predicate Ok2xx(resp: Json) {
    Get(resp, "status").Num? && 200 <= Get(resp, "status").n < 300
  }

  /** `postApi`: the body when the response and body exist and the status
      is 2xx, otherwise an error with the response's message. */
  function PostApi(resp: Json): Result<Json, string> {
    if Truthy(resp) && Truthy(Get(resp, "data")) && Ok2xx(resp) then Success(Get(resp, "data"))
    else Failure(ValueOr(GetMessage(resp), "API request failed"))
  }

  lemma PostApiRule(resp: Json)
    ensures PostApi(resp).Success? <==> resp.Obj? && Truthy(Get(resp, "data")) && Ok2xx(resp)
    ensures PostApi(resp).Success? ==> PostApi(resp).value == Get(resp, "data")
    ensures PostApi(resp).Failure? ==> PostApi(resp).error != ""
    ensures PostApi(resp).Failure? && !Present(GetMessage(resp)) ==> PostApi(resp).error == "API request failed"
    ensures PostApi(resp).Failure? && Present(GetMessage(resp)) ==> PostApi(resp).error == GetMessage(resp).value
  {
  }

  /** `login`, `register` and the other posts: the body's `data` field. */
  function PostData(resp: Json): Result<Json, string> {
    match PostApi(resp)
    case Success(body) => Success(Get(body, "data"))
    case Failure(msg) => Failure(msg)
  }

  lemma PostDataRule(resp: Json)
    ensures PostData(resp).Success? <==> PostApi(resp).Success?
    ensures PostData(resp).Success? ==> PostData(resp).value == Get(Get(resp, "data"), "data")
    ensures PostData(resp).Failure? ==> PostData(resp).error == PostApi(resp).error
  {
  }

  /** The unwrap shared by `getCurrentAccount` and `updateProfile`: the
      inner data when the body's `success` flag and data are truthy. */
  function UnwrapFlagged(resp: Json, fallback: string): Result<Json, string> {
    var body := Get(resp, "data");
    if Truthy(resp) && Truthy(body) && Truthy(Get(body, "success")) && Truthy(Get(body, "data")) then
      Success(Get(body, "data"))
    else Failure(ValueOr(GetMessage(resp), fallback))
  }

  function GetCurrentAccount(resp: Json): Result<Json, string> {
    UnwrapFlagged(resp, "Failed to fetch profile")
  }

  function UpdateProfile(resp: Json): Result<Json, string> {
    UnwrapFlagged(resp, "Failed to update profile")
  }

  lemma UnwrapFlaggedRule(resp: Json, fallback: string)
    requires fallback != ""
    ensures var body := Get(resp, "data");
      && (UnwrapFlagged(resp, fallback).Success? <==>
            resp.Obj? && body.Obj? && Truthy(Get(body, "success")) && Truthy(Get(body, "data")))
      && (UnwrapFlagged(resp, fallback).Success? ==> UnwrapFlagged(resp, fallback).value == Get(body, "data"))
      && (UnwrapFlagged(resp, fallback).Failure? ==>
            UnwrapFlagged(resp, fallback).error == ValueOr(GetMessage(resp), fallback)
            && UnwrapFlagged(resp, fallback).error != "")
  {
  }

  /** The two profile operations differ only in their fallback text. */
  lemma ProfileFallbacks(resp: Json)
    ensures GetCurrentAccount(resp).Failure? <==> UpdateProfile(resp).Failure?
    ensures GetCurrentAccount(resp).Failure? && !Present(GetMessage(resp)) ==>
      GetCurrentAccount(resp).error == "Failed to fetch profile" && UpdateProfile(resp).error == "Failed to update profile"
  {
  }
}
