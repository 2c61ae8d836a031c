/** The response guard of lib/api/types/response.types.ts, over a response
    object's fields: an `ApiResponse` carries an `isSuccess` flag, a
    `BaseResponse` status, data, message and serverStatus. */
module ApiResponses {
  import opened Json

  const BaseResponseKeys: set<string> := {"status", "data", "message", "serverStatus"}

  /** `isSuccessResponse`: an `isSuccess` field that is exactly `true`. */
  predicate IsSuccessResponse(response: map<string, Json>) {
    "isSuccess" in response && response["isSuccess"] == Bool(true)
  }

  /** `extractData`: the `data` field, whatever the flag says. */
  function ExtractData(response: map<string, Json>): (d: Json)
    ensures "data" in response ==> d == response["data"]
    ensures "data" !in response ==> d == Undefined
  {
    if "data" in response then response["data"] else Undefined
  }

  /** A BaseResponse-shaped object, or one whose flag is not `true` (false,
      or a truthy non-boolean such as 1), is never a success. */
  lemma NotSuccessUnlessTrue(response: map<string, Json>)
    ensures response.Keys <= BaseResponseKeys ==> !IsSuccessResponse(response)
    ensures "isSuccess" in response && response["isSuccess"] != Bool(true) ==> !IsSuccessResponse(response)
    ensures IsSuccessResponse(response) <==> "isSuccess" in response && response["isSuccess"] == Bool(true)
  {
    if response.Keys <= BaseResponseKeys {
      assert "isSuccess" !in BaseResponseKeys;
    }
  }

  /** Setting the flag either way leaves the extracted data alone. */
  lemma ExtractDataIgnoresFlag(response: map<string, Json>, flag: Json)
    ensures ExtractData(response["isSuccess" := flag]) == ExtractData(response)
    ensures IsSuccessResponse(response["isSuccess" := flag]) <==> flag == Bool(true)
  {
  }
}
