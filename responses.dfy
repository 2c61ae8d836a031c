/** The response guard of types/response.types.ts, whose `ApiResponse`
    carries a `success` flag instead of `isSuccess`. */
module Responses {
  import opened Json
  import ApiResponses

  /** `successResponse`: a `success` field that is exactly `true`. */
  predicate SuccessResponse(response: map<string, Json>) {
    "success" in response && response["success"] == Bool(true)
  }

  /** `extractData`: the `data` field, whatever the flag says. */
  function ExtractData(response: map<string, Json>): (d: Json)
    ensures "data" in response ==> d == response["data"]
    ensures "data" !in response ==> d == Undefined
  {
    if "data" in response then response["data"] else Undefined
  }

  lemma NotSuccessUnlessTrue(response: map<string, Json>)
    ensures response.Keys <= ApiResponses.BaseResponseKeys ==> !SuccessResponse(response)
    ensures "success" in response && response["success"] != Bool(true) ==> !SuccessResponse(response)
    ensures SuccessResponse(response) <==> "success" in response && response["success"] == Bool(true)
  {
    if response.Keys <= ApiResponses.BaseResponseKeys {
      assert "success" !in ApiResponses.BaseResponseKeys;
    }
  }

  lemma ExtractDataIgnoresFlag(response: map<string, Json>, flag: Json)
    ensures ExtractData(response["success" := flag]) == ExtractData(response)
    ensures SuccessResponse(response["success" := flag]) <==> flag == Bool(true)
  {
  }

  /** The two guards read different flags: each rejects the other's
      success envelope, and both extract the same data. */
  lemma GuardsDisagree(data: Json)
    ensures var withSuccess := map["data" := data, "message" := Str(""), "success" := Bool(true)];
            var withIsSuccess := map["data" := data, "message" := Str(""), "isSuccess" := Bool(true)];
      && SuccessResponse(withSuccess) && !ApiResponses.IsSuccessResponse(withSuccess)
      && ApiResponses.IsSuccessResponse(withIsSuccess) && !SuccessResponse(withIsSuccess)
      && ExtractData(withSuccess) == ApiResponses.ExtractData(withIsSuccess) == data
  {
  }
}
