/** The status-code policy: which `status.*` constant a generated test
    asserts for each HTTP method. */
module Constants {
  import opened Wrappers

  /** The seven HTTP methods the policy knows. */
  const HttpMethods: set<string> := {"head", "options", "get", "post", "put", "patch", "delete"}

  /** `HTTP_METHOD_STATUS_CODE_MAP`. */
  const HttpMethodStatusCodeMap: map<string, string> := map[
    "head" := "status.HTTP_200_OK",
    "options" := "status.HTTP_200_OK",
    "get" := "status.HTTP_200_OK",
    "post" := "status.HTTP_201_CREATED",
    "put" := "status.HTTP_200_OK",
    "patch" := "status.HTTP_200_OK",
    "delete" := "status.HTTP_204_NO_CONTENT"
  ]

  /** `HTTP_METHOD_STATUS_CODE_MAP[httpMethod]`; `None` stands for the `KeyError`
      raised for any other method. */
  function StatusFor(httpMethod: string): (r: Option<string>)
    ensures r.Some? <==> httpMethod in HttpMethods
    ensures r.Some? ==> "status.HTTP_" <= r.value && '\n' !in r.value
  {
    if httpMethod in HttpMethodStatusCodeMap then Some(HttpMethodStatusCodeMap[httpMethod]) else None
  }

  /** The map's domain is exactly the seven methods. */
  lemma PolicyDomain()
    ensures HttpMethodStatusCodeMap.Keys == HttpMethods
  {
  }

  /** Creation answers 201, deletion 204 and every other known method 200. */
  lemma PolicyCodes(httpMethod: string)
    ensures httpMethod == "post" <==> StatusFor(httpMethod) == Some("status.HTTP_201_CREATED")
    ensures httpMethod == "delete" <==> StatusFor(httpMethod) == Some("status.HTTP_204_NO_CONTENT")
    ensures httpMethod in {"head", "options", "get", "put", "patch"} <==> StatusFor(httpMethod) == Some("status.HTTP_200_OK")
  {
  }
}
