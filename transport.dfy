/**
 * The transport the client posts through, abstracted the way the test suite
 * does it: a recorder that keeps the last URL and parameter array it was
 * given and answers every request with a preset decoded response.
 */
module Transport {
  import opened Wire

  class RecordingTransport {
    /** The URL of the last request. */
    var url: string
    /** The parameter array of the last request. */
    var postParameters: map<string, Value>
    /** The decoded response every request receives. */
    var jsonResponse: Json
    /** How many requests have been made. */
    ghost var requestCount: nat

    constructor (jsonResponse: Json)
      ensures this.jsonResponse == jsonResponse
      ensures url == [] && postParameters == map[] && requestCount == 0
    {
      this.jsonResponse := jsonResponse;
      url := [];
      postParameters := map[];
      requestCount := 0;
    }

    /** One POST round trip: records the request and returns the preset response. */
    method DoPostRequestWithJsonResponse(url: string, postParameters: map<string, Value>)
      returns (response: Json)
      modifies this
      ensures this.url == url && this.postParameters == postParameters
      ensures jsonResponse == old(jsonResponse) && response == jsonResponse
      ensures requestCount == old(requestCount) + 1
    {
      this.url := url;
      this.postParameters := postParameters;
      requestCount := requestCount + 1;
      response := jsonResponse;
    }
  }
}
