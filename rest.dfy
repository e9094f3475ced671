/** The REST client helpers of rest.go: the table from API method names to
    endpoint URLs, the lookup that panics on an unknown method, and the
    classification of HTTP responses into "decode the body" (status 200..499
    with a JSON content type) and "server error" (status 500 and above). */
module Rest {
  import opened Wrappers

  /** An API method name; a plain string so that an unknown method is expressible. */
  type Method = string

  const GetMe: Method := "GetMe"
  const SendMessage: Method := "SendMessage"
  const ForwardMessage: Method := "ForwardMessage"
  const SendPhoto: Method := "SendPhoto"
  const SendAudio: Method := "SendAudio"
  const SendDocument: Method := "SendDocument"
  const SendSticker: Method := "SendSticker"
  const SendVideo: Method := "SendVideo"
  const SendVoice: Method := "SendVoice"
  const SendLocation: Method := "SendLocation"
  const SendChatAction: Method := "SendChatAction"
  const GetUserProfilePhotos: Method := "GetUserProfilePhotos"
  const GetUpdates: Method := "GetUpdates"
  const SetWebhook: Method := "SetWebhook"
  const GetFile: Method := "GetFile"

  const Methods: set<Method> := {
    GetMe, SendMessage, ForwardMessage, SendPhoto, SendAudio, SendDocument,
    SendSticker, SendVideo, SendVoice, SendLocation, SendChatAction,
    GetUserProfilePhotos, GetUpdates, SetWebhook, GetFile
  }

  /** fmt.Sprint of three strings concatenates them (no separators are added between strings). */
  function EndpointURL(baseURI: string, m: Method): string {
    baseURI + "/" + m
  }

  /** Every known method, and nothing else, is mapped to its URL under `baseURI`. */
  ghost predicate IsEndpointTable(baseURI: string, endpoints: map<Method, string>) {
    endpoints.Keys == Methods
    && forall m :: m in endpoints ==> endpoints[m] == EndpointURL(baseURI, m)
  }

  method CreateEndpoints(baseURI: string) returns (endpoints: map<Method, string>)
    ensures IsEndpointTable(baseURI, endpoints)
  {
    endpoints := map[];
    endpoints := endpoints[GetMe := EndpointURL(baseURI, GetMe)];
    endpoints := endpoints[SendMessage := EndpointURL(baseURI, SendMessage)];
    endpoints := endpoints[ForwardMessage := EndpointURL(baseURI, ForwardMessage)];
    endpoints := endpoints[SendPhoto := EndpointURL(baseURI, SendPhoto)];
    endpoints := endpoints[SendAudio := EndpointURL(baseURI, SendAudio)];
    endpoints := endpoints[SendDocument := EndpointURL(baseURI, SendDocument)];
    endpoints := endpoints[SendSticker := EndpointURL(baseURI, SendSticker)];
    endpoints := endpoints[SendVideo := EndpointURL(baseURI, SendVideo)];
    endpoints := endpoints[SendVoice := EndpointURL(baseURI, SendVoice)];
    endpoints := endpoints[SendLocation := EndpointURL(baseURI, SendLocation)];
    endpoints := endpoints[SendChatAction := EndpointURL(baseURI, SendChatAction)];
    endpoints := endpoints[GetUserProfilePhotos := EndpointURL(baseURI, GetUserProfilePhotos)];
    endpoints := endpoints[GetUpdates := EndpointURL(baseURI, GetUpdates)];
    endpoints := endpoints[SetWebhook := EndpointURL(baseURI, SetWebhook)];
    endpoints := endpoints[GetFile := EndpointURL(baseURI, GetFile)];
  }

  /** The endpoint of a method, or a panic when the table has none. */
  function GetEndpoint(endpoints: map<Method, string>, m: Method): (r: Outcome<string>)
    ensures r.Returns? <==> m in endpoints
    ensures r.Returns? ==> r.value == endpoints[m]
    ensures r.Panics? ==> r.message == "tbotapi: internal: Endpoint for method " + m + " not found"
  {
    if m in endpoints then Returns(endpoints[m])
    else Panics("tbotapi: internal: Endpoint for method " + m + " not found")
  }

  /** On a table built by CreateEndpoints, exactly the known methods resolve,
      each to its own URL. */
  lemma EndpointLookup(baseURI: string, endpoints: map<Method, string>, m: Method)
    requires IsEndpointTable(baseURI, endpoints)
    ensures GetEndpoint(endpoints, m).Returns? <==> m in Methods
    ensures m in Methods ==> GetEndpoint(endpoints, m) == Returns(baseURI + "/" + m)
  {
  }

  /** Distinct methods get distinct URLs under the same base URI. */
  lemma {:induction false} EndpointURLInjective(baseURI: string, m1: Method, m2: Method)
    ensures EndpointURL(baseURI, m1) == EndpointURL(baseURI, m2) ==> m1 == m2
  {
    var p := baseURI + "/";
    if EndpointURL(baseURI, m1) == EndpointURL(baseURI, m2) {
      assert p + m1 == p + m2;
      assert |m1| == |m2|;
      forall i | 0 <= i < |m1|
        ensures m1[i] == m2[i]
      {
        assert (p + m1)[|p| + i] == m1[i];
        assert (p + m2)[|p| + i] == m2[i];
      }
    }
  }

  /** checkHTTPStatus: an error exactly for status 500 and above. */
  function CheckHTTPStatus(status: int, statusText: string, url: string): (err: Option<string>)
    ensures err.Some? <==> status >= 500
    ensures err.Some? ==> err.value == "API: Server error: returned " + statusText + " when requesting " + url
  {
    if status >= 500 then Some("API: Server error: returned " + statusText + " when requesting " + url)
    else None
  }

  /** parseResponseBody decodes the body only for a JSON content type, a
      status in the window 200..499 and a result target. */
  function DecodesBody(isJSON: bool, status: int, hasResult: bool): (b: bool)
    ensures b <==> isJSON && hasResult && 200 <= status <= 499
  {
    isJSON && status > 199 && status < 500 && hasResult
  }

  /** No response is both decoded as a result and reported as a server error;
      statuses below 200 are neither. */
  lemma StatusClassesDisjoint(isJSON: bool, status: int, hasResult: bool, statusText: string, url: string)
    ensures !(DecodesBody(isJSON, status, hasResult) && CheckHTTPStatus(status, statusText, url).Some?)
    ensures status < 200 ==> !DecodesBody(isJSON, status, hasResult) && CheckHTTPStatus(status, statusText, url).None?
  {
  }
}
