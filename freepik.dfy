/** The image-generation client: how `generate_image_with_freepik` turns the
    configured key and the backend's HTTP reply into an image URL or a raised
    error. The HTTP exchange itself is an oracle `backend` from the request
    that would be posted to the reply that comes back. */
module Freepik {
  import opened Builtins

  /** Returned without contacting the backend when no API key is set. */
  const PlaceholderUrl := "https://via.placeholder.com/1024x1024.png?text=Demo+Image"
  const Endpoint := "https://api.freepik.com/v1/generate-image"
  const ImageSize := "1024x1024"
  const TimeoutSeconds := 120
  const UnrecognizedFormat := "Format response Freepik tidak dikenali. Perlu sesuaikan parsing."

  /** The POST the client would issue: endpoint, bearer header, JSON payload
      (model, prompt, size, image count) and timeout. */
  datatype FreepikRequest = FreepikRequest(
    endpoint: string, authorization: string,
    model: string, prompt: string, size: string, count: nat,
    timeout: nat)

  /** `resp.json()`: a decoded document, or the text of the decoding error it raises. */
  datatype ParsedBody = Parsed(value: Json) | NotJson(reason: string)

  /** What `requests.post` yields: a response (status code, raw body text and
      its decoding), or the text of the exception it raised instead
      (timeout, connection failure). */
  datatype BackendReply =
    | Response(status: nat, text: string, body: ParsedBody)
    | TransportError(reason: string)

  /** The outcome of a call: the value returned, or the text `str(e)` of the
      exception raised. */
  datatype Generated = Url(value: Json) | Raised(message: string)

  /** The message of the error raised for a non-200 status. */
  function ApiError(status: nat, body: string): (message: string) {
    "Freepik API error: " + NatToString(status) + " " + body
  }

  function RequestFor(apiKey: string, prompt: string, model: string): (request: FreepikRequest) {
    FreepikRequest(Endpoint, "Bearer " + apiKey, model, prompt, ImageSize, 1, TimeoutSeconds)
  }

  /** `isinstance(data, dict) and "image_url" in data`. */
  predicate HasImageUrl(data: Json) {
    data.JObject? && "image_url" in data.fields
  }

  /** `generate_image_with_freepik(prompt, model)` with `FREEPIK_API_KEY`
      given as `apiKey` (an unset variable is modelled as ""; both are falsy). */
  function GenerateImage(apiKey: string, prompt: string, model: string,
                         backend: FreepikRequest -> BackendReply): (r: Generated)
    ensures r.Url? <==> apiKey == "" || SucceededWithUrl(backend(RequestFor(apiKey, prompt, model)))
  {
    if apiKey == "" then Url(JString(PlaceholderUrl))
    else
      match backend(RequestFor(apiKey, prompt, model))
      case TransportError(reason) => Raised(reason)
      case Response(status, text, body) =>
        if status != 200 then Raised(ApiError(status, text))
        else match body
          case NotJson(reason) => Raised(reason)
          case Parsed(data) =>
            if HasImageUrl(data) then Url(data.fields["image_url"])
            else Raised(UnrecognizedFormat)
  }

  /** A reply from which an image URL can be taken: status 200 and a JSON
      object with an `image_url` key. */
  predicate SucceededWithUrl(reply: BackendReply) {
    reply.Response? && reply.status == 200 && reply.body.Parsed? && HasImageUrl(reply.body.value)
  }

  /** Without an API key the placeholder is returned whatever the prompt, the
      model and the backend. */
  lemma DemoModeReturnsPlaceholder(prompt: string, model: string, backend: FreepikRequest -> BackendReply)
    ensures GenerateImage("", prompt, model, backend) == Url(JString(PlaceholderUrl))
  {
  }

  /** The backend is consulted on one request only: two backends that answer
      it alike give the same outcome, whatever they answer to anything else.
      That request carries exactly this prompt and model, the bearer key, the
      fixed size, one image and a 120-second timeout. */
  lemma RequestCarriesPromptAndModel(apiKey: string, prompt: string, model: string,
                                     b1: FreepikRequest -> BackendReply, b2: FreepikRequest -> BackendReply)
    ensures var q := RequestFor(apiKey, prompt, model);
      b1(q) == b2(q) ==> GenerateImage(apiKey, prompt, model, b1) == GenerateImage(apiKey, prompt, model, b2)
    ensures var q := RequestFor(apiKey, prompt, model);
      && q.prompt == prompt && q.model == model && q.authorization == "Bearer " + apiKey
      && q.endpoint == Endpoint && q.size == "1024x1024" && q.count == 1 && q.timeout == 120
  {
  }

  /** A status other than 200 raises an error carrying the status and the raw body. */
  lemma NonOkStatusRaisesApiError(apiKey: string, prompt: string, model: string,
                                  backend: FreepikRequest -> BackendReply)
    requires apiKey != ""
    requires backend(RequestFor(apiKey, prompt, model)).Response?
    requires backend(RequestFor(apiKey, prompt, model)).status != 200
    ensures var reply := backend(RequestFor(apiKey, prompt, model));
      GenerateImage(apiKey, prompt, model, backend) == Raised(ApiError(reply.status, reply.text))
  {
  }

  /** A 200 reply whose body is an object with `image_url` yields that value
      verbatim, whatever it is (it is not checked to be a URL, or even a string). */
  lemma ImageUrlReturnedVerbatim(apiKey: string, prompt: string, model: string,
                                 backend: FreepikRequest -> BackendReply)
    requires apiKey != ""
    requires SucceededWithUrl(backend(RequestFor(apiKey, prompt, model)))
    ensures GenerateImage(apiKey, prompt, model, backend)
         == Url(backend(RequestFor(apiKey, prompt, model)).body.value.fields["image_url"])
  {
  }

  /** A 200 reply whose decoded body is not an object with `image_url` raises
      the "format not recognised" error. */
  lemma UnrecognizedBodyRaises(apiKey: string, prompt: string, model: string,
                               backend: FreepikRequest -> BackendReply)
    requires apiKey != ""
    requires var reply := backend(RequestFor(apiKey, prompt, model));
      reply.Response? && reply.status == 200 && reply.body.Parsed? && !HasImageUrl(reply.body.value)
    ensures GenerateImage(apiKey, prompt, model, backend) == Raised(UnrecognizedFormat)
  {
  }

  /** Failures of the request itself, or of decoding a 200 body, propagate as
      the library's own exception text. */
  lemma LibraryErrorsPropagate(apiKey: string, prompt: string, model: string,
                               backend: FreepikRequest -> BackendReply)
    requires apiKey != ""
    ensures var reply := backend(RequestFor(apiKey, prompt, model));
      && (reply.TransportError? ==> GenerateImage(apiKey, prompt, model, backend) == Raised(reply.reason))
      && (reply.Response? && reply.status == 200 && reply.body.NotJson? ==>
            GenerateImage(apiKey, prompt, model, backend) == Raised(reply.body.reason))
  {
  }

  /** The API error message pins down both the status and the body it was
      built from. */
  lemma {:induction false} ApiErrorDeterminesReply(s1: nat, t1: string, s2: nat, t2: string)
    requires ApiError(s1, t1) == ApiError(s2, t2)
    ensures s1 == s2 && t1 == t2
  {
    var p := "Freepik API error: ";
    var a, b := NatToString(s1), NatToString(s2);
    assert ApiError(s1, t1) == p + a + " " + t1;
    assert ApiError(s2, t2) == p + b + " " + t2;
    if |a| != |b| {
      SpelledAt(p, a, t1);
      SpelledAt(p, b, t2);
      assert false;
    }
    assert a == (p + a + " " + t1)[|p|..|p| + |a|];
    assert b == (p + b + " " + t2)[|p|..|p| + |b|];
    NatToStringInjective(s1, s2);
    assert t1 == (p + a + " " + t1)[|p| + |a| + 1..];
    assert t2 == (p + b + " " + t2)[|p| + |b| + 1..];
  }

  /** Where the characters of `prefix + digits + " " + rest` come from. */
  lemma SpelledAt(prefix: string, digits: string, rest: string)
    ensures var m := prefix + digits + " " + rest;
      && m[|prefix| + |digits|] == ' '
      && forall k :: 0 <= k < |digits| ==> m[|prefix| + k] == digits[k]
  {
  }
}
