/**
  The language-model side of the generation service: reading the model's
  key from the environment, extracting a JSON object from the model's text
  answer, and turning the image model's answer into a data URL. The model
  calls and `JSON.parse` are inputs.
*/
module Gemini {
  import opened Wrappers
  import opened Text

  /** The parsed JSON value `JSON.parse` produces. */
  datatype Json =
    | JNull
    | JBool(b: bool)
    | JNumber(n: int)
    | JString(s: string)
    | JArray(items: seq<Json>)
    | JObject(fields: seq<(string, Json)>)

  /** JavaScript truthiness of a parsed value: `null`, `false`, `0` and `""` are falsy; arrays and objects are truthy. */
  predicate JsTruthy(j: Json) {
    !(j.JNull? || j == JBool(false) || j == JNumber(0) || j == JString(""))
  }

  const MissingKeyMessage := "Missing server env var. Set GEMINI_API_KEY (or API_KEY) in Vercel for Production."
  const MalformedMessage := "Failed to parse synthesis response. The model output was malformed."
  const DataUrlPrefix := "data:image/png;base64,"

  /** `process.env.GEMINI_API_KEY || process.env.API_KEY`, when truthy. */
  function ApiKey(geminiApiKey: Option<string>, apiKey: Option<string>): (r: Option<string>)
    ensures r.Some? <==> Truthy(geminiApiKey) || Truthy(apiKey)
    ensures Truthy(geminiApiKey) ==> r == geminiApiKey
    ensures !Truthy(geminiApiKey) && Truthy(apiKey) ==> r == apiKey
  {
    if Truthy(geminiApiKey) then geminiApiKey
    else if Truthy(apiKey) then apiKey
    else None
  }

  // ---------------------------------------------------------------------------
  // Extracting the JSON object from the model's text

  /**
    `text.match(/\{[\s\S]*\}/)`: the greedy match runs from the first `{` to
    the last `}`, and exists exactly when some `}` follows some `{`.
  */
  function JsonSpan(text: string): (r: Option<string>)
    ensures r.Some? <==> exists i, j :: 0 <= i < j < |text| && text[i] == '{' && text[j] == '}'
    ensures r.Some? ==>
      var i := FirstOf(text, '{').value;
      var j := LastOf(text, '}').value;
      i < j && r.value == text[i..j + 1]
  {
    var first := FirstOf(text, '{');
    var last := LastOf(text, '}');
    if first.Some? && last.Some? && first.value < last.value then Some(text[first.value..last.value + 1])
    else None
  }

  /** The text handed to `JSON.parse`: the matched object, or the whole answer trimmed. */
  function CleanText(text: string): (r: string)
    ensures JsonSpan(text).Some? ==> 2 <= |r| && r[0] == '{' && r[|r| - 1] == '}'
    ensures JsonSpan(text).None? ==> r == Trim(text) && (r != [] ==> !IsSpace(r[0]) && !IsSpace(r[|r| - 1]))
  {
    match JsonSpan(text)
    case Some(span) => span
    case None => Trim(text)
  }

  /** `parseModelResponse(text)`: any parse failure becomes the one "malformed" error. */
  function ParseModelResponse(text: string, parse: string -> Option<Json>): (r: Result<Json, string>)
    ensures r.Err? <==> parse(CleanText(text)).None?
    ensures r.Err? ==> r.error == MalformedMessage
    ensures r.Ok? ==> r.value == parse(CleanText(text)).value
  {
    match parse(CleanText(text))
    case Some(v) => Ok(v)
    case None => Err(MalformedMessage)
  }

  /**
    An object wrapped in prose or a markdown fence is recovered exactly: when
    nothing before it opens a brace and nothing after it closes one.
  */
  lemma SpanOfWrapped(prefix: string, body: string, suffix: string)
    requires |body| >= 2 && body[0] == '{' && body[|body| - 1] == '}'
    requires forall i :: 0 <= i < |prefix| ==> prefix[i] != '{'
    requires forall i :: 0 <= i < |suffix| ==> suffix[i] != '}'
    ensures JsonSpan(prefix + body + suffix) == Some(body)
    ensures CleanText(prefix + body + suffix) == body
  {
    var text := prefix + body + suffix;
    var a := |prefix|;
    var b := |prefix| + |body| - 1;
    assert text[a] == '{' && text[b] == '}';
    var i := FirstOf(text, '{').value;
    var j := LastOf(text, '}').value;
    assert i == a;
    assert j == b;
    assert text[a..b + 1] == body;
  }

  /** An answer with no `{`...`}` is parsed as the whole answer, trimmed. */
  lemma BareAnswerIsTrimmed(text: string)
    requires forall i :: 0 <= i < |text| ==> text[i] != '{'
    ensures CleanText(text) == Trim(text)
  {
  }

  // ---------------------------------------------------------------------------
  // Content generation

  /**
    `generateWebsiteContent`: a missing key rejects before any model call, a
    failed call rejects with its own message, and otherwise the answer's text
    is parsed.
  */
  function GenerateWebsiteContent(geminiApiKey: Option<string>, apiKey: Option<string>,
                                  answer: Result<string, string>, parse: string -> Option<Json>)
    : (r: Result<Json, string>)
    ensures ApiKey(geminiApiKey, apiKey).None? ==> r == Err(MissingKeyMessage)
    ensures ApiKey(geminiApiKey, apiKey).Some? && answer.Err? ==> r == Err(answer.error)
    ensures ApiKey(geminiApiKey, apiKey).Some? && answer.Ok? ==> r == ParseModelResponse(answer.value, parse)
  {
    if ApiKey(geminiApiKey, apiKey).None? then Err(MissingKeyMessage)
    else match answer
      case Err(m) => Err(m)
      case Ok(text) => ParseModelResponse(text, parse)
  }

  // ---------------------------------------------------------------------------
  // Image generation

  /** One part of the image model's answer; `inlineData` holds base-64 image data when present. */
  datatype Part = Part(inlineData: Option<string>)

  /** The image model's answer: a failed call, or the parts of the candidates (`candidates[0]` may be missing). */
  datatype ImageAnswer = ImageCallFailed | ImageAnswered(candidates: seq<seq<Part>>)

  /** The index of the first part carrying inline data. */
  function FirstInline(parts: seq<Part>): (r: Option<nat>)
    ensures r.Some? ==>
      r.value < |parts| && parts[r.value].inlineData.Some?
      && forall j :: 0 <= j < r.value ==> parts[j].inlineData.None?
    ensures r.None? ==> forall j :: 0 <= j < |parts| ==> parts[j].inlineData.None?
  {
    if parts == [] then None
    else if parts[0].inlineData.Some? then Some(0)
    else match FirstInline(parts[1..])
      case None => None
      case Some(i) => Some(i + 1)
  }

  /** The `for ... of` over the parts: the data URL of the first inline part, if any. */
  method FirstInlineImage(parts: seq<Part>) returns (url: Option<string>)
    ensures FirstInline(parts).None? ==> url.None?
    ensures FirstInline(parts).Some? ==>
      url == Some(DataUrlPrefix + parts[FirstInline(parts).value].inlineData.value)
  {
    var i := 0;
    while i < |parts|
      invariant 0 <= i <= |parts|
      invariant forall j :: 0 <= j < i ==> parts[j].inlineData.None?
    {
      if parts[i].inlineData.Some? {
        return Some(DataUrlPrefix + parts[i].inlineData.value);
      }
      i := i + 1;
    }
    return None;
  }

  /**
    `generateImage`: the key lookup happens outside the `try`, so a missing
    key rejects; inside it every failure (a failed call, no candidate, no
    inline part) resolves to the empty string.
  */
  method GenerateImage(geminiApiKey: Option<string>, apiKey: Option<string>, answer: ImageAnswer)
    returns (r: Result<string, string>)
    ensures ApiKey(geminiApiKey, apiKey).None? ==> r == Err(MissingKeyMessage)
    ensures ApiKey(geminiApiKey, apiKey).Some? ==> r.Ok?
    ensures r.Ok? && r.value != "" ==>
      && answer.ImageAnswered? && |answer.candidates| > 0
      && FirstInline(answer.candidates[0]).Some?
      && r.value == DataUrlPrefix + answer.candidates[0][FirstInline(answer.candidates[0]).value].inlineData.value
    ensures r.Ok? && r.value == "" ==>
      answer.ImageCallFailed? || |answer.candidates| == 0 || FirstInline(answer.candidates[0]).None?
  {
    if ApiKey(geminiApiKey, apiKey).None? {
      return Err(MissingKeyMessage);
    }
    match answer
    case ImageCallFailed =>
      return Ok("");
    case ImageAnswered(candidates) =>
      if |candidates| == 0 {
        return Ok("");
      }
      var url := FirstInlineImage(candidates[0]);
      match url
      case None => return Ok("");
      case Some(u) => return Ok(u);
  }
}
