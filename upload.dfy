/**
  The image upload endpoint: validates the body, reads the storage
  credentials, strips a data-URL prefix from the image, stores the decoded
  bytes under the given file name with a content type chosen from the
  extension, tries to make the object public, and answers its public URL.
  `JSON.parse`, base-64 decoding and the storage calls are inputs.
*/
module Upload {
  import opened Wrappers
  import opened Text

  datatype UploadBody = UploadBody(image: Option<string>, filename: Option<string>)
  datatype UploadEnv = UploadEnv(credentials: Option<string>, bucketName: Option<string>)

  datatype StoredObject = StoredObject(bucket: string, name: string, data: seq<byte>, contentType: string, cacheControl: string)
  datatype StorageCall = Save(obj: StoredObject) | MakePublic(bucket: string, name: string)

  datatype ResponseBody = ErrorJson(error: string) | UrlJson(url: string)
  datatype Response = Response(status: int, body: ResponseBody)

  const MissingFieldsMessage := "Missing image or filename"
  const MisconfiguredMessage := "Server misconfiguration: Missing GCS credentials or bucket name"
  const BadCredentialsMessage := "Invalid server credentials format"
  const CacheControl := "public, max-age=31536000"
  const ImagePrefixStart := "data:image/"
  const ImagePrefixEnd := ";base64,"

  // ---------------------------------------------------------------------------
  // The data-URL prefix

  /** The length of the run of `\w` characters starting at `from`. */
  function WordRun(s: string, from: nat): (n: nat)
    requires from <= |s|
    ensures from + n <= |s|
    ensures forall i :: from <= i < from + n ==> IsWordChar(s[i])
    ensures from + n < |s| ==> !IsWordChar(s[from + n])
    decreases |s| - from
  {
    if from < |s| && IsWordChar(s[from]) then 1 + WordRun(s, from + 1) else 0
  }

  /**
    How long a match of `^data:image\/\w+;base64,` at the start of `s` is.
    The subtype run must be maximal, because `;` is not a word character.
  */
  function PrefixLength(s: string): (r: Option<nat>)
    ensures r.Some? ==>
      var k, a, b := r.value, |ImagePrefixStart|, r.value - |ImagePrefixEnd|;
      && a < b && k <= |s|
      && s[..a] == ImagePrefixStart
      && (forall i :: a <= i < b ==> IsWordChar(s[i]))
      && s[b..k] == ImagePrefixEnd
  {
    if !StartsWith(s, ImagePrefixStart) then None
    else
      var n := WordRun(s, |ImagePrefixStart|);
      if n > 0 && OccursAt(s, ImagePrefixEnd, |ImagePrefixStart| + n) then Some(|ImagePrefixStart| + n + |ImagePrefixEnd|)
      else None
  }

  /** `image.replace(/^data:image\/\w+;base64,/, "")`. */
  function StripDataUrlPrefix(image: string): (r: string)
    ensures PrefixLength(image).None? ==> r == image
    ensures PrefixLength(image).Some? ==> r == image[PrefixLength(image).value..]
    ensures !StartsWith(image, ImagePrefixStart) ==> r == image
  {
    match PrefixLength(image)
    case None => image
    case Some(k) => image[k..]
  }

  /**
    The data URL of any image subtype is matched, the match is exactly its prefix,
    and the base-64 payload is recovered.
  */
  lemma StripDataUrl(subtype: string, payload: string)
    requires |subtype| > 0 && forall i :: 0 <= i < |subtype| ==> IsWordChar(subtype[i])
    ensures PrefixLength(ImagePrefixStart + subtype + ImagePrefixEnd + payload)
      == Some(|ImagePrefixStart| + |subtype| + |ImagePrefixEnd|)
    ensures StripDataUrlPrefix(ImagePrefixStart + subtype + ImagePrefixEnd + payload) == payload
  {
    var s := ImagePrefixStart + subtype + ImagePrefixEnd + payload;
    var k := |ImagePrefixStart|;
    assert s[..k] == ImagePrefixStart;
    assert s[k + |subtype|] == ';';
    WordRunIs(s, k, subtype);
    assert s[k + |subtype|..k + |subtype| + |ImagePrefixEnd|] == ImagePrefixEnd;
    assert s[k + |subtype| + |ImagePrefixEnd|..] == payload;
  }

  lemma {:induction false} WordRunIs(s: string, from: nat, w: string)
    requires from + |w| < |s| && s[from..from + |w|] == w && !IsWordChar(s[from + |w|])
    requires forall i :: 0 <= i < |w| ==> IsWordChar(w[i])
    ensures WordRun(s, from) == |w|
    decreases |w|
  {
    if w != [] {
      assert s[from] == w[0];
      assert s[from + 1..from + 1 + |w[1..]|] == w[1..];
      WordRunIs(s, from + 1, w[1..]);
    }
  }

  /** What the image generator produces, `data:image/png;base64,` and the data, uploads as the data alone. */
  lemma StripGeneratedImage(payload: string)
    ensures StripDataUrlPrefix("data:image/png;base64," + payload) == payload
  {
    StripDataUrl("png", payload);
    assert ImagePrefixStart + "png" + ImagePrefixEnd + payload == "data:image/png;base64," + payload;
  }

  // ---------------------------------------------------------------------------
  // The content type

  /** The content type by extension: `.html` wins over `.json`, and anything else is PNG. */
  function ContentTypeOf(filename: string): (r: string)
    ensures r == "text/html" <==> EndsWith(filename, ".html")
    ensures r == "application/json" <==> EndsWith(filename, ".json")
    ensures r == "image/png" <==> !EndsWith(filename, ".html") && !EndsWith(filename, ".json")
  {
    if EndsWith(filename, ".html") then "text/html"
    else if EndsWith(filename, ".json") then "application/json"
    else "image/png"
  }

  /** The two successive overrides of the default content type. */
  method ChooseContentType(filename: string) returns (contentType: string)
    ensures contentType == ContentTypeOf(filename)
    ensures contentType in {"image/png", "application/json", "text/html"}
  {
    contentType := "image/png";
    if EndsWith(filename, ".json") { contentType := "application/json"; }
    if EndsWith(filename, ".html") { contentType := "text/html"; }
  }

  /** No name ends in both extensions, so the order of the two overrides never matters. */
  lemma ExtensionsExclusive(filename: string)
    ensures !(EndsWith(filename, ".html") && EndsWith(filename, ".json"))
  {
  }

  const StorageHost := "https://storage.googleapis.com/"

  /** The public address of an object: the storage host, the bucket, and the object name after one more `/`. */
  function PublicUrl(bucketName: string, filename: string): (r: string)
    ensures StartsWith(r, StorageHost) && EndsWith(r, "/" + filename)
    ensures |r| == |StorageHost| + |bucketName| + 1 + |filename|
    ensures r[|StorageHost|..|StorageHost| + |bucketName|] == bucketName
  {
    StorageHost + bucketName + "/" + filename
  }

  // ---------------------------------------------------------------------------
  // The handler

  /**
    The handler with the storage calls it makes. A failure to make the object
    public is ignored; a failed save is a 500 with the failure's message.
  */
  method HandleUpload(verb: string, body: UploadBody, env: UploadEnv, parseCredentials: Outcome,
                      decodeBase64: string -> seq<byte>, save: Outcome, makePublic: Outcome)
    returns (resp: Response, calls: seq<StorageCall>)
    ensures verb != "POST" ==> resp == Response(405, ErrorJson("Method not allowed")) && calls == []
    ensures verb == "POST" && !(Truthy(body.image) && Truthy(body.filename)) ==>
      resp == Response(400, ErrorJson(MissingFieldsMessage)) && calls == []
    ensures verb == "POST" && Truthy(body.image) && Truthy(body.filename)
            && !(Truthy(env.credentials) && Truthy(env.bucketName)) ==>
      resp == Response(500, ErrorJson(MisconfiguredMessage)) && calls == []
    ensures verb == "POST" && Truthy(body.image) && Truthy(body.filename)
            && Truthy(env.credentials) && Truthy(env.bucketName) && parseCredentials.Fail? ==>
      resp == Response(500, ErrorJson(BadCredentialsMessage)) && calls == []
    ensures calls != [] ==>
      && calls[0] == Save(StoredObject(env.bucketName.value, body.filename.value,
                                       decodeBase64(StripDataUrlPrefix(body.image.value)),
                                       ContentTypeOf(body.filename.value), CacheControl))
      && (save.Fail? ==> |calls| == 1 && resp == Response(500, ErrorJson(save.message)))
      && (save.Pass? ==>
            && calls == [calls[0], MakePublic(env.bucketName.value, body.filename.value)]
            && resp == Response(200, UrlJson(PublicUrl(env.bucketName.value, body.filename.value))))
    ensures verb == "POST" && Truthy(body.image) && Truthy(body.filename)
            && Truthy(env.credentials) && Truthy(env.bucketName) && parseCredentials.Pass? ==>
      calls != []
    ensures resp.status == 200 <==> calls != [] && save.Pass?
  {
    if verb != "POST" {
      return Response(405, ErrorJson("Method not allowed")), [];
    }
    if !Truthy(body.image) || !Truthy(body.filename) {
      return Response(400, ErrorJson(MissingFieldsMessage)), [];
    }
    if !Truthy(env.credentials) || !Truthy(env.bucketName) {
      return Response(500, ErrorJson(MisconfiguredMessage)), [];
    }
    if parseCredentials.Fail? {
      return Response(500, ErrorJson(BadCredentialsMessage)), [];
    }
    var bucketName := env.bucketName.value;
    var filename := body.filename.value;
    var base64Data := StripDataUrlPrefix(body.image.value);
    var buffer := decodeBase64(base64Data);
    var contentType := ChooseContentType(filename);
    calls := [Save(StoredObject(bucketName, filename, buffer, contentType, CacheControl))];
    if save.Fail? {
      return Response(500, ErrorJson(save.message)), calls;
    }
    // The attempt to make the object public may fail; the upload still succeeds.
    calls := calls + [MakePublic(bucketName, filename)];
    resp := Response(200, UrlJson(PublicUrl(bucketName, filename)));
  }
}
