/**
  The payment webhook: method check, signature check, the conversion event,
  the `pendingId` gate, and the fulfillment steps (download the staged HTML,
  create the deployment, look up the public domain), all inside a catch-all
  so that a verified event is always acknowledged.

  The payment processor's signature check, the object store, the hosting
  platform and the analytics endpoint are inputs: `Oracles` and `World`
  give what each would answer, and the handler returns the calls it made.
*/
module Webhook {
  import opened Wrappers
  import opened Text
  import opened Slug

  // ---------------------------------------------------------------------------
  // Reading the raw body.

  datatype Chunk = TextChunk(text: string) | BytesChunk(bytes: seq<byte>)

  function ChunkBytes(c: Chunk, utf8: string -> seq<byte>): seq<byte> {
    match c
    case TextChunk(t) => utf8(t)
    case BytesChunk(b) => b
  }

  /** The bytes of `chunks`, in order, one after another. */
  function BodyBytes(chunks: seq<Chunk>, utf8: string -> seq<byte>): seq<byte> {
    if chunks == [] then []
    else BodyBytes(chunks[..|chunks| - 1], utf8) + ChunkBytes(chunks[|chunks| - 1], utf8)
  }

  function Concat(parts: seq<seq<byte>>): seq<byte> {
    if parts == [] then [] else Concat(parts[..|parts| - 1]) + parts[|parts| - 1]
  }

  lemma ConcatAppend(parts: seq<seq<byte>>, b: seq<byte>)
    ensures Concat(parts + [b]) == Concat(parts) + b
  {
    assert (parts + [b])[..|parts|] == parts;
  }

  lemma BodyBytesPrefix(chunks: seq<Chunk>, i: nat, utf8: string -> seq<byte>)
    requires i < |chunks|
    ensures BodyBytes(chunks[..i + 1], utf8) == BodyBytes(chunks[..i], utf8) + ChunkBytes(chunks[i], utf8)
  {
    assert chunks[..i + 1][..i] == chunks[..i];
  }

  /** `buffer(readable)`: collect the chunks, text ones encoded, then concatenate them. */
  method ReadBody(chunks: seq<Chunk>, utf8: string -> seq<byte>) returns (buf: seq<byte>)
    ensures buf == BodyBytes(chunks, utf8)
  {
    var parts: seq<seq<byte>> := [];
    var i := 0;
    while i < |chunks|
      invariant 0 <= i <= |chunks|
      invariant Concat(parts) == BodyBytes(chunks[..i], utf8)
    {
      var bytes := match chunks[i] case TextChunk(t) => utf8(t) case BytesChunk(b) => b;
      ConcatAppend(parts, bytes);
      BodyBytesPrefix(chunks, i, utf8);
      parts := parts + [bytes];
      i := i + 1;
    }
    assert chunks[..i] == chunks;
    buf := Concat(parts);
  }

  // ---------------------------------------------------------------------------
  // The verified event.

  /** The session metadata written at checkout time (see `Checkout.SessionMetadata`). */
  datatype Metadata = Metadata(
    pendingId: Option<string>,
    companyName: Option<string>,
    clientIp: Option<string>,
    userAgent: Option<string>)

  datatype Session = Session(metadata: Option<Metadata>, email: Option<string>, amountTotal: Option<int>)
  datatype Event = Event(eventType: string, session: Session)
  datatype Verification = Verified(event: Event) | Rejected(message: string)

  const CompletedEvent := "checkout.session.completed"

  /** `session.metadata?.x` reads `undefined` for every `x` when there is no metadata. */
  function MetaOf(s: Session): Metadata {
    s.metadata.GetOr(Metadata(None, None, None, None))
  }

  function MetaPendingId(s: Session): Option<string> { MetaOf(s).pendingId }

  /** `session.metadata?.companyName || 'site'`. */
  function CompanyNameOf(s: Session): (name: string)
    ensures s.metadata.Some? && Truthy(s.metadata.value.companyName) ==> name == s.metadata.value.companyName.value
    ensures !(s.metadata.Some? && Truthy(s.metadata.value.companyName)) ==> name == "site"
  {
    OrElse(MetaOf(s).companyName, "site")
  }

  // ---------------------------------------------------------------------------
  // The conversion event sent to the analytics endpoint (hashing left to `digest`).

  datatype PurchaseData = PurchaseData(email: Option<string>, clientIp: Option<string>, userAgent: Option<string>, value: real)
  datatype UserData = UserData(em: Option<seq<string>>, clientIpAddress: Option<string>, clientUserAgent: Option<string>)
  datatype CustomData = CustomData(currency: string, value: real)
  datatype ConversionEvent = ConversionEvent(
    eventName: string, eventTime: int, actionSource: string, userData: UserData, customData: CustomData)

  /** `(session.amount_total || 0) / 100`: cents to dollars. */
  function DollarValue(amountTotal: Option<int>): (v: real)
    ensures amountTotal.None? ==> v == 0.0
    ensures amountTotal.Some? ==> v * 100.0 == amountTotal.value as real
  {
    amountTotal.GetOr(0) as real / 100.0
  }

  /** What `hash` feeds to SHA-256: the trimmed, lower-cased text. */
  function HashInput(text: string): (r: string)
    ensures |r| <= |text| && NoUpper(r)
    ensures r != [] ==> !IsSpace(r[0]) && !IsSpace(r[|r| - 1])
  {
    Lower(Trim(text))
  }

  /** Normalising an already normalised text changes nothing. */
  lemma HashInputIdempotent(text: string)
    ensures HashInput(HashInput(text)) == HashInput(text)
  {
    var h := HashInput(text);
    TrimIdentity(h);
    LowerIdentity(h);
  }

  /** The body of `sendFBConversionsEvent`: one Purchase event; `em` only when there is an email. */
  function ConversionPayload(data: PurchaseData, nowMs: int, digest: string -> string): (p: seq<ConversionEvent>)
    ensures |p| == 1
    ensures p[0].eventName == "Purchase" && p[0].actionSource == "website"
    ensures p[0].eventTime * 1000 <= nowMs < p[0].eventTime * 1000 + 1000
    ensures p[0].userData.em.None? <==> !Truthy(data.email)
    ensures Truthy(data.email) ==> p[0].userData.em == Some([digest(HashInput(data.email.value))])
    ensures p[0].userData.clientIpAddress == data.clientIp && p[0].userData.clientUserAgent == data.userAgent
    ensures p[0].customData == CustomData("USD", data.value)
  {
    var em := if Truthy(data.email) then Some([digest(HashInput(data.email.value))]) else None;
    [ConversionEvent("Purchase", nowMs / 1000, "website",
                     UserData(em, data.clientIp, data.userAgent),
                     CustomData("USD", data.value))]
  }

  function PurchaseOf(s: Session): PurchaseData {
    PurchaseData(s.email, MetaOf(s).clientIp, MetaOf(s).userAgent, DollarValue(s.amountTotal))
  }

  // ---------------------------------------------------------------------------
  // The hosting platform's domains.

  datatype Domain = Domain(name: string, main: bool)
  datatype DomainReply = LookupThrew | LookupReplied(ok: bool, domains: seq<Domain>)

  /** `find(d => d.main)`: the position of the first domain flagged `main`. */
  function FindMain(ds: seq<Domain>, from: nat): (r: Option<nat>)
    requires from <= |ds|
    ensures r.Some? ==> from <= r.value < |ds| && ds[r.value].main
    ensures r.Some? ==> forall j :: from <= j < r.value ==> !ds[j].main
    ensures r.None? ==> forall j :: from <= j < |ds| ==> !ds[j].main
    decreases |ds| - from
  {
    if from == |ds| then None
    else if ds[from].main then Some(from)
    else FindMain(ds, from + 1)
  }

  /** `domains.find(d => d.main) || domains[0]`. */
  function PrimaryDomain(ds: seq<Domain>): (d: Domain)
    requires |ds| > 0
    ensures d in ds
    ensures (exists i :: 0 <= i < |ds| && ds[i].main) <==> d.main
    ensures d.main ==> exists i :: 0 <= i < |ds| && ds[i] == d && forall j :: 0 <= j < i ==> !ds[j].main
    ensures !d.main ==> d == ds[0]
  {
    match FindMain(ds, 0)
    case Some(i) => ds[i]
    case None => ds[0]
  }

  /** The public domain: the primary domain's name when the lookup answered with domains, else `<name>.vercel.app`. */
  function PublicDomain(projectName: string, reply: DomainReply): (r: string)
    ensures reply.LookupReplied? && reply.ok && |reply.domains| > 0 ==>
      exists i :: 0 <= i < |reply.domains| && reply.domains[i].name == r && (reply.domains[i].main || i == 0)
    ensures !(reply.LookupReplied? && reply.ok && |reply.domains| > 0) ==> r == projectName + ".vercel.app"
  {
    if reply.LookupReplied? && reply.ok && |reply.domains| > 0 then PrimaryDomain(reply.domains).name
    else projectName + ".vercel.app"
  }

  // ---------------------------------------------------------------------------
  // The fulfillment steps.

  datatype Env = Env(gcsCredentials: Option<string>, bucketName: Option<string>, teamId: Option<string>, token: Option<string>)
  datatype DeployReply = DeployThrew(message: string) | DeployReplied(ok: bool, errorMessage: Option<string>)

  /** What each external step would answer. */
  datatype World = World(
    env: Env,
    parseCredentials: Outcome,
    download: Result<string, string>,
    deploy: DeployReply,
    domains: DomainReply,
    random36: string)

  datatype FileEntry = FileEntry(file: string, data: string)
  datatype DeployPayload = DeployPayload(name: string, files: seq<FileEntry>, framework: Option<string>, target: string)

  datatype Call =
    | SendConversion(events: seq<ConversionEvent>)
    | Download(bucket: string, key: string)
    | CreateDeployment(teamId: string, payload: DeployPayload)
    | LookupDomains(projectName: string, teamId: string)

  datatype Fulfillment = NotAttempted | Failed(reason: string) | Deployed(publicDomain: string)

  /** The object-store key of a staged site. */
  function StagedKey(pendingId: string): (r: string)
    ensures StartsWith(r, "pending/html/") && EndsWith(r, ".html")
    ensures |r| == |pendingId| + 18 && r[13..|r| - 5] == pendingId
  {
    "pending/html/" + pendingId + ".html"
  }

  predicate IsTransfer(c: Call) { c.Download? || c.CreateDeployment? || c.LookupDomains? }

  /** Steps 2 and 3 of the `try` block: create the deployment, then look up its public domain. */
  method Publish(uniqueProjectName: string, html: string, w: World) returns (calls: seq<Call>, outcome: Fulfillment)
    ensures outcome != NotAttempted
    ensures 1 <= |calls| <= 2
    ensures forall c :: c in calls ==> IsTransfer(c)
    ensures calls[0] == CreateDeployment(JsString(w.env.teamId),
      DeployPayload(uniqueProjectName, [FileEntry("index.html", html)], None, "production"))
    ensures w.deploy.DeployThrew? ==> outcome == Failed(w.deploy.message)
    ensures w.deploy.DeployReplied? && !w.deploy.ok ==>
      outcome == Failed("Vercel API Error: " + OrElse(w.deploy.errorMessage, "Unknown error"))
    ensures outcome.Deployed? <==> |calls| == 2
    ensures outcome.Deployed? <==> w.deploy.DeployReplied? && w.deploy.ok
    ensures outcome.Deployed? ==>
      && calls[1] == LookupDomains(uniqueProjectName, OrElse(w.env.teamId, ""))
      && outcome.publicDomain == PublicDomain(uniqueProjectName, w.domains)
  {
    var payload := DeployPayload(uniqueProjectName, [FileEntry("index.html", html)], None, "production");
    var create := CreateDeployment(JsString(w.env.teamId), payload);
    calls := [create];
    match w.deploy {
      case DeployThrew(m) =>
        outcome := Failed(m);
        return;
      case DeployReplied(ok, errorMessage) =>
        if !ok {
          outcome := Failed("Vercel API Error: " + OrElse(errorMessage, "Unknown error"));
          return;
        }
    }

    var publicDomainUrl := uniqueProjectName + ".vercel.app";
    calls := [create, LookupDomains(uniqueProjectName, OrElse(w.env.teamId, ""))];
    match w.domains {
      case LookupThrew =>
      case LookupReplied(ok, domains) =>
        if ok && |domains| > 0 {
          var primary := PrimaryDomain(domains);
          publicDomainUrl := primary.name;
        }
    }
    outcome := Deployed(publicDomainUrl);
  }

  /** Both storage settings are set to non-empty values. */
  predicate StorageConfigured(env: Env) {
    Truthy(env.gcsCredentials) && Truthy(env.bucketName)
  }

  /**
    What fulfilling a paid order makes happen, case by case: missing storage
    settings or unparsable credentials fail before any call; otherwise the
    staged page is downloaded; a downloaded page is deployed under the unique
    project name; an ok deployment is followed by the domain lookup and ends
    `Deployed` with the public domain; every failure ends `Failed` with the
    error's message.
  */
  predicate FulfilSpec(pendingId: string, companyName: string, w: World, calls: seq<Call>, outcome: Fulfillment) {
    var name := UniqueProjectName(companyName, w.random36);
    && (forall c :: c in calls ==> IsTransfer(c))
    && (!StorageConfigured(w.env) ==>
          calls == [] && outcome == Failed("GCS_CREDENTIALS or GCS_BUCKET_NAME missing in environment"))
    && (StorageConfigured(w.env) && w.parseCredentials.Fail? ==>
          calls == [] && outcome == Failed(w.parseCredentials.message))
    && (StorageConfigured(w.env) && w.parseCredentials.Pass? ==>
          && |calls| >= 1
          && calls[0] == Download(w.env.bucketName.value, StagedKey(pendingId))
          && (w.download.Err? ==> |calls| == 1 && outcome == Failed(w.download.error))
          && (w.download.Ok? ==>
                && |calls| >= 2
                && calls[1] == CreateDeployment(JsString(w.env.teamId),
                     DeployPayload(name, [FileEntry("index.html", w.download.value)], None, "production"))
                && (w.deploy.DeployThrew? ==> |calls| == 2 && outcome == Failed(w.deploy.message))
                && (w.deploy.DeployReplied? && !w.deploy.ok ==>
                      |calls| == 2 && outcome == Failed("Vercel API Error: " + OrElse(w.deploy.errorMessage, "Unknown error")))
                && (w.deploy.DeployReplied? && w.deploy.ok ==>
                      && |calls| == 3
                      && calls[2] == LookupDomains(name, OrElse(w.env.teamId, ""))
                      && outcome == Deployed(PublicDomain(name, w.domains)))))
  }

  /** The `try` block of the handler: every thrown error ends it with `Failed`. */
  method Fulfil(pendingId: string, companyName: string, w: World) returns (calls: seq<Call>, outcome: Fulfillment)
    ensures FulfilSpec(pendingId, companyName, w, calls, outcome)
    ensures outcome != NotAttempted
    ensures outcome.Deployed? <==> |calls| == 3
  {
    calls := [];
    var credentialsJson := w.env.gcsCredentials;
    var bucketName := w.env.bucketName;
    if !Truthy(credentialsJson) || !Truthy(bucketName) {
      outcome := Failed("GCS_CREDENTIALS or GCS_BUCKET_NAME missing in environment");
      return;
    }
    if w.parseCredentials.Fail? {
      outcome := Failed(w.parseCredentials.message);
      return;
    }
    var download := Download(bucketName.value, StagedKey(pendingId));
    calls := [download];
    if w.download.Err? {
      outcome := Failed(w.download.error);
      return;
    }
    var html := w.download.value;
    var uniqueProjectName := UniqueProjectName(companyName, w.random36);
    var published;
    published, outcome := Publish(uniqueProjectName, html, w);
    calls := [download] + published;
    assert calls[1..] == published;
  }

  // ---------------------------------------------------------------------------
  // The handler.

  datatype Request = Request(verb: string, signature: Option<string>, chunks: seq<Chunk>)

  /** The signature check, the text encoder and the hash, as the handler sees them. */
  datatype Oracles = Oracles(
    verify: (seq<byte>, Option<string>) -> Verification,
    utf8: string -> seq<byte>,
    digest: string -> string)

  datatype Response = Status(code: int, text: string) | Received

  /** A `checkout.session.completed` event: the conversion event first, then fulfillment when there is a `pendingId`. */
  method HandleCompleted(session: Session, w: World, nowMs: int, digest: string -> string)
    returns (calls: seq<Call>, outcome: Fulfillment)
    ensures |calls| >= 1 && calls[0] == SendConversion(ConversionPayload(PurchaseOf(session), nowMs, digest))
    ensures forall k :: 1 <= k < |calls| ==> IsTransfer(calls[k])
    ensures !Truthy(MetaPendingId(session)) ==> |calls| == 1 && outcome == NotAttempted
    ensures Truthy(MetaPendingId(session)) ==>
      && outcome != NotAttempted
      && FulfilSpec(MetaPendingId(session).value, CompanyNameOf(session), w, calls[1..], outcome)
  {
    var pendingId := MetaPendingId(session);
    var companyName := CompanyNameOf(session);
    var conversion := SendConversion(ConversionPayload(PurchaseOf(session), nowMs, digest));
    calls := [conversion];
    outcome := NotAttempted;
    if Truthy(pendingId) {
      var steps;
      steps, outcome := Fulfil(pendingId.value, companyName, w);
      calls := [conversion] + steps;
      assert calls[1..] == steps;
    }
  }

  /** The handler: wrong method 405, bad signature 400 with no call made, otherwise always `{received: true}`. */
  method Handle(req: Request, o: Oracles, w: World, nowMs: int)
    returns (resp: Response, calls: seq<Call>, outcome: Fulfillment)
    ensures req.verb != "POST" ==> resp == Status(405, "Method Not Allowed") && calls == [] && outcome == NotAttempted
    ensures req.verb == "POST" ==>
      var v := o.verify(BodyBytes(req.chunks, o.utf8), req.signature);
      && (v.Rejected? ==> resp == Status(400, "Webhook Error: " + v.message) && calls == [])
      && (v.Verified? ==> resp == Received)
      && (v.Verified? && v.event.eventType != CompletedEvent ==> calls == [] && outcome == NotAttempted)
      && (v.Verified? && v.event.eventType == CompletedEvent ==>
            && |calls| >= 1
            && calls[0] == SendConversion(ConversionPayload(PurchaseOf(v.event.session), nowMs, o.digest))
            && (!Truthy(MetaPendingId(v.event.session)) ==> |calls| == 1 && outcome == NotAttempted)
            && (Truthy(MetaPendingId(v.event.session)) ==>
                  FulfilSpec(MetaPendingId(v.event.session).value, CompanyNameOf(v.event.session), w, calls[1..], outcome)))
    ensures outcome != NotAttempted ==> resp == Received
  {
    calls := [];
    outcome := NotAttempted;
    if req.verb != "POST" {
      resp := Status(405, "Method Not Allowed");
      return;
    }
    var buf := ReadBody(req.chunks, o.utf8);
    var event;
    var verification := o.verify(buf, req.signature);
    match verification {
      case Rejected(message) =>
        resp := Status(400, "Webhook Error: " + message);
        return;
      case Verified(e) =>
        event := e;
    }

    if event.eventType == CompletedEvent {
      calls, outcome := HandleCompleted(event.session, w, nowMs, o.digest);
    }
    resp := Received;
  }
}
