/**
  The direct deployment endpoint: validates the body, reads the hosting
  credentials, and submits one static `index.html` to the hosting provider.
  The provider request is an input; every failure after validation becomes a
  500 carrying the error's message.
*/
module Deploy {
  import opened Wrappers
  import opened Text
  import Gemini

  datatype DeployBody = DeployBody(html: Option<string>, companyName: Option<string>, subdomain: Option<string>)

  datatype DeployEnv = DeployEnv(teamId: Option<string>, token: Option<string>, projectName: Option<string>)

  datatype FileEntry = FileEntry(file: string, data: string)
  datatype DeployMeta = DeployMeta(company: string, generatedBy: string)

  /** The deployment request: project name, files, `framework: null`, target and meta. */
  datatype Payload = Payload(name: string, files: seq<FileEntry>, framework: Option<string>, target: string, meta: DeployMeta)

  datatype ProviderCall = CreateDeployment(teamId: string, token: string, payload: Payload)

  /** The provider's answer: the request threw, a non-ok status with its body text, or an ok status with its JSON. */
  datatype ProviderReply = RequestThrew(message: string) | NotOk(errorText: string) | Deployed(data: Gemini.Json)

  datatype ResponseBody = ErrorJson(error: string) | DataJson(data: Gemini.Json)
  datatype Response = Response(status: int, body: ResponseBody)

  const DefaultProjectName := "primehub-sites"
  const MissingBodyMessage := "Missing html content or company name"
  const MissingCredentialsMessage := "Missing Vercel credentials (VERCEL_TOKEN / VERCEL_TEAM_ID)"

  /** `companyName.toLowerCase().replace(/[^a-z0-9]/g, '-')`: one character for one. */
  function SafeName(companyName: string): (r: string)
    ensures |r| == |companyName|
    ensures forall i :: 0 <= i < |r| ==> IsLowerOrDigit(r[i]) || r[i] == '-'
    ensures forall i :: 0 <= i < |r| ==>
      (IsLowerOrDigit(LowerChar(companyName[i])) ==> r[i] == LowerChar(companyName[i]))
    ensures forall i :: 0 <= i < |r| ==>
      (!IsLowerOrDigit(LowerChar(companyName[i])) ==> r[i] == '-')
  {
    var lower := Lower(companyName);
    seq(|lower|, i requires 0 <= i < |lower| => if IsLowerOrDigit(lower[i]) then lower[i] else '-')
  }

  /** The safe name of a name already made of `[a-z0-9-]` is the name itself. */
  lemma SafeNameIdempotent(companyName: string)
    ensures SafeName(SafeName(companyName)) == SafeName(companyName)
  {
  }

  /** `site-${safeName}`, computed by the handler though the payload does not use it. */
  function DeploymentName(companyName: string): (r: string)
    ensures StartsWith(r, "site-") && r[5..] == SafeName(companyName)
  {
    "site-" + SafeName(companyName)
  }

  /** The deployment request: one `index.html` holding the page, the configured project or the default one, production. */
  function PayloadFor(html: string, companyName: string, env: DeployEnv): (p: Payload)
    ensures Truthy(env.projectName) ==> p.name == env.projectName.value
    ensures !Truthy(env.projectName) ==> p.name == DefaultProjectName
    ensures |p.files| == 1 && p.files[0].file == "index.html" && p.files[0].data == html
    ensures p.framework.None? && p.target == "production"
    ensures p.meta.company == companyName && p.meta.generatedBy == "PrimeHub-AI"
  {
    Payload(OrElse(env.projectName, DefaultProjectName), [FileEntry("index.html", html)], None, "production",
            DeployMeta(companyName, "PrimeHub-AI"))
  }

  /**
    The handler. The second component is the provider request made, if any.
    The checks run in order: method, body, credentials.
  */
  function HandleDeploy(verb: string, body: DeployBody, env: DeployEnv, reply: ProviderReply)
    : (r: (Response, Option<ProviderCall>))
    ensures verb != "POST" ==> r == (Response(405, ErrorJson("Method not allowed")), None)
    ensures verb == "POST" && !(Truthy(body.html) && Truthy(body.companyName)) ==>
      r == (Response(400, ErrorJson(MissingBodyMessage)), None)
    ensures verb == "POST" && Truthy(body.html) && Truthy(body.companyName)
            && !(Truthy(env.teamId) && Truthy(env.token)) ==>
      r == (Response(500, ErrorJson(MissingCredentialsMessage)), None)
    ensures r.1.Some? <==>
      verb == "POST" && Truthy(body.html) && Truthy(body.companyName) && Truthy(env.teamId) && Truthy(env.token)
    ensures r.1.Some? ==>
      && r.1.value.teamId == env.teamId.value && r.1.value.token == env.token.value
      && r.1.value.payload.name == OrElse(env.projectName, "primehub-sites")
      && r.1.value.payload.files == [FileEntry("index.html", body.html.value)]
      && r.1.value.payload.framework.None? && r.1.value.payload.target == "production"
      && r.1.value.payload.meta == DeployMeta(body.companyName.value, "PrimeHub-AI")
    ensures r.1.Some? && reply.NotOk? ==> r.0 == Response(500, ErrorJson("Vercel Deployment Failed: " + reply.errorText))
    ensures r.1.Some? && reply.RequestThrew? ==> r.0 == Response(500, ErrorJson(reply.message))
    ensures r.1.Some? && reply.Deployed? ==> r.0 == Response(200, DataJson(reply.data))
    ensures r.0.status == 200 <==> r.1.Some? && reply.Deployed?
  {
    if verb != "POST" then (Response(405, ErrorJson("Method not allowed")), None)
    else if !Truthy(body.html) || !Truthy(body.companyName) then (Response(400, ErrorJson(MissingBodyMessage)), None)
    else if !Truthy(env.teamId) || !Truthy(env.token) then (Response(500, ErrorJson(MissingCredentialsMessage)), None)
    else
      var call := CreateDeployment(env.teamId.value, env.token.value,
                                   PayloadFor(body.html.value, body.companyName.value, env));
      match reply
      case RequestThrew(m) => (Response(500, ErrorJson(m)), Some(call))
      case NotOk(t) => (Response(500, ErrorJson("Vercel Deployment Failed: " + t)), Some(call))
      case Deployed(data) => (Response(200, DataJson(data)), Some(call))
  }

  /** A body without HTML is refused before the credentials are even looked at. */
  lemma NoHtmlIsRefused(body: DeployBody, env: DeployEnv, reply: ProviderReply)
    requires body.html.None?
    ensures HandleDeploy("POST", body, env, reply) == (Response(400, ErrorJson(MissingBodyMessage)), None)
  {
  }
}
