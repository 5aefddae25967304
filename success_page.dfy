/**
  The page the payment processor redirects to: when it has a pending id and
  a company name it shows "deploying", posts both to the direct deployment
  endpoint, waits 8 s on success, and settles on "success" with the site's
  URL or on "error" with the failure's message. The endpoint's answer is an
  input.
*/
module SuccessPage {
  import opened Wrappers
  import opened Text
  import Gemini
  import Deploy

  datatype Status = Loading | Deploying | Success | Error

  /** The fields of the endpoint's JSON answer the page reads (string-valued, when present). */
  datatype DeployData = DeployData(error: Option<string>, publicDomainUrl: Option<string>, url: Option<string>)

  /** The request: it threw, or it was answered with an ok flag and a JSON body that did or did not parse. */
  datatype DeployFetch = FetchThrew(message: string) | Responded(ok: bool, data: Result<DeployData, string>)

  datatype PageEvent = StatusSet(status: Status) | Posted(pendingId: string, companyName: string) | Waited(ms: nat)

  datatype PageState = PageState(status: Status, deployedUrl: Option<string>, error: Option<string>)

  const DeployFailedMessage := "Deployment failed"
  const PropagationWaitMs := 8000

  /** The message of the `TypeError` raised by calling `startsWith` on `undefined`, as V8 words it. */
  const UndefinedUrlMessage := "Cannot read properties of undefined (reading 'startsWith')"

  /** The page deploys only when both values are non-empty. */
  predicate ShouldDeploy(pendingId: string, companyName: string) {
    pendingId != "" && companyName != ""
  }

  /** `finalUrl.startsWith('http') ? finalUrl : 'https://' + finalUrl`. */
  function NormaliseUrl(u: string): (r: string)
    ensures StartsWith(r, "http")
    ensures StartsWith(u, "http") ==> r == u
    ensures !StartsWith(u, "http") ==> r == "https://" + u
  {
    if StartsWith(u, "http") then u else "https://" + u
  }

  lemma NormaliseUrlIdempotent(u: string)
    ensures NormaliseUrl(NormaliseUrl(u)) == NormaliseUrl(u)
  {
  }

  /** `data.publicDomainUrl || data.url`. */
  function FinalUrl(d: DeployData): (r: Option<string>)
    ensures Truthy(d.publicDomainUrl) ==> r == d.publicDomainUrl
    ensures !Truthy(d.publicDomainUrl) ==> r == d.url
  {
    if Truthy(d.publicDomainUrl) then d.publicDomainUrl else d.url
  }

  /**
    Where a deployment attempt leaves the page: every failure becomes "error"
    with the failure's message, and only an ok answer with a usable URL becomes
    "success".
  */
  function Settled(fetch: DeployFetch, before: PageState): (r: PageState)
    ensures r.status in {Success, Error}
    ensures r.status == Success ==> r.deployedUrl.Some? && StartsWith(r.deployedUrl.value, "http")
    ensures r.status == Success <==>
      fetch.Responded? && fetch.ok && fetch.data.Ok? && FinalUrl(fetch.data.value).Some?
    ensures r.status == Error ==> r.error.Some? && r.deployedUrl == before.deployedUrl
    ensures fetch.FetchThrew? ==> r.error == Some(fetch.message)
    ensures fetch.Responded? && fetch.data.Err? ==> r.error == Some(fetch.data.error)
    ensures fetch.Responded? && !fetch.ok && fetch.data.Ok? ==>
      r.error == Some(OrElse(fetch.data.value.error, DeployFailedMessage))
    ensures fetch.Responded? && fetch.ok && fetch.data.Ok? && FinalUrl(fetch.data.value).None? ==>
      r.error == Some(UndefinedUrlMessage)
    ensures r.status == Success ==>
      r.deployedUrl == Some(NormaliseUrl(FinalUrl(fetch.data.value).value)) && r.error == before.error
  {
    match fetch
    case FetchThrew(m) => PageState(Error, before.deployedUrl, Some(m))
    case Responded(ok, data) =>
      if data.Err? then PageState(Error, before.deployedUrl, Some(data.error))
      else if !ok then PageState(Error, before.deployedUrl, Some(OrElse(data.value.error, DeployFailedMessage)))
      else match FinalUrl(data.value)
        case None => PageState(Error, before.deployedUrl, Some(UndefinedUrlMessage))
        case Some(u) => PageState(Success, Some(NormaliseUrl(u)), before.error)
  }

  /** What the attempt does in order: show "deploying", post, wait after an ok answer, settle. */
  function DeployEvents(pendingId: string, companyName: string, fetch: DeployFetch, settled: Status): (r: seq<PageEvent>)
    ensures |r| >= 3 && r[0] == StatusSet(Deploying) && r[1] == Posted(pendingId, companyName)
    ensures r[|r| - 1] == StatusSet(settled)
    ensures |r| == 4 <==> fetch.Responded? && fetch.ok && fetch.data.Ok?
    ensures |r| == 4 ==> r[2] == Waited(PropagationWaitMs)
    ensures |r| <= 4
  {
    [StatusSet(Deploying), Posted(pendingId, companyName)]
    + (if fetch.Responded? && fetch.ok && fetch.data.Ok? then [Waited(PropagationWaitMs)] else [])
    + [StatusSet(settled)]
  }

  class Page {
    const pendingId: string
    const companyName: string
    var status: Status
    var deployedUrl: Option<string>
    var error: Option<string>
    ghost var events: seq<PageEvent>

    constructor(pendingId: string, companyName: string)
      ensures this.pendingId == pendingId && this.companyName == companyName
      ensures status == Loading && deployedUrl.None? && error.None? && events == []
    {
      this.pendingId := pendingId;
      this.companyName := companyName;
      status := Loading;
      deployedUrl := None;
      error := None;
      events := [];
    }

    /** `deploySite`. */
    method DeploySite(fetch: DeployFetch)
      modifies this`status, this`deployedUrl, this`error, this`events
      ensures PageState(status, deployedUrl, error) == Settled(fetch, old(PageState(status, deployedUrl, error)))
      ensures events == old(events) + DeployEvents(pendingId, companyName, fetch, status)
    {
      status := Deploying;
      events := events + [StatusSet(Deploying), Posted(pendingId, companyName)];
      match fetch {
        case FetchThrew(m) =>
          error := Some(m);
        case Responded(ok, data) =>
          if data.Err? {
            error := Some(data.error);
          } else if !ok {
            error := Some(OrElse(data.value.error, DeployFailedMessage));
          } else {
            events := events + [Waited(PropagationWaitMs)];
            var finalUrl := FinalUrl(data.value);
            if finalUrl.None? {
              error := Some(UndefinedUrlMessage);
            } else {
              deployedUrl := Some(NormaliseUrl(finalUrl.value));
              status := Success;
            }
          }
      }
      if status != Success {
        status := Error;
      }
      events := events + [StatusSet(status)];
    }

    /** The effect on mount: deploy only when both values are present. */
    method Mount(fetch: DeployFetch)
      modifies this`status, this`deployedUrl, this`error, this`events
      ensures ShouldDeploy(pendingId, companyName) ==>
        && PageState(status, deployedUrl, error) == Settled(fetch, old(PageState(status, deployedUrl, error)))
        && events == old(events) + DeployEvents(pendingId, companyName, fetch, status)
      ensures !ShouldDeploy(pendingId, companyName) ==>
        status == old(status) && deployedUrl == old(deployedUrl) && error == old(error) && events == old(events)
    {
      if pendingId != "" && companyName != "" {
        DeploySite(fetch);
      }
    }
  }

  // ---------------------------------------------------------------------------
  // The page against the deployment endpoint

  /** The last string value stored under `key` in a JSON object (`JSON.parse` keeps the last duplicate). */
  function StringField(j: Gemini.Json, key: string): Option<string> {
    match j
    case JObject(fields) => LastStringField(fields, key)
    case _ => None
  }

  function LastStringField(fields: seq<(string, Gemini.Json)>, key: string): Option<string> {
    if fields == [] then None
    else
      var (k, v) := fields[|fields| - 1];
      if k == key then (if v.JString? then Some(v.s) else None)
      else LastStringField(fields[..|fields| - 1], key)
  }

  /** How the endpoint's response reaches the page: `ok` for a 2xx status, and the JSON body's fields. */
  function FetchOf(resp: Deploy.Response): DeployFetch {
    Responded(200 <= resp.status < 300,
      Ok(match resp.body
         case ErrorJson(e) => DeployData(Some(e), None, None)
         case DataJson(d) => DeployData(StringField(d, "error"), StringField(d, "publicDomainUrl"), StringField(d, "url"))))
  }

  /** The body the page posts: a pending id and a company name, and no HTML. */
  function PostedBody(companyName: string): Deploy.DeployBody {
    Deploy.DeployBody(None, Some(companyName), None)
  }

  /**
    The page posts no HTML, and the deployment endpoint refuses a body without
    HTML before it does anything else. So, whatever the environment and the
    hosting provider, no deployment is made and the page settles on "error"
    with the endpoint's message.
  */
  lemma PageAlwaysFailsAgainstEndpoint(companyName: string, env: Deploy.DeployEnv,
                                       reply: Deploy.ProviderReply, before: PageState)
    ensures var (resp, call) := Deploy.HandleDeploy("POST", PostedBody(companyName), env, reply);
      && call.None?
      && resp.status == 400
      && Settled(FetchOf(resp), before) == PageState(Error, before.deployedUrl, Some(Deploy.MissingBodyMessage))
  {
  }
}
