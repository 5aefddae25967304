# PrimeHub-AI in Dafny

PrimeHub-AI generates a one-page marketing site for a local contractor. The
visitor fills in a form. A client hook asks a language model for the page
content and asks image services for three pictures, while a simulated
progress bar and rotating status messages keep the visitor waiting. The
visitor can then check out. A payment webhook later fetches the staged HTML
page and publishes it on the hosting platform. This project models the logic
of that pipeline and proves properties of it:

- **The generation hook** (`generator.dfy`). It is a class with the hook's
  state: progress, target, message index, results and error. Its methods are
  the progress tick, the message rotation, the run of one generation, and the
  reset. The three image tiers are stated as a fallback with its calls.
- **The model service** (`gemini.dfy`, `unsplash.dfy`). This covers the API
  key lookup, how JSON is cut out of a model answer, the image answer, and
  the stock-photo scoring, filtering, stable sorting and slicing.
- **The endpoints**:
  - checkout (`checkout.dfy`)
  - direct deployment (`deploy.dfy`)
  - image upload (`upload.dfy`)
  - the payment webhook (`webhook.dfy`), including the project-name slug
    (`slug.dfy`)
- **The client logic**:
  - the top-level router and its query-string reading (`app.dfy`)
  - the success page (`success_page.dfy`)
  - the hero section's call-to-action label (`hero.dfy`)
  - the "Our Work" gallery (`our_work.dfy`)
- **Shared helpers**:
  - `wrappers.dfy`: `Option`/`Result`
  - `text.dfy`: the JavaScript string operations the code relies on

Every external service is an input to the model:

- the language and image models
- the photo search
- the payment processor
- the object store
- the hosting platform
- the analytics endpoint

For each one, the model takes a datatype of the answers it can give (a reply,
a failed call, a thrown error). Each handler returns the calls it made beside
its response. That way "no deployment is attempted", "nothing is stored" and
"the conversion event is sent first" are stated about the call list.

The cross-module results are these:

- The checkout's metadata is what the webhook reads back
  (`Checkout.MetadataReachesWebhook`).
- The checkout's success URL routes the client back to the success page with
  the same pending id and company name
  (`App.CheckoutReturnsToSuccessPage`).
- The success page posts a body the deployment endpoint always refuses
  (`SuccessPage.PageAlwaysFailsAgainstEndpoint`).

Some behaviour of the code is easy to misread; the model keeps it as written:

- The three generated-image promises share one `Promise.all` with the content
  request (hooks/useWebsiteGenerator.ts:96-101). A rejected image request
  therefore fails the whole run, even though the service's own image function
  answers the empty string after a failure so that the hook can fall back
  (services/geminiService.ts:261-263)
  (`Generator.JoinAll`, `Generator.WebsiteGenerator.GenerateWebsite`).
- The image fallback returns the first result of a tier as it is
  (hooks/useWebsiteGenerator.ts:104-117). So it returns an empty URL when a
  search hit carries one. `Generator.ResolvedNonEmpty` states non-emptiness
  under the condition that the hits carry non-empty URLs.
- The off-topic keyword list holds six keywords: "office", "laptop",
  "meeting", "suit", "fashion" and "nature" (services/geminiService.ts:313).
- The hook imports a DALL-E image generator and a Pixabay search that
  `services/geminiService.ts` does not define. Their answers are inputs
  (`Generator.ImageTiers`). The hook does not call the service's own
  `generateImage`; that function is modelled on its own
  (`Gemini.GenerateImage`).

## Model

| member | source | states |
|---|---|---|
| Text.LowerChar | api/webhook.ts:136 | the lower-cased character is never an upper-case ASCII letter; it is a word character or white space exactly when the original is; non-letters are unchanged |
| Text.Lower | api/webhook.ts:136 | same length, each character lower-cased position by position, no upper-case letter left |
| Text.LowerIdentity | api/webhook.ts:136 | lower-casing a text with no upper-case letter gives it back |
| Text.OrElse | api/webhook.ts:86 | `a \|\| b`: the value when it is a non-empty string, the default otherwise |
| Text.IndexFrom | components/sections/Hero.tsx:16 | the result is an occurrence at or after the start, with none before it; no result means no occurrence from the start on |
| Text.IndexOf | components/sections/Hero.tsx:16 | the first occurrence of the pattern, and no result exactly when the pattern occurs nowhere |
| Text.ReplaceFirst | components/sections/Hero.tsx:17 | a string pattern replaces only its first occurrence; a text without the pattern is unchanged |
| Text.FirstOf | services/geminiService.ts:28 | the first position of the character, or none when it does not occur |
| Text.LastOf | services/geminiService.ts:28 | the last position of the character, or none when it does not occur |
| Text.Join | services/geminiService.ts:295 | joining a single part gives that part |
| Text.JoinHoldsParts | services/geminiService.ts:295 | every part occurs in the joined text |
| Text.SplitOn | App.tsx:10 | `split` gives at least one piece, and no piece holds the separator |
| Text.JoinSplit | App.tsx:10 | joining the pieces of a split with the separator gives the text back |
| Text.SplitJoin | App.tsx:10 | splitting parts that lack the separator, after joining them with it, gives the parts back |
| Text.TrimStart | components/sections/Hero.tsx:18 | drops exactly the leading white space: a suffix of the text, all white space before it, and it does not start with white space |
| Text.TrimEnd | components/sections/Hero.tsx:18 | drops exactly the trailing white space: a prefix of the text, all white space after it, and it does not end with white space |
| Text.LeadingSpaces | components/sections/Hero.tsx:18 | the count of leading white-space characters is at most the length |
| Text.Trim | components/sections/Hero.tsx:18 | `trim()` gives a contiguous part of the text, starting after the leading white space and followed only by white space, with no white space at either end |
| Text.TrimIdentity | components/sections/Hero.tsx:18 | trimming a text with no white space at either end gives it back |
| Slug.DropSpaces | api/webhook.ts:138 | drops exactly the leading run of white space: a suffix of the text, all white space before it, and it does not start with white space |
| Slug.SpacesToHyphen | api/webhook.ts:138 | never longer than the text; a text starting with white space gives one starting with `-`, any other keeps its first character |
| Slug.DropSpacesRun | api/webhook.ts:138 | dropping the leading white space of a run followed by a text that does not start with white space leaves that text |
| Slug.SpacesToHyphenWord | api/webhook.ts:138 | characters other than white space are kept as they are, ahead of the rest |
| Slug.SpacesToHyphenRun | api/webhook.ts:138 | a whole maximal run of white space becomes one `-` |
| Slug.StripNonWord | api/webhook.ts:139 | the result holds only word characters and `-`, is no longer than the text, and a text already of that kind is unchanged |
| Slug.DropHyphens | api/webhook.ts:141 | drops exactly the leading run of `-`: a suffix of the text, and it does not start with `-` |
| Slug.CollapseHyphens | api/webhook.ts:140 | collapsing runs of `-` keeps the first character, and the characters other than `-` are those of the text, in order |
| Slug.DropTrailingHyphens | api/webhook.ts:142 | drops exactly the trailing run of `-`: a prefix of the text, and it does not end with `-` |
| Slug.SpacesToHyphenNoSpace | api/webhook.ts:138 | after white-space runs become `-`, no white space is left |
| Slug.SpacesToHyphenNoUpper | api/webhook.ts:138 | replacing white space keeps a text free of upper-case letters |
| Slug.SpacesToHyphenNoWord | api/webhook.ts:138 | replacing white space in a text without word characters adds none |
| Slug.SpacesToHyphenKeeps | api/webhook.ts:138 | on a lower-cased text the replacement leaves no upper-case letter and no white space, and adds no word character |
| Slug.SpacesToHyphenIdentity | api/webhook.ts:138 | a text without white space is unchanged |
| Slug.StripNonWordKeeps | api/webhook.ts:139 | stripping a lower-cased text leaves only slug characters; a text without word characters is left with hyphens only |
| Slug.StripNonWordIdentity | api/webhook.ts:139 | a text of slug characters loses nothing |
| Slug.CollapseHyphensChars | api/webhook.ts:140 | collapsing keeps a text made of slug characters |
| Slug.CollapseHyphensNoDouble | api/webhook.ts:140 | after collapsing, no `--` is left |
| Slug.CollapseHyphensKeeps | api/webhook.ts:140 | collapsing keeps slug characters and leaves no `--`; a text of hyphens only collapses to at most one `-` |
| Slug.CollapseHyphensIdentity | api/webhook.ts:140 | a text with no `--` is unchanged |
| Slug.TrimKeepsNoUpper | api/webhook.ts:137 | trimming keeps a text free of upper-case letters, and free of word characters |
| Slug.DropEndHyphensKeeps | api/webhook.ts:141-142 | removing the hyphens at both ends of a collapsed slug-character text gives a well-formed slug |
| Slug.SlugSteps | api/webhook.ts:137-142 | the steps after lower-casing turn a text without upper-case letters into a well-formed slug |
| Slug.TrimWordChars | api/webhook.ts:137 | trimming loses no letter, digit or `_` |
| Slug.SpacesToHyphenWordChars | api/webhook.ts:138 | replacing white space keeps the word characters, in order |
| Slug.StripNonWordWordChars | api/webhook.ts:139 | stripping keeps the word characters, in order |
| Slug.NonHyphenWordChars | api/webhook.ts:140 | the word characters of a text are those of its characters other than `-` |
| Slug.CollapseHyphensWordChars | api/webhook.ts:140 | collapsing keeps the word characters, in order |
| Slug.EndHyphensWordChars | api/webhook.ts:141-142 | dropping `-` at either end keeps the word characters |
| Slug.WordCharSteps | api/webhook.ts:137-139 | trimming, replacing white space and stripping keep the word characters, in order |
| Slug.Slugify | api/webhook.ts:133-143 | `slugify` always yields a well-formed slug (only `[a-z0-9_-]`, no `--`, no `-` at either end), and its letters, digits and `_` are exactly those of the lower-cased name, in order |
| Slug.SlugifyFixesSlugs | api/webhook.ts:133-143 | a well-formed slug is its own slug |
| Slug.SlugifyIdempotent | api/webhook.ts:133-143 | `slugify` applied twice gives what it gives once |
| Slug.SlugifyWithoutWordChars | api/webhook.ts:133-143 | a name with no letter, digit or `_` gives the empty slug |
| Slug.SpacedWords | api/webhook.ts:138 | two slug words with a white-space run between them become the words joined by one `-` |
| Slug.JoinedWordsSlug | api/webhook.ts:133-143 | two slug words joined by one `-` form a well-formed slug |
| Slug.SlugStepsFix | api/webhook.ts:139-142 | stripping, collapsing and dropping end hyphens leave a well-formed slug unchanged |
| Slug.SlugifyJoinsWords | api/webhook.ts:133-143 | two lower-case words with white space between them slugify to the words joined by exactly one `-` |
| Slug.Substring | api/webhook.ts:145 | `substring` clamps both ends to the length and swaps them when the start is past the end |
| Slug.Disambiguator | api/webhook.ts:145 | `substring(2, 6)`: characters 2 to 5 of the base-36 text when it has six or more, everything after the second when it is shorter, nothing when it has at most two; at most four characters, all base-36 digits when the input has the shape of a base-36 fraction |
| Slug.NameShape | api/webhook.ts:145 | a slug, one `-` and up to four base-36 digits has its `-` right after the slug, and its slug part is well formed |
| Slug.UniqueProjectName | api/webhook.ts:145 | the name is the company's slug, then `-`, then exactly the disambiguator taken from the random number, at most five characters longer than the slug |
| Slug.HyphenJoin | api/webhook.ts:145 | joining `a`, `-` and `b` leaves each part readable at its position |
| Slug.UniqueProjectNameShape | api/webhook.ts:145 | the project name is the company's slug, one `-` and at most four base-36 digits; an empty slug leaves the name starting with `-` |
| Webhook.ReadBody | api/webhook.ts:58-64 | the loop collects the chunks, encoding text chunks as UTF-8; the result is the chunks' bytes concatenated in order |
| Webhook.CompanyNameOf | api/webhook.ts:86 | the metadata's company name when it is present and non-empty, else `site` |
| Webhook.DollarValue | api/webhook.ts:90 | the amount in cents divided by 100, or 0 when it is missing |
| Webhook.HashInput | api/webhook.ts:14-17 | the hashed text is no longer than the input, has no upper-case letter and no white space at either end |
| Webhook.HashInputIdempotent | api/webhook.ts:14-17 | normalising an already normalised text changes nothing |
| Webhook.StagedKey | api/webhook.ts:120 | the key is `pending/html/`, then the pending id, then `.html`, and the id can be read back from it |
| Webhook.ConversionPayload | api/webhook.ts:14-36 | one `Purchase` event from the website, time in whole seconds of the clock, the email hashed after trimming and lower-casing (present only for a non-empty email), IP and user agent passed through, value in USD |
| Webhook.FindMain | api/webhook.ts:180 | the first domain flagged `main` at or after the start, or none when none is flagged |
| Webhook.PrimaryDomain | api/webhook.ts:180 | the first domain flagged `main`, or the first domain when none is; the result is among the domains |
| Webhook.PublicDomain | api/webhook.ts:171-181 | an ok lookup with domains gives the name of a domain that is flagged `main` or is the first; otherwise `<name>.vercel.app` |
| Webhook.Publish | api/webhook.ts:148-186 | one deployment request with the project name and `index.html`; a thrown request fails with its message; a non-ok reply fails with `Vercel API Error:` and the message; only an ok reply is followed by the domain lookup, and the public domain is the primary domain or `<name>.vercel.app` |
| Webhook.Fulfil | api/webhook.ts:104-195 | every case is fixed: missing storage settings or unparsable credentials fail with their message before any call; otherwise the staged HTML is downloaded from `pending/html/<id>.html`; a failed download fails with its error and stops; a downloaded page is always deployed under the unique project name with that HTML; a thrown or non-ok deployment fails with its message and stops; an ok deployment is always followed by the domain lookup and ends deployed at the public domain; every failure is caught |
| Webhook.HandleCompleted | api/webhook.ts:83-195 | the conversion event is always the first call; without a pending id nothing else happens; with one, the calls after the conversion and the outcome are exactly those of fulfilment for the session's pending id and company name |
| Webhook.Handle | api/webhook.ts:66-202 | a verb other than POST gives 405 and no call; a rejected signature gives 400 and no call; a verified event is always acknowledged; other event types make no call; a completed event sends the conversion first, then fulfils the order exactly as `Fulfil` does when there is a pending id |
| Checkout.Protocol | api/create-checkout.ts:20 | `http` exactly when the host contains `localhost`, else `https` |
| Checkout.Origin | api/create-checkout.ts:19-21 | the origin starts with `http://` exactly for a host naming `localhost`, else with `https://`, and ends with the host |
| Checkout.ClientIp | api/create-checkout.ts:47 | the first forwarded address of a list, a non-empty forwarded header, else the socket address or the empty string |
| Checkout.SessionMetadata | api/create-checkout.ts:44-49 | the metadata holds the pending id and company name as sent, the client IP, and the user agent or the empty string |
| Checkout.SuccessUrl | api/create-checkout.ts:50 | the success URL starts with the origin, the success status, the pending id and the `companyName` field, and ends with the session-id placeholder |
| Checkout.CancelUrl | api/create-checkout.ts:51 | the cancel URL is the origin followed by `/?status=cancelled` |
| Checkout.Params | api/create-checkout.ts:25-52 | card payment, subscription mode, one monthly line item of 2000 cents in US dollars, quantity one, the pending id and company name in the metadata, and the success and cancel URLs on the origin |
| Checkout.CreateCheckout | api/create-checkout.ts:7-59 | a non-POST verb gives 405 and a missing pending id gives 400, both without a session; otherwise one $20 monthly subscription paid by card, with the pending id, company name, client IP and user agent (or the empty string) as metadata, and the success and cancel URLs; a failure gives 500 with its message |
| Checkout.MetadataReachesWebhook | api/create-checkout.ts:44-49 | the webhook reads back the same pending id, the company name (or `site`) and the client IP the checkout wrote |
| Deploy.SafeName | api/deploy.ts:36 | one character per character: a lower-case letter or digit is kept, anything else becomes `-` |
| Deploy.SafeNameIdempotent | api/deploy.ts:36 | sanitising a sanitised name changes nothing |
| Deploy.DeploymentName | api/deploy.ts:37 | `site-` followed by the safe name |
| Deploy.PayloadFor | api/deploy.ts:41-57 | the configured project name or `primehub-sites`, a single `index.html` file holding the page, no framework, the production target, and the company in the metadata |
| Deploy.HandleDeploy | api/deploy.ts:10-81 | method, body and credentials are checked in that order, with 405, 400 and 500 and no provider call; otherwise one request for `index.html` under the configured or default project; a provider failure gives 500, success gives 200 with the provider's data |
| Deploy.NoHtmlIsRefused | api/deploy.ts:18-20 | a body without HTML gives 400 before anything else |
| Upload.WordRun | api/upload.ts:49 | the length of the run of `\w` characters from a position, and the character after the run is not one |
| Upload.PrefixLength | api/upload.ts:49 | a match is a prefix of the text made of `data:image/`, a non-empty run of word characters and `;base64,`, and its length is that prefix's length |
| Upload.StripDataUrlPrefix | api/upload.ts:49 | the matched prefix is removed and nothing else; a text not starting with `data:image/` is unchanged |
| Upload.StripDataUrl | api/upload.ts:49 | every text made of `data:image/`, a non-empty word subtype and `;base64,` is matched with exactly that prefix, and it is stripped to its payload |
| Upload.StripGeneratedImage | api/upload.ts:49 | the PNG data URL the image generator produces is stripped to its payload |
| Upload.ContentTypeOf | api/upload.ts:53-55 | HTML exactly for a `.html` name, JSON exactly for a `.json` name, PNG exactly for every other name |
| Upload.ChooseContentType | api/upload.ts:53-55 | PNG by default; `.json` then `.html` override it, so `.html` wins |
| Upload.ExtensionsExclusive | api/upload.ts:53-55 | no name ends in both `.html` and `.json` |
| Upload.PublicUrl | api/upload.ts:77 | the URL is the storage host, then the bucket, then `/` and the file name |
| Upload.HandleUpload | api/upload.ts:11-84 | the 405, 400 and 500 error paths make no storage call; a POST with both fields, both settings and parsable credentials always saves; the decoded payload is saved with the chosen type and cache header; a failed save gives 500; otherwise the file is made public and its URL returned whatever that step does |
| Gemini.ApiKey | services/geminiService.ts:5-12 | `GEMINI_API_KEY` when set, else `API_KEY`, and none exactly when neither is set |
| Gemini.JsonSpan | services/geminiService.ts:28 | a match exists exactly when a `{` comes before a `}`; the match runs from the first `{` to the last `}` |
| Gemini.CleanText | services/geminiService.ts:28-29 | the text handed to the parser is the matched `{`…`}` span when there is one, else the trimmed answer |
| Gemini.ParseModelResponse | services/geminiService.ts:25-36 | fails with the malformed-output message exactly when the cleaned text does not parse |
| Gemini.SpanOfWrapped | services/geminiService.ts:27-30 | an object inside prose that holds no other braces is cut out exactly |
| Gemini.BareAnswerIsTrimmed | services/geminiService.ts:29 | an answer without `{` is only trimmed |
| Gemini.GenerateWebsiteContent | services/geminiService.ts:38-235 | a missing key fails first; a failed model call passes its error on; otherwise the answer is parsed |
| Gemini.FirstInline | services/geminiService.ts:253-259 | the first part with inline data, or none when no part has any |
| Gemini.FirstInlineImage | services/geminiService.ts:253-259 | the loop returns the PNG data URL of the first inline part, or nothing |
| Gemini.GenerateImage | services/geminiService.ts:238-265 | a missing key rejects; otherwise it always resolves, to the first inline image's data URL or to the empty string after any failure |
| Unsplash.LowerAll | services/geminiService.ts:295 | every tag title lower-cased, in order |
| Unsplash.MetaText | services/geminiService.ts:294 | lower-cased; a truthy alt description alone, else a space followed by the description or nothing |
| Unsplash.TagText | services/geminiService.ts:295 | empty without tags, and every lower-cased tag title occurs in it |
| Unsplash.PrimaryTerm | services/geminiService.ts:301 | the query's text before the first space, lower-cased |
| Unsplash.Score | services/geminiService.ts:292-317 | the sum of the keyword rules' weights lies between -25 and 18 |
| Unsplash.RulesScoreSum | services/geminiService.ts:297-314 | the five rules taken in the callback's order add 10 for the top of the page, 5 for the primary term, 3 for an action keyword, -20 for a graphics keyword and -5 for an off-topic keyword |
| Unsplash.ScoreCandidate | services/geminiService.ts:292-317 | the score the keyword rules give, between -25 and 18 |
| Unsplash.GraphicsScoreBelowZero | services/geminiService.ts:309-310 | a result that mentions a graphics keyword always scores -2 or lower, so it is never selected |
| Unsplash.TopOfPageNonGraphicsScorePositive | services/geminiService.ts:298-314 | one of the first eight results that is not graphics scores at least 5 |
| Unsplash.EmptyQueryMatchesEverything | services/geminiService.ts:301-302 | an empty query's primary term is the empty string, which every result mentions |
| Unsplash.ScoredList | services/geminiService.ts:292-317 | each result paired with its position and its score, in order |
| Unsplash.ScoreAll | services/geminiService.ts:292-317 | the loop over the page computes that list |
| Unsplash.Keep | services/geminiService.ts:321-322 | an entry is kept exactly when it is not excluded and scores above zero |
| Unsplash.KeepRanksIncrease | services/geminiService.ts:321-322 | filtering keeps the page order |
| Unsplash.Insert | services/geminiService.ts:323 | insertion adds exactly that entry (as a multiset) |
| Unsplash.SortByScore | services/geminiService.ts:323 | sorting is a permutation |
| Unsplash.InsertOrdered | services/geminiService.ts:323 | inserting a result that comes earlier on the page keeps the stable descending order |
| Unsplash.SortOrdered | services/geminiService.ts:323 | sorting a list in page order gives descending scores, with ties in page order (a stable sort) |
| Unsplash.KeptEntries | services/geminiService.ts:321-323 | each sorted entry is the page entry at its own position, and it was selected |
| Unsplash.RankedEntries | services/geminiService.ts:321-323 | each selected entry is a page result with its true score, positive and not excluded |
| Unsplash.RankedComplete | services/geminiService.ts:321-323 | every page result that is positive and not excluded is selected |
| Unsplash.Ranked | services/geminiService.ts:321-323 | the selection is in stable descending-score order |
| Unsplash.SliceTo | services/geminiService.ts:326 | `slice(0, count)` is a prefix of the list, of length `count` capped at the length when the count is not negative |
| Unsplash.HitsOf | services/geminiService.ts:326-329 | each hit is the entry's regular URL and id, in order |
| Unsplash.SearchResult | services/geminiService.ts:286-329 | a failure or an empty page gives no hits; otherwise the hits are the first `count` selected results (all of them when fewer), in ranked order, each as its URL and id; no hit has an excluded id |
| Unsplash.TopHits | services/geminiService.ts:325-329 | `slice(0, count)` then `map` gives `count` hits, or all when there are fewer, each the URL and id of the entry at the same position |
| Unsplash.SearchUnsplashImages | services/geminiService.ts:267-335 | the scoring loop, the filter, the sort and the slice give exactly the hits `SearchResult` states: the first `count` selected results in ranked order; a failure or an empty page gives no hits; no excluded id |
| Unsplash.SearchResultIsBest | services/geminiService.ts:321-329 | exactly `count` hits, or all selected results when fewer; the hits are the top of the selection in order, and nothing left out scores higher than a hit |
| Unsplash.SearchUnsplashImage | services/geminiService.ts:340-343 | the best selected result's URL, or the empty string when there is none |
| Generator.NextProgress | hooks/useWebsiteGenerator.ts:30-37 | a tick never lowers the bar and never takes it past 100; below the target, it overshoots by less than the 0.05 minimum step |
| Generator.NextProgressMoves | hooks/useWebsiteGenerator.ts:30-37 | a tick moves the bar exactly when it is below the target or below 99.5 |
| Generator.NextProgressStaysShort | hooks/useWebsiteGenerator.ts:30-37 | while the target is at most 80, the bar stays below 99.53, so the shown value is below 100 |
| Generator.ReplayMonotoneBounded | hooks/useWebsiteGenerator.ts:29-38 | any number of ticks keeps the bar between its start and 100 |
| Generator.ReplayStaysShort | hooks/useWebsiteGenerator.ts:29-38 | any number of ticks with a target of at most 80 keeps the shown value below 100 |
| Generator.RotatedCounts | hooks/useWebsiteGenerator.ts:42-45 | after the rotation timer fires, the message index moves on by the number of firings, modulo the seven messages |
| Generator.ResolveWithFallback | hooks/useWebsiteGenerator.ts:104-117 | a generated URL is used without a search; otherwise the stock search first, then the photo search, then the default image, each tier asked only when the ones before came back empty |
| Generator.Resolved | hooks/useWebsiteGenerator.ts:104-117 | the generated URL when non-empty, else the first stock hit, else the best-ranked photo result, else the default image |
| Generator.ResolvedNonEmpty | hooks/useWebsiteGenerator.ts:104-117 | the resolved URL is never empty when the search hits carry non-empty URLs |
| Generator.ImagesFor | hooks/useWebsiteGenerator.ts:119-131 | a slot with a generated image keeps it, an empty one takes the first Pixabay hit when there is one, and the four work slots are empty |
| Generator.ResolveImages | hooks/useWebsiteGenerator.ts:119-131 | the three slots are resolved with the industry's `service`, `repair` and `professional` queries, and the four work slots are empty |
| Generator.ReadableError | hooks/useWebsiteGenerator.ts:141 | the error's message when it has one, else the default message; never empty |
| Generator.JoinAll | hooks/useWebsiteGenerator.ts:96-101 | every value when all four succeed; otherwise one of the rejections |
| Generator.WebsiteGenerator.ShownProgress | hooks/useWebsiteGenerator.ts:159 | the floor of the bar is between 0 and 100, and below 100 while the target is at most 80 |
| Generator.WebsiteGenerator.constructor | hooks/useWebsiteGenerator.ts:16-23 | not generating, bar and target at 0, no results, no error |
| Generator.WebsiteGenerator.Tick | hooks/useWebsiteGenerator.ts:29-38 | while generating the bar takes one step towards the target, and the state stays valid |
| Generator.WebsiteGenerator.RotateMessage | hooks/useWebsiteGenerator.ts:42-45 | while generating, the next of the seven messages in cyclic order is shown |
| Generator.WebsiteGenerator.RunTimers | hooks/useWebsiteGenerator.ts:27-54 | a sequence of timer firings moves the bar by as many ticks and the message by as many rotations; no timer runs while not generating |
| Generator.WebsiteGenerator.Fire | hooks/useWebsiteGenerator.ts:29-45 | one firing of either timer, changing only what that timer changes |
| Generator.WebsiteGenerator.Start | hooks/useWebsiteGenerator.ts:58-63 | generating, bar at 0, target 10, results and error cleared, and the messages restart at the first |
| Generator.WebsiteGenerator.SetTarget | hooks/useWebsiteGenerator.ts:67 | the target is set and recorded |
| Generator.WebsiteGenerator.GenerateWebsite | hooks/useWebsiteGenerator.ts:56-145 | a rejection leaves the readable error, no results, target 30 and a shown progress below 100; success stores the content and the resolved images, with targets 10, 30, 80, 100, then the 800 ms hold and the loader hidden |
| Generator.WebsiteGenerator.Launch | hooks/useWebsiteGenerator.ts:58-67 | start, then target 30, with the timers running meanwhile |
| Generator.WebsiteGenerator.Complete | hooks/useWebsiteGenerator.ts:123-136 | targets 80 and 100, results stored, the 800 ms hold, then not generating |
| Generator.WebsiteGenerator.Reset | hooks/useWebsiteGenerator.ts:147-155 | results, bar, target, message and error cleared; not generating |
| Hero.DropTrailingSeparators | components/sections/Hero.tsx:17 | drops exactly the trailing run of colons and white space: a prefix, and it does not end in a separator |
| Hero.CleanCtaText | components/sections/Hero.tsx:16-18 | the label text has no white space at either end; without the phone it is only trimmed; with it, the first occurrence of the phone is cut out, trailing separators are dropped and the rest is trimmed, so it does not end in a colon |
| Hero.CtaLabel | components/sections/Hero.tsx:49 | the label is the cleaned text, then `: ` and the phone at the end |
| Hero.TrimmedPrefixKeepsEnd | components/sections/Hero.tsx:17-18 | trimming a text without trailing separators does not leave a trailing colon |
| Hero.PhoneSuffixRemoved | components/sections/Hero.tsx:16-18 | a phrase followed by separators and the phone is cleaned back to the phrase, so the label shows the phone once |
| Hero.DropSeparators | components/sections/Hero.tsx:17 | appended separators are dropped again exactly |
| Hero.EmptyPhone | components/sections/Hero.tsx:16-18 | every text includes the empty phone, so the label only loses its trailing separators and is trimmed |
| OurWork.DisplayedFrom | components/sections/OurWork.tsx:88-90 | the slots in order, each with its own position and image; all of them in edit mode, exactly the filled ones otherwise |
| OurWork.DisplayedImages | components/sections/OurWork.tsx:88-90 | the shown slots in slot order, each with its own position and image; every slot in edit mode, only filled ones otherwise, and none missing |
| OurWork.DisplayedInPublishedPage | components/sections/OurWork.tsx:90 | a slot is shown in the published page exactly when it is filled |
| OurWork.PublishedNonEmptyIff | components/sections/OurWork.tsx:88-90 | the published page shows some slot exactly when some slot is filled |
| OurWork.RendersSection | components/sections/OurWork.tsx:92 | the section renders exactly in edit mode or when some slot is filled |
| OurWork.GridCols | components/sections/OurWork.tsx:95-100 | every layout is one column on small screens |
| OurWork.GridColsLayouts | components/sections/OurWork.tsx:95-100 | one, two and three images get three different layouts; every other count gets the two-column one |
| OurWork.GridForFourSlots | components/sections/OurWork.tsx:95-100 | four shown slots lay out two by two |
| OurWork.AllFilledShowsAll | components/sections/OurWork.tsx:88-90 | with every slot filled, the published page shows what edit mode shows |
| OurWork.HandleImageChange | components/sections/OurWork.tsx:79-85 | in edit mode, a copy with only that slot replaced; otherwise nothing is emitted |
| OurWork.PlacedImageIsPublished | components/sections/OurWork.tsx:79-90 | an image placed while editing is shown at its slot in the published page |
| SuccessPage.NormaliseUrl | components/SuccessPage.tsx:45 | the URL always starts with `http`; one that already did is unchanged, and any other gets `https://` in front |
| SuccessPage.NormaliseUrlIdempotent | components/SuccessPage.tsx:45 | normalising twice is normalising once |
| SuccessPage.FinalUrl | components/SuccessPage.tsx:44 | the public domain URL when present and non-empty, else the deployment URL |
| SuccessPage.Settled | components/SuccessPage.tsx:25-52 | an attempt always ends in success or error; success exactly for an ok answer with a URL, and then the URL is the normalised final URL; a thrown request, an unreadable answer, a non-ok answer (its `error` or `Deployment failed`) and a missing URL each give their own message, and an error keeps the earlier URL |
| SuccessPage.DeployEvents | components/SuccessPage.tsx:25-52 | `deploying` is shown first, then the request is posted; the 8 s wait happens exactly after an ok answer; the settled status is shown last |
| SuccessPage.Page.constructor | components/SuccessPage.tsx:10-12 | status `loading`, no URL, no error |
| SuccessPage.Page.DeploySite | components/SuccessPage.tsx:25-52 | the page settles where the answer leads; it shows `deploying`, posts, waits 8 s only after an ok answer, then settles |
| SuccessPage.Page.Mount | components/SuccessPage.tsx:54-56 | deploys only when both values are non-empty, and otherwise changes nothing |
| SuccessPage.PageAlwaysFailsAgainstEndpoint | components/SuccessPage.tsx:28-37 | the page posts no HTML, so the deployment endpoint refuses the request, no deployment is made, and the page ends in error with the endpoint's message |
| App.QueryOf | App.tsx:10 | a leading `?` is dropped once; a search without one is read as it is |
| App.ParsePair | App.tsx:10 | a piece is split at its first `=`, and a piece without one has an empty value |
| App.NonEmptyPieces | App.tsx:10 | the non-empty pieces, and only those |
| App.Pairs | App.tsx:10 | one pair per non-empty piece, in order, each split at its first `=` |
| App.NonEmptyPiecesAppend | App.tsx:10 | the non-empty pieces of two lists of pieces are those of each, in order |
| App.PairAt | App.tsx:10 | the pair at a position is the parse of the non-empty piece at that position |
| App.PairsLookupFound | App.tsx:10-13 | a value is found exactly when some non-empty piece has the decoded name, and it is the decoded value of such a piece |
| App.PairsLookupFirst | App.tsx:10-13 | the value found is that of the first non-empty piece with the decoded name |
| App.Lookup | App.tsx:11-13 | `get` finds a value exactly when some decoded name matches, and the value is that of the first such pair |
| App.LookupFirst | App.tsx:11-13 | the first matching pair's value is the one returned |
| App.Param | App.tsx:10-13 | `get` gives a value exactly when some non-empty `&`-piece has the decoded name, and the value is the decoded value of such a piece |
| App.ParamFirst | App.tsx:10-13 | the value `get` gives is the decoded value of the first non-empty `&`-piece with the decoded name: no earlier piece has that name |
| App.SuccessRoute | App.tsx:29 | the success page is shown exactly when `status` is `success` and the pending id and company name are non-empty |
| App.SuccessUrlIsRootAndSearch | api/create-checkout.ts:50 | the checkout's success URL is the site root followed by the four-field query string |
| App.SuccessSearchRoundTrip | App.tsx:10-13 | reading that query string gives back `success`, the pending id and the encoded name, decoded |
| App.CheckoutReturnsToSuccessPage | App.tsx:29-31 | a paid checkout's redirect routes to the success page with the pending id and the company name it was created with |
| App.CancelUrlIsRootAndSearch | api/create-checkout.ts:51 | the cancel URL is the site root followed by `?status=cancelled` |
| App.CancelReturnsToForm | App.tsx:29 | the cancel redirect does not route to the success page |
| App.AppState.constructor | App.tsx:26 | a fresh generator that is idle, with no name remembered |
| App.AppState.GeneratorView | App.tsx:39-65 | the loader while generating, the preview once both results exist and the content is truthy, and in every other state the form, with a banner exactly for a non-empty error |
| App.AppState.ViewFor | App.tsx:29-65 | the success route comes first, whatever the generator's state |
| App.AppState.HandleGenerate | App.tsx:33-36 | the name is remembered and the run made; afterwards the preview of truthy content, the form without a banner for falsy content, or the form with the readable error |

## Left out

- Text.Lower: `toLowerCase` is modelled for the ASCII letters only. Unicode case mapping is not modelled, and there is no Unicode normalisation.
- SHA-256 hashing is an input function applied to the text being hashed (`digest`). So are `JSON.parse` (`parse` and the parse outcome of the credentials), `encodeURIComponent` and percent-decoding (`enc` and `dec`), base-64 decoding, and UTF-8 encoding. Their own correctness is not modelled.
- `Date.now()` is a clock parameter (`nowMs`). `Math.random().toString(36)` is a parameter (`random36`) whose shape is stated by `Slug.IsBase36Fraction`.
- The two intervals are modelled as the sequence of their firings (`Generator.TimerEvent`). When firings happen relative to the awaited requests is only a parameter of the run. React's batching of state updates and its effect scheduling are not modelled.
- Generator.JoinAll: which rejection `Promise.all` reports depends on timing. The model takes the first in argument order, and the contract states only that the error is one of the rejections.
- The DALL-E tier and the Pixabay tier of the image fallback are answers given to the model. Neither is defined in `services/geminiService.ts`.
- The conversion event to the analytics endpoint is not awaited by the webhook. The model records it as the first call. Its answer and its failure, which are logged and swallowed, are not modelled.
- The Facebook pixel effect of the success page (components/SuccessPage.tsx:14-22) and all rendering markup are left out. The views are modelled as a datatype.
- OurWork.HandleImageChange: requires an index inside the slots. A JavaScript array would grow for an index past its end, which the four-slot gallery never receives.
- The hook's `getFallback` builds search terms it never uses. Only its returned default URL is modelled. `Deploy.DeploymentName` is computed by the endpoint but unused in the payload, as in the source.
- The result of making an uploaded object public is ignored, as in the source. `Upload.HandleUpload` takes it as an input it does not use.
- App.SuccessRoute: URL fragments and the decoding of `+` as a space are left to the decoder parameter.
- SuccessPage.Settled: a JSON field of the endpoint's answer that is not a string is treated as absent. The message of the `TypeError` raised for a missing URL is V8's wording.
- App.CheckoutReturnsToSuccessPage: requires a pending id of word characters, and a decoder that undoes the encoder on the company name.
- Slug.UniqueProjectNameShape: states the shape of the project name for every company name. The concrete name for "Joe's HVAC" is not stated as its own lemma, because evaluating the slug function on a literal is too costly for the verifier.
- Checkout.CreateCheckout, Deploy.HandleDeploy, Upload.HandleUpload: the request body is always present in the model. In the source, a request without a body makes the destructuring inside `try` throw a `TypeError` (api/create-checkout.ts:13, api/deploy.ts:16, api/upload.ts:17), and the handler answers 500 with that error's message. The body datatypes cannot express an absent body, so that answer is not modelled.
- Deploy.SafeName: strings are sequences of Unicode characters, not of UTF-16 code units. A character outside the Basic Multilingual Plane, such as an emoji, becomes one `-` in the model, where JavaScript's replacement makes two.
- The progress bar and the purchase value are exact real numbers, not IEEE doubles. Rounding of the 5% steps, of the 0.03 creep and of the cents-to-dollars division is not modelled (`Generator.NextProgress`, `Webhook.DollarValue`).
- Duplicate deliveries of the same webhook event, and idempotent fulfillment, are not modelled.
- Logging (`console.*`) is not modelled.
- The other components of the repository are not part of this model: the landing form, the preview, the pop-ups, the image replacement widget and the remaining sections.
