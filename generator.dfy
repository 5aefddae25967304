/**
  The website generator hook: a simulated progress bar that eases toward a
  moving target on a 60 ms timer, a status message rotating on a 2500 ms
  timer, the generation run (content and three images awaited together,
  then the three-tier image fallback), and the reset. Timer firings are
  given as a sequence of events; the service calls' outcomes are inputs.
*/
module Generator {
  import opened Wrappers
  import opened Text
  import Unsplash
  import Gemini

  const LoadingMessages: seq<string> := [
    "Initializing project structure...",
    "Assembling page layout and sections...",
    "Generating content and service details...",
    "Applying responsive styling for all devices...",
    "Placing images and visual elements...",
    "Finalizing calls to action and interactions...",
    "Running final checks before completion..."
  ]

  const DefaultErrorMessage := "An unexpected synthesis error occurred."

  /** The generic construction/service photo used when every image tier comes back empty. */
  const DefaultImage := "https://images.unsplash.com/photo-1621905251189-08b45d6a269e?auto=format&fit=crop&q=80&w=1200"

  /** The tick period of the progress timer, the message period, and the hold at 100 before hiding the loader, in ms. */
  const ProgressPeriodMs := 60
  const MessagePeriodMs := 2500
  const CompletionHoldMs := 800

  // ---------------------------------------------------------------------------
  // The progress rule

  function Min(a: real, b: real): real { if a <= b then a else b }
  function Max(a: real, b: real): real { if a >= b then a else b }

  /**
    One progress tick: below the target, move 5% of the remaining distance,
    at least 0.05, capped at 100; at or above the target, creep by 0.03 while
    under 99.5; otherwise stay.
  */
  function NextProgress(prev: real, target: real): (r: real)
    ensures 0.0 <= prev <= 100.0 ==> prev <= r <= 100.0
    ensures prev < target ==> r < target + 0.05
  {
    if prev < target then Min(prev + Max(0.05, (target - prev) * 0.05), 100.0)
    else if prev < 99.5 then prev + 0.03
    else prev
  }

  /** With a target of at most 100, a tick moves progress exactly when it is below the target or below 99.5. */
  lemma NextProgressMoves(prev: real, target: real)
    requires 0.0 <= prev <= 100.0 && target <= 100.0
    ensures NextProgress(prev, target) > prev <==> prev < target || prev < 99.5
  {
  }

  /** While the target is at most 80 the bar stays below 99.53, so its floored reading stays below 100. */
  lemma NextProgressStaysShort(prev: real, target: real)
    requires 0.0 <= prev < 99.53 && target <= 80.0
    ensures 0.0 <= NextProgress(prev, target) < 99.53
    ensures NextProgress(prev, target).Floor < 100
  {
  }

  /** The progress after `n` ticks toward a fixed target. */
  function Replay(p: real, target: real, n: nat): real {
    if n == 0 then p else NextProgress(Replay(p, target, n - 1), target)
  }

  /** Repeated ticks toward a fixed target never lower the progress and keep it within 100. */
  lemma {:induction false} ReplayMonotoneBounded(p: real, target: real, n: nat)
    requires 0.0 <= p <= 100.0
    ensures p <= Replay(p, target, n) <= 100.0
  {
    if n > 0 {
      ReplayMonotoneBounded(p, target, n - 1);
    }
  }

  // ---------------------------------------------------------------------------
  // Timer events

  datatype TimerEvent = ProgressTick | MessageTick

  function ProgressTicks(events: seq<TimerEvent>): nat {
    if events == [] then 0
    else ProgressTicks(events[..|events| - 1]) + (if events[|events| - 1] == ProgressTick then 1 else 0)
  }

  function MessageTicks(events: seq<TimerEvent>): nat {
    if events == [] then 0
    else MessageTicks(events[..|events| - 1]) + (if events[|events| - 1] == MessageTick then 1 else 0)
  }

  /** The message index after the message ticks among `events`, one step at a time with wrapping. */
  function Rotated(idx: nat, events: seq<TimerEvent>): nat {
    if events == [] then idx
    else
      var before := Rotated(idx, events[..|events| - 1]);
      if events[|events| - 1] == MessageTick then (before + 1) % |LoadingMessages| else before
  }

  /** One more firing: a progress tick adds one tick, a message tick rotates once more. */
  lemma TimersStep(idx: nat, events: seq<TimerEvent>, i: nat)
    requires i < |events|
    ensures ProgressTicks(events[..i + 1]) == ProgressTicks(events[..i]) + (if events[i] == ProgressTick then 1 else 0)
    ensures Rotated(idx, events[..i + 1])
         == if events[i] == MessageTick then (Rotated(idx, events[..i]) + 1) % |LoadingMessages| else Rotated(idx, events[..i])
  {
    assert events[..i + 1][..i] == events[..i];
  }


  /** Stepping with wrapping is counting then wrapping once. */
  lemma {:induction false} RotatedCounts(idx: nat, events: seq<TimerEvent>)
    requires idx < |LoadingMessages|
    ensures Rotated(idx, events) == (idx + MessageTicks(events)) % |LoadingMessages|
  {
    if events != [] {
      var init := events[..|events| - 1];
      RotatedCounts(idx, init);
      assert |LoadingMessages| == 7;
      ModSevenStep(idx + MessageTicks(init));
    }
  }

  lemma ModSevenStep(a: nat)
    ensures (a % 7 + 1) % 7 == (a + 1) % 7
  {
  }

  // ---------------------------------------------------------------------------
  // The image fallback

  datatype TierCall = PixabaySearch(query: string) | UnsplashSearch(query: string)

  /** What the three tiers yield for one image: the generated URL, the stock search hits, the photo search. */
  function Resolved(primaryUrl: string, query: string, pixabayHits: seq<Unsplash.Hit>, unsplash: Unsplash.SearchReply)
    : (r: string)
    ensures primaryUrl != "" ==> r == primaryUrl
    ensures primaryUrl == "" && |pixabayHits| > 0 ==> r == pixabayHits[0].url
    ensures primaryUrl == "" && |pixabayHits| == 0 && unsplash.SearchFailed? ==> r == DefaultImage
    ensures primaryUrl == "" && |pixabayHits| == 0 && unsplash.SearchOk? ==>
      var ranked := Unsplash.Ranked(unsplash.results.GetOr([]), query, []);
      r == if |ranked| > 0 then ranked[0].img.regularUrl else DefaultImage
  {
    if primaryUrl != "" then primaryUrl
    else if |pixabayHits| > 0 then pixabayHits[0].url
    else
      var hits := Unsplash.SearchResult(query, 1, [], unsplash);
      if |hits| > 0 then hits[0].url else DefaultImage
  }

  /** `resolveWithFallback`: each tier is asked only when the ones before it came back empty. */
  method ResolveWithFallback(primaryUrl: string, query: string,
                             pixabayHits: seq<Unsplash.Hit>, unsplash: Unsplash.SearchReply)
    returns (url: string, calls: seq<TierCall>)
    ensures url == Resolved(primaryUrl, query, pixabayHits, unsplash)
    ensures primaryUrl != "" ==> url == primaryUrl && calls == []
    ensures primaryUrl == "" && |pixabayHits| > 0 ==> url == pixabayHits[0].url && calls == [PixabaySearch(query)]
    ensures primaryUrl == "" && |pixabayHits| == 0 ==> calls == [PixabaySearch(query), UnsplashSearch(query)]
  {
    if primaryUrl != "" {
      return primaryUrl, [];
    }
    calls := [PixabaySearch(query)];
    if |pixabayHits| > 0 {
      return pixabayHits[0].url, calls;
    }
    calls := calls + [UnsplashSearch(query)];
    var unsplashHits := Unsplash.SearchUnsplashImages(query, 1, [], unsplash);
    if |unsplashHits| > 0 {
      return unsplashHits[0].url, calls;
    }
    return DefaultImage, calls;
  }

  /** When no tier ever hands back an empty URL, the resolved image is never empty. */
  lemma ResolvedNonEmpty(primaryUrl: string, query: string, pixabayHits: seq<Unsplash.Hit>, unsplash: Unsplash.SearchReply)
    requires forall h :: h in pixabayHits ==> h.url != ""
    requires unsplash.SearchOk? ==> forall c :: c in unsplash.results.GetOr([]) ==> c.regularUrl != ""
    ensures Resolved(primaryUrl, query, pixabayHits, unsplash) != ""
  {
    if primaryUrl == "" && |pixabayHits| == 0 && unsplash.SearchOk? {
      var results := unsplash.results.GetOr([]);
      var ranked := Unsplash.Ranked(results, query, []);
      Unsplash.RankedEntries(results, query, []);
      var hits := Unsplash.SearchResult(query, 1, [], unsplash);
      if |hits| > 0 {
        assert ranked[0] in ranked;
        assert hits[0].url == ranked[0].img.regularUrl;
        assert ranked[0].img == results[ranked[0].rank];
      }
    }
  }

  // ---------------------------------------------------------------------------
  // The hook's state

  datatype FormData = FormData(companyName: string, industry: string, serviceArea: string, phone: string, brandColor: string)

  datatype GeneratedImages = GeneratedImages(
    heroBackground: string, industryValue: string, credentialsShowcase: string,
    ourWorkImages: seq<Option<string>>)

  /** The three tiers' answers for one image slot. */
  datatype ImageTiers = ImageTiers(generated: Result<string, string>, pixabayHits: seq<Unsplash.Hit>, unsplash: Unsplash.SearchReply)

  /** The three slots' URLs once each has gone through the fallback, and four empty work slots. */
  function ImagesFor(industry: string, heroUrl: string, valueUrl: string, credUrl: string,
                     hero: ImageTiers, value: ImageTiers, cred: ImageTiers): (r: GeneratedImages)
    ensures heroUrl != "" ==> r.heroBackground == heroUrl
    ensures valueUrl != "" ==> r.industryValue == valueUrl
    ensures credUrl != "" ==> r.credentialsShowcase == credUrl
    ensures heroUrl == "" && |hero.pixabayHits| > 0 ==> r.heroBackground == hero.pixabayHits[0].url
    ensures valueUrl == "" && |value.pixabayHits| > 0 ==> r.industryValue == value.pixabayHits[0].url
    ensures credUrl == "" && |cred.pixabayHits| > 0 ==> r.credentialsShowcase == cred.pixabayHits[0].url
    ensures |r.ourWorkImages| == 4 && forall i :: 0 <= i < 4 ==> r.ourWorkImages[i].None?
  {
    GeneratedImages(
      Resolved(heroUrl, industry + " service", hero.pixabayHits, hero.unsplash),
      Resolved(valueUrl, industry + " repair", value.pixabayHits, value.unsplash),
      Resolved(credUrl, industry + " professional", cred.pixabayHits, cred.unsplash),
      [None, None, None, None])
  }

  /** The three `resolveWithFallback` calls, with the queries built from the industry. */
  method ResolveImages(industry: string, heroUrl: string, valueUrl: string, credUrl: string,
                       hero: ImageTiers, value: ImageTiers, cred: ImageTiers)
    returns (images: GeneratedImages)
    ensures images == ImagesFor(industry, heroUrl, valueUrl, credUrl, hero, value, cred)
    ensures |images.ourWorkImages| == 4 && forall i :: 0 <= i < 4 ==> images.ourWorkImages[i].None?
  {
    var heroImg, _ := ResolveWithFallback(heroUrl, industry + " service", hero.pixabayHits, hero.unsplash);
    var valueImg, _ := ResolveWithFallback(valueUrl, industry + " repair", value.pixabayHits, value.unsplash);
    var credImg, _ := ResolveWithFallback(credUrl, industry + " professional", cred.pixabayHits, cred.unsplash);
    images := GeneratedImages(heroImg, valueImg, credImg, [None, None, None, None]);
  }

  /** What the hook records along a run: target moves, the hold at 100, and the loader being hidden. */
  datatype Mark = TargetSet(target: real) | Held(ms: nat) | Stopped

  /** `err.message || default`. */
  function ReadableError(message: string): (r: string)
    ensures r != ""
    ensures message != "" ==> r == message
  {
    if message != "" then message else DefaultErrorMessage
  }

  /** `Promise.all` over the content and the three generated images: the first rejection in argument order, or all four values. */
  function JoinAll(content: Result<Gemini.Json, string>, hero: Result<string, string>,
                   value: Result<string, string>, cred: Result<string, string>)
    : (r: Result<(Gemini.Json, string, string, string), string>)
    ensures r.Ok? <==> content.Ok? && hero.Ok? && value.Ok? && cred.Ok?
    ensures r.Ok? ==> r.value == (content.value, hero.value, value.value, cred.value)
    ensures r.Err? ==>
      r.error in (if content.Err? then [content.error] else []) + (if hero.Err? then [hero.error] else [])
                 + (if value.Err? then [value.error] else []) + (if cred.Err? then [cred.error] else [])
  {
    if content.Err? then Err(content.error)
    else if hero.Err? then Err(hero.error)
    else if value.Err? then Err(value.error)
    else if cred.Err? then Err(cred.error)
    else Ok((content.value, hero.value, value.value, cred.value))
  }

  class WebsiteGenerator {
    var isGenerating: bool
    var progress: real
    var target: real
    var msgIdx: nat
    var statusMessage: string
    var generatedData: Option<Gemini.Json>
    var generatedImages: Option<GeneratedImages>
    var error: Option<string>
    ghost var log: seq<Mark>

    /**
      The bar and the target stay within 0..100, while the target is at most 80
      the bar stays below 99.53, and the message index names a message.
    */
    ghost predicate Valid()
      reads this
    {
      && 0.0 <= progress <= 100.0
      && 0.0 <= target <= 100.0
      && (target <= 80.0 ==> progress < 99.53)
      && msgIdx < |LoadingMessages|
    }

    /** What the hook returns as `progress`: the floor of the bar. */
    function ShownProgress(): (p: int)
      reads this
      requires Valid()
      ensures 0 <= p <= 100
      ensures target <= 80.0 ==> p < 100
    {
      progress.Floor
    }

    constructor()
      ensures Valid()
      ensures !isGenerating && progress == 0.0 && target == 0.0 && statusMessage == ""
      ensures generatedData.None? && generatedImages.None? && error.None? && log == []
    {
      isGenerating := false;
      progress := 0.0;
      target := 0.0;
      msgIdx := 0;
      statusMessage := "";
      generatedData := None;
      generatedImages := None;
      error := None;
      log := [];
    }

    /** The 60 ms timer, which runs only while generating. */
    method Tick()
      requires Valid()
      modifies this`progress
      ensures Valid()
      ensures isGenerating ==> progress == NextProgress(old(progress), target)
      ensures !isGenerating ==> progress == old(progress)
    {
      if isGenerating {
        if target <= 80.0 { NextProgressStaysShort(progress, target); }
        progress := NextProgress(progress, target);
      }
    }

    /** The 2500 ms timer, which runs only while generating: the next message, wrapping after the seventh. */
    method RotateMessage()
      requires Valid()
      modifies this`msgIdx, this`statusMessage
      ensures Valid()
      ensures isGenerating ==> msgIdx == (old(msgIdx) + 1) % |LoadingMessages| && statusMessage == LoadingMessages[msgIdx]
      ensures !isGenerating ==> msgIdx == old(msgIdx) && statusMessage == old(statusMessage)
    {
      if isGenerating {
        msgIdx := (msgIdx + 1) % |LoadingMessages|;
        statusMessage := LoadingMessages[msgIdx];
      }
    }

    /** A run of timer firings. */
    method RunTimers(events: seq<TimerEvent>)
      requires Valid()
      modifies this`progress, this`msgIdx, this`statusMessage
      ensures Valid()
      ensures isGenerating ==> progress == Replay(old(progress), target, ProgressTicks(events))
      ensures isGenerating ==> msgIdx == (old(msgIdx) + MessageTicks(events)) % |LoadingMessages|
      ensures !isGenerating ==> progress == old(progress) && msgIdx == old(msgIdx) && statusMessage == old(statusMessage)
    {
      ghost var p0, m0, s0 := progress, msgIdx, statusMessage;
      var i := 0;
      while i < |events|
        invariant 0 <= i <= |events|
        invariant Valid()
        invariant isGenerating ==> progress == Replay(p0, target, ProgressTicks(events[..i]))
        invariant isGenerating ==> msgIdx == Rotated(m0, events[..i])
        invariant !isGenerating ==> progress == p0 && msgIdx == m0 && statusMessage == s0
      {
        TimersStep(m0, events, i);
        Fire(events[i]);
        i := i + 1;
      }
      assert events[..|events|] == events;
      if isGenerating {
        RotatedCounts(m0, events);
      }
    }

    /** One timer firing. */
    method Fire(e: TimerEvent)
      requires Valid()
      modifies this`progress, this`msgIdx, this`statusMessage
      ensures Valid()
      ensures isGenerating && e == ProgressTick ==> progress == NextProgress(old(progress), target) && msgIdx == old(msgIdx)
      ensures isGenerating && e == MessageTick ==> progress == old(progress) && msgIdx == (old(msgIdx) + 1) % |LoadingMessages|
      ensures !isGenerating ==> progress == old(progress) && msgIdx == old(msgIdx) && statusMessage == old(statusMessage)
    {
      if e == ProgressTick {
        Tick();
      } else {
        RotateMessage();
      }
    }

    /** The start of `generateWebsite`: loader on, bar at 0, target 10, results and error cleared. */
    method Start()
      requires Valid()
      modifies this
      ensures Valid()
      ensures isGenerating && progress == 0.0 && target == 10.0
      ensures generatedData.None? && generatedImages.None? && error.None?
      ensures !old(isGenerating) ==> msgIdx == 0 && statusMessage == LoadingMessages[0]
      ensures old(isGenerating) ==> msgIdx == old(msgIdx) && statusMessage == old(statusMessage)
      ensures log == old(log) + [TargetSet(10.0)]
    {
      if !isGenerating {
        // The effect on `isGenerating` restarts the message rotation.
        msgIdx := 0;
        statusMessage := LoadingMessages[0];
      }
      isGenerating := true;
      progress := 0.0;
      target := 10.0;
      log := log + [TargetSet(10.0)];
      error := None;
      generatedData := None;
      generatedImages := None;
    }

    /** Moves the target; the bar keeps its bound only when it cannot already be past 99.53. */
    method SetTarget(t: real)
      requires Valid()
      requires 0.0 <= t <= 100.0
      requires t <= 80.0 ==> progress < 99.53
      modifies this`target, this`log
      ensures Valid()
      ensures target == t && log == old(log) + [TargetSet(t)]
    {
      target := t;
      log := log + [TargetSet(t)];
    }

    /**
      `generateWebsite`. `during` are the timer firings while the service
      calls are pending, `hold` those during the final 800 ms. On success the
      target goes 10, 30, 80, 100, the results are stored with the resolved
      image URLs and four empty work slots, and the loader is hidden after the
      hold; on a rejection the error is stored and the loader hidden at once.
    */
    method GenerateWebsite(form: FormData, content: Result<Gemini.Json, string>,
                           hero: ImageTiers, value: ImageTiers, cred: ImageTiers,
                           during: seq<TimerEvent>, hold: seq<TimerEvent>)
      requires Valid()
      modifies this
      ensures Valid()
      ensures !isGenerating
      ensures var joined := JoinAll(content, hero.generated, value.generated, cred.generated);
        && (joined.Err? ==>
              && error == Some(ReadableError(joined.error))
              && generatedData.None? && generatedImages.None?
              && target == 30.0 && ShownProgress() < 100
              && log == old(log) + [TargetSet(10.0), TargetSet(30.0), Stopped])
        && (joined.Ok? ==>
              && error.None? && target == 100.0
              && generatedData == Some(content.value)
              && generatedImages == Some(ImagesFor(form.industry, hero.generated.value, value.generated.value,
                                                   cred.generated.value, hero, value, cred))
              && log == old(log) + [TargetSet(10.0), TargetSet(30.0), TargetSet(80.0), TargetSet(100.0),
                                    Held(CompletionHoldMs), Stopped])
    {
      Launch(during);
      var joined := JoinAll(content, hero.generated, value.generated, cred.generated);
      if joined.Err? {
        error := Some(ReadableError(joined.error));
        isGenerating := false;
        log := log + [Stopped];
        return;
      }
      var (doc, heroUrl, valueUrl, credUrl) := joined.value;
      var images := ResolveImages(form.industry, heroUrl, valueUrl, credUrl, hero, value, cred);
      Complete(doc, images, hold);
    }

    /** The part of a run before the service calls settle: start, target 30, the timers meanwhile. */
    method Launch(during: seq<TimerEvent>)
      requires Valid()
      modifies this
      ensures Valid() && isGenerating && target == 30.0
      ensures generatedData.None? && generatedImages.None? && error.None?
      ensures log == old(log) + [TargetSet(10.0), TargetSet(30.0)]
    {
      Start();
      SetTarget(30.0);
      RunTimers(during);
    }

    /** The end of a successful run: target 80, results stored, target 100, the hold, loader hidden. */
    method Complete(doc: Gemini.Json, images: GeneratedImages, hold: seq<TimerEvent>)
      requires Valid() && isGenerating && target == 30.0
      modifies this
      ensures Valid()
      ensures !isGenerating && error == old(error) && target == 100.0
      ensures generatedData == Some(doc) && generatedImages == Some(images)
      ensures log == old(log) + [TargetSet(80.0), TargetSet(100.0), Held(CompletionHoldMs), Stopped]
    {
      SetTarget(80.0);
      generatedData := Some(doc);
      generatedImages := Some(images);
      SetTarget(100.0);
      RunTimers(hold);
      log := log + [Held(CompletionHoldMs)];
      isGenerating := false;
      log := log + [Stopped];
    }

    /** `resetGenerator`: everything back to the idle state. */
    method Reset()
      requires Valid()
      modifies this
      ensures Valid()
      ensures !isGenerating && progress == 0.0 && target == 0.0 && statusMessage == ""
      ensures generatedData.None? && generatedImages.None? && error.None?
      ensures msgIdx == old(msgIdx) && log == old(log) + [TargetSet(0.0)]
    {
      generatedData := None;
      generatedImages := None;
      progress := 0.0;
      target := 0.0;
      log := log + [TargetSet(0.0)];
      statusMessage := "";
      error := None;
      isGenerating := false;
    }
  }

  /**
    While the target is at most 80 the bar, however many ticks pass, reads
    below 100: the loader never shows completion before the content is in.
  */
  lemma {:induction false} ReplayStaysShort(p: real, target: real, n: nat)
    requires 0.0 <= p < 99.53 && target <= 80.0
    ensures 0.0 <= Replay(p, target, n) < 99.53
    ensures Replay(p, target, n).Floor < 100
  {
    if n > 0 {
      ReplayStaysShort(p, target, n - 1);
      NextProgressStaysShort(Replay(p, target, n - 1), target);
    }
  }
}
