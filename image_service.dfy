/**
 * The image-request pipeline of src/services/imageService.js: prompt
 * validation, the per-provider prompt suffixes, the seed, the two
 * Pollinations URL templates, the three-way verification race guarded by
 * hasResolved, and the ordered fallback chain.
 *
 * Everything the browser and the network decide is a parameter: the clock
 * reading (nowMs), whether the Google key is configured, the order in which
 * the verification image fires its events, and what the DeepAI and
 * Stable Diffusion endpoints answer to the request they are sent.
 */
module ImageService {
  import opened Wrappers
  import opened Utf16
  import opened Uri
  import opened Url

  // ---------------------------------------------------------------------
  // Fixed text
  //
  // Each long literal is written as a concatenation of pieces of at most
  // about forty characters.  The joined text is the source's literal; the
  // split only keeps the verifier from having to unfold one long literal.

  const PollinationsSuffix: string :=
    ", photorealistic, ultra detailed, high" + " resolution, professional photography, "
    + "cinematic lighting, 8k, hyperrealistic"
  const GoogleSuffix: string :=
    ", ultra photorealistic, professional" + " photography, award-winning, highly"
    + " detailed, 8k resolution, natural" + " lighting, crisp focus"
  const DeepAISuffix: string := ", photorealistic, high quality, detailed"
  const StableDiffusionSuffix: string := ", highly detailed, photorealistic, 8k," + " professional photography"
  const StableDiffusionNegativePrompt: string := "blurry, low quality, distorted, cartoon"

  const PollinationsBase: string := "https://image.pollinations.ai/prompt/"

  const InvalidPromptMessage: string := "Please provide a valid prompt"
  const TerminalMessage: string := "Unable to generate AI image. " + "Please try again " + "with a different prompt."
  const DeepAIFailedMessage: string := "DeepAI API failed"
  const StableDiffusionFailedMessage: string := "Stable Diffusion API failed"
  /** The message the engine gives the URIError of encodeURIComponent (V8's wording). */
  const UriErrorMessage: string := "URI malformed"

  // ---------------------------------------------------------------------
  // Outcomes

  /** How a provider call's promise ends: resolved with an image URL, rejected with an error message, or not settled yet. */
  datatype Settlement = Resolved(url: string) | Rejected(message: string) | Pending

  datatype Provider = Pollinations | GoogleAI | DeepAI | StableDiffusion

  // ---------------------------------------------------------------------
  // Prompt suffixes

  /** The caller's prompt with one of the fixed suffixes appended. */
  function WithSuffix(prompt: Text, suffix: string): (r: Text)
    requires suffix != ""
    ensures r == prompt + Of(suffix)
    ensures |r| > |prompt| && r[..|prompt|] == prompt
    ensures WellFormed(r) <==> WellFormed(prompt)
  {
    OfWellFormed(suffix);
    WellFormedAppend(prompt, Of(suffix));
    AppendUnitsIsConcat(prompt, suffix);
    AppendUnits(prompt, suffix)
  }

  /** The prompt Pollinations draws: the caller's prompt and the Pollinations suffix. */
  function PollinationsPrompt(prompt: Text): (r: Text)
    ensures r == prompt + Of(PollinationsSuffix)
    ensures |r| > |prompt| && r[..|prompt|] == prompt
    ensures WellFormed(r) <==> WellFormed(prompt)
  {
    WithSuffix(prompt, PollinationsSuffix)
  }

  /** The prompt the Google path hands to Pollinations: the caller's prompt and the Google suffix. */
  function GooglePrompt(prompt: Text): (r: Text)
    ensures r == prompt + Of(GoogleSuffix)
    ensures |r| > |prompt| && r[..|prompt|] == prompt
    ensures WellFormed(r) <==> WellFormed(prompt)
  {
    WithSuffix(prompt, GoogleSuffix)
  }

  // ---------------------------------------------------------------------
  // The seed

  /** prompt.split('').reduce((a, b) => a + b.charCodeAt(0), 0): the code units added up from the left. */
  function CodeUnitSum(s: Text): (sum: int)
  {
    if |s| == 0 then 0 else CodeUnitSum(s[..|s| - 1]) + s[|s| - 1] as int
  }

  function Abs(x: int): (r: int)
  {
    if x < 0 then -x else x
  }

  /**
   * Math.abs(sum) + Math.floor(nowMs / 1000).  Dafny's division by a
   * positive divisor rounds down, as Math.floor does, also before 1970.
   */
  function Seed(prompt: Text, nowMs: int): (seed: int)
  {
    Abs(CodeUnitSum(prompt)) + nowMs / 1000
  }

  /** The sum never goes negative (so Math.abs leaves it alone) and grows with every code unit. */
  lemma {:induction false} CodeUnitSumNonNegative(s: Text)
    ensures CodeUnitSum(s) >= 0
    ensures Abs(CodeUnitSum(s)) == CodeUnitSum(s)
    ensures forall k :: 0 <= k < |s| ==> CodeUnitSum(s) >= s[k] as int
  {
    if |s| > 0 {
      CodeUnitSumNonNegative(s[..|s| - 1]);
      assert forall k :: 0 <= k < |s| - 1 ==> s[k] == s[..|s| - 1][k];
    }
  }

  lemma {:induction false} CodeUnitSumAppend(a: Text, b: Text)
    ensures CodeUnitSum(a + b) == CodeUnitSum(a) + CodeUnitSum(b)
    decreases |b|
  {
    if |b| > 0 {
      assert (a + b)[..|a + b| - 1] == a + b[..|b| - 1];
      CodeUnitSumAppend(a, b[..|b| - 1]);
    } else {
      assert a + b == a;
    }
  }

  /** The seed is the code-unit sum plus the whole seconds of the clock reading. */
  lemma SeedIsSumPlusSeconds(prompt: Text, nowMs: int)
    ensures Seed(prompt, nowMs) - CodeUnitSum(prompt) == nowMs / 1000
    ensures (Seed(prompt, nowMs) - CodeUnitSum(prompt)) * 1000 <= nowMs < (Seed(prompt, nowMs) - CodeUnitSum(prompt) + 1) * 1000
  {
    CodeUnitSumNonNegative(prompt);
  }

  /** The same prompt within the same second gives the same seed, and a different second a different seed. */
  lemma SeedSameSecond(prompt: Text, t1: int, t2: int)
    ensures Seed(prompt, t1) == Seed(prompt, t2) <==> t1 / 1000 == t2 / 1000
  {
  }

  /** The seed ignores the order of the prompt's parts: "b a" and "a b" in the same second collide. */
  lemma SeedIgnoresOrder(a: Text, b: Text, nowMs: int)
    ensures Seed(a + b, nowMs) == Seed(b + a, nowMs)
  {
    CodeUnitSumAppend(a, b);
    CodeUnitSumAppend(b, a);
  }

  // ---------------------------------------------------------------------
  // The Pollinations URLs

  /** The query of the full-size request: 1024 by 1024, the seed, no logo, public, enhanced, model flux. */
  function MainParams(seed: int): seq<Param>
  {
    [Param("width", "1024"), Param("height", "1024"), Param("seed", NumberToString(seed)),
     Param("nologo", "true"), Param("private", "false"), Param("enhance", "true"), Param("model", "flux")]
  }

  /** The query of the fallback request after a load error: 512 by 512, the same seed, enhanced. */
  function SimpleParams(seed: int): seq<Param>
  {
    [Param("width", "512"), Param("height", "512"), Param("seed", NumberToString(seed)), Param("enhance", "true")]
  }

  /**
   * The full-size URL:
   *   https://image.pollinations.ai/prompt/<encoded>?width=1024&height=1024&seed=<seed>
   *   &nologo=true&private=false&enhance=true&model=flux
   * written as the path, '?' and the seven parameters joined by '&'.
   */
  function MainUrl(encodedPrompt: string, seed: int): string
  {
    PollinationsBase + encodedPrompt + "?" + QueryString(MainParams(seed))
  }

  /**
   * The fallback URL:
   *   https://image.pollinations.ai/prompt/<encoded>?width=512&height=512&seed=<seed>&enhance=true
   */
  function SimpleUrl(encodedPrompt: string, seed: int): string
  {
    PollinationsBase + encodedPrompt + "?" + QueryString(SimpleParams(seed))
  }

  /** What an image URL asks Pollinations for: the prompt it carries and its query parameters. */
  datatype ImageRequest = ImageRequest(prompt: Text, params: seq<Param>)

  /** Reads a URL under the Pollinations prompt path back into the prompt it encodes and its parameters. */
  function ReadImageUrl(url: string): Option<ImageRequest>
  {
    var address := ParseAddress(url);
    if |address.path| >= |PollinationsBase| && address.path[..|PollinationsBase|] == PollinationsBase then
      match PercentDecode(address.path[|PollinationsBase|..])
      case Some(prompt) => Some(ImageRequest(prompt, address.query))
      case None => None
    else None
  }

  lemma SeedTextPlain(seed: int)
    ensures '&' !in NumberToString(seed)
  {
    NumberToStringAlphabet(seed);
  }

  lemma EncodedPath(q: Text)
    requires WellFormed(q)
    ensures EncodeURIComponent(q).Ok?
    ensures '?' !in PollinationsBase + EncodeURIComponent(q).value
    ensures PercentDecode((PollinationsBase + EncodeURIComponent(q).value)[|PollinationsBase|..]) == Some(q)
  {
    RoundTrip(q);
    var e := EncodeURIComponent(q).value;
    assert '?' !in e by {
      EncodedAlphabet(q);
    }
    assert '?' !in PollinationsBase + e by {
      BaseHasNoQuery();
      assert forall c :: c in PollinationsBase + e ==> c in PollinationsBase || c in e;
    }
    assert (PollinationsBase + e)[|PollinationsBase|..] == e;
  }

  lemma BaseHasNoQuery()
    ensures '?' !in PollinationsBase
  {
  }

  lemma SeedParamPlain(seed: int)
    ensures PlainParam(Param("seed", NumberToString(seed)))
  {
    SeedTextPlain(seed);
  }

  lemma SizeParamsPlain()
    ensures PlainParam(Param("width", "1024")) && PlainParam(Param("height", "1024"))
    ensures PlainParam(Param("width", "512")) && PlainParam(Param("height", "512"))
  {
  }

  lemma FlagParamsPlain()
    ensures PlainParam(Param("nologo", "true")) && PlainParam(Param("private", "false"))
    ensures PlainParam(Param("enhance", "true")) && PlainParam(Param("model", "flux"))
  {
  }

  lemma MainParamsPlain(seed: int)
    ensures Plain(MainParams(seed))
  {
    SizeParamsPlain();
    FlagParamsPlain();
    SeedParamPlain(seed);
  }

  lemma SimpleParamsPlain(seed: int)
    ensures Plain(SimpleParams(seed))
  {
    SizeParamsPlain();
    FlagParamsPlain();
    SeedParamPlain(seed);
  }

  /** The main URL built from the encoding of q reads back as q and the seven fixed parameters with the seed. */
  lemma MainUrlReadsBack(q: Text, seed: int)
    requires WellFormed(q)
    ensures EncodeURIComponent(q).Ok?
    ensures ReadImageUrl(MainUrl(EncodeURIComponent(q).value, seed)) == Some(ImageRequest(q, MainParams(seed)))
  {
    EncodedPath(q);
    var path := PollinationsBase + EncodeURIComponent(q).value;
    MainParamsPlain(seed);
    AddressRoundTrip(path, MainParams(seed));
  }

  /** The simple URL built from the encoding of q reads back as q and its four parameters with the same seed. */
  lemma SimpleUrlReadsBack(q: Text, seed: int)
    requires WellFormed(q)
    ensures EncodeURIComponent(q).Ok?
    ensures ReadImageUrl(SimpleUrl(EncodeURIComponent(q).value, seed)) == Some(ImageRequest(q, SimpleParams(seed)))
  {
    EncodedPath(q);
    var path := PollinationsBase + EncodeURIComponent(q).value;
    SimpleParamsPlain(seed);
    AddressRoundTrip(path, SimpleParams(seed));
  }

  /** The URL a Pollinations call with a well-formed prompt puts in front of the verification image reads back. */
  lemma MainUrlOfPrompt(prompt: Text, seed: int)
    requires WellFormed(prompt)
    ensures EncodeURIComponent(PollinationsPrompt(prompt)).Ok?
    ensures ReadImageUrl(MainUrl(EncodeURIComponent(PollinationsPrompt(prompt)).value, seed))
            == Some(ImageRequest(PollinationsPrompt(prompt), MainParams(seed)))
  {
    MainUrlReadsBack(PollinationsPrompt(prompt), seed);
  }

  // ---------------------------------------------------------------------
  // The verification race

  /** What the verification image can do: finish loading, fail to load, or be overtaken by the 20-second timer. */
  datatype RaceEvent = Load | LoadError | Timeout

  /**
   * The value the verification promise settles on once the given events
   * have fired, in order.  The first event decides.  A load error builds
   * the simple URL from the prompt the call was given (without the
   * Pollinations suffix); if that prompt cannot be encoded, the handler
   * throws after setting hasResolved, and the promise never settles.
   */
  function RaceOutcome(imageUrl: string, prompt: Text, seed: int, events: seq<RaceEvent>): Option<string>
  {
    if events == [] then None
    else match events[0]
      case Load => Some(imageUrl)
      case Timeout => Some(imageUrl)
      case LoadError =>
        match EncodeURIComponent(prompt)
        case Ok(e) => Some(SimpleUrl(e, seed))
        case Err(_) => None
  }

  /** Once one event has fired, later events change nothing. */
  lemma RaceSettlesOnce(imageUrl: string, prompt: Text, seed: int, events: seq<RaceEvent>, later: seq<RaceEvent>)
    requires events != []
    ensures RaceOutcome(imageUrl, prompt, seed, events + later) == RaceOutcome(imageUrl, prompt, seed, events)
  {
    assert (events + later)[0] == events[0];
  }

  /** With a well-formed prompt the race settles exactly when some event has fired, and never on a URL but the two it builds. */
  lemma RaceSettlesIffEvent(imageUrl: string, prompt: Text, seed: int, events: seq<RaceEvent>)
    requires WellFormed(prompt)
    ensures RaceOutcome(imageUrl, prompt, seed, events).Some? <==> events != []
    ensures RaceOutcome(imageUrl, prompt, seed, events).Some? ==>
              RaceOutcome(imageUrl, prompt, seed, events).value
              == (if events[0] == LoadError then SimpleUrl(EncodeURIComponent(prompt).value, seed) else imageUrl)
  {
    EncodeOkIffWellFormed(prompt);
  }

  /**
   * The image element and the timer of one verification: the hasResolved
   * flag the three handlers share, and the values passed to resolve so far.
   */
  class VerificationImage {
    const imageUrl: string
    const prompt: Text
    const seed: int
    var hasResolved: bool
    var resolutions: seq<string>

    /** resolve is called at most once, and only by the handler that set hasResolved. */
    ghost predicate Valid()
      reads this
    {
      |resolutions| <= 1 && (!hasResolved ==> resolutions == [])
    }

    constructor (imageUrl: string, prompt: Text, seed: int)
      ensures this.imageUrl == imageUrl && this.prompt == prompt && this.seed == seed
      ensures !hasResolved && resolutions == []
      ensures Valid()
    {
      this.imageUrl := imageUrl;
      this.prompt := prompt;
      this.seed := seed;
      hasResolved := false;
      resolutions := [];
    }

    /** The value the promise has settled on, if any. */
    function Outcome(): Option<string>
      reads this
    {
      if resolutions == [] then None else Some(resolutions[0])
    }

    /** img.onload: the first handler to run resolves with the full URL. */
    method OnLoad()
      requires Valid()
      modifies this
      ensures Valid() && hasResolved
      ensures resolutions == if old(hasResolved) then old(resolutions) else [imageUrl]
    {
      if !hasResolved {
        hasResolved := true;
        resolutions := resolutions + [imageUrl];
      }
    }

    /** img.onerror: the first handler to run resolves with the simple URL of the raw prompt. */
    method OnError()
      requires Valid()
      modifies this
      ensures Valid() && hasResolved
      ensures resolutions == if old(hasResolved) then old(resolutions)
                             else match EncodeURIComponent(prompt)
                                  case Ok(e) => [SimpleUrl(e, seed)]
                                  case Err(_) => []
    {
      if !hasResolved {
        hasResolved := true;
        var encoded := EncodeURIComponent(prompt);
        if encoded.Ok? {
          resolutions := resolutions + [SimpleUrl(encoded.value, seed)];
        }
      }
    }

    /** The 20-second timer: the first handler to run resolves with the full URL anyway. */
    method OnTimeout()
      requires Valid()
      modifies this
      ensures Valid() && hasResolved
      ensures resolutions == if old(hasResolved) then old(resolutions) else [imageUrl]
    {
      if !hasResolved {
        hasResolved := true;
        resolutions := resolutions + [imageUrl];
      }
    }
  }

  /** Runs the verification race with the events in the order they fire and reports what the promise settled on. */
  method Verify(imageUrl: string, prompt: Text, seed: int, events: seq<RaceEvent>) returns (settled: Option<string>)
    ensures settled == RaceOutcome(imageUrl, prompt, seed, events)
  {
    var image := new VerificationImage(imageUrl, prompt, seed);
    var i := 0;
    while i < |events|
      invariant 0 <= i <= |events|
      decreases |events| - i
      invariant image.Valid()
      invariant image.imageUrl == imageUrl && image.prompt == prompt && image.seed == seed
      invariant image.hasResolved <==> i > 0
      invariant image.Outcome() == RaceOutcome(imageUrl, prompt, seed, events[..i])
    {
      assert i > 0 ==> events[..i + 1][0] == events[..i][0];
      match events[i] {
        case Load => image.OnLoad();
        case LoadError => image.OnError();
        case Timeout => image.OnTimeout();
      }
      i := i + 1;
    }
    assert events[..i] == events;
    settled := image.Outcome();
  }

  // ---------------------------------------------------------------------
  // The providers

  /** One call's view of the world: the clock reading Date.now() returns and the events of its verification image. */
  datatype Attempt = Attempt(nowMs: int, events: seq<RaceEvent>)

  /**
   * generateImageWithPollinations: encoding the suffixed prompt throws on
   * a lone surrogate, which rejects the call; otherwise the call settles
   * as the race does, and stays pending while no event has fired.
   */
  function GenerateWithPollinations(prompt: Text, attempt: Attempt): (s: Settlement)
    ensures s.Rejected? <==> !WellFormed(prompt)
    ensures s.Rejected? ==> s.message == UriErrorMessage
    ensures s.Pending? <==> WellFormed(prompt) && attempt.events == []
  {
    EncodeOkIffWellFormed(PollinationsPrompt(prompt));
    EncodeOkIffWellFormed(prompt);
    match EncodeURIComponent(PollinationsPrompt(prompt))
    case Err(_) => Rejected(UriErrorMessage)
    case Ok(encoded) =>
      var seed := Seed(prompt, attempt.nowMs);
      match RaceOutcome(MainUrl(encoded, seed), prompt, seed, attempt.events)
      case Some(url) => Resolved(url)
      case None => Pending
  }

  /**
   * A resolved Pollinations URL asks for the image the call was meant to
   * ask for: the suffixed prompt at full size, or, after a load error, the
   * raw prompt at the simple size, both with the call's seed.
   */
  lemma PollinationsUrlReadsBack(prompt: Text, attempt: Attempt)
    requires GenerateWithPollinations(prompt, attempt).Resolved?
    ensures attempt.events != []
    ensures var seed := Seed(prompt, attempt.nowMs);
            ReadImageUrl(GenerateWithPollinations(prompt, attempt).url)
            == if attempt.events[0] == LoadError then Some(ImageRequest(prompt, SimpleParams(seed)))
               else Some(ImageRequest(PollinationsPrompt(prompt), MainParams(seed)))
  {
    var seed := Seed(prompt, attempt.nowMs);
    MainUrlOfPrompt(prompt, seed);
    SimpleUrlReadsBack(prompt, seed);
    RaceSettlesIffEvent(MainUrl(EncodeURIComponent(PollinationsPrompt(prompt)).value, seed), prompt, seed, attempt.events);
  }

  /**
   * generateImageWithGoogleAI: Pollinations with the Google suffix, and on
   * a rejection a second Pollinations call with the unsuffixed prompt.
   */
  function GenerateWithGoogleAI(prompt: Text, first: Attempt, retry: Attempt): Settlement
  {
    var enhanced := GenerateWithPollinations(GooglePrompt(prompt), first);
    if enhanced.Rejected? then GenerateWithPollinations(prompt, retry) else enhanced
  }

  /**
   * The retry never rescues the Google path: the Google suffix keeps the
   * prompt exactly as well-formed as it was, so the retry is made only when
   * it fails too, and the Google path settles as its first call does.
   */
  lemma GoogleRetryFutile(prompt: Text, first: Attempt, retry: Attempt)
    ensures GenerateWithGoogleAI(prompt, first, retry) == GenerateWithPollinations(GooglePrompt(prompt), first)
    ensures GenerateWithGoogleAI(prompt, first, retry).Rejected? <==> !WellFormed(prompt)
  {
  }

  /**
   * What a resolved Google-path URL asks for: the prompt with the Google
   * suffix and then the Pollinations suffix at full size, or, after a load
   * error, the prompt with the Google suffix alone at the simple size; the
   * seed is computed from the Google-suffixed prompt.
   */
  lemma GoogleUrlReadsBack(prompt: Text, first: Attempt, retry: Attempt)
    requires GenerateWithGoogleAI(prompt, first, retry).Resolved?
    ensures first.events != []
    ensures var seed := Seed(GooglePrompt(prompt), first.nowMs);
            ReadImageUrl(GenerateWithGoogleAI(prompt, first, retry).url)
            == if first.events[0] == LoadError then Some(ImageRequest(GooglePrompt(prompt), SimpleParams(seed)))
               else Some(ImageRequest(PollinationsPrompt(GooglePrompt(prompt)), MainParams(seed)))
  {
    GoogleRetryFutile(prompt, first, retry);
    PollinationsUrlReadsBack(GooglePrompt(prompt), first);
  }

  /** The form DeepAI is sent: one text field. */
  datatype DeepAIRequest = DeepAIRequest(endpoint: string, text: Text)

  /** What the DeepAI fetch gives back: a thrown error, or a status and the output_url of the JSON body. */
  datatype DeepAIReply = DeepAIThrew(message: string) | DeepAIReplied(ok: bool, outputUrl: Option<string>)

  const DeepAIEndpoint: string := "https://api.deepai.org/api/text2img"

  function DeepAIRequestFor(prompt: Text): (r: DeepAIRequest)
    ensures r.endpoint == DeepAIEndpoint && r.text == prompt + Of(DeepAISuffix)
    ensures |r.text| > |prompt| && r.text[..|prompt|] == prompt
  {
    DeepAIRequest(DeepAIEndpoint, WithSuffix(prompt, DeepAISuffix))
  }

  /** generateImageWithDeepAI: it succeeds exactly when the reply is ok and output_url is a non-empty string, and then returns that URL. */
  function GenerateWithDeepAI(prompt: Text, deepAI: DeepAIRequest -> DeepAIReply): (s: Settlement)
    ensures !s.Pending?
    ensures var reply := deepAI(DeepAIRequestFor(prompt));
            s.Resolved? <==> reply.DeepAIReplied? && reply.ok && reply.outputUrl.Some? && reply.outputUrl.value != ""
    ensures var reply := deepAI(DeepAIRequestFor(prompt));
            s.Resolved? ==> s.url == reply.outputUrl.value
    ensures var reply := deepAI(DeepAIRequestFor(prompt));
            s.Rejected? ==> s.message == if reply.DeepAIThrew? then reply.message else DeepAIFailedMessage
  {
    match deepAI(DeepAIRequestFor(prompt))
    case DeepAIThrew(message) => Rejected(message)
    case DeepAIReplied(ok, outputUrl) =>
      if ok && outputUrl.Some? && outputUrl.value != "" then Resolved(outputUrl.value)
      else Rejected(DeepAIFailedMessage)
  }

  /** The JSON body Stable Diffusion is sent. */
  datatype StableDiffusionRequest = StableDiffusionRequest(
    endpoint: string, inputs: Text, negativePrompt: string,
    inferenceSteps: nat, guidanceScale: real, width: nat, height: nat)

  /** What the Stable Diffusion fetch gives back: a thrown error, or a status and the object URL made from the body. */
  datatype StableDiffusionReply = StableDiffusionThrew(message: string) | StableDiffusionReplied(ok: bool, objectUrl: string)

  const StableDiffusionEndpoint: string :=
    "https://api-inference.huggingface.co/" + "models/runwayml/stable-diffusion-v1-5"

  function StableDiffusionRequestFor(prompt: Text): (r: StableDiffusionRequest)
    ensures r.endpoint == StableDiffusionEndpoint
    ensures r.inputs == prompt + Of(StableDiffusionSuffix) && r.negativePrompt == StableDiffusionNegativePrompt
    ensures |r.inputs| > |prompt| && r.inputs[..|prompt|] == prompt
    ensures r.inferenceSteps == 50 && r.guidanceScale == 7.5 && r.width == 512 && r.height == 512
  {
    StableDiffusionRequest(StableDiffusionEndpoint, WithSuffix(prompt, StableDiffusionSuffix),
                           StableDiffusionNegativePrompt, 50, 7.5, 512, 512)
  }

  /** generateImageWithStableDiffusion: it succeeds exactly when the reply is ok, whatever the body. */
  function GenerateWithStableDiffusion(prompt: Text, stableDiffusion: StableDiffusionRequest -> StableDiffusionReply): (s: Settlement)
    ensures !s.Pending?
    ensures var reply := stableDiffusion(StableDiffusionRequestFor(prompt));
            s.Resolved? <==> reply.StableDiffusionReplied? && reply.ok
    ensures var reply := stableDiffusion(StableDiffusionRequestFor(prompt));
            s.Resolved? ==> s.url == reply.objectUrl
    ensures var reply := stableDiffusion(StableDiffusionRequestFor(prompt));
            s.Rejected? ==> s.message == if reply.StableDiffusionThrew? then reply.message else StableDiffusionFailedMessage
  {
    match stableDiffusion(StableDiffusionRequestFor(prompt))
    case StableDiffusionThrew(message) => Rejected(message)
    case StableDiffusionReplied(ok, objectUrl) =>
      if ok then Resolved(objectUrl) else Rejected(StableDiffusionFailedMessage)
  }

  // ---------------------------------------------------------------------
  // generateImage

  /**
   * Everything generateImage depends on besides the prompt: whether
   * REACT_APP_GOOGLE_AI_API_KEY is set, the two Pollinations calls the
   * primary step can make, and the two fallback endpoints.
   */
  datatype Environment = Environment(
    googleKeySet: bool,
    primary: Attempt,
    googleRetry: Attempt,
    deepAI: DeepAIRequest -> DeepAIReply,
    stableDiffusion: StableDiffusionRequest -> StableDiffusionReply)

  /** How a generateImage call settled, and the providers it called, in order. */
  datatype Run = Run(result: Settlement, tried: seq<Provider>)

  /** The guard of generateImage: the prompt is a string (not null or undefined) with something left after trim. */
  predicate ValidPrompt(prompt: Option<Text>)
  {
    prompt.Some? && Trim(prompt.value) != []
  }

  /** The provider the primary step calls. */
  function PrimaryProvider(googleKeySet: bool): Provider
  {
    if googleKeySet then GoogleAI else Pollinations
  }

  /** The order generateImage tries the providers in. */
  function Chain(googleKeySet: bool): (chain: seq<Provider>)
    ensures |chain| == 3
    ensures forall i, j :: 0 <= i < j < |chain| ==> chain[i] != chain[j]
  {
    [PrimaryProvider(googleKeySet), DeepAI, StableDiffusion]
  }

  /** How one provider's call settles for a valid prompt, on its own. */
  function Call(provider: Provider, prompt: Text, env: Environment): Settlement
  {
    match provider
    case Pollinations => GenerateWithPollinations(prompt, env.primary)
    case GoogleAI => GenerateWithGoogleAI(prompt, env.primary, env.googleRetry)
    case DeepAI => GenerateWithDeepAI(prompt, env.deepAI)
    case StableDiffusion => GenerateWithStableDiffusion(prompt, env.stableDiffusion)
  }

  /**
   * How each provider of the chain would settle on the prompt, in chain
   * order.  Each is a function of the environment alone, so naming a later
   * one does not call it: the run's trace records which ones the nested
   * try/catch blocks reach.
   */
  function Settlements(prompt: Text, env: Environment): (settled: seq<Settlement>)
    ensures |settled| == 3
  {
    var chain := Chain(env.googleKeySet);
    [Call(chain[0], prompt, env), Call(chain[1], prompt, env), Call(chain[2], prompt, env)]
  }

  /**
   * The nested try/catch blocks of generateImage: the first settlement of
   * the chain that is not a rejection is returned, and the rejection of the
   * last provider is replaced by the fixed terminal message.
   */
  function Fallback(chain: seq<Provider>, settled: seq<Settlement>): Run
    requires |chain| == 3 && |settled| == 3
  {
    if !settled[0].Rejected? then Run(settled[0], chain[..1])
    else if !settled[1].Rejected? then Run(settled[1], chain[..2])
    else if !settled[2].Rejected? then Run(settled[2], chain)
    else Run(Rejected(TerminalMessage), chain)
  }

  /**
   * The trace is a non-empty prefix of the chain; every provider on it but
   * the last one rejected; the last one's settlement is the result unless it
   * rejected too, in which case the whole chain was tried and the result is
   * the terminal message.
   */
  lemma FallbackTries(chain: seq<Provider>, settled: seq<Settlement>)
    requires |chain| == 3 && |settled| == 3
    ensures var run := Fallback(chain, settled);
            1 <= |run.tried| <= 3 && run.tried == chain[..|run.tried|]
    ensures var run := Fallback(chain, settled);
            forall k :: 0 <= k < |run.tried| - 1 ==> settled[k].Rejected?
    ensures var run := Fallback(chain, settled);
            var last := settled[|run.tried| - 1];
            if last.Rejected? then |run.tried| == 3 && run.result == Rejected(TerminalMessage)
            else run.result == last
  {
  }

  /** generateImage: reject a prompt that fails the guard; otherwise fall back along the chain. */
  function GenerateImage(prompt: Option<Text>, env: Environment): (run: Run)
    ensures run.tried <= Chain(env.googleKeySet)
    ensures run.tried == [] <==> !ValidPrompt(prompt)
  {
    if !ValidPrompt(prompt) then Run(Rejected(InvalidPromptMessage), [])
    else
      var run := Fallback(Chain(env.googleKeySet), Settlements(prompt.value, env));
      FallbackTries(Chain(env.googleKeySet), Settlements(prompt.value, env));
      run
  }

  /** The guard: nothing is tried exactly when the prompt fails it, and then the call rejects with the validation message. */
  lemma ValidationGuard(prompt: Option<Text>, env: Environment)
    ensures GenerateImage(prompt, env).tried == [] <==> !ValidPrompt(prompt)
    ensures !ValidPrompt(prompt) ==> GenerateImage(prompt, env).result == Rejected(InvalidPromptMessage)
  {
    if ValidPrompt(prompt) {
      FallbackTries(Chain(env.googleKeySet), Settlements(prompt.value, env));
    }
  }

  /** A valid prompt goes to Google AI first exactly when the key is set. */
  lemma FirstProvider(prompt: Option<Text>, env: Environment)
    requires ValidPrompt(prompt)
    ensures GenerateImage(prompt, env).tried != []
    ensures GenerateImage(prompt, env).tried[0] == GoogleAI <==> env.googleKeySet
    ensures GenerateImage(prompt, env).tried[0] == Pollinations <==> !env.googleKeySet
  {
    FallbackTries(Chain(env.googleKeySet), Settlements(prompt.value, env));
  }

  /**
   * The fallback order of generateImage: every provider but the last one
   * it tried rejected; the last one's settlement is returned unchanged
   * unless it rejected too, in which case all three were tried and the
   * result is the terminal message.
   */
  lemma FallbackOrder(prompt: Option<Text>, env: Environment)
    requires ValidPrompt(prompt)
    ensures var run := GenerateImage(prompt, env);
            var settled := Settlements(prompt.value, env);
            forall k :: 0 <= k < |run.tried| - 1 ==> settled[k].Rejected?
    ensures var run := GenerateImage(prompt, env);
            var last := Settlements(prompt.value, env)[|run.tried| - 1];
            if last.Rejected? then run.tried == Chain(env.googleKeySet) && run.result == Rejected(TerminalMessage)
            else run.result == last
  {
    FallbackTries(Chain(env.googleKeySet), Settlements(prompt.value, env));
  }

  /**
   * Every rejection generateImage reports carries one of two fixed messages,
   * whatever the providers threw: the validation message before anything is
   * tried, the terminal message after all three failed.
   */
  lemma RejectionMessages(prompt: Option<Text>, env: Environment)
    ensures var run := GenerateImage(prompt, env);
            run.result.Rejected? ==>
              (run.tried == [] && run.result.message == InvalidPromptMessage)
              || (run.tried == Chain(env.googleKeySet) && run.result.message == TerminalMessage)
    ensures GenerateImage(prompt, env).result.Rejected? ==> GenerateImage(prompt, env).result.message != ""
  {
    if ValidPrompt(prompt) {
      FallbackTries(Chain(env.googleKeySet), Settlements(prompt.value, env));
    }
    assert InvalidPromptMessage[0] == 'P';
    assert TerminalMessage[0] == 'U';
  }

  /** How the primary call settles: pending exactly while its image has not fired, rejected exactly on an ill-formed prompt. */
  lemma PrimaryPending(p: Text, env: Environment)
    ensures Settlements(p, env)[0].Pending? <==> WellFormed(p) && env.primary.events == []
    ensures Settlements(p, env)[0].Rejected? <==> !WellFormed(p)
  {
    GoogleRetryFutile(p, env.primary, env.googleRetry);
  }

  /** The fallbacks always settle: a fetch that answers or throws never leaves them pending. */
  lemma FallbacksSettle(p: Text, env: Environment)
    ensures !Settlements(p, env)[1].Pending? && !Settlements(p, env)[2].Pending?
  {
  }

  /**
   * generateImage stays pending exactly when the prompt is valid and
   * well-formed and the primary call's verification image has not fired yet;
   * the fallbacks never leave it pending.
   */
  lemma PendingIff(prompt: Option<Text>, env: Environment)
    ensures GenerateImage(prompt, env).result.Pending?
            <==> ValidPrompt(prompt) && WellFormed(prompt.value) && env.primary.events == []
  {
    if ValidPrompt(prompt) {
      PrimaryPending(prompt.value, env);
      FallbacksSettle(prompt.value, env);
      FallbackPending(Chain(env.googleKeySet), Settlements(prompt.value, env));
    }
  }

  /** When the fallbacks always settle, the chain is left pending exactly when its first provider is. */
  lemma FallbackPending(chain: seq<Provider>, settled: seq<Settlement>)
    requires |chain| == 3 && |settled| == 3
    requires !settled[1].Pending? && !settled[2].Pending?
    ensures Fallback(chain, settled).result.Pending? <==> settled[0].Pending?
  {
  }

  /**
   * The 20-second timer always fires in the end, so a Pollinations call
   * whose event sequence includes it has settled: the race never hangs.
   */
  lemma TimerSettlesPollinations(prompt: Text, attempt: Attempt)
    ensures Timeout in attempt.events ==> !GenerateWithPollinations(prompt, attempt).Pending?
  {
  }

  /** Once the primary call's timer has fired, generateImage has settled. */
  lemma TimerSettlesGenerateImage(prompt: Option<Text>, env: Environment)
    ensures Timeout in env.primary.events ==> !GenerateImage(prompt, env).result.Pending?
  {
    PendingIff(prompt, env);
  }

  /** A valid, well-formed prompt never reaches the fallbacks: the primary call alone settles it. */
  lemma WellFormedPromptStaysPrimary(prompt: Option<Text>, env: Environment)
    requires ValidPrompt(prompt) && WellFormed(prompt.value)
    ensures GenerateImage(prompt, env).tried == [PrimaryProvider(env.googleKeySet)]
  {
    FallbackTries(Chain(env.googleKeySet), Settlements(prompt.value, env));
    PrimaryPending(prompt.value, env);
  }
}
