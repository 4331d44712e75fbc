/**
 * The request side of `VeoAIClient`: the JSON payload `generate_video` posts to
 * the Kie.ai Veo endpoint, and how both calls read the envelope that comes back.
 * The HTTP exchange itself is not modelled; the decoded response is a parameter.
 */
module VeoClient {
  import opened Wrappers
  import opened Text

  const MaxPromptLength := 5000
  const MaxImages := 3
  const MinSeed := 10000
  const MaxSeed := 99999

  const FirstAndLastFrames := "FIRST_AND_LAST_FRAMES_2_VIDEO"
  const Reference := "REFERENCE_2_VIDEO"

  /** The body of `POST /veo/generate`; an absent key is `None`. There is no watermark key. */
  datatype VeoPayload = VeoPayload(
    prompt: string,
    model: string,
    aspectRatio: string,
    callBackUrl: Option<string>,
    enableTranslation: bool,
    enableFallback: bool,
    imageUrls: Option<seq<string>>,
    generationType: Option<string>,
    seeds: Option<int>)

  /** A Python value that is not `None` and not the empty string. */
  predicate Given(s: Option<string>) {
    s.Some? && s.value != ""
  }

  /**
   * The generation type that ends up in the payload: a given one is kept; otherwise
   * one image means first-and-last frames, several mean reference images, none means no key.
   */
  function GenerationTypeFor(requested: Option<string>, imageCount: nat): (r: Option<string>)
    ensures Given(requested) ==> r == requested
    ensures !Given(requested) && imageCount == 1 ==> r == Some(FirstAndLastFrames)
    ensures !Given(requested) && imageCount >= 2 ==> r == Some(Reference)
    ensures !Given(requested) && imageCount == 0 ==> r.None?
    ensures r.Some? ==> r.value != ""
  {
    if Given(requested) then requested
    else if imageCount == 1 then Some(FirstAndLastFrames)
    else if imageCount >= 2 then Some(Reference)
    else None
  }

  /** `max(10000, min(99999, seeds))`. */
  function ClampSeed(seed: int): (r: int)
    ensures MinSeed <= r <= MaxSeed
    ensures MinSeed <= seed <= MaxSeed ==> r == seed
    ensures seed < MinSeed ==> r == MinSeed
    ensures seed > MaxSeed ==> r == MaxSeed
  {
    var upper := if seed < MaxSeed then seed else MaxSeed;
    if upper > MinSeed then upper else MinSeed
  }

  /**
   * `generate_video`'s payload construction: the fixed keys, then the images and the
   * automatic generation type, the generation type, and a non-zero seed, one insertion
   * at a time. A missing `image_urls` is the empty list.
   */
  method BuildPayload(prompt: string, model: string, aspectRatio: string, callbackUrl: Option<string>,
                      imageUrls: seq<string>, generationType: Option<string>, seeds: Option<int>,
                      watermark: Option<string>)
    returns (p: VeoPayload)
    ensures p.prompt == SliceTo(prompt, MaxPromptLength) && |p.prompt| <= MaxPromptLength
    ensures p.model == model && p.aspectRatio == aspectRatio && p.callBackUrl == callbackUrl
    ensures p.enableTranslation && !p.enableFallback
    ensures p.imageUrls.Some? <==> |imageUrls| > 0
    ensures p.imageUrls.Some? ==>
      |p.imageUrls.value| == (if |imageUrls| < MaxImages then |imageUrls| else MaxImages) &&
      p.imageUrls.value == imageUrls[..|p.imageUrls.value|]
    ensures p.generationType == GenerationTypeFor(generationType, |imageUrls|)
    ensures seeds.None? || seeds == Some(0) ==> p.seeds.None?
    ensures seeds.Some? && seeds.value != 0 ==> p.seeds == Some(ClampSeed(seeds.value))
  {
    p := VeoPayload(SliceTo(prompt, MaxPromptLength), model, aspectRatio, callbackUrl, true, false, None, None, None);
    var kind := generationType;
    if |imageUrls| > 0 {
      p := p.(imageUrls := Some(imageUrls[..if |imageUrls| < MaxImages then |imageUrls| else MaxImages]));
      if !Given(kind) {
        if |imageUrls| == 1 {
          kind := Some(FirstAndLastFrames);
        } else if |imageUrls| >= 2 {
          kind := Some(Reference);
        }
      }
    }
    if Given(kind) {
      p := p.(generationType := kind);
    }
    if seeds.Some? && seeds.value != 0 {
      var seed := seeds.value;
      p := p.(seeds := Some(if MinSeed > (if MaxSeed < seed then MaxSeed else seed) then MinSeed
                            else if MaxSeed < seed then MaxSeed else seed));
    }
  }

  /** The `data` member of an answer: missing, JSON `null`, or an object. */
  datatype DataField = Absent | Null | Object(fields: map<string, string>)

  /** The JSON envelope Kie.ai answers with, already decoded. */
  datatype ApiEnvelope = ApiEnvelope(code: Option<int>, msg: Option<string>, data: DataField)

  datatype VeoError =
    | ApiError(message: string)   // `Exception("Veo AI error: …")`
    | MalformedResponse           // `result["data"]…` raising `KeyError`/`TypeError`

  /** `f"Veo AI error: {result.get('msg')}"`, where a missing message prints as `None`. */
  function ErrorMessage(msg: Option<string>): (r: string)
    ensures msg.Some? ==> EndsWith(r, msg.value)
  {
    EndsWithAppend("Veo AI error: ", msg.GetOr("None"));
    "Veo AI error: " + msg.GetOr("None")
  }

  /** `generate_video`'s result: `{"taskId": …}` on code 200, an API error otherwise. */
  function TaskIdOf(response: ApiEnvelope): (r: Result<string, VeoError>)
    ensures r.Ok? <==> response.code == Some(200) && response.data.Object? && "taskId" in response.data.fields
    ensures r.Ok? ==> r.value == response.data.fields["taskId"]
    ensures response.code == Some(200) && r.Err? ==> r.error == MalformedResponse
    ensures response.code != Some(200) ==> r == Err(ApiError(ErrorMessage(response.msg)))
  {
    if response.code == Some(200) then
      if response.data.Object? && "taskId" in response.data.fields then Ok(response.data.fields["taskId"])
      else Err(MalformedResponse)
    else Err(ApiError(ErrorMessage(response.msg)))
  }

  /**
   * `get_task_status`'s result: the `data` member on code 200 (`None` for JSON `null`),
   * a `KeyError` when it is missing, an API error on any other code.
   */
  function TaskStatusOf(response: ApiEnvelope): (r: Result<Option<map<string, string>>, VeoError>)
    ensures r.Ok? <==> response.code == Some(200) && !response.data.Absent?
    ensures r.Ok? ==> (r.value.Some? <==> response.data.Object?)
    ensures r.Ok? && r.value.Some? ==> r.value.value == response.data.fields
    ensures response.code == Some(200) && response.data.Absent? ==> r == Err(MalformedResponse)
    ensures response.code != Some(200) ==> r == Err(ApiError(ErrorMessage(response.msg)))
  {
    if response.code == Some(200) then
      match response.data
      case Absent => Err(MalformedResponse)
      case Null => Ok(None)
      case Object(fields) => Ok(Some(fields))
    else Err(ApiError(ErrorMessage(response.msg)))
  }
}
