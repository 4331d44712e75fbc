/**
 * The video API: prompt templates, the `generate` endpoint (user provisioning,
 * credit gate, job insert), the background generation step, the Kie.ai callback
 * and the status lookup. The `users` and `video_jobs` tables are fields of one
 * backend object; the Kie.ai task creation, the R2 upload and the
 * `decrement_credits` routine are outcomes passed in as parameters.
 */
module VideoApi {
  import opened Wrappers
  import opened Text

  /** The tail every prompt shares. */
  const PromptSuffix := ", 9:16 vertical format, TikTok optimized, 10 seconds"

  /** The four niche templates of `generate_prompt`. */
  const PromptTemplates: map<string, string> := map[
    "recettes" := "Cinematic cooking video showing delicious recipe preparation, beautiful food styling, warm kitchen lighting, professional chef techniques, mouth-watering close-ups" + PromptSuffix,
    "voyage" := "Breathtaking travel footage showcasing stunning landscapes, cinematic drone shots, golden hour lighting, epic adventure vibes, cultural exploration, scenic beauty" + PromptSuffix,
    "motivation" := "Inspiring motivational content with dynamic visual metaphors, uplifting atmosphere, professional cinematography, energetic pacing, success imagery, empowering message" + PromptSuffix,
    "tech" := "Modern technology showcase with sleek product presentation, futuristic aesthetics, clean minimalist style, innovative tech display, professional lighting, cutting-edge visuals" + PromptSuffix]

  const DefaultPromptHead := "High-quality viral video content about "
  const DefaultPromptTail := ", engaging visuals, professional production" + PromptSuffix

  /** `generate_prompt`: the template of the lower-cased niche, else a default prompt quoting the niche as given. */
  function GeneratePrompt(niche: string): (r: string)
    ensures Lower(niche) in PromptTemplates ==> r == PromptTemplates[Lower(niche)]
    ensures Lower(niche) !in PromptTemplates ==> r == DefaultPromptHead + niche + DefaultPromptTail
  {
    var key := Lower(niche);
    if key in PromptTemplates then PromptTemplates[key] else DefaultPromptHead + niche + DefaultPromptTail
  }

  /** Every template asks for a vertical ten-second clip. */
  lemma TemplatesShareSuffix(k: string)
    requires k in PromptTemplates
    ensures EndsWith(PromptTemplates[k], PromptSuffix)
  {
    var body :=
      if k == "recettes" then "Cinematic cooking video showing delicious recipe preparation, beautiful food styling, warm kitchen lighting, professional chef techniques, mouth-watering close-ups"
      else if k == "voyage" then "Breathtaking travel footage showcasing stunning landscapes, cinematic drone shots, golden hour lighting, epic adventure vibes, cultural exploration, scenic beauty"
      else if k == "motivation" then "Inspiring motivational content with dynamic visual metaphors, uplifting atmosphere, professional cinematography, energetic pacing, success imagery, empowering message"
      else "Modern technology showcase with sleek product presentation, futuristic aesthetics, clean minimalist style, innovative tech display, professional lighting, cutting-edge visuals";
    assert PromptTemplates[k] == body + PromptSuffix;
    EndsWithAppend(body, PromptSuffix);
  }

  /** Every prompt asks for a vertical ten-second clip, and a default prompt quotes the niche verbatim. */
  lemma PromptShape(niche: string)
    ensures EndsWith(GeneratePrompt(niche), PromptSuffix)
    ensures Lower(niche) !in PromptTemplates ==> Contains(GeneratePrompt(niche), niche)
  {
    var r := GeneratePrompt(niche);
    var k := Lower(niche);
    if k in PromptTemplates {
      TemplatesShareSuffix(k);
    } else {
      var head := DefaultPromptHead + niche + ", engaging visuals, professional production";
      assert r == head + PromptSuffix;
      EndsWithAppend(head, PromptSuffix);
      assert r[|DefaultPromptHead|..|DefaultPromptHead| + |niche|] == niche;
      assert OccursAt(r, niche, |DefaultPromptHead|);
    }
  }

  /** Niches that differ only in ASCII case get the same template. */
  lemma PromptIgnoresCaseForTemplates(a: string, b: string)
    requires Lower(a) == Lower(b) && Lower(a) in PromptTemplates
    ensures GeneratePrompt(a) == GeneratePrompt(b) == PromptTemplates[Lower(a)]
  {
  }

  datatype JobStatus = Pending | Generating | WaitingCallback | Completed | Failed

  /** A row of `video_jobs`; `completedAt` records that `completed_at` was set to `now()`. */
  datatype Job = Job(
    userId: string, status: JobStatus, niche: string, duration: int, quality: string, prompt: string,
    kieTaskId: Option<string>, videoUrl: Option<string>, error: Option<string>, completedAt: bool)

  /** A row of `users`. */
  datatype User = User(email: string, credits: int, plan: string)

  datatype HttpError = HttpError(status: int, detail: string)

  datatype VideoResponse = VideoResponse(jobId: nat, status: string, estimatedTime: string)

  /** The parameters `process_video_generation` passes to the Kie.ai client. */
  datatype KieRequest = KieRequest(prompt: string, duration: int, quality: string, removeWatermark: bool)

  /** `resultJson` after `json.loads`: unparsable, or a dictionary with or without `resultUrls` (a falsy URL is `""`). */
  datatype ResultJson = Unparsable(error: string) | Parsed(resultUrls: Option<seq<string>>)

  /** The `data` of a Kie.ai callback; the two failure fields are already rendered with `str` (`None` for a missing one). */
  datatype CallbackPayload = CallbackPayload(
    taskId: Option<string>, state: Option<string>, failCode: string, failMsg: string, resultJson: Option<ResultJson>)

  datatype CallbackResponse = Received(taskId: Option<string>) | CallbackError(message: string)

  /** The callback's decision: its response, the job row it finally writes, and whose credit it debits. */
  datatype CallbackEffect = CallbackEffect(response: CallbackResponse, updated: Option<(nat, Job)>, debit: Option<string>)

  function NewUser(userId: string): User {
    User(userId + "@vykso.com", 10, "starter")
  }

  function NewJob(userId: string, niche: string, quality: string): Job {
    Job(userId, Pending, niche, 10, quality, GeneratePrompt(niche), None, None, None, false)
  }

  /** Status-dependent fields are filled in: a completed job has a URL, a failed job an error, a waiting job a task id. */
  predicate WellFormed(job: Job) {
    && job.duration == 10
    && (job.status == Completed ==> job.videoUrl.Some?)
    && (job.status == Failed ==> job.error.Some?)
    && (job.status == WaitingCallback ==> job.kieTaskId.Some?)
  }

  /** `select ... eq("kie_task_id", t)` then `data[0]`: the first job, by id, carrying the task id. */
  function FindTask(jobs: map<nat, Job>, taskId: string, from: nat, bound: nat): (r: Option<nat>)
    decreases bound - from
    ensures r.Some? ==> from <= r.value < bound && r.value in jobs && jobs[r.value].kieTaskId == Some(taskId)
    ensures r.Some? ==> forall i :: from <= i < r.value && i in jobs ==> jobs[i].kieTaskId != Some(taskId)
    ensures r.None? ==> forall i :: from <= i < bound && i in jobs ==> jobs[i].kieTaskId != Some(taskId)
  {
    if from >= bound then None
    else if from in jobs && jobs[from].kieTaskId == Some(taskId) then Some(from)
    else FindTask(jobs, taskId, from + 1, bound)
  }

  /** The lookup ignores rows other than task carriers: rewriting a job without touching its task id keeps the answer. */
  lemma {:induction false} FindTaskStable(jobs: map<nat, Job>, id: nat, job: Job, taskId: string, from: nat, bound: nat)
    requires id in jobs && job.kieTaskId == jobs[id].kieTaskId
    ensures FindTask(jobs[id := job], taskId, from, bound) == FindTask(jobs, taskId, from, bound)
    decreases bound - from
  {
    if from < bound {
      FindTaskStable(jobs, id, job, taskId, from + 1, bound);
    }
  }

  function Debit(users: map<string, User>, userId: Option<string>): (r: map<string, User>)
    ensures r.Keys == users.Keys
    ensures forall u :: u in users && Some(u) != userId ==> r[u] == users[u]
    ensures userId.Some? && userId.value in users ==>
      r[userId.value] == users[userId.value].(credits := users[userId.value].credits - 1)
  {
    if userId.Some? && userId.value in users then
      users[userId.value := users[userId.value].(credits := users[userId.value].credits - 1)]
    else users
  }

  /** Marks the job carrying `taskId`, if any, as failed with `message`: the callback's `except` branch. */
  function FailByTask(jobs: map<nat, Job>, bound: nat, taskId: string, message: string, current: Option<(nat, Job)>)
    : Option<(nat, Job)>
  {
    match FindTask(jobs, taskId, 0, bound)
    case None => current
    case Some(id) =>
      var job := if current.Some? && current.value.0 == id then current.value.1 else jobs[id];
      Some((id, job.(status := Failed, error := Some(message))))
  }

  /** A success report the callback acts on: a non-empty task id and a `resultJson`. */
  predicate ActionableSuccess(payload: CallbackPayload) {
    payload.state == Some("success") && payload.taskId.Some? && payload.taskId.value != "" && payload.resultJson.Some?
  }

  /** An actionable success report whose `resultUrls` starts with a non-empty URL. */
  predicate HasVideoUrl(payload: CallbackPayload) {
    && ActionableSuccess(payload) && payload.resultJson.value.Parsed?
    && payload.resultJson.value.resultUrls.Some? && payload.resultJson.value.resultUrls.value != []
    && payload.resultJson.value.resultUrls.value[0] != ""
  }

  /**
   * `kie_callback`. A `fail` state marks the task's job failed with `failCode: failMsg`;
   * a `success` state with a URL and a known task completes the job with the uploaded URL
   * and debits one credit from its owner; an exception on that path marks the job failed.
   */
  function Callback(jobs: map<nat, Job>, bound: nat, payload: CallbackPayload, upload: Result<string, string>, debitError: Option<string>)
    : (r: CallbackEffect)
    ensures r.updated.Some? ==> (r.updated.value.0 in jobs && jobs[r.updated.value.0].kieTaskId == payload.taskId
      && r.updated.value.1.kieTaskId == payload.taskId && r.updated.value.1.userId == jobs[r.updated.value.0].userId)
    ensures payload.state != Some("fail") && payload.state != Some("success") ==> r == CallbackEffect(Received(payload.taskId), None, None)
    // a failure report marks the task's job failed with `failCode: failMsg`, and never debits
    ensures payload.state == Some("fail") ==>
      && r.debit.None? && r.response == Received(payload.taskId)
      && (r.updated.Some? <==> payload.taskId.Some? && payload.taskId.value != "" && FindTask(jobs, payload.taskId.value, 0, bound).Some?)
      && (r.updated.Some? ==> r.updated.value.1 == jobs[r.updated.value.0].(status := Failed, error := Some(payload.failCode + ": " + payload.failMsg)))
    // an unknown task changes nothing
    ensures payload.taskId.Some? && FindTask(jobs, payload.taskId.value, 0, bound).None? ==> r.updated.None? && r.debit.None?
    // a debit happens only with a completed job, and is for that job's owner
    ensures r.debit.Some? ==>
      && payload.state == Some("success") && upload.Ok? && debitError.None?
      && r.updated.Some? && r.updated.value.1.status == Completed && r.updated.value.1.videoUrl == Some(upload.value)
      && r.debit == Some(jobs[r.updated.value.0].userId)
    ensures r.updated.Some? ==> r.updated.value.1.status in {Completed, Failed}
    ensures r.updated.Some? && r.updated.value.1.status == Failed ==> r.updated.value.1.error.Some?
    ensures r.updated.Some? && r.updated.value.1.status == Completed ==> r.debit.Some?
    // a success report without a task id or a `resultJson` changes nothing
    ensures payload.state == Some("success") && !ActionableSuccess(payload) ==> r == CallbackEffect(Received(payload.taskId), None, None)
    // `resultUrls` missing or its first URL empty: an error answer, and nothing written
    ensures (ActionableSuccess(payload) && payload.resultJson.value.Parsed?
             && (payload.resultJson.value.resultUrls.None?
                 || (payload.resultJson.value.resultUrls.value != [] && payload.resultJson.value.resultUrls.value[0] == ""))) ==>
      r == CallbackEffect(CallbackError("No video URL"), None, None)
    // a URL for a task no job carries: an error answer, and nothing written
    ensures HasVideoUrl(payload) && FindTask(jobs, payload.taskId.value, 0, bound).None? ==>
      r == CallbackEffect(CallbackError("Job not found"), None, None)
    // a URL for a known job: completed with the uploaded URL and one credit debited from its owner,
    // unless the upload or the debit raises, which marks the job failed with that error
    ensures HasVideoUrl(payload) && FindTask(jobs, payload.taskId.value, 0, bound).Some? ==>
      var id := FindTask(jobs, payload.taskId.value, 0, bound).value;
      && r.response == Received(payload.taskId)
      && (upload.Ok? && debitError.None? ==>
            && r.updated == Some((id, jobs[id].(status := Completed, videoUrl := Some(upload.value), completedAt := true)))
            && r.debit == Some(jobs[id].userId))
      && (upload.Err? ==>
            r.updated == Some((id, jobs[id].(status := Failed, error := Some(upload.error)))) && r.debit.None?)
      && (upload.Ok? && debitError.Some? ==>
            && r.updated == Some((id, jobs[id].(status := Failed, videoUrl := Some(upload.value), completedAt := true,
                                               error := Some(debitError.value))))
            && r.debit.None?)
    // an unparsable `resultJson` or an empty `resultUrls` raises: the task's job, if any, is marked failed
    ensures (ActionableSuccess(payload)
             && (payload.resultJson.value.Unparsable? || payload.resultJson.value.resultUrls == Some([]))) ==>
      var message := if payload.resultJson.value.Unparsable? then payload.resultJson.value.error else "list index out of range";
      var found := FindTask(jobs, payload.taskId.value, 0, bound);
      && r.response == Received(payload.taskId) && r.debit.None?
      && (found.None? ==> r.updated.None?)
      && (found.Some? ==> r.updated == Some((found.value, jobs[found.value].(status := Failed, error := Some(message)))))
  {
    var taskId := payload.taskId;
    var known := taskId.Some? && taskId.value != "";
    if payload.state == Some("fail") then
      if known then
        match FindTask(jobs, taskId.value, 0, bound)
        case None => CallbackEffect(Received(taskId), None, None)
        case Some(id) =>
          CallbackEffect(Received(taskId), Some((id, jobs[id].(status := Failed, error := Some(payload.failCode + ": " + payload.failMsg)))), None)
      else CallbackEffect(Received(taskId), None, None)
    else if payload.state == Some("success") then
      if payload.resultJson.None? || !known then CallbackEffect(Received(taskId), None, None)
      else match payload.resultJson.value
        case Unparsable(e) => CallbackEffect(Received(taskId), FailByTask(jobs, bound, taskId.value, e, None), None)
        case Parsed(None) => CallbackEffect(CallbackError("No video URL"), None, None)
        case Parsed(Some(urls)) =>
          if urls == [] then
            CallbackEffect(Received(taskId), FailByTask(jobs, bound, taskId.value, "list index out of range", None), None)
          else if urls[0] == "" then CallbackEffect(CallbackError("No video URL"), None, None)
          else match FindTask(jobs, taskId.value, 0, bound)
            case None => CallbackEffect(CallbackError("Job not found"), None, None)
            case Some(id) =>
              match upload
              case Err(e) => CallbackEffect(Received(taskId), FailByTask(jobs, bound, taskId.value, e, None), None)
              case Ok(finalUrl) =>
                var done := jobs[id].(status := Completed, videoUrl := Some(finalUrl), completedAt := true);
                match debitError
                case Some(e) => CallbackEffect(Received(taskId), FailByTask(jobs, bound, taskId.value, e, Some((id, done))), None)
                case None => CallbackEffect(Received(taskId), Some((id, done)), Some(jobs[id].userId))
    else CallbackEffect(Received(taskId), None, None)
  }

  function Apply(jobs: map<nat, Job>, updated: Option<(nat, Job)>): map<nat, Job> {
    if updated.Some? then jobs[updated.value.0 := updated.value.1] else jobs
  }

  /**
   * Nothing guards a repeated success callback: replaying it against the table it
   * produced completes the same job again and debits its owner a second time.
   */
  lemma RepeatedSuccessCallbackDebitsAgain(
    jobs: map<nat, Job>, bound: nat, payload: CallbackPayload, upload: Result<string, string>)
    requires Callback(jobs, bound, payload, upload, None).debit.Some?
    ensures var first := Callback(jobs, bound, payload, upload, None);
      var second := Callback(Apply(jobs, first.updated), bound, payload, upload, None);
      second.debit == first.debit && second.updated.Some? && second.updated.value.0 == first.updated.value.0
  {
    var first := Callback(jobs, bound, payload, upload, None);
    var (id, job) := first.updated.value;
    FindTaskStable(jobs, id, job, payload.taskId.value, 0, bound);
  }

  class VideoBackend {
    /** The `users` table. */
    var users: map<string, User>
    /** The `video_jobs` table. */
    var jobs: map<nat, Job>
    /** The id the next inserted job receives. */
    var nextJobId: nat

    ghost predicate Valid()
      reads this
    {
      forall id :: id in jobs ==> id < nextJobId && WellFormed(jobs[id])
    }

    constructor(users: map<string, User>)
      ensures Valid() && this.users == users && jobs == map[] && nextJobId == 0
    {
      this.users := users;
      jobs := map[];
      nextJobId := 0;
    }

    /**
     * `generate_video`: provision an unknown user, refuse with 402 below one credit,
     * otherwise insert a pending ten-second job. No credit is taken here.
     */
    method GenerateVideo(userId: string, niche: string, duration: int, quality: string) returns (r: Result<VideoResponse, HttpError>)
      requires Valid()
      modifies this
      ensures Valid()
      ensures users == if userId in old(users) then old(users) else old(users)[userId := NewUser(userId)]
      ensures r.Err? <==> users[userId].credits < 1
      ensures r.Err? ==> r.error.status == 402 && jobs == old(jobs) && nextJobId == old(nextJobId)
      ensures r.Ok? ==>
        && r.value == VideoResponse(old(nextJobId), "pending", "30-90s")
        && jobs == old(jobs)[old(nextJobId) := NewJob(userId, niche, quality)]
        && nextJobId == old(nextJobId) + 1
    {
      if userId !in users {
        users := users[userId := NewUser(userId)];
      }
      var user := users[userId];
      if user.credits < 1 {
        return Err(HttpError(402, "Cr\U{E9}dits insuffisants"));
      }
      var jobId := nextJobId;
      jobs := jobs[jobId := NewJob(userId, niche, quality)];
      nextJobId := nextJobId + 1;
      r := Ok(VideoResponse(jobId, "pending", "30-90s"));
    }

    /**
     * `process_video_generation`: the job goes to `generating`, then to
     * `waiting_callback` with the task id, or to `failed` with the exception text when
     * the Kie.ai call (`kie`) raises. The statuses written are returned as a ghost trace.
     */
    method ProcessVideoGeneration(jobId: nat, niche: string, quality: string, userId: string, kie: Result<string, string>)
      returns (request: KieRequest, ghost trace: seq<JobStatus>)
      requires Valid()
      modifies this`jobs
      ensures Valid()
      ensures request == KieRequest(GeneratePrompt(niche), 10, quality, quality != "basic")
      ensures trace == [Generating, if kie.Ok? then WaitingCallback else Failed]
      ensures jobId !in old(jobs) ==> jobs == old(jobs)
      ensures jobId in old(jobs) ==> jobs == old(jobs)[jobId :=
        match kie
        case Ok(taskId) => old(jobs)[jobId].(status := WaitingCallback, kieTaskId := Some(taskId))
        case Err(e) => old(jobs)[jobId].(status := Failed, error := Some(e))]
    {
      if jobId in jobs {
        jobs := jobs[jobId := jobs[jobId].(status := Generating)];
      }
      trace := [Generating];
      request := KieRequest(GeneratePrompt(niche), 10, quality, quality != "basic");
      match kie {
        case Ok(taskId) =>
          if jobId in jobs {
            jobs := jobs[jobId := jobs[jobId].(kieTaskId := Some(taskId), status := WaitingCallback)];
          }
          trace := trace + [WaitingCallback];
        case Err(e) =>
          if jobId in jobs {
            jobs := jobs[jobId := jobs[jobId].(status := Failed, error := Some(e))];
          }
          trace := trace + [Failed];
      }
    }

    /** Marks the job carrying `taskId` failed, as the callback's `except` branch does. */
    method FailJobByTask(taskId: string, message: string)
      requires Valid()
      modifies this`jobs
      ensures Valid()
      ensures jobs == Apply(old(jobs), FailByTask(old(jobs), nextJobId, taskId, message, None))
    {
      var found := FindTask(jobs, taskId, 0, nextJobId);
      if found.Some? {
        jobs := jobs[found.value := jobs[found.value].(status := Failed, error := Some(message))];
      }
    }

    /**
     * `kie_callback`, with the R2 upload outcome and the `decrement_credits` failure
     * passed in. The debit takes one credit, with no floor.
     */
    method KieCallback(payload: CallbackPayload, upload: Result<string, string>, debitError: Option<string>)
      returns (response: CallbackResponse)
      requires Valid()
      modifies this`jobs, this`users
      ensures Valid()
      ensures var e := Callback(old(jobs), nextJobId, payload, upload, debitError);
        && response == e.response
        && jobs == Apply(old(jobs), e.updated)
        && users == Debit(old(users), e.debit)
    {
      var taskId := payload.taskId;
      var known := taskId.Some? && taskId.value != "";
      if payload.state == Some("fail") && known {
        var found := FindTask(jobs, taskId.value, 0, nextJobId);
        if found.Some? {
          var id := found.value;
          jobs := jobs[id := jobs[id].(status := Failed, error := Some(payload.failCode + ": " + payload.failMsg))];
        }
      }
      if payload.state == Some("success") && payload.resultJson.Some? && known {
        response := HandleSuccessReport(payload, upload, debitError);
      } else {
        response := Received(taskId);
      }
    }

    /** The success branch of `kie_callback`, for a known task id and a present `resultJson`. */
    method HandleSuccessReport(payload: CallbackPayload, upload: Result<string, string>, debitError: Option<string>)
      returns (response: CallbackResponse)
      requires Valid()
      requires payload.state == Some("success") && payload.resultJson.Some?
      requires payload.taskId.Some? && payload.taskId.value != ""
      modifies this`jobs, this`users
      ensures Valid()
      ensures var e := Callback(old(jobs), nextJobId, payload, upload, debitError);
        && response == e.response
        && jobs == Apply(old(jobs), e.updated)
        && users == Debit(old(users), e.debit)
    {
      var taskId := payload.taskId;
      match payload.resultJson.value {
        case Unparsable(e) =>
          FailJobByTask(taskId.value, e);
        case Parsed(urls) =>
          if urls.None? || (urls.value != [] && urls.value[0] == "") {
            return CallbackError("No video URL");
          }
          if urls.value == [] {
            FailJobByTask(taskId.value, "list index out of range");
          } else {
            var found := FindTask(jobs, taskId.value, 0, nextJobId);
            if found.None? {
              return CallbackError("Job not found");
            }
            var id := found.value;
            match upload {
              case Err(e) =>
                FailJobByTask(taskId.value, e);
              case Ok(finalUrl) =>
                var userId := jobs[id].userId;
                var before := jobs;
                jobs := jobs[id := jobs[id].(status := Completed, videoUrl := Some(finalUrl), completedAt := true)];
                if debitError.Some? {
                  FindTaskStable(before, id, jobs[id], taskId.value, 0, nextJobId);
                  FailJobByTask(taskId.value, debitError.value);
                } else {
                  users := Debit(users, Some(userId));
                }
            }
          }
      }
      response := Received(taskId);
    }

    /** `get_video_status`: the job row, or 404. */
    function GetVideoStatus(jobId: nat): (r: Result<Job, HttpError>)
      reads this
      requires Valid()
      ensures r.Ok? <==> jobId in jobs
      ensures r.Ok? ==> r.value == jobs[jobId] && WellFormed(r.value)
      ensures r.Err? ==> r.error.status == 404
    {
      if jobId in jobs then Ok(jobs[jobId]) else Err(HttpError(404, "Job not found"))
    }
  }
}
