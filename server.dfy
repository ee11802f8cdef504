/**
 * The job lifecycle of the web front end (cmd/server/main.go). The server
 * holds one current job whose status moves between idle, planning,
 * awaiting_approval, running, complete, error and cancelled as the HTTP
 * handlers run. The planner and the research run are oracles: a plan
 * request yields a plan or an error message, and a run yields a result and
 * possibly an error. HTTP transport, JSON decoding, progress events and the
 * goroutine that runs the research are not modelled; JSON decoding is an
 * input that has either succeeded or failed with a message.
 */
module WebServer {
  import opened GoStrings
  import opened Research

  datatype Status = Idle | Planning | AwaitingApproval | Running | Complete | Error | Cancelled

  /** The JSON body of a research request. */
  datatype ResearchRequest = ResearchRequest(
    topic: string, loops: int, parallel: int, contextLen: int, deepMode: bool, resultLinks: bool,
    minResults: int, delayMs: int, simpleMode: bool, maxPages: int)

  /** The zero value of a request, which the idle job carries. */
  const ZeroRequest := ResearchRequest("", 0, 0, 0, false, false, 0, 0, false, 0)

  datatype Job = Job(
    id: string, topic: string, status: Status, plan: Option<ResearchPlan>,
    result: Option<ResearchResult>, error: string, config: ResearchRequest)

  const IdleJob := Job("", "", Idle, None, None, "", ZeroRequest)

  /**
   * The server's state: the current job, the researcher built for it (its
   * agent configuration), whether a cancel function has been stored, and
   * whether the context of the current run has been cancelled.
   */
  datatype ServerState = ServerState(job: Job, researcher: Option<Config>, hasCancel: bool, ctxCanceled: bool)

  const InitialState := ServerState(IdleJob, None, false, false)

  /** What a handler writes back. */
  datatype Response = JobReply(job: Job) | StatusReply(status: string) | HttpError(code: int, message: string)

  /** Plan creation: the agent configuration, the topic and the added context give a plan or an error. */
  type Planner = (Config, string, string) -> Result<ResearchPlan, string>

  /** What the research run returned: its (possibly partial) result and its error, if any. */
  datatype RunOutcome = RunOutcome(result: ResearchResult, err: Option<string>)

  const DefaultLoops := 5
  const DefaultParallel := 5
  const DefaultContextLen := 32768
  const DefaultMinResults := 20
  const DefaultDelayMs := 500

  /** Statuses during which no new research may start. */
  predicate Busy(s: Status) {
    s == Planning || s == Running || s == AwaitingApproval
  }

  /** Request defaulting: every non-positive setting takes its default; the rest stays as given. */
  function WithDefaults(req: ResearchRequest): (r: ResearchRequest)
    ensures r.loops > 0 && r.parallel > 0 && r.contextLen > 0 && r.minResults > 0 && r.delayMs > 0
    ensures r.loops == (if req.loops > 0 then req.loops else DefaultLoops)
    ensures r.parallel == (if req.parallel > 0 then req.parallel else DefaultParallel)
    ensures r.contextLen == (if req.contextLen > 0 then req.contextLen else DefaultContextLen)
    ensures r.minResults == (if req.minResults > 0 then req.minResults else DefaultMinResults)
    ensures r.delayMs == (if req.delayMs > 0 then req.delayMs else DefaultDelayMs)
    ensures r.(loops := req.loops, parallel := req.parallel, contextLen := req.contextLen,
               minResults := req.minResults, delayMs := req.delayMs) == req
  {
    var req := if req.loops <= 0 then req.(loops := DefaultLoops) else req;
    var req := if req.parallel <= 0 then req.(parallel := DefaultParallel) else req;
    var req := if req.contextLen <= 0 then req.(contextLen := DefaultContextLen) else req;
    var req := if req.minResults <= 0 then req.(minResults := DefaultMinResults) else req;
    if req.delayMs <= 0 then req.(delayMs := DefaultDelayMs) else req
  }

  /** Defaulting a defaulted request changes nothing. */
  lemma DefaultsIdempotent(req: ResearchRequest)
    ensures WithDefaults(WithDefaults(req)) == WithDefaults(req)
  {
    var r := WithDefaults(req);
    assert WithDefaults(r).(loops := r.loops, parallel := r.parallel, contextLen := r.contextLen,
                            minResults := r.minResults, delayMs := r.delayMs) == r;
  }

  /** The agent configuration `createPlan` builds from a request. */
  function AgentConfig(req: ResearchRequest): Config {
    Config(req.loops, req.parallel, req.deepMode, req.resultLinks, req.simpleMode,
           req.minResults, req.delayMs, req.maxPages, req.contextLen)
  }

  // ---------------------------------------------------------------------------
  // The handlers, as functions of the state

  function ErrorStep(s: ServerState, msg: string): ServerState {
    s.(job := s.job.(status := Error, error := msg))
  }

  /** `createPlan`: store a researcher for the request, then plan with no added context. */
  function PlanStep(s: ServerState, req: ResearchRequest, planner: Planner): ServerState {
    var cfg := AgentConfig(req);
    var s1 := s.(researcher := Some(cfg));
    match planner(cfg, req.topic, "")
    case Err(e) => ErrorStep(s1, "Failed to create plan: " + e)
    case Ok(plan) => s1.(job := s1.job.(plan := Some(plan), status := AwaitingApproval))
  }

  function ResearchStep(s: ServerState, isPost: bool, body: Result<ResearchRequest, string>, id: string, planner: Planner)
    : (ServerState, Response)
  {
    if !isPost then (s, HttpError(405, "Method not allowed"))
    else if Busy(s.job.status) then (s, HttpError(409, "Research already in progress"))
    else match body
      case Err(e) => (s, HttpError(400, "Invalid JSON: " + e))
      case Ok(req0) =>
        if req0.topic == "" then (s, HttpError(400, "Topic is required"))
        else
          var req := WithDefaults(req0);
          var s1 := s.(job := Job(id, req.topic, Planning, None, None, "", req));
          var s2 := PlanStep(s1, req, planner);
          (s2, JobReply(s2.job))
  }

  function ApproveStep(s: ServerState, isPost: bool): (ServerState, Response) {
    if !isPost then (s, HttpError(405, "Method not allowed"))
    else if s.job.status != AwaitingApproval then (s, HttpError(400, "No plan awaiting approval"))
    else if s.job.plan.None? || s.researcher.None? then (s, HttpError(500, "Plan not found"))
    else (s.(job := s.job.(status := Running), hasCancel := true, ctxCanceled := false), StatusReply("running"))
  }

  /** `createPlanWithFeedback`: plan again with the feedback as added context. */
  function FeedbackPlanStep(s: ServerState, req: ResearchRequest, feedback: string, planner: Planner): ServerState {
    match s.researcher
    case None => ErrorStep(s, "Researcher not initialized")
    case Some(cfg) =>
      match planner(cfg, req.topic, feedback)
      case Err(e) => ErrorStep(s, "Failed to revise plan: " + e)
      case Ok(plan) => s.(job := s.job.(plan := Some(plan), status := AwaitingApproval))
  }

  function ReviseStep(s: ServerState, isPost: bool, body: Result<string, string>, planner: Planner): (ServerState, Response) {
    if !isPost then (s, HttpError(405, "Method not allowed"))
    else if s.job.status != AwaitingApproval then (s, HttpError(400, "No plan awaiting revision"))
    else match body
      case Err(e) => (s, HttpError(400, "Invalid JSON: " + e))
      case Ok(feedback) =>
        var s1 := s.(job := s.job.(status := Planning, plan := None));
        var s2 := FeedbackPlanStep(s1, s.job.config, feedback, planner);
        (s2, JobReply(s2.job))
  }

  function CancelStep(s: ServerState, isPost: bool): (ServerState, Response) {
    if !isPost then (s, HttpError(405, "Method not allowed"))
    else if s.job.status == Running && s.hasCancel then
      (s.(ctxCanceled := true, job := s.job.(status := Cancelled)), StatusReply("cancelling"))
    else if s.job.status == AwaitingApproval || s.job.status == Planning then
      (s.(job := IdleJob, researcher := None), StatusReply("cancelled"))
    else (s, HttpError(400, "Nothing to cancel"))
  }

  /** `executeResearch` once the run has returned. */
  function ExecuteStep(s: ServerState, run: RunOutcome): ServerState {
    if run.err.None? || s.ctxCanceled then s.(job := s.job.(status := Complete, result := Some(run.result)))
    else ErrorStep(s, "Research failed: " + run.err.value)
  }

  // ---------------------------------------------------------------------------
  // What the handlers promise

  /**
   * New research is refused with 409 exactly while a job is planning,
   * running or awaiting approval; from idle, complete, error or cancelled
   * the request goes on to be decoded.
   */
  lemma StartGuard(s: ServerState, body: Result<ResearchRequest, string>, id: string, planner: Planner)
    ensures ResearchStep(s, true, body, id, planner).1 == HttpError(409, "Research already in progress")
            <==> Busy(s.job.status)
  {
  }

  /** A request without a topic is refused and changes nothing. */
  lemma EmptyTopicRejected(s: ServerState, req: ResearchRequest, id: string, planner: Planner)
    requires !Busy(s.job.status) && req.topic == ""
    ensures ResearchStep(s, true, Ok(req), id, planner) == (s, HttpError(400, "Topic is required"))
  {
  }

  /**
   * An accepted request replaces the job with one for the defaulted request
   * and plans it: on success the plan is stored and the job awaits
   * approval, on failure the job is in error with the planner's message.
   */
  lemma NewJobOutcome(s: ServerState, req: ResearchRequest, id: string, planner: Planner)
    requires !Busy(s.job.status) && req.topic != ""
    ensures var (t, resp) := ResearchStep(s, true, Ok(req), id, planner);
      var cfg := AgentConfig(WithDefaults(req));
      && resp == JobReply(t.job)
      && t.job.id == id && t.job.topic == req.topic && t.job.config == WithDefaults(req) && t.job.result.None?
      && t.researcher == Some(cfg)
      && t.hasCancel == s.hasCancel && t.ctxCanceled == s.ctxCanceled
      && (planner(cfg, req.topic, "").Ok? ==>
            t.job.status == AwaitingApproval && t.job.plan == Some(planner(cfg, req.topic, "").value) && t.job.error == "")
      && (planner(cfg, req.topic, "").Err? ==>
            t.job.status == Error && t.job.plan.None? && t.job.error == "Failed to create plan: " + planner(cfg, req.topic, "").error)
  {
  }

  /**
   * Approval succeeds only from awaiting_approval with a plan and a
   * researcher, and then the job runs with a fresh, uncancelled context;
   * every refusal leaves the state as it was.
   */
  lemma ApproveRules(s: ServerState)
    ensures var (t, resp) := ApproveStep(s, true);
      && (resp == StatusReply("running") <==> s.job.status == AwaitingApproval && s.job.plan.Some? && s.researcher.Some?)
      && (resp.StatusReply? ==> t == s.(job := s.job.(status := Running), hasCancel := true, ctxCanceled := false))
      && (!resp.StatusReply? ==> t == s)
  {
  }

  /**
   * A revision is accepted only while awaiting approval; it plans again
   * from the job's own request with the feedback, and ends awaiting
   * approval with the new plan or in error without a plan.
   */
  lemma ReviseRules(s: ServerState, body: Result<string, string>, planner: Planner)
    ensures var (t, resp) := ReviseStep(s, true, body, planner);
      && (s.job.status != AwaitingApproval ==> t == s && resp == HttpError(400, "No plan awaiting revision"))
      && (s.job.status == AwaitingApproval && body.Ok? ==>
            && resp == JobReply(t.job)
            && t.job.config == s.job.config && t.researcher == s.researcher
            && (t.job.status == AwaitingApproval || (t.job.status == Error && t.job.plan.None?))
            && (t.job.status == AwaitingApproval <==>
                  s.researcher.Some? && planner(s.researcher.value, s.job.config.topic, body.value).Ok?)
            && (t.job.status == AwaitingApproval ==>
                  t.job.plan == Some(planner(s.researcher.value, s.job.config.topic, body.value).value)))
  {
    if s.job.status == AwaitingApproval && body.Ok? {
      ReplanOutcome(s.(job := s.job.(status := Planning, plan := None)), s.job.config, body.value, planner);
    }
  }

  /** Planning again ends awaiting approval with the planner's plan, or in error without a plan. */
  lemma ReplanOutcome(s: ServerState, req: ResearchRequest, feedback: string, planner: Planner)
    requires s.job.plan.None?
    ensures var t := FeedbackPlanStep(s, req, feedback, planner);
      && t.job.config == s.job.config && t.researcher == s.researcher
      && (t.job.status == AwaitingApproval || (t.job.status == Error && t.job.plan.None?))
      && (t.job.status == AwaitingApproval <==> s.researcher.Some? && planner(s.researcher.value, req.topic, feedback).Ok?)
      && (t.job.status == AwaitingApproval ==> t.job.plan == Some(planner(s.researcher.value, req.topic, feedback).value))
  {
    if s.researcher.Some? {
      var outcome := planner(s.researcher.value, req.topic, feedback);
      if outcome.Ok? {
        assert FeedbackPlanStep(s, req, feedback, planner) == s.(job := s.job.(plan := Some(outcome.value), status := AwaitingApproval));
      } else {
        assert FeedbackPlanStep(s, req, feedback, planner) == ErrorStep(s, "Failed to revise plan: " + outcome.error);
      }
    }
  }

  /**
   * Cancelling a running job with a stored cancel function cancels its
   * context and marks it cancelled; a job awaiting approval or planning is
   * dropped for a fresh idle job and the researcher is cleared; anything
   * else is refused with "Nothing to cancel".
   */
  lemma CancelRules(s: ServerState)
    ensures var (t, resp) := CancelStep(s, true);
      && (s.job.status == Running && s.hasCancel ==>
            t.job == s.job.(status := Cancelled) && t.ctxCanceled && resp == StatusReply("cancelling"))
      && (s.job.status in {AwaitingApproval, Planning} ==>
            t.job == IdleJob && t.researcher.None? && resp == StatusReply("cancelled"))
      && (resp == HttpError(400, "Nothing to cancel") <==>
            !(s.job.status == Running && s.hasCancel) && s.job.status !in {AwaitingApproval, Planning})
      && (resp.HttpError? ==> t == s)
  {
  }

  /**
   * A finished run completes the job with its result when it succeeded or
   * when its context was cancelled, and puts the job in error otherwise.
   */
  lemma ExecuteRules(s: ServerState, run: RunOutcome)
    ensures var t := ExecuteStep(s, run);
      && (t.job.status == Complete <==> run.err.None? || s.ctxCanceled)
      && (t.job.status == Complete ==> t.job.result == Some(run.result))
      && (t.job.status != Complete ==> t.job.status == Error && t.job.error == "Research failed: " + run.err.value
                                        && t.job.result == s.job.result)
      && t.researcher == s.researcher && t.job.plan == s.job.plan && t.job.config == s.job.config
  {
  }

  /**
   * The state the handlers keep between requests: no job is left planning
   * (plan creation finishes within the handler), a job awaiting approval
   * has a plan and a researcher, a running job has a cancel function, a
   * completed job has a result and a job in error has a message.
   */
  ghost predicate Consistent(s: ServerState) {
    && s.job.status != Planning
    && (s.job.status == AwaitingApproval ==> s.job.plan.Some? && s.researcher.Some?)
    && (s.job.status == Running ==> s.hasCancel)
    && (s.job.status == Complete ==> s.job.result.Some?)
    && (s.job.status == Error ==> s.job.error != "")
  }

  lemma InitialConsistent()
    ensures Consistent(InitialState)
  {
  }

  lemma ResearchKeepsConsistent(s: ServerState, isPost: bool, body: Result<ResearchRequest, string>, id: string, planner: Planner)
    requires Consistent(s)
    ensures Consistent(ResearchStep(s, isPost, body, id, planner).0)
  {
  }

  lemma ReviseKeepsConsistent(s: ServerState, isPost: bool, feedback: Result<string, string>, planner: Planner)
    requires Consistent(s)
    ensures Consistent(ReviseStep(s, isPost, feedback, planner).0)
  {
  }

  lemma OtherHandlersKeepConsistent(s: ServerState, isPost: bool, run: RunOutcome)
    requires Consistent(s)
    ensures Consistent(ApproveStep(s, isPost).0)
    ensures Consistent(CancelStep(s, isPost).0)
    ensures Consistent(ExecuteStep(s, run))
  {
  }

  /** Every handler keeps the state consistent. */
  lemma HandlersKeepConsistent(s: ServerState, isPost: bool, body: Result<ResearchRequest, string>,
                               feedback: Result<string, string>, id: string, planner: Planner, run: RunOutcome)
    requires Consistent(s)
    ensures Consistent(ResearchStep(s, isPost, body, id, planner).0)
    ensures Consistent(ApproveStep(s, isPost).0)
    ensures Consistent(ReviseStep(s, isPost, feedback, planner).0)
    ensures Consistent(CancelStep(s, isPost).0)
    ensures Consistent(ExecuteStep(s, run))
  {
    ResearchKeepsConsistent(s, isPost, body, id, planner);
    ReviseKeepsConsistent(s, isPost, feedback, planner);
    OtherHandlersKeepConsistent(s, isPost, run);
  }

  /** Between requests, approving a plan that awaits approval never fails with "Plan not found". */
  lemma ApproveNeverMissesPlan(s: ServerState)
    requires Consistent(s) && s.job.status == AwaitingApproval
    ensures ApproveStep(s, true).1 == StatusReply("running")
  {
  }

  /**
   * The status moves a handler may make, leaving aside those that change
   * nothing. A run that returns may set `Complete` or `Error` from any
   * status: the goroutine is not stopped by a cancel or a new research
   * request, so an old run can end after the job has moved on.
   */
  predicate Transition(from: Status, to: Status) {
    || (from in {Idle, Complete, Error, Cancelled} && to in {AwaitingApproval, Error})   // new research
    || (from == AwaitingApproval && to in {Running, AwaitingApproval, Error, Idle})     // approve, revise, cancel
    || (from == Planning && to == Idle)                                                  // cancel
    || (from == Running && to == Cancelled)                                              // cancel
    || to in {Complete, Error}                                                           // the run returns
  }

  lemma ResearchFollowsLifecycle(s: ServerState, isPost: bool, body: Result<ResearchRequest, string>, id: string, planner: Planner)
    ensures var t := ResearchStep(s, isPost, body, id, planner).0;
      t.job.status == s.job.status || Transition(s.job.status, t.job.status)
  {
  }

  lemma ReviseFollowsLifecycle(s: ServerState, isPost: bool, feedback: Result<string, string>, planner: Planner)
    ensures var t := ReviseStep(s, isPost, feedback, planner).0;
      t.job.status == s.job.status || Transition(s.job.status, t.job.status)
  {
  }

  /** Every handler either leaves the status alone or makes one of the listed moves. */
  lemma HandlersFollowLifecycle(s: ServerState, isPost: bool, body: Result<ResearchRequest, string>,
                                feedback: Result<string, string>, id: string, planner: Planner, run: RunOutcome)
    ensures var a := s.job.status;
      && (ResearchStep(s, isPost, body, id, planner).0.job.status == a || Transition(a, ResearchStep(s, isPost, body, id, planner).0.job.status))
      && (ApproveStep(s, isPost).0.job.status == a || Transition(a, ApproveStep(s, isPost).0.job.status))
      && (ReviseStep(s, isPost, feedback, planner).0.job.status == a || Transition(a, ReviseStep(s, isPost, feedback, planner).0.job.status))
      && (CancelStep(s, isPost).0.job.status == a || Transition(a, CancelStep(s, isPost).0.job.status))
      && Transition(a, ExecuteStep(s, run).job.status)
  {
    ResearchFollowsLifecycle(s, isPost, body, id, planner);
    ReviseFollowsLifecycle(s, isPost, feedback, planner);
  }

  // ---------------------------------------------------------------------------
  // The server object

  class Server {
    var job: Job
    var researcher: Option<Config>
    var hasCancel: bool
    var ctxCanceled: bool

    function State(): ServerState
      reads this
    {
      ServerState(job, researcher, hasCancel, ctxCanceled)
    }

    constructor ()
      ensures State() == InitialState
    {
      job := IdleJob;
      researcher := None;
      hasCancel := false;
      ctxCanceled := false;
    }

    /** `setError`. */
    method SetError(msg: string)
      modifies this
      ensures State() == ErrorStep(old(State()), msg)
    {
      job := job.(status := Error, error := msg);
    }

    /** `createPlan`. */
    method CreatePlan(req: ResearchRequest, planner: Planner)
      modifies this
      ensures State() == PlanStep(old(State()), req, planner)
    {
      var cfg := AgentConfig(req);
      researcher := Some(cfg);
      var outcome := planner(cfg, req.topic, "");
      if outcome.Err? {
        SetError("Failed to create plan: " + outcome.error);
        return;
      }
      job := job.(plan := Some(outcome.value));
      job := job.(status := AwaitingApproval);
    }

    /** `handleResearch`, with the decoded body and the job id (from the clock) given. */
    method HandleResearch(isPost: bool, body: Result<ResearchRequest, string>, id: string, planner: Planner)
      returns (resp: Response)
      modifies this
      ensures (State(), resp) == ResearchStep(old(State()), isPost, body, id, planner)
    {
      if !isPost {
        return HttpError(405, "Method not allowed");
      }
      var status := job.status;
      if status == Planning || status == Running || status == AwaitingApproval {
        return HttpError(409, "Research already in progress");
      }
      if body.Err? {
        return HttpError(400, "Invalid JSON: " + body.error);
      }
      var req := body.value;
      if req.topic == "" {
        return HttpError(400, "Topic is required");
      }
      if req.loops <= 0 {
        req := req.(loops := DefaultLoops);
      }
      if req.parallel <= 0 {
        req := req.(parallel := DefaultParallel);
      }
      if req.contextLen <= 0 {
        req := req.(contextLen := DefaultContextLen);
      }
      if req.minResults <= 0 {
        req := req.(minResults := DefaultMinResults);
      }
      if req.delayMs <= 0 {
        req := req.(delayMs := DefaultDelayMs);
      }
      assert req == WithDefaults(body.value);
      job := Job(id, req.topic, Planning, None, None, "", req);
      CreatePlan(req, planner);
      resp := JobReply(job);
    }

    /** `handleApprove`; the run it starts is `ExecuteResearch`. */
    method HandleApprove(isPost: bool) returns (resp: Response)
      modifies this
      ensures (State(), resp) == ApproveStep(old(State()), isPost)
    {
      if !isPost {
        return HttpError(405, "Method not allowed");
      }
      if job.status != AwaitingApproval {
        return HttpError(400, "No plan awaiting approval");
      }
      if job.plan.None? || researcher.None? {
        return HttpError(500, "Plan not found");
      }
      job := job.(status := Running);
      hasCancel := true;
      ctxCanceled := false;
      resp := StatusReply("running");
    }

    /** `createPlanWithFeedback`. */
    method CreatePlanWithFeedback(req: ResearchRequest, feedback: string, planner: Planner)
      modifies this
      ensures State() == FeedbackPlanStep(old(State()), req, feedback, planner)
    {
      if researcher.None? {
        SetError("Researcher not initialized");
        return;
      }
      var outcome := planner(researcher.value, req.topic, feedback);
      if outcome.Err? {
        SetError("Failed to revise plan: " + outcome.error);
        return;
      }
      job := job.(plan := Some(outcome.value), status := AwaitingApproval);
    }

    /** `handleRevise`, with the decoded feedback given. */
    method HandleRevise(isPost: bool, body: Result<string, string>, planner: Planner) returns (resp: Response)
      modifies this
      ensures (State(), resp) == ReviseStep(old(State()), isPost, body, planner)
    {
      if !isPost {
        return HttpError(405, "Method not allowed");
      }
      var req := job.config;
      if job.status != AwaitingApproval {
        return HttpError(400, "No plan awaiting revision");
      }
      if body.Err? {
        return HttpError(400, "Invalid JSON: " + body.error);
      }
      job := job.(status := Planning, plan := None);
      CreatePlanWithFeedback(req, body.value, planner);
      resp := JobReply(job);
    }

    /** `handleCancel`. */
    method HandleCancel(isPost: bool) returns (resp: Response)
      modifies this
      ensures (State(), resp) == CancelStep(old(State()), isPost)
    {
      if !isPost {
        return HttpError(405, "Method not allowed");
      }
      var status := job.status;
      if status == Running && hasCancel {
        ctxCanceled := true;
        job := job.(status := Cancelled);
        return StatusReply("cancelling");
      }
      if status == AwaitingApproval || status == Planning {
        job := IdleJob;
        researcher := None;
        return StatusReply("cancelled");
      }
      resp := HttpError(400, "Nothing to cancel");
    }

    /** `executeResearch` once the run has returned `run`. */
    method ExecuteResearch(run: RunOutcome)
      modifies this
      ensures State() == ExecuteStep(old(State()), run)
    {
      if run.err.Some? {
        if ctxCanceled {
          job := job.(status := Complete, result := Some(run.result));
          return;
        }
        SetError("Research failed: " + run.err.value);
        return;
      }
      job := job.(status := Complete, result := Some(run.result));
    }
  }
}
