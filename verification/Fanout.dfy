/**
 The bounded fan-out: one task per job, a semaphore around the calls of the reasoner, any
 interleaving, and any of the calls may raise. The results are stitched in job order.
 */
module Fanout {
  import opened Wrappers
  import opened Jobs
  import R = Reasoner

  datatype Config = Config(jobs: seq<Job>, concurrency: int, dna: Option<string>)

  function Limit(cfg: Config): nat {
    if cfg.concurrency < 1 then 1 else cfg.concurrency
  }

  /** How one task ends: with a callback, or with an exception that `gather` returns. */
  datatype Outcome = Returned(cb: R.Callback) | Exception

  datatype Task = Ready | Waiting | Running | Done(outcome: Outcome)

  datatype State = State(free: nat, tasks: seq<Task>)

  datatype Event =
    | Start(i: nat)                       // the coroutine runs up to the semaphore
    | CloneFails(i: nat)                  // cloning the envelope raises
    | Acquire(i: nat)                     // a permit is taken, the call starts
    | Finish(i: nat, outcome: Outcome)    // the call ends, the permit is given back

  /** `reason` may end like this, for some context, replies and validator. */
  ghost predicate MayEnd(outcome: Outcome, dna: Option<string>) {
    outcome.Returned? ==>
      exists n: R.Normalized, reply: nat -> R.Reply, validate: R.Enrichment -> R.Verdict ::
        R.Reasoned(n, reply, validate, dna).result == Ok(outcome.cb)
  }

  const UNSUPPORTED: Outcome := Returned(R.Failure(R.UnsupportedAction))

  ghost predicate Enabled(cfg: Config, w: State, e: Event) {
    && e.i < |w.tasks| == |cfg.jobs|
    && match e
       case Start(i) => w.tasks[i] == Ready
       case CloneFails(i) => w.tasks[i] == Ready && IsLlmAction(cfg.jobs[i].actionKey)
       case Acquire(i) => w.tasks[i] == Waiting && w.free > 0
       case Finish(i, outcome) => w.tasks[i] == Running && MayEnd(outcome, cfg.dna)
  }

  function Apply(cfg: Config, w: State, e: Event): State
    requires e.i < |w.tasks| == |cfg.jobs|
    requires e.Acquire? ==> w.free > 0
  {
    match e
    case Start(i) =>
      w.(tasks := w.tasks[i := if IsLlmAction(cfg.jobs[i].actionKey) then Waiting else Done(UNSUPPORTED)])
    case CloneFails(i) => w.(tasks := w.tasks[i := Done(Exception)])
    case Acquire(i) => State(w.free - 1, w.tasks[i := Running])
    case Finish(i, outcome) => State(w.free + 1, w.tasks[i := Done(outcome)])
  }

  function Initial(cfg: Config): State {
    State(Limit(cfg), seq(|cfg.jobs|, i => Ready))
  }

  ghost predicate IsRun(cfg: Config, ws: seq<State>, es: seq<Event>) {
    && |ws| == |es| + 1
    && ws[0] == Initial(cfg)
    && forall k :: 0 <= k < |es| ==> Enabled(cfg, ws[k], es[k]) && ws[k + 1] == Apply(cfg, ws[k], es[k])
  }

  predicate Complete(w: State) {
    forall i :: 0 <= i < |w.tasks| ==> w.tasks[i].Done?
  }

  // ---- Permits ----

  function RunningCount(tasks: seq<Task>): nat {
    if tasks == [] then 0 else
    RunningCount(tasks[..|tasks| - 1]) + (if tasks[|tasks| - 1] == Running then 1 else 0)
  }

  lemma {:induction false} CountUpdate(tasks: seq<Task>, i: nat, t: Task)
    requires i < |tasks|
    ensures RunningCount(tasks[i := t])
            == RunningCount(tasks) - (if tasks[i] == Running then 1 else 0) + (if t == Running then 1 else 0)
  {
    var last := |tasks| - 1;
    if i == last {
      assert tasks[i := t][..last] == tasks[..last];
    } else {
      assert tasks[i := t][..last] == tasks[..last][i := t];
      CountUpdate(tasks[..last], i, t);
    }
  }

  lemma {:induction false} NoneRunning(tasks: seq<Task>)
    requires forall i :: 0 <= i < |tasks| ==> tasks[i] != Running
    ensures RunningCount(tasks) == 0
  {
    if tasks != [] {
      NoneRunning(tasks[..|tasks| - 1]);
    }
  }

  lemma {:induction false} SomeRunning(tasks: seq<Task>) returns (i: nat)
    requires RunningCount(tasks) > 0
    ensures i < |tasks| && tasks[i] == Running
  {
    var last := |tasks| - 1;
    if tasks[last] == Running {
      i := last;
    } else {
      i := SomeRunning(tasks[..last]);
    }
  }

  /** In every reachable state the free permits and the calls in flight add up to the
      limit, and a job with an unsupported action is never in flight or in line. */
  lemma {:induction false} PermitsAreConserved(cfg: Config, ws: seq<State>, es: seq<Event>, k: nat)
    requires IsRun(cfg, ws, es) && k <= |es|
    ensures |ws[k].tasks| == |cfg.jobs|
    ensures ws[k].free + RunningCount(ws[k].tasks) == (if cfg.concurrency < 1 then 1 else cfg.concurrency)
    ensures forall i :: 0 <= i < |cfg.jobs| && !IsLlmAction(cfg.jobs[i].actionKey) ==>
              ws[k].tasks[i] == Ready || ws[k].tasks[i] == Done(UNSUPPORTED)
  {
    if k == 0 {
      NoneRunning(ws[0].tasks);
    } else {
      PermitsAreConserved(cfg, ws, es, k - 1);
      var w, e := ws[k - 1], es[k - 1];
      assert Enabled(cfg, w, e) && ws[k] == Apply(cfg, w, e);
      CountUpdate(w.tasks, e.i, ws[k].tasks[e.i]);
    }
  }

  // ---- Progress ----

  function Steps(t: Task): nat {
    match t
    case Ready => 3
    case Waiting => 2
    case Running => 1
    case Done(_) => 0
  }

  function StepsLeft(tasks: seq<Task>): nat {
    if tasks == [] then 0 else StepsLeft(tasks[..|tasks| - 1]) + Steps(tasks[|tasks| - 1])
  }

  lemma {:induction false} StepsUpdate(tasks: seq<Task>, i: nat, t: Task)
    requires i < |tasks|
    ensures StepsLeft(tasks[i := t]) == StepsLeft(tasks) - Steps(tasks[i]) + Steps(t)
  {
    var last := |tasks| - 1;
    if i == last {
      assert tasks[i := t][..last] == tasks[..last];
    } else {
      assert tasks[i := t][..last] == tasks[..last][i := t];
      StepsUpdate(tasks[..last], i, t);
    }
  }

  lemma {:induction false} AllReady(n: nat)
    ensures StepsLeft(seq(n, i => Ready)) == 3 * n
  {
    if n > 0 {
      AllReady(n - 1);
      assert seq(n, i => Ready)[..n - 1] == seq(n - 1, i => Ready);
    }
  }

  /** Every run ends: it has at most three events for each job. */
  lemma {:induction false} RunsAreBounded(cfg: Config, ws: seq<State>, es: seq<Event>, k: nat)
    requires IsRun(cfg, ws, es) && k <= |es|
    ensures k + StepsLeft(ws[k].tasks) <= 3 * |cfg.jobs|
  {
    if k == 0 {
      AllReady(|cfg.jobs|);
    } else {
      RunsAreBounded(cfg, ws, es, k - 1);
      var w, e := ws[k - 1], es[k - 1];
      assert Enabled(cfg, w, e) && ws[k] == Apply(cfg, w, e);
      StepsUpdate(w.tasks, e.i, ws[k].tasks[e.i]);
    }
  }

  /** No deadlock: unless every task is done, some event is enabled. */
  lemma SomethingCanHappen(cfg: Config, ws: seq<State>, es: seq<Event>) returns (e: Event)
    requires IsRun(cfg, ws, es) && !Complete(ws[|es|])
    ensures Enabled(cfg, ws[|es|], e)
  {
    var w := ws[|es|];
    PermitsAreConserved(cfg, ws, es, |es|);
    var i :| 0 <= i < |w.tasks| && !w.tasks[i].Done?;
    match w.tasks[i]
    case Ready => e := Start(i);
    case Running => e := Finish(i, Exception);
    case Waiting =>
      if w.free > 0 {
        e := Acquire(i);
      } else {
        var j := SomeRunning(w.tasks);
        e := Finish(j, Exception);
      }
  }

  // ---- Stitching ----

  type JobResult = (R.Callback, Job)

  /** The callback of one task, with the position of its job stamped on its trace. */
  function Stamped(outcome: Outcome, job: Job, total: nat): R.Callback {
    var cb := match outcome
      case Returned(cb) => cb
      case Exception => R.Failure(R.FanoutException);
    match cb.output
    case None => cb
    case Some(out) =>
      cb.(output := Some(out.(trace := out.trace.(jobIndex := Some(job.index), jobActionKey := Some(job.actionKey),
                                                  totalJobs := Some(total)))))
  }

  function Stitched(cfg: Config, w: State): (r: seq<JobResult>)
    requires |w.tasks| == |cfg.jobs| && Complete(w)
    ensures |r| == |cfg.jobs|
    ensures forall i :: 0 <= i < |r| ==> r[i] == (Stamped(w.tasks[i].outcome, cfg.jobs[i], |cfg.jobs|), cfg.jobs[i])
  {
    seq(|cfg.jobs|, i requires 0 <= i < |cfg.jobs| =>
      (Stamped(w.tasks[i].outcome, cfg.jobs[i], |cfg.jobs|), cfg.jobs[i]))
  }

  method Stitch(cfg: Config, w: State) returns (results: seq<JobResult>, okCount: nat, failedCount: nat)
    requires |w.tasks| == |cfg.jobs| && Complete(w)
    ensures results == Stitched(cfg, w)
    ensures okCount == |CompletedAt(results)| && okCount + failedCount == |cfg.jobs|
  {
    results, okCount, failedCount := [], 0, 0;
    for i := 0 to |cfg.jobs|
      invariant results == Stitched(cfg, w)[..i]
      invariant okCount == |CompletedAt(results)| && okCount + failedCount == i
    {
      var cb := Stamped(w.tasks[i].outcome, cfg.jobs[i], |cfg.jobs|);
      if cb.status == R.Completed {
        okCount := okCount + 1;
      } else {
        failedCount := failedCount + 1;
      }
      OneMoreCompleted(results, (cb, cfg.jobs[i]));
      results := results + [(cb, cfg.jobs[i])];
    }
  }

  /** The positions of the completed results. */
  function CompletedAt(results: seq<JobResult>): set<int> {
    set i | 0 <= i < |results| && results[i].0.status == R.Completed
  }

  lemma OneMoreCompleted(results: seq<JobResult>, r: JobResult)
    ensures CompletedAt(results + [r]) == CompletedAt(results) + (if r.0.status == R.Completed then {|results|} else {})
    ensures |CompletedAt(results + [r])| == |CompletedAt(results)| + (if r.0.status == R.Completed then 1 else 0)
  {
    assert |results| !in CompletedAt(results);
    assert CompletedAt(results + [r]) == CompletedAt(results) + (if r.0.status == R.Completed then {|results|} else {});
  }

  // ---- Independence ----

  /** How the outside world answers one job, should its turn come. */
  datatype Answer = CloneRaises | Ends(outcome: Outcome)

  /** The run's clone failures and call endings are those that the answers prescribe. */
  ghost predicate Follows(cfg: Config, es: seq<Event>, answers: seq<Answer>)
    requires |answers| == |cfg.jobs|
  {
    forall k :: 0 <= k < |es| && es[k].i < |answers| ==>
      && (es[k].CloneFails? ==> answers[es[k].i] == CloneRaises)
      && (es[k].Finish? ==> answers[es[k].i] == Ends(es[k].outcome))
  }

  /** What a job comes to, from its own action and its own answer. */
  function Due(job: Job, answer: Answer): Outcome {
    if !IsLlmAction(job.actionKey) then UNSUPPORTED
    else match answer
      case CloneRaises => Exception
      case Ends(outcome) => outcome
  }

  /** The callback is the given one, with the position of the job on its trace, and nothing
      else about it is changed. */
  predicate IsStampedCopy(r: R.Callback, cb: R.Callback, job: Job, total: nat) {
    && r.status == cb.status && r.error == cb.error && (r.output.Some? <==> cb.output.Some?)
    && (cb.output.Some? ==>
          var out, was := r.output.value, cb.output.value;
          && out.data == was.data && out.enrichment == was.enrichment && out.warnings == was.warnings
          && out.trace.usage == was.trace.usage && out.trace.repairAttempted == was.trace.repairAttempted
          && out.trace.degraded == was.trace.degraded
          && out.trace.jobIndex == Some(job.index) && out.trace.jobActionKey == Some(job.actionKey)
          && out.trace.totalJobs == Some(total))
  }

  predicate FailsWith(r: R.Callback, e: R.Error) {
    r.status == R.Failed && r.output == None && r.error == Some(e)
  }

  /** What a job's result has to be, given how the outside world answers the job. */
  predicate IsResultOf(r: R.Callback, job: Job, answer: Answer, total: nat) {
    if job.actionKey != "create_post" && job.actionKey != "edit_post" then FailsWith(r, R.UnsupportedAction)
    else if answer.Ends? && answer.outcome.Returned? then IsStampedCopy(r, answer.outcome.cb, job, total)
    else FailsWith(r, R.FanoutException)
  }

  lemma StampedIsResult(job: Job, answer: Answer, total: nat)
    ensures IsResultOf(Stamped(Due(job, answer), job, total), job, answer, total)
  {
  }

  /** Every complete run, whatever its schedule: each job's result is the callback of its own
      call, stamped; a call that raises fails the job, and so does an unsupported action. */
  lemma ResultsAreTheAnswers(cfg: Config, ws: seq<State>, es: seq<Event>, answers: seq<Answer>, i: nat)
    requires IsRun(cfg, ws, es) && |answers| == |cfg.jobs| && Follows(cfg, es, answers) && Complete(ws[|es|])
    requires i < |cfg.jobs|
    ensures |ws[|es|].tasks| == |cfg.jobs| && Stitched(cfg, ws[|es|])[i].1 == cfg.jobs[i]
    ensures IsResultOf(Stitched(cfg, ws[|es|])[i].0, cfg.jobs[i], answers[i], |cfg.jobs|)
  {
    PermitsAreConserved(cfg, ws, es, |es|);
    DoneAsDue(cfg, ws, es, answers, |es|, i);
    StampedIsResult(cfg.jobs[i], answers[i], |cfg.jobs|);
  }

  /** A job is completed if and only if its action is supported and its call returns a
      completed callback. */
  lemma CompletedIffAnswered(cfg: Config, ws: seq<State>, es: seq<Event>, answers: seq<Answer>, i: nat)
    requires IsRun(cfg, ws, es) && |answers| == |cfg.jobs| && Follows(cfg, es, answers) && Complete(ws[|es|])
    requires i < |cfg.jobs|
    ensures |ws[|es|].tasks| == |cfg.jobs|
    ensures Stitched(cfg, ws[|es|])[i].0.status == R.Completed <==>
            && cfg.jobs[i].actionKey in {"create_post", "edit_post"}
            && answers[i].Ends? && answers[i].outcome.Returned? && answers[i].outcome.cb.status == R.Completed
  {
    ResultsAreTheAnswers(cfg, ws, es, answers, i);
  }

  lemma {:induction false} DoneAsDue(cfg: Config, ws: seq<State>, es: seq<Event>, answers: seq<Answer>, k: nat, i: nat)
    requires IsRun(cfg, ws, es) && |answers| == |cfg.jobs| && Follows(cfg, es, answers)
    requires k <= |es| && i < |cfg.jobs|
    ensures |ws[k].tasks| == |cfg.jobs|
    ensures ws[k].tasks[i].Done? ==> ws[k].tasks[i].outcome == Due(cfg.jobs[i], answers[i])
    ensures ws[k].tasks[i] == Waiting || ws[k].tasks[i] == Running ==> IsLlmAction(cfg.jobs[i].actionKey)
  {
    if k > 0 {
      DoneAsDue(cfg, ws, es, answers, k - 1, i);
      assert Enabled(cfg, ws[k - 1], es[k - 1]) && ws[k] == Apply(cfg, ws[k - 1], es[k - 1]);
    }
  }

  /** The results do not depend on the schedule or on the concurrency: two complete runs
      whose answers agree on a job give it the same result, whatever happens to the other
      jobs. In particular an exception in one job changes no other job's result. */
  lemma ResultsAreIndependent(cfg: Config, ws: seq<State>, es: seq<Event>, answers: seq<Answer>,
                              cfg': Config, vs: seq<State>, fs: seq<Event>, answers': seq<Answer>, i: nat)
    requires IsRun(cfg, ws, es) && |answers| == |cfg.jobs| && Follows(cfg, es, answers) && Complete(ws[|es|])
    requires IsRun(cfg', vs, fs) && |answers'| == |cfg'.jobs| && Follows(cfg', fs, answers') && Complete(vs[|fs|])
    requires cfg.jobs == cfg'.jobs && i < |cfg.jobs| && answers[i] == answers'[i]
    ensures |ws[|es|].tasks| == |cfg.jobs| && |vs[|fs|].tasks| == |cfg'.jobs|
    ensures Stitched(cfg, ws[|es|])[i] == Stitched(cfg', vs[|fs|])[i]
  {
    PermitsAreConserved(cfg, ws, es, |es|);
    PermitsAreConserved(cfg', vs, fs, |fs|);
    DoneAsDue(cfg, ws, es, answers, |es|, i);
    DoneAsDue(cfg', vs, fs, answers', |fs|, i);
  }

  // ---- What the results look like ----

  lemma {:induction false} OutcomesMayEnd(cfg: Config, ws: seq<State>, es: seq<Event>, k: nat, i: nat)
    requires IsRun(cfg, ws, es) && k <= |es| && i < |cfg.jobs|
    ensures |ws[k].tasks| == |cfg.jobs|
    ensures ws[k].tasks[i].Done? ==> ws[k].tasks[i].outcome == UNSUPPORTED || MayEnd(ws[k].tasks[i].outcome, cfg.dna)
  {
    if k > 0 {
      OutcomesMayEnd(cfg, ws, es, k - 1, i);
      assert Enabled(cfg, ws[k - 1], es[k - 1]) && ws[k] == Apply(cfg, ws[k - 1], es[k - 1]);
    }
  }

  /** One settled result per job, in job order. */
  ghost predicate OnePerJob(jobs: seq<Job>, results: seq<JobResult>) {
    && |results| == |jobs|
    && forall i :: 0 <= i < |jobs| ==> results[i].1 == jobs[i] && R.Settled(results[i].0)
  }

  lemma SettledOutcome(outcome: Outcome, dna: Option<string>, job: Job, total: nat)
    requires outcome == UNSUPPORTED || MayEnd(outcome, dna)
    ensures var cb := Stamped(outcome, job, total);
            && R.Settled(cb)
            && (cb.status == R.Completed ==>
                  && cb.output.value.trace.jobIndex == Some(job.index)
                  && cb.output.value.trace.totalJobs == Some(total)
                  && cb.output.value.data.clientDna == cb.output.value.enrichment.brandDna
                  && (dna.Some? && dna.value != "" ==> cb.output.value.data.clientDna == dna.value))
  {
    if outcome.Returned? && outcome != UNSUPPORTED {
      var n: R.Normalized, reply: nat -> R.Reply, validate: R.Enrichment -> R.Verdict :|
        R.Reasoned(n, reply, validate, dna).result == Ok(outcome.cb);
      R.CallsAreBounded(n, reply, validate, dna);
      if outcome.cb.status == R.Completed {
        R.BrandDnaIsInjected(n, reply, validate, dna);
      }
    }
  }

  /** Every complete run yields one settled result per job, in job order; every COMPLETED
      one is stamped with its index and the total, and, if the brand DNA was extracted
      beforehand, carries that same string in the enrichment and in the payload. */
  lemma BatchIsUniform(cfg: Config, ws: seq<State>, es: seq<Event>)
    requires IsRun(cfg, ws, es) && Complete(ws[|es|])
    ensures |ws[|es|].tasks| == |cfg.jobs|
    ensures OnePerJob(cfg.jobs, Stitched(cfg, ws[|es|]))
    ensures forall i :: 0 <= i < |cfg.jobs| && Stitched(cfg, ws[|es|])[i].0.status == R.Completed ==>
              var out := Stitched(cfg, ws[|es|])[i].0.output.value;
              && out.trace.jobIndex == Some(cfg.jobs[i].index) && out.trace.totalJobs == Some(|cfg.jobs|)
              && out.data.clientDna == out.enrichment.brandDna
              && (cfg.dna.Some? && cfg.dna.value != "" ==> out.data.clientDna == cfg.dna.value)
  {
    PermitsAreConserved(cfg, ws, es, |es|);
    forall i | 0 <= i < |cfg.jobs|
      ensures var cb := Stamped(ws[|es|].tasks[i].outcome, cfg.jobs[i], |cfg.jobs|);
              && R.Settled(cb)
              && (cb.status == R.Completed ==>
                    && cb.output.value.trace.jobIndex == Some(cfg.jobs[i].index)
                    && cb.output.value.trace.totalJobs == Some(|cfg.jobs|)
                    && cb.output.value.data.clientDna == cb.output.value.enrichment.brandDna
                    && (cfg.dna.Some? && cfg.dna.value != "" ==> cb.output.value.data.clientDna == cfg.dna.value))
    {
      OutcomesMayEnd(cfg, ws, es, |es|, i);
      SettledOutcome(ws[|es|].tasks[i].outcome, cfg.dna, cfg.jobs[i], |cfg.jobs|);
    }
  }

  // ---- The scheduler ----

  /** Task i can take its next step. */
  predicate Runnable(w: State, i: int) {
    0 <= i < |w.tasks| && (w.tasks[i] == Ready || w.tasks[i] == Running || (w.tasks[i] == Waiting && w.free > 0))
  }

  function NextEvent(cfg: Config, w: State, i: nat, answer: Answer): Event
    requires i < |w.tasks| == |cfg.jobs|
  {
    match w.tasks[i]
    case Ready => if answer.CloneRaises? && IsLlmAction(cfg.jobs[i].actionKey) then CloneFails(i) else Start(i)
    case Waiting => Acquire(i)
    case _ => Finish(i, Due(cfg.jobs[i], answer))
  }

  ghost predicate AnswersMayCome(answer: nat -> Answer, dna: Option<string>) {
    forall i :: answer(i).Ends? ==> MayEnd(answer(i).outcome, dna)
  }

  /** A call in line or in flight is one that ends. */
  ghost predicate UnderWay(cfg: Config, w: State, answer: nat -> Answer) {
    && |w.tasks| == |cfg.jobs|
    && forall i :: 0 <= i < |w.tasks| && (w.tasks[i] == Waiting || w.tasks[i] == Running) ==>
         IsLlmAction(cfg.jobs[i].actionKey) && answer(i).Ends?
  }

  lemma SomethingIsRunnable(cfg: Config, ws: seq<State>, es: seq<Event>)
    requires IsRun(cfg, ws, es) && !Complete(ws[|es|])
    ensures exists i :: Runnable(ws[|es|], i)
  {
    var e := SomethingCanHappen(cfg, ws, es);
    assert Runnable(ws[|es|], e.i);
  }

  lemma NextEventIsEnabled(cfg: Config, w: State, i: nat, answer: nat -> Answer)
    requires AnswersMayCome(answer, cfg.dna) && UnderWay(cfg, w, answer) && Runnable(w, i)
    ensures Enabled(cfg, w, NextEvent(cfg, w, i, answer(i)))
    ensures UnderWay(cfg, Apply(cfg, w, NextEvent(cfg, w, i, answer(i))), answer)
    ensures StepsLeft(Apply(cfg, w, NextEvent(cfg, w, i, answer(i))).tasks) < StepsLeft(w.tasks)
  {
    var e := NextEvent(cfg, w, i, answer(i));
    StepsUpdate(w.tasks, i, Apply(cfg, w, e).tasks[i]);
  }

  lemma RunGrows(cfg: Config, ws: seq<State>, es: seq<Event>, e: Event)
    requires IsRun(cfg, ws, es) && Enabled(cfg, ws[|es|], e)
    ensures IsRun(cfg, ws + [Apply(cfg, ws[|es|], e)], es + [e])
  {
    var vs, fs := ws + [Apply(cfg, ws[|es|], e)], es + [e];
    forall k | 0 <= k < |fs| ensures Enabled(cfg, vs[k], fs[k]) && vs[k + 1] == Apply(cfg, vs[k], fs[k]) {
      if k < |es| {
        assert vs[k] == ws[k] && vs[k + 1] == ws[k + 1] && fs[k] == es[k];
      }
    }
  }

  /** The event loop: any task that can go on may be the next to do so. */
  method Schedule(cfg: Config, answer: nat -> Answer) returns (w: State, ghost ws: seq<State>, ghost es: seq<Event>)
    requires AnswersMayCome(answer, cfg.dna)
    ensures IsRun(cfg, ws, es) && w == ws[|es|] && Complete(w)
    ensures Follows(cfg, es, seq(|cfg.jobs|, i requires 0 <= i => answer(i)))
  {
    ghost var answers := seq(|cfg.jobs|, i requires 0 <= i => answer(i));
    w := Initial(cfg);
    ws, es := [w], [];
    while !Complete(w)
      invariant IsRun(cfg, ws, es) && w == ws[|es|] && UnderWay(cfg, w, answer)
      invariant Follows(cfg, es, answers)
      decreases StepsLeft(w.tasks)
    {
      SomethingIsRunnable(cfg, ws, es);
      var i :| Runnable(w, i);
      var e := NextEvent(cfg, w, i, answer(i));
      NextEventIsEnabled(cfg, w, i, answer);
      RunGrows(cfg, ws, es, e);
      w := Apply(cfg, w, e);
      ws, es := ws + [w], es + [e];
    }
  }

  // ---- The whole of the fan-out ----

  /** How `normalize` ends: with its result, a ValueError included, or with another exception. */
  datatype Normalizing = Normalizes(n: R.Normalized) | Raises

  type BatchResult = (R.Callback, Option<Job>)

  /** A failure of the batch as a whole is its only result, and has no job. */
  function Global(e: R.Error): seq<BatchResult> {
    [(R.Failure(e), None)]
  }

  predicate IsGlobalFailure(results: Result<seq<BatchResult>, R.Crash>, e: R.Error) {
    results.Ok? && |results.value| == 1 && results.value[0].1 == None && FailsWith(results.value[0].0, e)
  }

  function Answered(jobs: seq<Job>, answer: nat -> Answer): (r: seq<BatchResult>)
    ensures |r| == |jobs|
    ensures forall i :: 0 <= i < |r| ==> r[i] == (Stamped(Due(jobs[i], answer(i)), jobs[i], |jobs|), Some(jobs[i]))
  {
    seq(|jobs|, i requires 0 <= i < |jobs| => (Stamped(Due(jobs[i], answer(i)), jobs[i], |jobs|), Some(jobs[i])))
  }

  lemma AnsweredAreResults(jobs: seq<Job>, answer: nat -> Answer)
    ensures forall i :: 0 <= i < |jobs| ==> IsResultOf(Answered(jobs, answer)[i].0, jobs[i], answer(i), |jobs|)
  {
    forall i | 0 <= i < |jobs| ensures IsResultOf(Answered(jobs, answer)[i].0, jobs[i], answer(i), |jobs|) {
      StampedIsResult(jobs[i], answer(i), |jobs|);
    }
  }

  function Fanned(norm: Normalizing, jobs: seq<Job>, dna: Result<Option<string>, R.Crash>, answer: nat -> Answer)
    : Result<seq<BatchResult>, R.Crash>
  {
    if norm.Raises? then Raised(R.OtherCrash)
    else if norm.n.Rejected? then Ok(Global(R.NormalizeError(norm.n.message)))
    else if jobs == [] then Ok(Global(R.NoJobs))
    else if dna.Raised? then Raised(dna.error)
    else Ok(Answered(jobs, answer))
  }

  /** `reason_multi_fanout`; `dna` is what the extraction of the brand DNA yields. */
  method ReasonMultiFanout(norm: Normalizing, jobs: seq<Job>, dna: Result<Option<string>, R.Crash>, concurrency: int,
                           answer: nat -> Answer) returns (results: Result<seq<BatchResult>, R.Crash>)
    requires dna.Ok? ==> AnswersMayCome(answer, dna.value)
    ensures results == Fanned(norm, jobs, dna, answer)
    ensures results.Raised? <==> norm.Raises? || (norm.n.Context? && jobs != [] && dna.Raised?)
    ensures norm.Normalizes? && norm.n.Rejected? ==> IsGlobalFailure(results, R.NormalizeError(norm.n.message))
    ensures norm.Normalizes? && norm.n.Context? && jobs == [] ==> IsGlobalFailure(results, R.NoJobs)
    ensures norm.Normalizes? && norm.n.Context? && jobs != [] && dna.Ok? ==>
              && results.Ok? && |results.value| == |jobs|
              && forall i :: 0 <= i < |jobs| ==>
                   results.value[i].1 == Some(jobs[i]) && IsResultOf(results.value[i].0, jobs[i], answer(i), |jobs|)
  {
    if norm.Raises? {
      return Raised(R.OtherCrash);
    }
    if norm.n.Rejected? {
      return Ok(Global(R.NormalizeError(norm.n.message)));
    }
    if jobs == [] {
      return Ok(Global(R.NoJobs));
    }
    if dna.Raised? {
      return Raised(dna.error);
    }
    var cfg := Config(jobs, concurrency, dna.value);
    var w;
    ghost var ws, es;
    w, ws, es := Schedule(cfg, answer);
    PermitsAreConserved(cfg, ws, es, |es|);
    var stitched, _, _ := Stitch(cfg, w);
    EndsAsAnswered(cfg, ws, es, answer);
    var pairs: seq<BatchResult> := seq(|jobs|, i requires 0 <= i < |stitched| => (stitched[i].0, Some(stitched[i].1)));
    assert pairs == Answered(jobs, answer);
    AnsweredAreResults(jobs, answer);
    results := Ok(pairs);
  }

  /** Whatever the schedule, each job's result is the one that its answer prescribes. */
  lemma EndsAsAnswered(cfg: Config, ws: seq<State>, es: seq<Event>, answer: nat -> Answer)
    requires IsRun(cfg, ws, es) && Complete(ws[|es|])
    requires Follows(cfg, es, seq(|cfg.jobs|, i requires 0 <= i => answer(i)))
    ensures |ws[|es|].tasks| == |cfg.jobs|
    ensures forall i :: 0 <= i < |cfg.jobs| ==>
              Answered(cfg.jobs, answer)[i] == (Stitched(cfg, ws[|es|])[i].0, Some(Stitched(cfg, ws[|es|])[i].1))
  {
    PermitsAreConserved(cfg, ws, es, |es|);
    var answers := seq(|cfg.jobs|, i requires 0 <= i => answer(i));
    forall i | 0 <= i < |cfg.jobs| ensures ws[|es|].tasks[i].outcome == Due(cfg.jobs[i], answer(i)) {
      DoneAsDue(cfg, ws, es, answers, |es|, i);
    }
  }

  lemma MayEndSettles(outcome: Outcome, dna: Option<string>)
    requires MayEnd(outcome, dna) && outcome.Returned?
    ensures R.Settled(outcome.cb)
    ensures outcome.cb.status == R.Completed ==>
              && outcome.cb.output.value.data.clientDna == outcome.cb.output.value.enrichment.brandDna
              && (dna.Some? && dna.value != "" ==> outcome.cb.output.value.data.clientDna == dna.value)
  {
    var n: R.Normalized, reply: nat -> R.Reply, validate: R.Enrichment -> R.Verdict :|
      R.Reasoned(n, reply, validate, dna).result == Ok(outcome.cb);
    R.CallsAreBounded(n, reply, validate, dna);
    if outcome.cb.status == R.Completed {
      R.BrandDnaIsInjected(n, reply, validate, dna);
    }
  }
}
