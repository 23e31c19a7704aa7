/**
 What a `subscription_strategy` task delivers, and what comes of its batch: the split of the
 jobs, the reasoner on the rebuilt request, and the aggregate callback.
 */
module Batches {
  import opened Wrappers
  import opened Jobs
  import opened Persistence
  import R = Reasoner
  import F = Fanout
  import M = MultiReasoner

  // ---- What a task delivers ----

  /** A member of a JSON object where an object is expected. An object is Given, even an
      empty one, on which `.get` works; Falsy is null, zero, false, or an empty text or list;
      Malformed is any other value. */
  datatype Field<+T> = Missing | Falsy | Given(value: T) | Malformed

  datatype ClientRequest = ClientRequest(jobs: Option<seq<RawItem>>, describable: bool)

  datatype Payload = Payload(account: Field<string>, clientRequest: Field<ClientRequest>)

  /** A callback URL: none, one that the HTTP client takes, or anything else. */
  datatype Address = NoUrl | GoodUrl | BadUrl

  /** A correlation id: a falsy one, a text in ASCII, which can be put in a header, or
      anything else, such as a number or a text with a letter outside ASCII. */
  datatype Correlation = NoId | HeaderId | OtherId

  datatype Envelope = Envelope(taskId: string, callback: Address, correlation: Correlation, payload: Field<Payload>)

  /** `(envelope.get("payload") or {}).get("context", {}).get(...)` does not raise. */
  predicate ContextIsReadable(env: Envelope) {
    match env.payload
    case Given(p) => p.account.Missing? || p.account.Given?
    case Malformed => false
    case _ => true
  }

  function RequestOf(env: Envelope): Field<ClientRequest> {
    if env.payload.Given? then env.payload.value.clientRequest else Missing
  }

  function AccountOf(env: Envelope): string {
    if env.payload.Given? && env.payload.value.account.Given? then env.payload.value.account.value else ""
  }

  function ItemsOf(env: Envelope): seq<RawItem> {
    var cr := RequestOf(env);
    if cr.Given? && cr.value.jobs.Some? then cr.value.jobs.value else []
  }

  function LlmJobsOf(env: Envelope): seq<Job> { LlmJobs(Expanded(ItemsOf(env))) }

  function PassthroughOf(env: Envelope): seq<Job> { PassthroughJobs(Expanded(ItemsOf(env))) }

  predicate HasCallback(env: Envelope) {
    env.callback != NoUrl
  }

  /** The HTTP client can build a callback. */
  predicate CallbackIsSendable(env: Envelope) {
    env.callback == GoodUrl && env.correlation != OtherId
  }

  /** It can build a request to the orchestrator. */
  predicate JobIsSendable(env: Envelope) {
    env.correlation != OtherId
  }

  /** What a caller can see to: the members have the types that the worker takes for granted. */
  predicate Readable(env: Envelope) {
    && (HasCallback(env) ==> CallbackIsSendable(env))
    && ContextIsReadable(env) && !RequestOf(env).Malformed?
    && forall k :: 0 <= k < |ItemsOf(env)| && ItemsOf(env)[k].Object? ==> ItemsOf(env)[k].quantity != NotFinite
  }

  predicate Unbounded(item: RawItem) {
    item.Object? && item.quantity == NotFinite
  }

  /** The same, member by member: nothing that is looked into may be something else than an
      object, no quantity may be without bound, and a callback can be built if there is to be
      one. */
  lemma ReadableMeans(env: Envelope)
    ensures Readable(env) <==>
            && (env.callback == NoUrl || (env.callback == GoodUrl && env.correlation != OtherId))
            && match env.payload
               case Malformed => false
               case Given(p) =>
                 && (p.account.Missing? || p.account.Given?) && !p.clientRequest.Malformed?
                 && (p.clientRequest.Given? && p.clientRequest.value.jobs.Some? ==>
                       forall item :: item in p.clientRequest.value.jobs.value ==> !Unbounded(item))
               case _ => true
  {
    var items := ItemsOf(env);
    assert forall k :: 0 <= k < |items| ==> items[k] in items;
  }

  // ---- The results of a batch ----

  /** What a batch comes to: the reasoner raises, it turns the request away, or it answers
      job by job. */
  datatype Batch = Crashes | Rejects(message: string) | Answers(answer: nat -> F.Answer)

  /** Every answer is a settled callback or an exception. */
  ghost predicate SettledAnswers(batch: Batch) {
    batch.Answers? ==>
      forall i :: batch.answer(i).Ends? && batch.answer(i).outcome.Returned? ==> R.Settled(batch.answer(i).outcome.cb)
  }

  function BatchResults(llmJobs: seq<Job>, batch: Batch): seq<F.BatchResult> {
    match batch
    case Crashes => F.Global(R.InternalError)
    case Rejects(message) => F.Global(R.NormalizeError(message))
    case Answers(answer) => F.Answered(Renumbered(llmJobs), answer)
  }

  /** A failure of the whole batch is the only result and has no job. */
  predicate IsGlobal(results: seq<F.BatchResult>) {
    |results| == 1 && results[0].1 == None && R.Settled(results[0].0) && results[0].0.status == R.Failed
  }

  predicate IsPerJob(results: seq<F.BatchResult>, jobs: seq<Job>) {
    && |results| == |jobs|
    && forall k :: 0 <= k < |jobs| ==> results[k].1 == Some(jobs[k]) && R.Settled(results[k].0)
  }

  lemma ResultsHaveShape(llmJobs: seq<Job>, batch: Batch)
    requires SettledAnswers(batch)
    ensures if batch.Answers? then IsPerJob(BatchResults(llmJobs, batch), Renumbered(llmJobs))
            else IsGlobal(BatchResults(llmJobs, batch))
    ensures batch.Answers? ==>
              forall k :: 0 <= k < |llmJobs| ==>
                F.IsResultOf(BatchResults(llmJobs, batch)[k].0, Renumbered(llmJobs)[k], batch.answer(k), |llmJobs|)
  {
    if batch.Answers? {
      F.AnsweredAreResults(Renumbered(llmJobs), batch.answer);
    }
  }

  // ---- The reasoner ----

  /** The reasoner that the settings choose, and how the outside world answers it. */
  datatype Reasoning =
    | ManyCalls(norm: F.Normalizing, dna: Result<Option<string>, R.Crash>, concurrency: int, answer: nat -> F.Answer)
    | OneCall(norm: F.Normalizing, replies: nat -> M.Reply, validate: R.Enrichment -> R.Verdict)

  ghost predicate Possible(r: Reasoning) {
    r.ManyCalls? && r.dna.Ok? ==> F.AnswersMayCome(r.answer, r.dna.value)
  }

  /** It raises: while normalizing, while extracting the brand DNA, or on an item of a single call. */
  predicate Raises(r: Reasoning, jobs: seq<Job>) {
    match r
    case ManyCalls(norm, dna, _, _) => norm.Raises? || (norm.n.Context? && dna.Raised?)
    case OneCall(norm, replies, validate) => norm.Raises? || M.Reasoned(norm, jobs, replies, validate).results.Raised?
  }

  function RejectionOf(r: Reasoning): Option<string> {
    if r.norm.Normalizes? && r.norm.n.Rejected? then Some(r.norm.n.message) else None
  }

  /** The brand DNA that was extracted ahead of the calls, if it was, and is not empty. */
  function ExtractedDna(r: Reasoning): Option<string> {
    if r.ManyCalls? && r.dna.Ok? && r.dna.value.Some? && r.dna.value.value != "" then r.dna.value else None
  }

  /** A completed callback has this brand DNA in both places. */
  predicate HasDna(cb: R.Callback, dna: string) {
    cb.status == R.Completed && cb.output.Some? ==>
      cb.output.value.data.clientDna == dna && cb.output.value.enrichment.brandDna == dna
  }

  ghost predicate CarriesDna(batch: Batch, dna: string) {
    batch.Answers? ==>
      forall i :: batch.answer(i).Ends? && batch.answer(i).outcome.Returned? ==> HasDna(batch.answer(i).outcome.cb, dna)
  }

  lemma ResultsCarryTheDna(llmJobs: seq<Job>, batch: Batch, dna: string, k: nat)
    requires CarriesDna(batch, dna) && k < |BatchResults(llmJobs, batch)|
    ensures HasDna(BatchResults(llmJobs, batch)[k].0, dna)
  {
  }

  /** What the batch comes to, for jobs that are not empty. */
  ghost predicate Yields(r: Reasoning, jobs: seq<Job>, batch: Batch) {
    && SettledAnswers(batch)
    && (ExtractedDna(r).Some? ==> CarriesDna(batch, ExtractedDna(r).value))
    && (batch.Crashes? <==> Raises(r, jobs))
    && (batch.Rejects? <==> RejectionOf(r).Some?)
    && (batch.Rejects? ==> RejectionOf(r) == Some(batch.message))
  }

  /** The reasoner parses the rebuilt request once more, and finds the same jobs. */
  method Reparse(llmJobs: seq<Job>, ghost items: seq<RawItem>) returns (jobs: seq<Job>)
    requires llmJobs == LlmJobs(Expanded(items))
    ensures jobs == Renumbered(llmJobs)
  {
    RebuildRoundTrip(items);
    var parsed := ExtractSubscriptionJobs(Some(Rebuilt(llmJobs)));
    jobs := parsed.value.0;
  }

  /** Either reasoner, with the exception that is caught around it. */
  method Reason(r: Reasoning, jobs: seq<Job>) returns (results: seq<F.BatchResult>)
    requires Possible(r) && jobs != []
    ensures var outcome := if r.ManyCalls? then F.Fanned(r.norm, jobs, r.dna, r.answer)
                           else M.Reasoned(r.norm, jobs, r.replies, r.validate).results;
            results == if outcome.Ok? then outcome.value else F.Global(R.InternalError)
  {
    var outcome: Result<seq<F.BatchResult>, R.Crash>;
    if r.ManyCalls? {
      outcome := F.ReasonMultiFanout(r.norm, jobs, r.dna, r.concurrency, r.answer);
    } else {
      var calls;
      outcome, calls := M.ReasonMulti(r.norm, jobs, r.replies, r.validate);
    }
    results := if outcome.Ok? then outcome.value else F.Global(R.InternalError);
  }

  /** The language model's jobs, from the rebuilt request to the results. */
  method Enrich(llmJobs: seq<Job>, r: Reasoning, ghost items: seq<RawItem>)
    returns (results: seq<F.BatchResult>, ghost batch: Batch)
    requires llmJobs == LlmJobs(Expanded(items)) && llmJobs != [] && Possible(r)
    ensures results == BatchResults(llmJobs, batch) && Yields(r, Renumbered(llmJobs), batch)
    ensures if Raises(r, Renumbered(llmJobs)) || RejectionOf(r).Some? then IsGlobal(results)
            else IsPerJob(results, Renumbered(llmJobs))
  {
    var jobs := Reparse(llmJobs, items);
    results := Reason(r, jobs);
    RenumberedAreLlm(llmJobs);
    batch := BatchOf(r, jobs);
    ResultsHaveShape(llmJobs, batch);
  }

  lemma RenumberedAreLlm(llmJobs: seq<Job>)
    requires forall k :: 0 <= k < |llmJobs| ==> IsLlmAction(llmJobs[k].actionKey)
    ensures forall k :: 0 <= k < |llmJobs| ==> IsLlmAction(Renumbered(llmJobs)[k].actionKey)
  {
  }

  /** Whatever reasoner and answers, what comes back is a failure of the batch as a whole or
      the settled results of its jobs. */
  lemma BatchOf(r: Reasoning, jobs: seq<Job>) returns (batch: Batch)
    requires Possible(r) && jobs != [] && forall k :: 0 <= k < |jobs| ==> IsLlmAction(jobs[k].actionKey)
    ensures Yields(r, jobs, batch)
    ensures var outcome := if r.ManyCalls? then F.Fanned(r.norm, jobs, r.dna, r.answer)
                           else M.Reasoned(r.norm, jobs, r.replies, r.validate).results;
            match batch
            case Crashes => outcome.Raised?
            case Rejects(message) => outcome == Ok(F.Global(R.NormalizeError(message)))
            case Answers(answer) => outcome == Ok(F.Answered(jobs, answer))
  {
    if Raises(r, jobs) {
      batch := Crashes;
    } else if RejectionOf(r).Some? {
      batch := Rejects(RejectionOf(r).value);
    } else if r.ManyCalls? {
      batch := Answers(r.answer);
      forall i | r.answer(i).Ends? && r.answer(i).outcome.Returned?
        ensures R.Settled(r.answer(i).outcome.cb)
        ensures ExtractedDna(r).Some? ==> HasDna(r.answer(i).outcome.cb, r.dna.value.value)
      {
        F.MayEndSettles(r.answer(i).outcome, r.dna.value);
      }
    } else {
      var answer := SingleCallAnswers(r.norm.n, jobs, r.replies, r.validate);
      batch := Answers(answer);
    }
  }

  /** A single call that does not raise amounts to settled answers, too. */
  lemma SingleCallAnswers(n: R.Normalized, jobs: seq<Job>, replies: nat -> M.Reply, validate: R.Enrichment -> R.Verdict)
    returns (answer: nat -> F.Answer)
    requires n.Context? && jobs != [] && forall k :: 0 <= k < |jobs| ==> IsLlmAction(jobs[k].actionKey)
    requires M.Reasoned(F.Normalizes(n), jobs, replies, validate).results.Ok?
    ensures SettledAnswers(Answers(answer))
    ensures M.Reasoned(F.Normalizes(n), jobs, replies, validate).results.value == F.Answered(jobs, answer)
  {
    var r := M.Reasoned(F.Normalizes(n), jobs, replies, validate).results.value;
    answer := (i: nat) => if i < |r| then F.Ends(F.Returned(r[i].0)) else F.CloneRaises;
    forall k | 0 <= k < |jobs| ensures |r| == |jobs| && R.Settled(r[k].0) && r[k] == F.Answered(jobs, answer)[k] {
      M.OnePerJob(n, jobs, replies, validate, k);
    }
  }

  /** The results that belong to a job. */
  function WithJobs(results: seq<F.BatchResult>): seq<JobResult> {
    if results == [] then [] else
    var last := results[|results| - 1];
    if last.1.Some? then WithJobs(results[..|results| - 1]) + [(last.0, last.1.value)] else WithJobs(results[..|results| - 1])
  }

  lemma {:induction false} WithJobsKeepsAll(results: seq<F.BatchResult>)
    requires forall k :: 0 <= k < |results| ==> results[k].1.Some?
    ensures |WithJobs(results)| == |results|
    ensures forall k :: 0 <= k < |results| ==> WithJobs(results)[k] == (results[k].0, results[k].1.value)
  {
    if results != [] {
      WithJobsKeepsAll(results[..|results| - 1]);
    }
  }

  lemma GlobalHasNoJobs(results: seq<F.BatchResult>)
    requires IsGlobal(results)
    ensures WithJobs(results) == []
  {
    assert results[..0] == [];
  }

  // ---- The aggregate callback ----

  predicate IsFatal(r: F.BatchResult) {
    r.1 == None && r.0.status == R.Failed
  }

  function FirstFatal(results: seq<F.BatchResult>): Option<F.BatchResult> {
    if results == [] then None
    else if IsFatal(results[0]) then Some(results[0])
    else FirstFatal(results[1..])
  }

  predicate SomeCompleted(results: seq<F.BatchResult>) {
    exists k :: 0 <= k < |results| && results[k].0.status == R.Completed
  }

  function Aggregate(results: seq<F.BatchResult>): R.Callback {
    var fatal := FirstFatal(results);
    if fatal.Some? && !SomeCompleted(results) then R.Callback(R.Failed, None, fatal.value.0.error)
    else R.Callback(R.Completed, None, None)
  }

  /** The single callback for the batch. */
  method Summarize(results: seq<F.BatchResult>) returns (body: R.Callback)
    ensures body == Aggregate(results)
  {
    var completedCount := 0;
    for k := 0 to |results|
      invariant completedCount >= 0 && (completedCount > 0 <==> SomeCompleted(results[..k]))
    {
      if results[k].0.status == R.Completed {
        assert results[..k + 1][k] == results[k];
        completedCount := completedCount + 1;
      }
      assert results[..k + 1][..k] == results[..k];
      assert forall i :: 0 <= i < k ==> results[..k + 1][i] == results[..k][i];
    }
    assert results[..|results|] == results;
    var fatal: Option<F.BatchResult> := None;
    for k := 0 to |results|
      invariant fatal == None && FirstFatal(results) == FirstFatal(results[k..])
    {
      if IsFatal(results[k]) {
        fatal := Some(results[k]);
        break;
      }
    }
    if fatal.Some? && completedCount == 0 {
      body := R.Callback(R.Failed, None, fatal.value.0.error);
    } else {
      body := R.Callback(R.Completed, None, None);
    }
  }

  // ---- From the envelope to the results ----

  function ResultsOf(env: Envelope, batch: Batch): seq<F.BatchResult> {
    if LlmJobsOf(env) == [] then [] else BatchResults(LlmJobsOf(env), batch)
  }

  predicate IsWork(env: Envelope, batch: Batch, results: seq<F.BatchResult>, passthrough: seq<Job>) {
    results == ResultsOf(env, batch) && passthrough == PassthroughOf(env)
  }

  /** Either every result has a job, and its index says where it is, or none has one. */
  predicate WellShaped(results: seq<F.BatchResult>) {
    && (forall k :: 0 <= k < |results| ==> R.Settled(results[k].0))
    && (forall k :: 0 <= k < |results| && results[k].1.Some? ==> results[k].1.value.index == k)
    && (|WithJobs(results)| == |results| || (WithJobs(results) == [] && forall k :: 0 <= k < |results| ==> results[k].1 == None))
    && (forall k :: 0 <= k < |WithJobs(results)| ==>
          results[k].1 == Some(WithJobs(results)[k].1) && results[k].0 == WithJobs(results)[k].0)
  }

  lemma ResultsAreWellShaped(env: Envelope, batch: Batch)
    requires SettledAnswers(batch)
    ensures WellShaped(ResultsOf(env, batch))
  {
    var results, llmJobs := ResultsOf(env, batch), LlmJobsOf(env);
    if llmJobs != [] {
      ResultsHaveShape(llmJobs, batch);
      if batch.Answers? {
        WithJobsKeepsAll(results);
      } else {
        GlobalHasNoJobs(results);
      }
    }
  }

  /** The jobs of the request, split by who is to handle them, and the results of the batch;
      None if reading the request raises. */
  method Work(env: Envelope, r: Reasoning)
    returns (ok: bool, llmJobs: seq<Job>, passthrough: seq<Job>, results: seq<F.BatchResult>, ghost batch: Batch)
    requires ContextIsReadable(env) && (HasCallback(env) ==> CallbackIsSendable(env)) && Possible(r)
    ensures ok <==> Readable(env)
    ensures ok ==> IsWork(env, batch, results, passthrough) && WellShaped(results) && llmJobs == LlmJobsOf(env)
    ensures ok && LlmJobsOf(env) != [] ==> Yields(r, Renumbered(LlmJobsOf(env)), batch)
    ensures SettledAnswers(batch)
  {
    llmJobs, passthrough, results, batch := [], [], [], Crashes;
    if RequestOf(env).Malformed? {
      return false, [], [], [], batch;
    }
    var parsed := ExtractSubscriptionJobs(if RequestOf(env).Given? then RequestOf(env).value.jobs else None);
    ExtractionRaisesIff(ItemsOf(env));
    if parsed.Raised? {
      return false, [], [], [], batch;
    }
    var allJobs := parsed.value.0;
    llmJobs, passthrough := LlmJobs(allJobs), PassthroughJobs(allJobs);
    if llmJobs != [] {
      results, batch := Enrich(llmJobs, r, ItemsOf(env));
    }
    ResultsAreWellShaped(env, batch);
    ok := true;
  }

  // ---- When the batch is reported as failed ----

  lemma {:induction false} FirstFatalMeans(results: seq<F.BatchResult>)
    ensures match FirstFatal(results)
            case Some(r) => r in results && IsFatal(r)
            case None => forall k :: 0 <= k < |results| ==> !IsFatal(results[k])
  {
    if results != [] && !IsFatal(results[0]) {
      FirstFatalMeans(results[1..]);
      assert forall k :: 1 <= k < |results| ==> results[k] == results[1..][k - 1];
    }
  }

  /** The terminal body is FAILED exactly if the batch failed as a whole: some failure
      belongs to no job, and nothing was completed. That is when the reasoner raised or
      turned the request away; a batch without jobs, or with failed jobs only, is reported
      as COMPLETED. */
  lemma FailedIffGlobal(env: Envelope, batch: Batch)
    requires SettledAnswers(batch)
    ensures var results := ResultsOf(env, batch);
            && (Aggregate(results).status == R.Failed <==>
                  (exists k :: 0 <= k < |results| && IsFatal(results[k])) && !SomeCompleted(results))
            && (Aggregate(results).status == R.Failed <==> LlmJobsOf(env) != [] && !batch.Answers?)
            && (Aggregate(results).status != R.Failed ==> Aggregate(results).status == R.Completed && Aggregate(results).error == None)
            && (LlmJobsOf(env) != [] && batch.Crashes? ==> Aggregate(results).error == Some(R.InternalError))
            && (LlmJobsOf(env) != [] && batch.Rejects? ==> Aggregate(results).error == Some(R.NormalizeError(batch.message)))
            && Aggregate(results).output == None
  {
    var results := ResultsOf(env, batch);
    FirstFatalMeans(results);
    if LlmJobsOf(env) != [] {
      ResultsHaveShape(LlmJobsOf(env), batch);
      assert !batch.Answers? ==> IsFatal(results[0]) && !SomeCompleted(results);
    }
  }

}
