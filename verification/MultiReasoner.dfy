/**
 The single-call variant of the reasoner: one request for all jobs of the batch, with at
 most one repair, and one callback per job from the items that come back.
 */
module MultiReasoner {
  import opened Wrappers
  import opened Jobs
  import C = Channels
  import R = Reasoner
  import F = Fanout

  /** The items of a reply that parses, or else the error. */
  datatype Reply = Reply(items: Option<seq<R.Enrichment>>, error: Option<R.LlmError>, usage: R.Usage)

  datatype Outcome = Outcome(results: Result<seq<F.BatchResult>, R.Crash>, calls: nat)

  function IsTimeout(e: Option<R.LlmError>): bool {
    e.Some? && e.value.isTimeout
  }

  /** The same failure for every job. */
  function AllFailed(jobs: seq<Job>, e: R.Error): (r: seq<F.BatchResult>)
    ensures |r| == |jobs| && forall i :: 0 <= i < |r| ==> r[i] == (R.Failure(e), Some(jobs[i]))
  {
    seq(|jobs|, i requires 0 <= i < |jobs| => (R.Failure(e), Some(jobs[i])))
  }

  /** The callback for one job, from its own item alone. */
  function ItemCallback(n: R.Normalized, items: seq<R.Enrichment>, k: nat, repaired: bool, usage: R.Usage,
                        validate: R.Enrichment -> R.Verdict, job: Job, total: nat): R.Callback
    requires n.Context?
    requires k < |items| ==> validate(items[k]).Verdict?
  {
    if k >= |items| then R.Failure(R.FewerItems)
    else
      var v := validate(items[k]);
      if v.isBlocking then R.Failure(R.SchemaInvalid)
      else
        var note := if repaired then [R.SchemaRepairUsed] else [];
        F.Stamped(F.Returned(R.Assembled(n, v.enrichment, n.warnings + note + v.warnings, repaired, usage)), job, total)
  }

  predicate Crashes(jobs: seq<Job>, items: seq<R.Enrichment>, validate: R.Enrichment -> R.Verdict) {
    exists k :: 0 <= k < |jobs| && k < |items| && validate(items[k]).ValidatorRaises?
  }

  function PerItem(n: R.Normalized, jobs: seq<Job>, items: seq<R.Enrichment>, repaired: bool, usage: R.Usage,
                   validate: R.Enrichment -> R.Verdict): (r: seq<F.BatchResult>)
    requires n.Context? && !Crashes(jobs, items, validate)
    ensures |r| == |jobs|
    ensures forall k :: 0 <= k < |jobs| ==> k < |items| ==> validate(items[k]).Verdict?
    ensures forall k :: 0 <= k < |jobs| ==>
              r[k] == (ItemCallback(n, items, k, repaired, usage, validate, jobs[k], |jobs|), Some(jobs[k]))
  {
    seq(|jobs|, k requires 0 <= k < |jobs| =>
      (ItemCallback(n, items, k, repaired, usage, validate, jobs[k], |jobs|), Some(jobs[k])))
  }

  function Judged(n: R.Normalized, jobs: seq<Job>, items: seq<R.Enrichment>, repaired: bool, usage: R.Usage,
                  validate: R.Enrichment -> R.Verdict): Result<seq<F.BatchResult>, R.Crash>
    requires n.Context?
  {
    if Crashes(jobs, items, validate) then Raised(R.ValidatorCrash)
    else Ok(PerItem(n, jobs, items, repaired, usage, validate))
  }

  function Reasoned(norm: F.Normalizing, jobs: seq<Job>, replies: nat -> Reply, validate: R.Enrichment -> R.Verdict): Outcome {
    match norm
    case Raises => Outcome(Raised(R.OtherCrash), 0)
    case Normalizes(Rejected(message)) => Outcome(Ok(F.Global(R.NormalizeError(message))), 0)
    case Normalizes(n) =>
      if jobs == [] then Outcome(Ok(F.Global(R.NoJobs)), 0)
      else if replies(0).items.Some? then
        Outcome(Judged(n, jobs, replies(0).items.value, false, replies(0).usage, validate), 1)
      else if IsTimeout(replies(0).error) then Outcome(Ok(AllFailed(jobs, R.LlmTimeout)), 1)
      else if replies(1).items.Some? then
        Outcome(Judged(n, jobs, replies(1).items.value, true, R.Sum(replies(0).usage, replies(1).usage), validate), 2)
      else
        Outcome(Ok(AllFailed(jobs, R.ErrorFor(R.Either(replies(1).error, replies(0).error)))), 2)
  }

  /** `reason_multi`; call number k of the language model is answered by `replies(k)`. */
  method ReasonMulti(norm: F.Normalizing, jobs: seq<Job>, replies: nat -> Reply, validate: R.Enrichment -> R.Verdict)
    returns (results: Result<seq<F.BatchResult>, R.Crash>, calls: nat)
    ensures Outcome(results, calls) == Reasoned(norm, jobs, replies, validate)
  {
    calls := 0;
    if norm.Raises? {
      return Raised(R.OtherCrash), calls;
    }
    var n := norm.n;
    if n.Rejected? {
      return Ok(F.Global(R.NormalizeError(n.message))), calls;
    }
    if jobs == [] {
      return Ok(F.Global(R.NoJobs)), calls;
    }
    var reply := replies(calls);
    calls := calls + 1;
    var multi, usage, repaired := reply.items, reply.usage, false;
    if multi == None {
      if IsTimeout(reply.error) {
        return Ok(AllFailed(jobs, R.LlmTimeout)), calls;
      }
      repaired := true;
      var repair := replies(calls);
      calls := calls + 1;
      multi, usage := repair.items, R.Sum(usage, repair.usage);
      if multi == None {
        return Ok(AllFailed(jobs, R.ErrorFor(R.Either(repair.error, reply.error)))), calls;
      }
    }
    results := AssembleAll(n, jobs, multi.value, repaired, usage, validate);
  }

  /** The loop over the jobs; an exception of the validator ends it. */
  method AssembleAll(n: R.Normalized, jobs: seq<Job>, items: seq<R.Enrichment>, repaired: bool, usage: R.Usage,
                     validate: R.Enrichment -> R.Verdict) returns (results: Result<seq<F.BatchResult>, R.Crash>)
    requires n.Context?
    ensures results == Judged(n, jobs, items, repaired, usage, validate)
  {
    var out: seq<F.BatchResult> := [];
    for idx := 0 to |jobs|
      invariant |out| == idx
      invariant forall k :: 0 <= k < idx ==> k < |items| ==> validate(items[k]).Verdict?
      invariant forall k :: 0 <= k < idx ==>
                  out[k] == (ItemCallback(n, items, k, repaired, usage, validate, jobs[k], |jobs|), Some(jobs[k]))
    {
      if idx < |items| && validate(items[idx]).ValidatorRaises? {
        return Raised(R.ValidatorCrash);
      }
      out := out + [(ItemCallback(n, items, idx, repaired, usage, validate, jobs[idx], |jobs|), Some(jobs[idx]))];
    }
    assert !Crashes(jobs, items, validate);
    assert out == PerItem(n, jobs, items, repaired, usage, validate);
    results := Ok(out);
  }

  // ---- Properties ----

  /** The component-wise sum of the usages of the first k calls. */
  function TotalUsage(replies: nat -> Reply, k: nat): R.Usage {
    if k == 0 then R.Usage(0, 0, 0) else R.Sum(TotalUsage(replies, k - 1), replies(k - 1).usage)
  }

  lemma FirstTotals(replies: nat -> Reply)
    ensures TotalUsage(replies, 1) == replies(0).usage
    ensures TotalUsage(replies, 2) == R.Sum(replies(0).usage, replies(1).usage)
  {
    assert TotalUsage(replies, 0) == R.Usage(0, 0, 0);
    assert TotalUsage(replies, 1) == R.Sum(TotalUsage(replies, 0), replies(0).usage);
    assert TotalUsage(replies, 2) == R.Sum(TotalUsage(replies, 1), replies(1).usage);
  }

  /** Unless it raises, a batch with jobs yields one settled result per job, in job order;
      a completed one is stamped with its index and the total, and accounts for all calls. */
  lemma OnePerJob(n: R.Normalized, jobs: seq<Job>, replies: nat -> Reply, validate: R.Enrichment -> R.Verdict, k: nat)
    requires n.Context? && k < |jobs| && Reasoned(F.Normalizes(n), jobs, replies, validate).results.Ok?
    ensures var o := Reasoned(F.Normalizes(n), jobs, replies, validate);
            var r := o.results.value;
            && 1 <= o.calls <= 2 && |r| == |jobs| && r[k].1 == Some(jobs[k]) && R.Settled(r[k].0)
            && (r[k].0.status == R.Completed ==>
                  var trace := r[k].0.output.value.trace;
                  && trace.jobIndex == Some(jobs[k].index) && trace.totalJobs == Some(|jobs|)
                  && trace.usage == TotalUsage(replies, o.calls)
                  && (trace.repairAttempted <==> o.calls == 2))
  {
    FirstTotals(replies);
  }

  /** The items that count, after that many calls: those of the first reply that parses, where
      the second is asked for only if the first does not parse and did not time out. */
  predicate Obtains(replies: nat -> Reply, items: seq<R.Enrichment>, calls: nat) {
    || (calls == 1 && replies(0).items == Some(items))
    || (calls == 2 && replies(0).items == None && !R.TimesOut(replies(0).error) && replies(1).items == Some(items))
  }

  /** What a job's result has to be, given its item and the validator's word on it. */
  predicate IsItemResult(r: R.Callback, n: R.Normalized, items: seq<R.Enrichment>, k: nat, calls: nat,
                         validate: R.Enrichment -> R.Verdict, job: Job, total: nat)
    requires n.Context?
  {
    if k >= |items| then F.FailsWith(r, R.FewerItems)
    else
      var v := validate(items[k]);
      && v.Verdict?
      && if v.isBlocking then F.FailsWith(r, R.SchemaInvalid)
         else
           && r.status == R.Completed && r.error == None && r.output.Some?
           && var out := r.output.value;
              && out.enrichment == v.enrichment
              && out.warnings == n.warnings + (if calls == 2 then [R.SchemaRepairUsed] else []) + v.warnings
              && out.data.clientRequest == v.enrichment.brief && out.data.clientDna == v.enrichment.brandDna
              && (out.data.totalItems == if v.enrichment.isCarousel && out.data.resources != [] then |out.data.resources| else 1)
              && out.data.resources == R.Dedup(n.attachments + v.enrichment.selectedImages + v.enrichment.assetUrls)
              && out.trace.jobIndex == Some(job.index) && out.trace.jobActionKey == Some(job.actionKey)
              && out.trace.totalJobs == Some(total)
  }

  lemma ItemCallbackIsResult(n: R.Normalized, items: seq<R.Enrichment>, k: nat, calls: nat, usage: R.Usage,
                             validate: R.Enrichment -> R.Verdict, job: Job, total: nat)
    requires n.Context? && 1 <= calls <= 2 && (k < |items| ==> validate(items[k]).Verdict?)
    ensures IsItemResult(ItemCallback(n, items, k, calls == 2, usage, validate, job, total), n, items, k, calls, validate, job, total)
  {
  }

  /** Every outcome of the single call, from the replies and the validator alone: unless
      items are obtained, all jobs fail alike; if the validator raises on one that belongs to
      a job, so does the call; otherwise each job has the result of its own item. */
  lemma ResultsAreTheItems(n: R.Normalized, jobs: seq<Job>, replies: nat -> Reply, validate: R.Enrichment -> R.Verdict,
                           items: seq<R.Enrichment>, calls: nat, k: nat)
    requires n.Context? && k < |jobs|
    ensures var o := Reasoned(F.Normalizes(n), jobs, replies, validate);
            && (replies(0).items == None && R.TimesOut(replies(0).error) ==>
                  o.calls == 1 && o.results.Ok? && |o.results.value| == |jobs| && F.FailsWith(o.results.value[k].0, R.LlmTimeout))
            && (replies(0).items == None && !R.TimesOut(replies(0).error) && replies(1).items == None ==>
                  o.calls == 2 && o.results.Ok? && |o.results.value| == |jobs|
                  && F.FailsWith(o.results.value[k].0,
                                 if R.TimesOut(if replies(1).error.Some? then replies(1).error else replies(0).error)
                                 then R.LlmTimeout else R.SchemaInvalid))
            && (Obtains(replies, items, calls) ==>
                  && o.calls == calls
                  && (o.results.Raised? <==>
                        exists i :: 0 <= i < |jobs| && i < |items| && validate(items[i]).ValidatorRaises?)
                  && (o.results.Ok? ==>
                        && |o.results.value| == |jobs| && o.results.value[k].1 == Some(jobs[k])
                        && IsItemResult(o.results.value[k].0, n, items, k, calls, validate, jobs[k], |jobs|)))
  {
    if Obtains(replies, items, calls) && !Crashes(jobs, items, validate) {
      var usage := if calls == 1 then replies(0).usage else R.Sum(replies(0).usage, replies(1).usage);
      assert k < |items| ==> validate(items[k]).Verdict?;
      ItemCallbackIsResult(n, items, k, calls, usage, validate, jobs[k], |jobs|);
    }
  }

  /** What comes back before the language model is called. */
  lemma EarlyReturns(norm: F.Normalizing, jobs: seq<Job>, replies: nat -> Reply, validate: R.Enrichment -> R.Verdict)
    ensures var o := Reasoned(norm, jobs, replies, validate);
            && (o.calls == 0 <==> norm.Raises? || norm.n.Rejected? || jobs == [])
            && (norm.Raises? ==> o.results.Raised?)
            && (norm.Normalizes? && norm.n.Rejected? ==> F.IsGlobalFailure(o.results, R.NormalizeError(norm.n.message)))
            && (norm.Normalizes? && norm.n.Context? && jobs == [] ==> F.IsGlobalFailure(o.results, R.NoJobs))
  {
  }

  /** One item on which the validator raises takes the whole batch with it, and nothing
      else does: this is where the single call differs from the fan-out. */
  lemma OneCrashTakesAll(n: R.Normalized, jobs: seq<Job>, replies: nat -> Reply, validate: R.Enrichment -> R.Verdict)
    requires n.Context? && jobs != []
    ensures var o := Reasoned(F.Normalizes(n), jobs, replies, validate);
            var last := replies(o.calls - 1).items;
            o.results.Raised? <==>
              last.Some? && exists k :: 0 <= k < |jobs| && k < |last.value| && validate(last.value[k]).ValidatorRaises?
  {
  }

  /** The validator raises if correcting the call to action of the item does. */
  predicate ChecksTheCta(validate: R.Enrichment -> R.Verdict, item: R.Enrichment, cta: C.Cta,
                         channels: seq<C.Channel>, parse: string -> C.ParsedUrl) {
    C.Validated(cta, channels, parse).Raised? ==> validate(item).ValidatorRaises?
  }

  /** Two jobs, and the website "http://[x" on offer, which `urlparse` rejects for its
      bracket. The second item calls to that address, and the single call raises; with a call
      of its own, the first job would be completed. */
  lemma OneAddressTakesAll(n: R.Normalized, jobs: seq<Job>, replies: nat -> Reply, validate: R.Enrichment -> R.Verdict,
                           good: R.Enrichment, bad: R.Enrichment, channels: seq<C.Channel>, parse: string -> C.ParsedUrl,
                           own: nat -> R.Reply, url: Option<string>)
    requires n == R.Context(R.OtherAction, false, [], []) && |jobs| == 2
    requires replies(0).items == Some([good, bad]) && own(0).enrichment == Some(good)
    requires url == Some("http://[x") && C.Channel(C.Website, url, Some("Visita la web")) in channels
    requires parse(url.value).Malformed? && validate(good) == R.Verdict(good, [], false)
    requires ChecksTheCta(validate, bad, C.Cta(C.Website, url), channels, parse)
    ensures Reasoned(F.Normalizes(n), jobs, replies, validate).results == Raised(R.ValidatorCrash)
    ensures var alone := R.Reasoned(n, own, validate, None).result; alone.Ok? && alone.value.status == R.Completed
  {
    OfferedIsParsed(C.Channel(C.Website, url, Some("Visita la web")), channels, parse);
    assert R.Parsed(own).enrichment == Some(good);
    assert validate([good, bad][1]).ValidatorRaises?;
  }

  /** A website on offer that cannot be parsed makes the correction raise. */
  lemma OfferedIsParsed(c: C.Channel, channels: seq<C.Channel>, parse: string -> C.ParsedUrl)
    requires c in channels && c.kind == C.Website && C.Filled(c.url) && parse(c.url.value).Malformed?
    ensures C.Validated(C.Cta(C.Website, c.url), channels, parse).Raised?
  {
    assert c.url.value in C.Offered(channels, C.Website);
    C.ValidationRaisesIff(C.Cta(C.Website, c.url), channels, parse);
  }
}
