/**
 The jobs of a subscription_strategy request: parsing with quantity expansion, the split
 into jobs for the language model and pass-through jobs, and the rebuilt request that the
 reasoner parses again.
 */
module Jobs {
  import opened Wrappers
  import opened Text

  const MAX_QUANTITY_PER_JOB: nat := 10
  const DEFAULT_ACTION: string := "create_prod_line"
  const DEFAULT_AGENT: string := "job-router"

  predicate IsLlmAction(actionKey: string) {
    actionKey == "create_post" || actionKey == "edit_post"
  }

  /** A JSON value where a quantity is expected. Python's JSON reader accepts NaN and
      Infinity, on which `int()` raises. */
  datatype RawQuantity = Absent | Whole(n: int) | Fraction(r: real) | NotFinite | NotANumber

  /** One element of `client_request.jobs`; a field that is missing or not a string is None. */
  datatype RawItem =
    | NotAnObject
    | Object(actionKey: Option<string>, description: Option<string>, slug: Option<string>,
             agent: Option<string>, productUuid: Option<string>, quantity: RawQuantity)

  datatype Job = Job(actionKey: string, description: Option<string>, index: nat, quantity: nat,
                     slug: Option<string>, agent: Option<string>, productUuid: Option<string>)

  datatype Warning = JobInvalid(item: nat) | DescriptionFallback(item: nat, slug: Option<string>)

  datatype ExtractError = QuantityNotFinite

  // ---- Specification ----

  /** `int()` on a finite float truncates toward zero. */
  function Truncated(r: real): int {
    if r >= 0.0 then r.Floor else -(-r).Floor
  }

  /** The quantity between 1 and 10. */
  function Clamped(q: RawQuantity): (n: nat)
    ensures 1 <= n <= MAX_QUANTITY_PER_JOB
  {
    var raw := match q
      case Whole(n) => n
      case Fraction(r) => Truncated(r)
      case _ => 1;
    if raw < 1 then 1 else if raw > MAX_QUANTITY_PER_JOB then MAX_QUANTITY_PER_JOB else raw
  }

  predicate Finite(item: RawItem) {
    item.Object? ==> item.quantity != NotFinite
  }

  function ActionOf(item: RawItem): string
    requires item.Object?
  {
    match CleanString(item.actionKey)
    case Some(k) => k
    case None => DEFAULT_ACTION
  }

  predicate NeedsFallback(item: RawItem)
    requires item.Object?
  {
    CleanString(item.description).None? && IsLlmAction(ActionOf(item))
  }

  function DescriptionOf(item: RawItem): Option<string>
    requires item.Object?
  {
    if NeedsFallback(item) then
      match CleanString(item.slug)
      case Some(slug) => Some("Generate a " + slug + " post")
      case None => Some("Generate a " + ActionOf(item))
    else CleanString(item.description)
  }

  /** The job that the item yields at a given index. */
  function JobOf(item: RawItem, index: nat): Job
    requires item.Object?
  {
    Job(ActionOf(item), DescriptionOf(item), index, Clamped(item.quantity),
        CleanString(item.slug), CleanString(item.agent), CleanString(item.productUuid))
  }

  /** How many jobs an item yields. */
  function Share(item: RawItem): nat {
    if item.Object? then Clamped(item.quantity) else 0
  }

  function TotalShare(items: seq<RawItem>): nat {
    if items == [] then 0 else TotalShare(items[..|items| - 1]) + Share(items[|items| - 1])
  }

  function Copies(item: RawItem, first: nat, n: nat): (r: seq<Job>)
    requires item.Object?
    ensures |r| == n && forall k :: 0 <= k < n ==> r[k] == JobOf(item, first + k)
  {
    seq(n, k requires 0 <= k => JobOf(item, first + k))
  }

  function Expanded(items: seq<RawItem>): (jobs: seq<Job>)
    ensures |jobs| == TotalShare(items)
  {
    if items == [] then [] else
    var before, last := Expanded(items[..|items| - 1]), items[|items| - 1];
    if last.Object? then before + Copies(last, |before|, Share(last)) else before
  }

  function Warnings(items: seq<RawItem>): seq<Warning> {
    if items == [] then [] else
    var last := |items| - 1;
    Warnings(items[..last]) + WarningsOf(items[last], last)
  }

  function WarningsOf(item: RawItem, k: nat): seq<Warning> {
    if item.NotAnObject? then [JobInvalid(k)]
    else if NeedsFallback(item) then [DescriptionFallback(k, CleanString(item.slug))]
    else []
  }

  predicate AllFinite(items: seq<RawItem>) {
    forall item :: item in items ==> Finite(item)
  }

  lemma NotAllFinite(items: seq<RawItem>, k: nat)
    requires k < |items| && !Finite(items[k])
    ensures !AllFinite(items)
  {
    assert items[k] in items;
  }

  lemma OneMoreFinite(items: seq<RawItem>, k: nat)
    requires k < |items| && AllFinite(items[..k]) && Finite(items[k])
    ensures AllFinite(items[..k + 1])
  {
    assert items[..k + 1] == items[..k] + [items[k]];
  }

  function Extracted(items: seq<RawItem>): Result<(seq<Job>, seq<Warning>), ExtractError> {
    if AllFinite(items) then Ok((Expanded(items), Warnings(items)))
    else Raised(QuantityNotFinite)
  }

  // ---- The code ----

  /** `_extract_subscription_jobs`; None stands for a `jobs` field that is not a list. */
  method ExtractSubscriptionJobs(rawJobs: Option<seq<RawItem>>)
    returns (outcome: Result<(seq<Job>, seq<Warning>), ExtractError>)
    ensures outcome == Extracted(if rawJobs.Some? then rawJobs.value else [])
  {
    if rawJobs == None || rawJobs.value == [] {
      return Ok(([], []));
    }
    var items := rawJobs.value;
    var expanded: seq<Job> := [];
    var warnings: seq<Warning> := [];
    var seqIndex := 0;
    for idx := 0 to |items|
      invariant AllFinite(items[..idx])
      invariant expanded == Expanded(items[..idx]) && seqIndex == |expanded|
      invariant warnings == Warnings(items[..idx])
    {
      OneMoreItem(items, idx);
      var item := items[idx];
      if Finite(item) {
        OneMoreFinite(items, idx);
      }
      if item.NotAnObject? {
        warnings := warnings + [JobInvalid(idx)];
        continue;
      }
      warnings := NoteFallback(warnings, item, idx);
      if item.quantity == NotFinite {
        NotAllFinite(items, idx);
        return Raised(QuantityNotFinite);
      }
      expanded, seqIndex := AppendCopies(expanded, item, seqIndex, Clamped(item.quantity));
    }
    assert items[..|items|] == items;
    outcome := Ok((expanded, warnings));
  }

  method NoteFallback(warnings: seq<Warning>, item: RawItem, idx: nat) returns (more: seq<Warning>)
    requires item.Object?
    ensures more == warnings + WarningsOf(item, idx)
  {
    more := warnings;
    if NeedsFallback(item) {
      more := more + [DescriptionFallback(idx, CleanString(item.slug))];
    }
  }

  /** The inner loop: one entry per copy, numbered on. */
  method AppendCopies(expanded: seq<Job>, item: RawItem, seqIndex: nat, quantity: nat)
    returns (longer: seq<Job>, next: nat)
    requires item.Object?
    ensures longer == expanded + Copies(item, seqIndex, quantity) && next == seqIndex + quantity
  {
    longer, next := expanded, seqIndex;
    for n := 0 to quantity
      invariant longer == expanded + Copies(item, seqIndex, n) && next == seqIndex + n
    {
      longer := longer + [JobOf(item, next)];
      next := next + 1;
    }
  }

  lemma OneMoreItem(items: seq<RawItem>, k: nat)
    requires k < |items|
    ensures items[k].Object? ==>
              Expanded(items[..k + 1]) == Expanded(items[..k]) + Copies(items[k], |Expanded(items[..k])|, Share(items[k]))
    ensures items[k].NotAnObject? ==> Expanded(items[..k + 1]) == Expanded(items[..k])
    ensures Warnings(items[..k + 1]) == Warnings(items[..k]) + WarningsOf(items[k], k)
  {
    assert items[..k + 1][..k] == items[..k];
  }

  // ---- Properties of the expansion ----

  /** Indices are 0, 1, 2, and so on. */
  lemma {:induction false} IndicesAreSequential(items: seq<RawItem>)
    ensures forall k :: 0 <= k < |Expanded(items)| ==> Expanded(items)[k].index == k
  {
    if items != [] {
      IndicesAreSequential(items[..|items| - 1]);
    }
  }

  /** The copies of item k are contiguous, in source order and all alike: they fill the
      positions from the total share of the items before it. */
  lemma {:induction false} CopiesAreContiguous(items: seq<RawItem>, k: nat, p: nat)
    requires k < |items| && items[k].Object?
    requires TotalShare(items[..k]) <= p < TotalShare(items[..k]) + Share(items[k])
    ensures p < |Expanded(items)| && Expanded(items)[p] == JobOf(items[k], p)
  {
    var last := |items| - 1;
    OneMoreItem(items, last);
    assert items[..last + 1] == items;
    if k < last {
      assert items[..last][..k] == items[..k] && items[..last][k] == items[k];
      CopiesAreContiguous(items[..last], k, p);
    } else {
      assert items[..last] == items[..k];
    }
  }

  /** Every job comes from an item: the positions of the items cover the whole result. */
  lemma {:induction false} EveryJobHasAnItem(items: seq<RawItem>, p: nat) returns (k: nat)
    requires p < |Expanded(items)|
    ensures k < |items| && items[k].Object?
    ensures TotalShare(items[..k]) <= p < TotalShare(items[..k]) + Share(items[k])
    ensures Expanded(items)[p] == JobOf(items[k], p)
  {
    var last := |items| - 1;
    if p < |Expanded(items[..last])| {
      k := EveryJobHasAnItem(items[..last], p);
      assert items[..last][..k] == items[..k];
    } else {
      k := last;
      assert items[..k] == items[..last];
    }
  }

  /** What the job has from its item, field by field: the cleaned values, an action if there
      is none, and, for a job that the language model is to write, a description if there is
      none. */
  predicate StemsFrom(job: Job, item: RawItem) {
    && item.Object?
    && job.actionKey == (match CleanString(item.actionKey) case Some(action) => action case None => "create_prod_line")
    && job.slug == CleanString(item.slug) && job.agent == CleanString(item.agent)
    && job.productUuid == CleanString(item.productUuid)
    && job.description == match CleanString(item.description)
         case Some(text) => Some(text)
         case None =>
           if job.actionKey != "create_post" && job.actionKey != "edit_post" then None
           else match CleanString(item.slug)
             case Some(slug) => Some("Generate a " + slug + " post")
             case None => Some("Generate a " + job.actionKey)
  }

  /** The job at every position stems from the object item in whose block it lies. */
  lemma JobsStemFromItems(items: seq<RawItem>, p: nat) returns (k: nat)
    requires p < |Expanded(items)|
    ensures k < |items| && StemsFrom(Expanded(items)[p], items[k])
    ensures TotalShare(items[..k]) <= p < TotalShare(items[..k]) + Share(items[k])
  {
    k := EveryJobHasAnItem(items, p);
  }

  /** How many jobs an item yields: its quantity, if that is a number from 1 to 10, and else
      the nearer of the two bounds; a fraction counts as its whole part; 1 if there is no
      number. No other value yields any. */
  lemma SharesAreQuantities(item: RawItem)
    ensures item.NotAnObject? ==> Share(item) == 0
    ensures item.Object? ==>
              match item.quantity
              case Whole(n) => Share(item) == if n < 1 then 1 else if n > 10 then 10 else n
              case Fraction(r) =>
                if r < 1.0 then Share(item) == 1
                else if r >= 10.0 then Share(item) == 10
                else Share(item) as real <= r < Share(item) as real + 1.0
              case _ => Share(item) == 1
  {
  }

  /** Item k is reported as invalid exactly once if it is no object, else never. */
  lemma {:induction false} InvalidItemsWarnOnce(items: seq<RawItem>, k: nat)
    ensures multiset(Warnings(items))[JobInvalid(k)] == (if k < |items| && items[k].NotAnObject? then 1 else 0)
  {
    if items != [] {
      var last := |items| - 1;
      InvalidItemsWarnOnce(items[..last], k);
    }
  }

  /** A post to create or to edit without a description. */
  predicate LacksDescription(item: RawItem) {
    && item.Object? && CleanString(item.description) == None
    && (CleanString(item.actionKey) == Some("create_post") || CleanString(item.actionKey) == Some("edit_post"))
  }

  lemma FallbackOfItem(item: RawItem, at: nat, k: nat, slug: Option<string>)
    ensures multiset(WarningsOf(item, at))[DescriptionFallback(k, slug)]
            == if at == k && LacksDescription(item) && slug == CleanString(item.slug) then 1 else 0
  {
  }

  /** Item k is reported as lacking a description, with its slug, exactly once if it is a post
      without one, else never. */
  lemma {:induction false} FallbacksWarnOnce(items: seq<RawItem>, k: nat, slug: Option<string>)
    ensures multiset(Warnings(items))[DescriptionFallback(k, slug)]
            == if k < |items| && LacksDescription(items[k]) && slug == CleanString(items[k].slug) then 1 else 0
  {
    if items != [] {
      var last := |items| - 1;
      FallbacksWarnOnce(items[..last], k, slug);
      FallbackOfItem(items[last], last, k, slug);
      assert Warnings(items) == Warnings(items[..last]) + WarningsOf(items[last], last);
    }
  }

  /** A job for the language model always has a description. */
  lemma LlmJobsAreDescribed(items: seq<RawItem>, p: nat)
    requires p < |Expanded(items)| && IsLlmAction(Expanded(items)[p].actionKey)
    ensures Expanded(items)[p].description.Some?
  {
    var k := EveryJobHasAnItem(items, p);
  }

  /** Parsing raises exactly when some object carries a quantity that is not finite. */
  lemma ExtractionRaisesIff(items: seq<RawItem>)
    ensures Extracted(items).Raised? <==> exists k :: 0 <= k < |items| && items[k].Object? && items[k].quantity == NotFinite
  {
    if exists k :: 0 <= k < |items| && items[k].Object? && items[k].quantity == NotFinite {
      var k :| 0 <= k < |items| && items[k].Object? && items[k].quantity == NotFinite;
      assert items[k] in items && !Finite(items[k]);
    }
  }

  // ---- Split and rebuild ----

  function LlmJobs(jobs: seq<Job>): (r: seq<Job>)
    ensures forall j :: j in r <==> j in jobs && IsLlmAction(j.actionKey)
  {
    if jobs == [] then [] else
    var last := jobs[|jobs| - 1];
    assert jobs == jobs[..|jobs| - 1] + [last];
    LlmJobs(jobs[..|jobs| - 1]) + (if IsLlmAction(last.actionKey) then [last] else [])
  }

  function PassthroughJobs(jobs: seq<Job>): (r: seq<Job>)
    ensures forall j :: j in r <==> j in jobs && !IsLlmAction(j.actionKey)
  {
    if jobs == [] then [] else
    var last := jobs[|jobs| - 1];
    assert jobs == jobs[..|jobs| - 1] + [last];
    PassthroughJobs(jobs[..|jobs| - 1]) + (if IsLlmAction(last.actionKey) then [] else [last])
  }

  /** The jobs that the two lists have are those at the given positions, in this order. */
  ghost predicate Picks(jobs: seq<Job>, picked: seq<Job>, at: seq<nat>) {
    && |at| == |picked|
    && (forall k :: 0 <= k < |at| ==> at[k] < |jobs| && picked[k] == jobs[at[k]])
    && (forall k, l :: 0 <= k < l < |at| ==> at[k] < at[l])
  }

  predicate IsPost(job: Job) {
    job.actionKey == "create_post" || job.actionKey == "edit_post"
  }

  /** The positions are those of all the posts, or of all the other jobs. */
  ghost predicate Covers(jobs: seq<Job>, at: seq<nat>, posts: bool) {
    forall p: nat :: p < |jobs| ==> (p in at <==> IsPost(jobs[p]) == posts)
  }

  lemma PicksOneMore(jobs: seq<Job>, picked: seq<Job>, at: seq<nat>)
    requires jobs != [] && Picks(jobs[..|jobs| - 1], picked, at)
    ensures Picks(jobs, picked, at)
    ensures Picks(jobs, picked + [jobs[|jobs| - 1]], at + [|jobs| - 1])
  {
  }

  lemma CoversOneMore(jobs: seq<Job>, picked: seq<Job>, at: seq<nat>, posts: bool)
    requires jobs != [] && Picks(jobs[..|jobs| - 1], picked, at) && Covers(jobs[..|jobs| - 1], at, posts)
    ensures if IsPost(jobs[|jobs| - 1]) == posts then Covers(jobs, at + [|jobs| - 1], posts) else Covers(jobs, at, posts)
  {
    var n := |jobs| - 1;
    assert n !in at;
    forall p: nat | p < n ensures p in at <==> IsPost(jobs[p]) == posts {
      assert jobs[..n][p] == jobs[p];
    }
  }

  /** The split loses no job, repeats none and keeps the order on either side: the jobs for
      the language model are exactly the posts to create or to edit. */
  lemma {:induction false} LlmJobsInOrder(jobs: seq<Job>) returns (at: seq<nat>)
    ensures Picks(jobs, LlmJobs(jobs), at) && Covers(jobs, at, true)
  {
    if jobs == [] {
      at := [];
    } else {
      var n := |jobs| - 1;
      at := LlmJobsInOrder(jobs[..n]);
      PicksOneMore(jobs, LlmJobs(jobs[..n]), at);
      CoversOneMore(jobs, LlmJobs(jobs[..n]), at, true);
      if IsPost(jobs[n]) {
        at := at + [n];
      } else {
        assert LlmJobs(jobs) == LlmJobs(jobs[..n]) + [] == LlmJobs(jobs[..n]);
      }
    }
  }

  lemma {:induction false} PassthroughJobsInOrder(jobs: seq<Job>) returns (at: seq<nat>)
    ensures Picks(jobs, PassthroughJobs(jobs), at) && Covers(jobs, at, false)
  {
    if jobs == [] {
      at := [];
    } else {
      var n := |jobs| - 1;
      at := PassthroughJobsInOrder(jobs[..n]);
      PicksOneMore(jobs, PassthroughJobs(jobs[..n]), at);
      CoversOneMore(jobs, PassthroughJobs(jobs[..n]), at, false);
      if IsPost(jobs[n]) {
        assert PassthroughJobs(jobs) == PassthroughJobs(jobs[..n]) + [] == PassthroughJobs(jobs[..n]);
      } else {
        at := at + [n];
      }
    }
  }

  function OrElse(value: Option<string>, other: string): string {
    if value.Some? && value.value != "" then value.value else other
  }

  /** The item that stands for a job in the rebuilt request. */
  function RebuiltItem(j: Job): RawItem {
    Object(Some(j.actionKey), j.description, Some(OrElse(j.slug, "")), Some(OrElse(j.agent, DEFAULT_AGENT)),
           Some(OrElse(j.productUuid, "")), Whole(1))
  }

  function Rebuilt(jobs: seq<Job>): (items: seq<RawItem>)
    ensures |items| == |jobs| && forall i :: 0 <= i < |jobs| ==> items[i] == RebuiltItem(jobs[i])
  {
    seq(|jobs|, i requires 0 <= i < |jobs| => RebuiltItem(jobs[i]))
  }

  /** What the reasoner is expected to work on: the given jobs, renumbered. */
  function Renumbered(jobs: seq<Job>): (r: seq<Job>)
    ensures |r| == |jobs|
    ensures forall i :: 0 <= i < |r| ==>
              r[i] == jobs[i].(index := i, quantity := 1, agent := Some(OrElse(jobs[i].agent, DEFAULT_AGENT)))
  {
    seq(|jobs|, i requires 0 <= i < |jobs| =>
      jobs[i].(index := i, quantity := 1, agent := Some(OrElse(jobs[i].agent, DEFAULT_AGENT))))
  }

  /** Every text field of the job survives `_clean_string`. */
  predicate CleanJob(j: Job) {
    && Clean(j.actionKey)
    && CleanOption(j.description) && CleanOption(j.slug) && CleanOption(j.agent) && CleanOption(j.productUuid)
  }

  lemma FallbackIsClean(body: string, tail: string)
    requires tail == "" ==> body != "" && !IsSpace(body[|body| - 1])
    requires tail != "" ==> !IsSpace(tail[|tail| - 1])
    ensures Clean("Generate a " + body + tail)
  {
    var s := "Generate a " + body + tail;
    assert s[0] == 'G' && |s| >= 11;
    assert s[|s| - 1] == if tail != "" then tail[|tail| - 1] else if body != "" then body[|body| - 1] else ' ';
    LongTextIsClean(s);
  }

  lemma ActionIsClean(item: RawItem)
    requires item.Object?
    ensures Clean(ActionOf(item))
  {
    CleanStringProjects(item.actionKey);
    LongTextIsClean(DEFAULT_ACTION);
  }

  lemma DescriptionIsClean(item: RawItem)
    requires item.Object?
    ensures CleanOption(DescriptionOf(item))
  {
    CleanStringProjects(item.description);
    if NeedsFallback(item) {
      var slug := CleanString(item.slug);
      if slug.Some? {
        FallbackIsClean(slug.value, " post");
      } else {
        FallbackIsClean(ActionOf(item), "");
        assert "Generate a " + ActionOf(item) + "" == "Generate a " + ActionOf(item);
      }
    }
  }

  lemma ExtractedJobsAreClean(items: seq<RawItem>, p: nat)
    requires p < |Expanded(items)|
    ensures CleanJob(Expanded(items)[p])
  {
    var k := EveryJobHasAnItem(items, p);
    ActionIsClean(items[k]);
    DescriptionIsClean(items[k]);
    CleanStringProjects(items[k].slug);
    CleanStringProjects(items[k].agent);
    CleanStringProjects(items[k].productUuid);
  }

  /** A clean optional field survives the detour through `x or other`. */
  lemma OrElseCleans(value: Option<string>, other: string)
    requires CleanOption(value) && (other == "" || Clean(other))
    ensures CleanString(Some(OrElse(value, other))) == if value.Some? then value else if other == "" then None else Some(other)
  {
    EmptyIsNotClean();
  }

  lemma RebuiltItemYields(j: Job, index: nat)
    requires Enrichable(j)
    ensures JobOf(RebuiltItem(j), index)
            == j.(index := index, quantity := 1, agent := Some(OrElse(j.agent, DEFAULT_AGENT)))
    ensures !NeedsFallback(RebuiltItem(j))
  {
    LongTextIsClean(DEFAULT_AGENT);
    OrElseCleans(j.slug, "");
    OrElseCleans(j.agent, DEFAULT_AGENT);
    OrElseCleans(j.productUuid, "");
    CleanStringProjects(j.description);
  }

  /** A job for the language model as parsing leaves it. */
  predicate Enrichable(j: Job) {
    CleanJob(j) && IsLlmAction(j.actionKey) && j.description.Some?
  }

  /** A sequence that grows by its own next element has grown to a prefix. */
  lemma {:induction false} Accumulates<T>(grown: nat -> seq<T>, full: seq<T>, k: nat)
    requires k <= |full| && grown(0) == []
    requires forall i: nat {:trigger full[i]} :: i < |full| && |grown(i)| == i ==> grown(i + 1) == grown(i) + [full[i]]
    ensures grown(k) == full[..k]
  {
    if k > 0 {
      Accumulates(grown, full, k - 1);
      assert full[..k] == full[..k - 1] + [full[k - 1]];
    }
  }

  /** Item k of the rebuilt request adds exactly the renumbered job k, and no warning. */
  lemma RebuiltOneMore(jobs: seq<Job>, k: nat)
    requires k < |jobs| && Enrichable(jobs[k])
    ensures Warnings(Rebuilt(jobs)[..k + 1]) == Warnings(Rebuilt(jobs)[..k])
    ensures |Expanded(Rebuilt(jobs)[..k])| == k ==>
              Expanded(Rebuilt(jobs)[..k + 1]) == Expanded(Rebuilt(jobs)[..k]) + [Renumbered(jobs)[k]]
  {
    OneMoreItem(Rebuilt(jobs), k);
    RebuiltItemYields(jobs[k], k);
    assert Copies(Rebuilt(jobs)[k], k, 1) == [JobOf(Rebuilt(jobs)[k], k)];
  }

  lemma {:induction false} RebuiltIsSilent(jobs: seq<Job>, k: nat)
    requires k <= |jobs| && forall i :: 0 <= i < |jobs| ==> Enrichable(jobs[i])
    ensures Warnings(Rebuilt(jobs)[..k]) == []
  {
    if k > 0 {
      RebuiltIsSilent(jobs, k - 1);
      RebuiltOneMore(jobs, k - 1);
    }
  }

  lemma RebuiltIsFinite(jobs: seq<Job>)
    ensures AllFinite(Rebuilt(jobs))
  {
  }

  lemma LlmJobsAreEnrichable(items: seq<RawItem>, j: Job)
    requires j in LlmJobs(Expanded(items))
    ensures Enrichable(j)
  {
    var p :| 0 <= p < |Expanded(items)| && Expanded(items)[p] == j;
    ExtractedJobsAreClean(items, p);
    LlmJobsAreDescribed(items, p);
  }

  lemma RebuiltExpands(jobs: seq<Job>)
    requires forall i :: 0 <= i < |jobs| ==> Enrichable(jobs[i])
    ensures Expanded(Rebuilt(jobs)) == Renumbered(jobs)
  {
    var rebuilt := Rebuilt(jobs);
    var grown := (k: nat) => if k <= |rebuilt| then Expanded(rebuilt[..k]) else [];
    forall i | 0 <= i < |jobs| ensures |grown(i)| == i ==> grown(i + 1) == grown(i) + [Renumbered(jobs)[i]] {
      RebuiltOneMore(jobs, i);
    }
    Accumulates(grown, Renumbered(jobs), |jobs|);
    assert rebuilt[..|jobs|] == rebuilt && Renumbered(jobs)[..|jobs|] == Renumbered(jobs);
  }

  /** Round trip: parsing the rebuilt request yields the jobs for the language model, in
      order and renumbered, with the same action, description, slug and product, and
      without a new warning. */
  lemma RebuildRoundTrip(items: seq<RawItem>)
    ensures var jobs := LlmJobs(Expanded(items));
            Extracted(Rebuilt(jobs)) == Ok((Renumbered(jobs), []))
  {
    var jobs := LlmJobs(Expanded(items));
    forall i | 0 <= i < |jobs| ensures Enrichable(jobs[i]) {
      LlmJobsAreEnrichable(items, jobs[i]);
    }
    RebuiltExpands(jobs);
    RebuiltIsSilent(jobs, |jobs|);
    assert Rebuilt(jobs)[..|jobs|] == Rebuilt(jobs);
    RebuiltIsFinite(jobs);
  }
}
