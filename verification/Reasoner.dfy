/**
 One enrichment job: the calls to the language model with their repair attempts, the
 token account, the injected brand DNA and the assembled callback. The replies of the
 model and the verdicts of the validator are arbitrary.
 */
module Reasoner {
  import opened Wrappers

  type Url = string

  // ---- What comes from outside ----

  datatype Usage = Usage(input: nat, output: nat, thoughts: nat)

  function Sum(a: Usage, b: Usage): Usage {
    Usage(a.input + b.input, a.output + b.output, a.thoughts + b.thoughts)
  }

  /** An exception, by the two tests the code makes on it. */
  datatype LlmError = LlmError(isTimeout: bool, isTruncatedJson: bool)

  datatype Enrichment = Enrichment(brandDna: string, brandIntelligence: string, brief: string, isCarousel: bool, selectedImages: seq<Url>, assetUrls: seq<Url>)

  datatype Reply = Reply(enrichment: Option<Enrichment>, error: Option<LlmError>, usage: Usage)

  datatype Warning = SchemaRepairUsed | BriefMissing | GalleryEmpty | GalleryAllFiltered | OtherWarning(code: string)

  /** `validate_and_correct`, which may also raise. */
  datatype Verdict = Verdict(enrichment: Enrichment, warnings: seq<Warning>, isBlocking: bool) | ValidatorRaises

  datatype Action = CreateWeb | EditPost | OtherAction

  /** What `normalize` yields. */
  datatype Normalized = Rejected(message: string) | Context(action: Action, hasPriorPost: bool, attachments: seq<Url>, warnings: seq<Warning>)

  // ---- The callback ----

  datatype Status = InProgress | Completed | Failed

  datatype Error =
    | NormalizeError(message: string) | WebNotSupported | PriorPostMissing | LlmTimeout | SchemaInvalid
    | UnsupportedAction | FanoutException | InternalError | NoJobs | FewerItems

  datatype Trace = Trace(usage: Usage, repairAttempted: bool, degraded: bool,
                         jobIndex: Option<nat>, jobActionKey: Option<string>, totalJobs: Option<nat>)

  datatype Payload = Payload(totalItems: nat, clientDna: string, clientRequest: string, resources: seq<Url>)

  datatype Output = Output(data: Payload, enrichment: Enrichment, warnings: seq<Warning>, trace: Trace)

  datatype Callback = Callback(status: Status, output: Option<Output>, error: Option<Error>)

  function Failure(e: Error): Callback {
    Callback(Failed, None, Some(e))
  }

  /** A job is completed with an output or failed with an error, and not both. */
  predicate Settled(cb: Callback) {
    || (cb.status == Completed && cb.output.Some? && cb.error == None)
    || (cb.status == Failed && cb.output == None && cb.error.Some?)
  }

  datatype Crash = ValidatorCrash | OtherCrash

  // ---- Specification ----

  /** `list(dict.fromkeys(xs))`: first seen wins. */
  function Dedup(xs: seq<Url>): seq<Url> {
    if xs == [] then [] else
    var before, last := Dedup(xs[..|xs| - 1]), xs[|xs| - 1];
    if last in before then before else before + [last]
  }

  function Either(a: Option<LlmError>, b: Option<LlmError>): Option<LlmError> {
    if a.Some? then a else b
  }

  function ErrorFor(e: Option<LlmError>): Error {
    if e.Some? && e.value.isTimeout then LlmTimeout else SchemaInvalid
  }

  function Degrades(ws: seq<Warning>): bool {
    BriefMissing in ws || GalleryEmpty in ws || GalleryAllFiltered in ws
  }

  function Injected(e: Enrichment, dna: Option<string>): Enrichment {
    if dna.Some? && dna.value != "" then e.(brandDna := dna.value) else e
  }

  /** The COMPLETED callback for a validated enrichment. */
  function Assembled(n: Normalized, e: Enrichment, warnings: seq<Warning>, repaired: bool, usage: Usage): Callback
    requires n.Context?
  {
    var resources := Dedup(n.attachments + e.selectedImages + e.assetUrls);
    Callback(Completed,
             Some(Output(Payload(if e.isCarousel && resources != [] then |resources| else 1, e.brandDna, e.brief, resources),
                         e, warnings, Trace(usage, repaired, Degrades(warnings), None, None, None))),
             None)
  }

  datatype Outcome = Outcome(result: Result<Callback, Crash>, calls: nat)

  /** The stage that obtains an enrichment that parses: the enrichment or the error, the
      calls made and the tokens used. */
  datatype Parse = Parse(enrichment: Option<Enrichment>, error: Error, calls: nat, usage: Usage)

  function Parsed(reply: nat -> Reply): Parse {
    var first := reply(0);
    if first.enrichment.Some? then Parse(first.enrichment, SchemaInvalid, 1, first.usage)
    else if first.error.Some? && first.error.value.isTimeout then Parse(None, LlmTimeout, 1, first.usage)
    else
      var second := reply(1);
      var error := Either(second.error, first.error);
      var usage := Sum(first.usage, second.usage);
      if second.enrichment.None? && error.Some? && error.value.isTruncatedJson then
        var third := reply(2);
        Parse(third.enrichment, ErrorFor(Either(third.error, first.error)), 3, Sum(usage, third.usage))
      else Parse(second.enrichment, ErrorFor(error), 2, usage)
  }

  function Reasoned(n: Normalized, reply: nat -> Reply, validate: Enrichment -> Verdict, dna: Option<string>): Outcome {
    match n
    case Rejected(message) => Outcome(Ok(Failure(NormalizeError(message))), 0)
    case Context(action, hasPriorPost, _, _) =>
      if action == CreateWeb then Outcome(Ok(Failure(WebNotSupported)), 0)
      else if action == EditPost && !hasPriorPost then Outcome(Ok(Failure(PriorPostMissing)), 0)
      else
        var p := Parsed(reply);
        if p.enrichment.None? then Outcome(Ok(Failure(p.error)), p.calls)
        else Judged(n, p, reply(1), validate, dna)
  }

  /** Validation, with one repair if none was tried before. */
  function Judged(n: Normalized, p: Parse, second: Reply, validate: Enrichment -> Verdict, dna: Option<string>): Outcome
    requires n.Context? && p.enrichment.Some?
  {
    var v := validate(p.enrichment.value);
    if v.ValidatorRaises? then Outcome(Raised(ValidatorCrash), p.calls)
    else if !v.isBlocking then
      var note := if p.calls > 1 then [SchemaRepairUsed] else [];
      Outcome(Ok(Assembled(n, Injected(v.enrichment, dna), n.warnings + note + v.warnings, p.calls > 1, p.usage)), p.calls)
    else if p.calls > 1 then Outcome(Ok(Failure(SchemaInvalid)), p.calls)
    else if second.enrichment.None? then Outcome(Ok(Failure(ErrorFor(second.error))), 2)
    else
      var again := validate(second.enrichment.value);
      if again.ValidatorRaises? then Outcome(Raised(ValidatorCrash), 2)
      else if again.isBlocking then Outcome(Ok(Failure(SchemaInvalid)), 2)
      else
        Outcome(Ok(Assembled(n, Injected(again.enrichment, dna), n.warnings + [SchemaRepairUsed] + again.warnings, true,
                             Sum(p.usage, second.usage))), 2)
  }

  // ---- The code ----

  /** The client of the language model; it answers call number k with `replies(k)`. */
  class Gemini {
    const replies: nat -> Reply
    var calls: nat

    constructor (replies: nat -> Reply)
      ensures this.replies == replies && calls == 0
    {
      this.replies := replies;
      calls := 0;
    }

    method Generate() returns (r: Reply)
      modifies this
      ensures r == replies(old(calls)) && calls == old(calls) + 1
    {
      r := replies(calls);
      calls := calls + 1;
    }
  }

  /** `reason`, for a fresh client. */
  method Reason(n: Normalized, gemini: Gemini, validate: Enrichment -> Verdict, dna: Option<string>)
    returns (result: Result<Callback, Crash>)
    requires gemini.calls == 0
    modifies gemini
    ensures Outcome(result, gemini.calls) == Reasoned(n, gemini.replies, validate, dna)
  {
    if n.Rejected? {
      return Ok(Failure(NormalizeError(n.message)));
    }
    if n.action == CreateWeb {
      return Ok(Failure(WebNotSupported));
    }
    if n.action == EditPost && !n.hasPriorPost {
      return Ok(Failure(PriorPostMissing));
    }
    var warnings := n.warnings;
    var first := gemini.Generate();
    var enrichment, usage := first.enrichment, first.usage;
    var repairAttempted := false;
    if enrichment == None {
      if first.error.Some? && first.error.value.isTimeout {
        return Ok(Failure(LlmTimeout));
      }
      repairAttempted := true;
      var repair := gemini.Generate();
      enrichment := repair.enrichment;
      var err2 := repair.error;
      usage := Sum(usage, repair.usage);
      var either := Either(err2, first.error);
      if enrichment == None && either.Some? && either.value.isTruncatedJson {
        var compact := gemini.Generate();
        enrichment := compact.enrichment;
        usage := Sum(usage, compact.usage);
        if enrichment == None {
          err2 := compact.error;
        }
      }
      if enrichment == None {
        return Ok(Failure(ErrorFor(Either(err2, first.error))));
      }
      warnings := warnings + [SchemaRepairUsed];
    }
    var verdict := validate(enrichment.value);
    if verdict.ValidatorRaises? {
      return Raised(ValidatorCrash);
    }
    if verdict.isBlocking && !repairAttempted {
      repairAttempted := true;
      var repair := gemini.Generate();
      usage := Sum(usage, repair.usage);
      if repair.enrichment == None {
        return Ok(Failure(ErrorFor(repair.error)));
      }
      verdict := validate(repair.enrichment.value);
      if verdict.ValidatorRaises? {
        return Raised(ValidatorCrash);
      }
      if verdict.isBlocking {
        return Ok(Failure(SchemaInvalid));
      }
      warnings := warnings + [SchemaRepairUsed];
    } else if verdict.isBlocking {
      return Ok(Failure(SchemaInvalid));
    }
    warnings := warnings + verdict.warnings;
    assert n.warnings + [] == n.warnings;
    result := Ok(Assembled(n, Injected(verdict.enrichment, dna), warnings, repairAttempted, usage));
  }

  // ---- Properties ----

  /** The component-wise sum of the usages of the first k calls. */
  function TotalUsage(reply: nat -> Reply, k: nat): Usage {
    if k == 0 then Usage(0, 0, 0) else Sum(TotalUsage(reply, k - 1), reply(k - 1).usage)
  }

  lemma FirstTotals(reply: nat -> Reply)
    ensures TotalUsage(reply, 1) == reply(0).usage
    ensures TotalUsage(reply, 2) == Sum(reply(0).usage, reply(1).usage)
    ensures TotalUsage(reply, 3) == Sum(Sum(reply(0).usage, reply(1).usage), reply(2).usage)
  {
    assert TotalUsage(reply, 0) == Usage(0, 0, 0);
    assert TotalUsage(reply, 1) == Sum(TotalUsage(reply, 0), reply(0).usage);
    assert TotalUsage(reply, 2) == Sum(TotalUsage(reply, 1), reply(1).usage);
    assert TotalUsage(reply, 3) == Sum(TotalUsage(reply, 2), reply(2).usage);
  }

  predicate Settles(o: Outcome) {
    o.result.Ok? ==> Settled(o.result.value)
  }

  predicate IsCompleted(o: Outcome) {
    o.result.Ok? && o.result.value.status == Completed && o.result.value.output.Some?
  }

  // ---- How a run ends, reply by reply ----

  /** The request gets as far as the language model. */
  predicate Admitted(n: Normalized) {
    n.Context? && n.action != CreateWeb && (n.action == EditPost ==> n.hasPriorPost)
  }

  predicate TimesOut(e: Option<LlmError>) {
    e.Some? && e.value.isTimeout
  }

  predicate LooksTruncated(e: Option<LlmError>) {
    e.Some? && e.value.isTruncatedJson
  }

  /** Reply k parses, and its enrichment passes the validator. */
  predicate Passes(reply: nat -> Reply, validate: Enrichment -> Verdict, k: nat) {
    reply(k).enrichment.Some? && validate(reply(k).enrichment.value).Verdict? && !validate(reply(k).enrichment.value).isBlocking
  }

  predicate Blocks(reply: nat -> Reply, validate: Enrichment -> Verdict, k: nat) {
    reply(k).enrichment.Some? && validate(reply(k).enrichment.value).Verdict? && validate(reply(k).enrichment.value).isBlocking
  }

  predicate Crashes(reply: nat -> Reply, validate: Enrichment -> Verdict, k: nat) {
    reply(k).enrichment.Some? && validate(reply(k).enrichment.value).ValidatorRaises?
  }

  /** The first reply does not parse, and is worth a repair. */
  predicate FirstFails(reply: nat -> Reply) {
    reply(0).enrichment.None? && !TimesOut(reply(0).error)
  }

  /** The repair does not parse either; its error, or else the first one, looks like JSON
      that was cut off, or does not. */
  predicate RepairFails(reply: nat -> Reply, isTruncated: bool) {
    && FirstFails(reply) && reply(1).enrichment.None?
    && isTruncated == if reply(1).error.Some? then LooksTruncated(reply(1).error) else LooksTruncated(reply(0).error)
  }

  /** After `calls` calls the last reply passes the validator. */
  predicate Succeeds(reply: nat -> Reply, validate: Enrichment -> Verdict, calls: nat) {
    || (calls == 1 && Passes(reply, validate, 0))
    || (calls == 2 && (Blocks(reply, validate, 0) || FirstFails(reply)) && Passes(reply, validate, 1))
    || (calls == 3 && RepairFails(reply, true) && Passes(reply, validate, 2))
  }

  /** A run is completed if and only if its request is not turned away and the first reply
      that parses passes the validator; where the very first reply parses and is blocked, the
      one after it counts. The number of calls is that of the replies looked at. */
  lemma CompletesIff(n: Normalized, reply: nat -> Reply, validate: Enrichment -> Verdict, dna: Option<string>)
    ensures var o := Reasoned(n, reply, validate, dna);
            && (IsCompleted(o) <==> Admitted(n) && exists calls :: Succeeds(reply, validate, calls))
            && (IsCompleted(o) ==> Succeeds(reply, validate, o.calls))
            && (o.result.Ok? ==> (o.result.value.status == Completed <==> IsCompleted(o)))
  {
    if Passes(reply, validate, 0) {
      assert Succeeds(reply, validate, 1);
    } else if Passes(reply, validate, 1) && (Blocks(reply, validate, 0) || FirstFails(reply)) {
      assert Succeeds(reply, validate, 2);
    } else if Passes(reply, validate, 2) && RepairFails(reply, true) {
      assert Succeeds(reply, validate, 3);
    }
  }

  /** The run ends with this error after that many calls. */
  predicate FailsWith(o: Outcome, e: Error, calls: nat) {
    o.calls == calls && o.result.Ok? && o.result.value.status == Failed && o.result.value.output == None
    && o.result.value.error == Some(e)
  }

  /** Every way to fail, with its error and the number of calls; an error that is not a
      timeout is reported as an invalid schema. */
  lemma FailuresMean(n: Normalized, reply: nat -> Reply, validate: Enrichment -> Verdict, dna: Option<string>)
    ensures var o := Reasoned(n, reply, validate, dna);
            && (n.Rejected? ==> FailsWith(o, NormalizeError(n.message), 0))
            && (n.Context? && n.action == CreateWeb ==> FailsWith(o, WebNotSupported, 0))
            && (n.Context? && n.action == EditPost && !n.hasPriorPost ==> FailsWith(o, PriorPostMissing, 0))
            && (Admitted(n) ==>
                  && (reply(0).enrichment.None? && TimesOut(reply(0).error) ==> FailsWith(o, LlmTimeout, 1))
                  && (Crashes(reply, validate, 0) ==> o == Outcome(Raised(ValidatorCrash), 1))
                  && (Blocks(reply, validate, 0) && reply(1).enrichment.None? ==>
                        FailsWith(o, if TimesOut(reply(1).error) then LlmTimeout else SchemaInvalid, 2))
                  && (Blocks(reply, validate, 0) || FirstFails(reply) ==>
                        && (Crashes(reply, validate, 1) ==> o == Outcome(Raised(ValidatorCrash), 2))
                        && (Blocks(reply, validate, 1) ==> FailsWith(o, SchemaInvalid, 2)))
                  && (RepairFails(reply, false) ==> FailsWith(o, LastError(reply, 1), 2))
                  && (RepairFails(reply, true) ==>
                        && (Crashes(reply, validate, 2) ==> o == Outcome(Raised(ValidatorCrash), 3))
                        && (Blocks(reply, validate, 2) ==> FailsWith(o, SchemaInvalid, 3))
                        && (reply(2).enrichment.None? ==> FailsWith(o, LastError(reply, 2), 3))))
  {
  }

  /** The error that is reported after reply k: its own, or that of the first reply. */
  function LastError(reply: nat -> Reply, k: nat): Error {
    if TimesOut(if reply(k).error.Some? then reply(k).error else reply(0).error) then LlmTimeout else SchemaInvalid
  }

  /** What a completed run delivers is the enrichment of the reply that passed, as the
      validator corrected it, with the brand DNA of the batch if there is one. */
  lemma CompletedDelivers(n: Normalized, reply: nat -> Reply, validate: Enrichment -> Verdict, dna: Option<string>)
    requires IsCompleted(Reasoned(n, reply, validate, dna))
    ensures var o := Reasoned(n, reply, validate, dna);
            var out := o.result.value.output.value;
            && n.Context? && o.calls > 0 && Passes(reply, validate, o.calls - 1)
            && var v := validate(reply(o.calls - 1).enrichment.value);
               && out.enrichment.brandDna == (if dna.Some? && dna.value != "" then dna.value else v.enrichment.brandDna)
               && out.enrichment.brandIntelligence == v.enrichment.brandIntelligence
               && out.enrichment.brief == v.enrichment.brief && out.enrichment.isCarousel == v.enrichment.isCarousel
               && out.enrichment.selectedImages == v.enrichment.selectedImages && out.enrichment.assetUrls == v.enrichment.assetUrls
               && out.data.resources == Dedup(n.attachments + v.enrichment.selectedImages + v.enrichment.assetUrls)
               && out.data.clientRequest == v.enrichment.brief && out.data.clientDna == out.enrichment.brandDna
               && (out.data.totalItems == if v.enrichment.isCarousel && out.data.resources != [] then |out.data.resources| else 1)
               && (out.trace.degraded <==> BriefMissing in out.warnings || GalleryEmpty in out.warnings || GalleryAllFiltered in out.warnings)
  {
    CompletesIff(n, reply, validate, dna);
  }

  /** At most three calls, none for a request that is turned away, and exactly one when the
      first times out; the callback is always settled. */
  lemma CallsAreBounded(n: Normalized, reply: nat -> Reply, validate: Enrichment -> Verdict, dna: Option<string>)
    ensures var o := Reasoned(n, reply, validate, dna);
            && o.calls <= 3 && Settles(o)
            && (o.calls == 0 <==> n.Rejected? || n.action == CreateWeb || (n.action == EditPost && !n.hasPriorPost))
            && (o.calls > 0 && reply(0).enrichment.None? && reply(0).error.Some? && reply(0).error.value.isTimeout ==>
                  o.calls == 1 && o.result == Ok(Failure(LlmTimeout)))
  {
  }

  lemma UsageAccounts(n: Normalized, reply: nat -> Reply, validate: Enrichment -> Verdict, dna: Option<string>)
    requires IsCompleted(Reasoned(n, reply, validate, dna))
    ensures var o := Reasoned(n, reply, validate, dna);
            var trace := o.result.value.output.value.trace;
            && 1 <= o.calls <= 3 && trace.usage == TotalUsage(reply, o.calls) && (trace.repairAttempted <==> o.calls > 1)
            && AddsUp(reply, o.calls, trace.usage)
  {
    FirstTotals(reply);
  }

  /** Every component is the sum over the replies of these calls. */
  predicate AddsUp(reply: nat -> Reply, calls: nat, total: Usage) {
    var a, b, c := reply(0).usage, reply(1).usage, reply(2).usage;
    && total.input == a.input + (if calls > 1 then b.input else 0) + (if calls > 2 then c.input else 0)
    && total.output == a.output + (if calls > 1 then b.output else 0) + (if calls > 2 then c.output else 0)
    && total.thoughts == a.thoughts + (if calls > 1 then b.thoughts else 0) + (if calls > 2 then c.thoughts else 0)
  }

  lemma WarningsAccount(n: Normalized, reply: nat -> Reply, validate: Enrichment -> Verdict, dna: Option<string>)
    requires IsCompleted(Reasoned(n, reply, validate, dna))
    ensures var o := Reasoned(n, reply, validate, dna);
            var out := o.result.value.output.value;
            && n.Context? && o.calls >= 1 && Passes(reply, validate, o.calls - 1)
            && out.warnings == n.warnings + (if o.calls > 1 then [SchemaRepairUsed] else [])
                               + validate(reply(o.calls - 1).enrichment.value).warnings
  {
  }

  /** On completion the trace carries the component-wise sum of the tokens of every call
      made, and the three signs of a repair agree: more than one call, the flag of the
      trace, and one `schema_repair_used` warning on top of those passed in. */
  lemma CompletionAccounts(n: Normalized, reply: nat -> Reply, validate: Enrichment -> Verdict, dna: Option<string>)
    requires IsCompleted(Reasoned(n, reply, validate, dna))
    ensures var o := Reasoned(n, reply, validate, dna);
            var out := o.result.value.output.value;
            && n.Context? && o.calls >= 1 && Passes(reply, validate, o.calls - 1)
            && out.trace.usage == TotalUsage(reply, o.calls) && AddsUp(reply, o.calls, out.trace.usage)
            && (out.trace.repairAttempted <==> o.calls > 1)
            && out.enrichment == Injected(validate(reply(o.calls - 1).enrichment.value).enrichment, dna)
            && multiset(out.warnings)
               == multiset(n.warnings) + multiset(validate(reply(o.calls - 1).enrichment.value).warnings)
                  + (if o.calls > 1 then multiset{SchemaRepairUsed} else multiset{})
  {
    UsageAccounts(n, reply, validate, dna);
    WarningsAccount(n, reply, validate, dna);
    CompletedDelivers(n, reply, validate, dna);
  }

  /** The injected brand DNA ends up in both places, whatever the model answered and
      whatever was repaired or validated. */
  lemma BrandDnaIsInjected(n: Normalized, reply: nat -> Reply, validate: Enrichment -> Verdict, dna: Option<string>)
    requires IsCompleted(Reasoned(n, reply, validate, dna))
    ensures var out := Reasoned(n, reply, validate, dna).result.value.output.value;
            && out.data.clientDna == out.enrichment.brandDna
            && (dna.Some? && dna.value != "" ==> out.data.clientDna == dna.value)
            && out.trace.jobIndex == None
  {
    CompletionAccounts(n, reply, validate, dna);
  }

  /** The resources are the attachments, the picks and the assets, each once and in the
      order in which they are first seen. */
  lemma {:induction false} DedupKeepsFirst(xs: seq<Url>)
    ensures forall u :: u in Dedup(xs) <==> u in xs
    ensures forall i, j :: 0 <= i < j < |Dedup(xs)| ==> Dedup(xs)[i] != Dedup(xs)[j]
  {
    if xs != [] {
      DedupKeepsFirst(xs[..|xs| - 1]);
      assert xs == xs[..|xs| - 1] + [xs[|xs| - 1]];
    }
  }

  /** The first place of u in the list. */
  predicate FirstAt(xs: seq<Url>, u: Url, i: int) {
    0 <= i < |xs| && xs[i] == u && u !in xs[..i]
  }

  lemma {:induction false} DedupKeepsOrder(xs: seq<Url>, k: nat, l: nat, i: nat, j: nat)
    requires k < |Dedup(xs)| && l < |Dedup(xs)| && FirstAt(xs, Dedup(xs)[k], i) && FirstAt(xs, Dedup(xs)[l], j)
    ensures k < l <==> i < j
  {
    var last := |xs| - 1;
    var before := Dedup(xs[..last]);
    DedupKeepsFirst(xs[..last]);
    DedupKeepsFirst(xs);
    assert xs == xs[..last] + [xs[last]];
    if k < |before| && l < |before| {
      FirstInPrefix(xs, before[k], i);
      FirstInPrefix(xs, before[l], j);
      DedupKeepsOrder(xs[..last], k, l, i, j);
    } else {
      if k < |before| {
        FirstInPrefix(xs, before[k], i);
      }
      if l < |before| {
        FirstInPrefix(xs, before[l], j);
      }
    }
  }

  lemma FirstInPrefix(xs: seq<Url>, u: Url, i: nat)
    requires xs != [] && u in xs[..|xs| - 1] && FirstAt(xs, u, i)
    ensures FirstAt(xs[..|xs| - 1], u, i)
  {
    var before := xs[..|xs| - 1];
    var m :| 0 <= m < |before| && before[m] == u;
    assert forall q :: 0 <= q < i ==> xs[..i][q] == xs[q] && xs[..i][q] in xs[..i];
    assert before[..i] == xs[..i];
  }

  lemma {:induction false} DedupExtends(xs: seq<Url>, ys: seq<Url>)
    ensures Dedup(xs) <= Dedup(xs + ys)
  {
    if ys == [] {
      assert xs + ys == xs;
    } else {
      DedupExtends(xs, ys[..|ys| - 1]);
      assert (xs + ys)[..|xs + ys| - 1] == xs + ys[..|ys| - 1];
    }
  }

  lemma DedupInParts(a: seq<Url>, b: seq<Url>, c: seq<Url>)
    ensures Dedup(a) <= Dedup(a + b + c) && Dedup(a + b) <= Dedup(a + b + c)
    ensures forall u :: u in Dedup(a + b + c) <==> u in a || u in b || u in c
  {
    DedupExtends(a, b);
    DedupExtends(a + b, c);
    DedupKeepsFirst(a + b + c);
  }

  /** Every attachment of the user is forwarded, ahead of all other resources, and then the
      picks, ahead of the assets. */
  lemma AttachmentsComeFirst(n: Normalized, reply: nat -> Reply, validate: Enrichment -> Verdict, dna: Option<string>)
    requires IsCompleted(Reasoned(n, reply, validate, dna)) && n.Context?
    ensures var out := Reasoned(n, reply, validate, dna).result.value.output.value;
            && Dedup(n.attachments) <= out.data.resources
            && Dedup(n.attachments + out.enrichment.selectedImages) <= out.data.resources
            && (forall u :: u in out.data.resources <==>
                  u in n.attachments || u in out.enrichment.selectedImages || u in out.enrichment.assetUrls)
            && (out.data.totalItems == |out.data.resources| || out.data.totalItems == 1)
  {
    var out := Reasoned(n, reply, validate, dna).result.value.output.value;
    CompletedDelivers(n, reply, validate, dna);
    DedupInParts(n.attachments, out.enrichment.selectedImages, out.enrichment.assetUrls);
  }
}
