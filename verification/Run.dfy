/**
 One run of the worker for a task: progress report, enrichment, persistence, the terminal
 callback, and then the dispatch of every sub-job. The answers of the model, of the HTTP
 peers and of the database are arbitrary, and any request may end in an exception that
 nobody catches.
 */
module Run {
  import opened Wrappers
  import opened Text
  import opened Jobs
  import opened Store
  import opened Persistence
  import opened Delivery
  import opened Batches
  import opened Dispatching
  import R = Reasoner
  import F = Fanout

  /** What one run did: the parts of its log, what it created, which transactions took
      effect. */
  datatype Report = Report(results: seq<F.BatchResult>, passthrough: seq<Job>, terminal: seq<Entry>, posts: seq<Entry>,
                           created: seq<(Id, Job)>, committed: bool,
                           passed: seq<(Id, Job)>, passedCommitted: bool,
                           dispatched: seq<seq<Entry>>, updates: seq<bool>,
                           forwarded: seq<seq<Entry>>, forwardUpdates: seq<bool>)

  const NOTHING: Report := Report([], [], [], [], [], false, [], false, [], [], [], [])

  const IN_PROGRESS: R.Callback := R.Callback(R.InProgress, None, None)

  /** The rows at the end: created as the lines say, and then updated where an update took
      effect. */
  predicate RowsEnd(jobs: map<Id, JobRow>, ctx: Context, lines: seq<Line>, created: seq<(Id, Job)>,
                    segs: seq<seq<Entry>>, updates: seq<bool>) {
    && |created| <= |lines| && |segs| == |updates|
    && forall k :: 0 <= k < |created| ==>
         IsRow(jobs, created[k].0, ctx,
               lines[k].(dispatch := if k < |updates| && updates[k] then Reached(segs[k]) else lines[k].dispatch))
  }

  /** The created lists follow the results and the pass-through jobs, with ids of their own. */
  predicate Persisted(rep: Report) {
    && PersistOutcome(LinesOf(WithJobs(rep.results)), rep.created, rep.committed)
    && PersistOutcome(PassthroughLines(rep.passthrough), rep.passed, rep.passedCommitted)
    && DistinctIds(rep.created + rep.passed)
    && forall k :: 0 <= k < |rep.created| ==> IsUuid(rep.created[k].0)
  }

  predicate Dispatched(s: Settings, env: Envelope, rep: Report) {
    && rep.posts == Flat(rep.dispatched) + Flat(rep.forwarded)
    && |rep.dispatched| == |rep.updates| && AllDispatched(s, env, rep.results, rep.created, rep.dispatched)
    && |rep.forwarded| == |rep.forwardUpdates| && AllForwarded(s, env, rep.passed, rep.forwarded)
    && UntoldIfHalted(rep.dispatched, rep.updates) && UntoldIfHalted(rep.forwarded, rep.forwardUpdates)
  }

  /** First the n results, then the m pass-through rows, and nothing more after an exception. */
  predicate InTurn(segs: seq<seq<Entry>>, n: int, fsegs: seq<seq<Entry>>, m: int) {
    RunsTo(segs, n) && if Halted(segs) then fsegs == [] else RunsTo(fsegs, m)
  }

  predicate InOrder(rep: Report) {
    if Escaped(rep.terminal) then rep.dispatched == [] && rep.forwarded == []
    else InTurn(rep.dispatched, |rep.results|, rep.forwarded, |rep.passed|)
  }

  predicate Unbroken(rep: Report) {
    !Escaped(rep.terminal) && !Halted(rep.dispatched) && !Halted(rep.forwarded)
  }

  /** What a run does once its request has been read. */
  predicate Carried(s: Settings, env: Envelope, rep: Report) {
    && TriedIf(HasCallback(env), rep.terminal, Patch(Aggregate(rep.results)), CallbackIsSendable(env), Limit(s))
    && Persisted(rep) && Dispatched(s, env, rep) && InOrder(rep)
  }

  /** What it has left in the table of jobs: the rows of the transactions that took effect,
      and none under the ids of one that did not. */
  predicate Stored(jobs: map<Id, JobRow>, ctx: Context, rep: Report) {
    && (if rep.committed then RowsEnd(jobs, ctx, LinesOf(WithJobs(rep.results)), rep.created, rep.dispatched, rep.updates)
        else Unstored(jobs, rep.created))
    && (if rep.passedCommitted
        then RowsEnd(jobs, ctx, PassthroughLines(rep.passthrough), rep.passed, rep.forwarded, rep.forwardUpdates)
        else Unstored(jobs, rep.passed))
  }

  /** Every transaction that the run tried took effect. */
  predicate Faultless(rep: Report) {
    && (WithJobs(rep.results) != [] ==> rep.committed)
    && (rep.passthrough != [] ==> rep.passedCommitted)
    && AllTrue(rep.dispatched, rep.updates, |rep.created|) && AllTrue(rep.forwarded, rep.forwardUpdates, |rep.passed|)
  }

  lemma RowsSettled(start: map<Id, JobRow>, now: map<Id, JobRow>, ctx: Context, lines: seq<Line>, created: seq<(Id, Job)>,
                    segs: seq<seq<Entry>>, updates: seq<bool>, ids: set<Id>)
    requires HasRows(start, ctx, lines, created) && |segs| == |updates|
    requires RowsSettle(start, now, created, segs, updates, |segs|, ids)
    ensures RowsEnd(now, ctx, lines, created, segs, updates)
  {
  }

  lemma RowsUntouched(start: map<Id, JobRow>, now: map<Id, JobRow>, ctx: Context, lines: seq<Line>, created: seq<(Id, Job)>,
                      segs: seq<seq<Entry>>, updates: seq<bool>,
                      others: seq<(Id, Job)>, otherSegs: seq<seq<Entry>>, otherUpdates: seq<bool>, ids: set<Id>)
    requires |otherSegs| == |otherUpdates| && RowsSettle(start, now, others, otherSegs, otherUpdates, |otherSegs|, ids)
    requires DistinctIds(created + others) && forall k :: 0 <= k < |created| ==> created[k].0 in ids
    ensures forall lines :: HasRows(start, ctx, lines, created) ==> HasRows(now, ctx, lines, created)
    ensures RowsEnd(start, ctx, lines, created, segs, updates) ==> RowsEnd(now, ctx, lines, created, segs, updates)
  {
    forall k | 0 <= k < |created| && created[k].0 in start ensures created[k].0 in now && now[created[k].0] == start[created[k].0] {
      forall m | 0 <= m < |others| ensures others[m].0 != created[k].0 {
        assert (created + others)[k] == created[k] && (created + others)[|created| + m] == others[m];
      }
      var j := created[k].0;
      assert j in ids && j in now && now[j] == start[j];
    }
  }

  /** The dispatch gives no row to an id of the run that has none. */
  lemma StillUnstored(start: map<Id, JobRow>, now: map<Id, JobRow>, created: seq<(Id, Job)>,
                      others: seq<(Id, Job)>, segs: seq<seq<Entry>>, updates: seq<bool>, ids: set<Id>)
    requires |segs| == |updates| && RowsSettle(start, now, others, segs, updates, |segs|, ids)
    requires forall k :: 0 <= k < |created| ==> created[k].0 in ids
    ensures Unstored(start, created) ==> Unstored(now, created)
  {
    forall k | 0 <= k < |created| && created[k].0 !in start ensures created[k].0 !in now {
      var j := created[k].0;
      assert j in ids && j !in start;
    }
  }

  /** The results of the batch and the pass-through jobs are stored, in two transactions. */
  method PersistAll(db: Database, pctx: Option<Context>, results: seq<F.BatchResult>, llmJobs: seq<Job>, passthrough: seq<Job>)
    returns (created: seq<(Id, Job)>, ghost committed: bool, passed: seq<(Id, Job)>, ghost passedCommitted: bool)
    requires db.Valid() && db.current == None && (pctx.Some? ==> pctx.value in db.world.contexts)
    requires forall k :: 0 <= k < |WithJobs(results)| ==> R.Settled(WithJobs(results)[k].0)
    modifies db
    ensures db.Valid() && db.current == None
    ensures PersistOutcome(LinesOf(WithJobs(results)), created, committed)
    ensures PersistOutcome(PassthroughLines(passthrough), passed, passedCommitted)
    ensures FreshIds(created + passed, old(db.issued), db.issued)
    ensures committed && pctx.Some? ==> HasRows(db.world.db.jobs, pctx.value, LinesOf(WithJobs(results)), created)
    ensures passedCommitted && pctx.Some? ==> HasRows(db.world.db.jobs, pctx.value, PassthroughLines(passthrough), passed)
    ensures !committed ==> Unstored(db.world.db.jobs, created)
    ensures !passedCommitted ==> Unstored(db.world.db.jobs, passed)
    ensures pctx == None ==> !committed && !passedCommitted && created == [] && passed == []
    ensures old(db.troubles) <= db.troubles
    ensures pctx.Some? && db.troubles == old(db.troubles) ==>
              (WithJobs(results) != [] ==> committed) && (passthrough != [] ==> passedCommitted)
    ensures pctx.Some? && (committed || (llmJobs != [] && db.troubles == old(db.troubles))) ==>
              IsMarked(db.world, pctx.value.brief)
  {
    created, committed, passed, passedCommitted := [], false, [], false;
    if pctx == None {
      return;
    }
    ghost var marked;
    created, committed, marked := PersistResults(db, pctx.value, WithJobs(results), llmJobs);
    if passthrough != [] {
      ghost var rows, ids, worlds, events := db.world.db.jobs, db.issued, db.worlds, db.events;
      var callbacks := seq(|results|, k requires 0 <= k < |results| => results[k].0);
      passed, passedCommitted := PersistPassthrough(db, pctx.value, callbacks, passthrough);
      CreatedAreKept(rows, db.world.db.jobs, created, old(db.issued), ids);
      if marked {
        MarkOutlives(worlds, events, db.worlds, db.events, pctx.value.brief);
      }
    }
  }

  /** The results are stored; a batch that failed as a whole marks its brief. `marked` tells
      whether the mark took effect. */
  method PersistResults(db: Database, ctx: Context, valid: seq<JobResult>, llmJobs: seq<Job>)
    returns (created: seq<(Id, Job)>, ghost committed: bool, ghost marked: bool)
    requires db.Valid() && db.current == None && ctx in db.world.contexts
    requires forall k :: 0 <= k < |valid| ==> R.Settled(valid[k].0)
    modifies db
    ensures db.Valid() && db.current == None && old(db.events) <= db.events && old(db.world).contexts <= db.world.contexts
    ensures FreshIds(created, old(db.issued), db.issued) && PersistOutcome(LinesOf(valid), created, committed)
    ensures if committed then HasRows(db.world.db.jobs, ctx, LinesOf(valid), created) else Unstored(db.world.db.jobs, created)
    ensures if valid == [] && llmJobs == [] then db.troubles == old(db.troubles) && !marked
            else Blame(old(db.troubles), db.troubles, marked)
    ensures (marked && valid != []) == committed
    ensures marked ==> IsMarked(db.world, ctx.brief)
  {
    created, committed, marked := [], false, false;
    if valid != [] {
      created, committed := PersistOnCompleteMulti(db, ctx, valid);
      marked := committed;
    } else if llmJobs != [] {
      var done := MarkBatchFailed(db, ctx);
      marked := done;
    }
  }

  lemma CreatedAreKept(rows: map<Id, JobRow>, now: map<Id, JobRow>, created: seq<(Id, Job)>, was: set<Id>, ids: set<Id>)
    requires FreshIds(created, was, ids) && SameRows(rows, now, ids)
    ensures forall ctx, lines :: HasRows(rows, ctx, lines, created) ==> HasRows(now, ctx, lines, created)
    ensures Unstored(rows, created) ==> Unstored(now, created)
  {
  }

  /** Whatever rows the created list had, they have ended as the updates say; if it had none,
      it has none. */
  ghost predicate AllEnd(rows: map<Id, JobRow>, now: map<Id, JobRow>, created: seq<(Id, Job)>,
                         segs: seq<seq<Entry>>, updates: seq<bool>) {
    && (forall ctx, lines :: HasRows(rows, ctx, lines, created) ==> RowsEnd(now, ctx, lines, created, segs, updates))
    && (Unstored(rows, created) ==> Unstored(now, created))
  }

  predicate MayDispatch(results: seq<F.BatchResult>, created: seq<(Id, Job)>, passed: seq<(Id, Job)>, issued: set<Id>) {
    && InStep(results, created, issued) && DistinctIds(created + passed)
    && (forall k :: 0 <= k < |passed| ==> passed[k].0 in issued)
  }

  /** The two dispatch loops. */
  method DispatchStage(w: Worker, db: Database, env: Envelope, results: seq<F.BatchResult>,
                       created: seq<(Id, Job)>, passed: seq<(Id, Job)>)
    returns (escaped: bool, ghost posts: seq<Entry>, ghost segs: seq<seq<Entry>>, ghost updates: seq<bool>,
             ghost fsegs: seq<seq<Entry>>, ghost fupdates: seq<bool>)
    requires db.Valid() && db.current == None && MayDispatch(results, created, passed, db.issued)
    modifies w, db
    ensures db.Valid() && db.current == None && old(db.events) <= db.events
    ensures Blame(old(db.troubles), db.troubles, AllTrue(segs, updates, |created|) && AllTrue(fsegs, fupdates, |passed|))
    ensures w.log == old(w.log) + posts && posts == Flat(segs) + Flat(fsegs)
    ensures |segs| == |updates| && |fsegs| == |fupdates|
    ensures UntoldIfHalted(segs, updates) && UntoldIfHalted(fsegs, fupdates)
    ensures InTurn(segs, |results|, fsegs, |passed|) && escaped == (Halted(segs) || Halted(fsegs))
    ensures AllDispatched(w.settings, env, results, created, segs) && AllForwarded(w.settings, env, passed, fsegs)
    ensures AllEnd(old(db.world).db.jobs, db.world.db.jobs, created, segs, updates)
    ensures AllEnd(old(db.world).db.jobs, db.world.db.jobs, passed, fsegs, fupdates)
  {
    ghost var rows, ids := db.world.db.jobs, db.issued;
    DistinctParts(created, passed);
    escaped, segs, updates := DispatchAll(w, db, env, results, created);
    ghost var between, log := db.world.db.jobs, w.log;
    RowsKept(rows, between, created, passed, segs, updates, ids);
    fsegs, fupdates := [], [];
    if !escaped {
      escaped, fsegs, fupdates := ForwardAll(w, db, env, passed);
      RowsCarried(rows, between, db.world.db.jobs, created, passed, segs, updates, fsegs, fupdates, ids);
    }
    posts := Flat(segs) + Flat(fsegs);
    LogsJoin(old(w.log), log, w.log, segs, fsegs);
  }

  lemma LogsJoin(start: seq<Entry>, between: seq<Entry>, log: seq<Entry>, segs: seq<seq<Entry>>, fsegs: seq<seq<Entry>>)
    requires Extends(start, between, segs) && (Extends(between, log, fsegs) || (log == between && fsegs == []))
    ensures log == start + (Flat(segs) + Flat(fsegs))
  {
  }

  /** After the first loop the rows of the created jobs have ended, and those of the
      pass-through jobs are as they were. */
  lemma RowsKept(rows: map<Id, JobRow>, between: map<Id, JobRow>, created: seq<(Id, Job)>, passed: seq<(Id, Job)>,
                 segs: seq<seq<Entry>>, updates: seq<bool>, ids: set<Id>)
    requires |segs| == |updates| && DistinctIds(passed + created)
    requires forall k :: 0 <= k < |passed| ==> passed[k].0 in ids
    requires forall k :: 0 <= k < |created| ==> created[k].0 in ids
    requires RowsSettle(rows, between, created, segs, updates, |segs|, ids)
    ensures AllEnd(rows, between, created, segs, updates) && AllEnd(rows, between, passed, [], [])
    ensures forall ctx, lines :: HasRows(rows, ctx, lines, passed) ==> HasRows(between, ctx, lines, passed)
    ensures Unstored(rows, passed) ==> Unstored(between, passed)
  {
    StillUnstored(rows, between, created, created, segs, updates, ids);
    StillUnstored(rows, between, passed, created, segs, updates, ids);
    forall ctx, lines | HasRows(rows, ctx, lines, created) ensures RowsEnd(between, ctx, lines, created, segs, updates) {
      RowsSettled(rows, between, ctx, lines, created, segs, updates, ids);
    }
    forall ctx, lines | HasRows(rows, ctx, lines, passed)
      ensures HasRows(between, ctx, lines, passed) && RowsEnd(between, ctx, lines, passed, [], [])
    {
      RowsUntouched(rows, between, ctx, lines, passed, [], [], created, segs, updates, ids);
    }
  }

  lemma RowsCarried(rows: map<Id, JobRow>, between: map<Id, JobRow>, after: map<Id, JobRow>,
                    created: seq<(Id, Job)>, passed: seq<(Id, Job)>,
                    segs: seq<seq<Entry>>, updates: seq<bool>, fsegs: seq<seq<Entry>>, fupdates: seq<bool>, ids: set<Id>)
    requires |segs| == |updates| && |fsegs| == |fupdates| && DistinctIds(created + passed)
    requires forall k :: 0 <= k < |created| ==> created[k].0 in ids
    requires forall k :: 0 <= k < |passed| ==> passed[k].0 in ids
    requires RowsSettle(between, after, passed, fsegs, fupdates, |fsegs|, ids)
    requires AllEnd(rows, between, created, segs, updates)
    requires forall ctx, lines :: HasRows(rows, ctx, lines, passed) ==> HasRows(between, ctx, lines, passed)
    requires Unstored(rows, passed) ==> Unstored(between, passed)
    ensures AllEnd(rows, after, created, segs, updates) && AllEnd(rows, after, passed, fsegs, fupdates)
  {
    StillUnstored(between, after, created, passed, fsegs, fupdates, ids);
    StillUnstored(between, after, passed, passed, fsegs, fupdates, ids);
    forall ctx, lines | HasRows(rows, ctx, lines, created) ensures RowsEnd(after, ctx, lines, created, segs, updates) {
      RowsUntouched(between, after, ctx, lines, created, segs, updates, passed, fsegs, fupdates, ids);
    }
    forall ctx, lines | HasRows(rows, ctx, lines, passed) ensures RowsEnd(after, ctx, lines, passed, fsegs, fupdates) {
      RowsSettled(between, after, ctx, lines, passed, fsegs, fupdates, ids);
    }
  }

  lemma DistinctParts(a: seq<(Id, Job)>, b: seq<(Id, Job)>)
    requires DistinctIds(a + b)
    ensures DistinctIds(a) && DistinctIds(b) && DistinctIds(b + a)
  {
    forall i, k | 0 <= i < k < |a| ensures a[i].0 != a[k].0 {
      assert (a + b)[i] == a[i] && (a + b)[k] == a[k];
    }
    forall i, k | 0 <= i < k < |b| ensures b[i].0 != b[k].0 {
      assert (a + b)[|a| + i] == b[i] && (a + b)[|a| + k] == b[k];
    }
    forall i, k | 0 <= i < |b| && 0 <= k < |a| ensures b[i].0 != a[k].0 {
      assert (a + b)[|a| + i] == b[i] && (a + b)[k] == a[k];
    }
  }

  /** The jobs of the created list sit where their index says. */
  lemma CreatedByIndex(results: seq<F.BatchResult>, created: seq<(Id, Job)>, committed: bool)
    requires WellShaped(results) && PersistOutcome(LinesOf(WithJobs(results)), created, committed)
    ensures |created| <= |results|
    ensures forall k :: 0 <= k < |created| ==> results[k].1 == Some(created[k].1) && created[k].1.index == k
  {
  }

  // ---- The entry points ----

  ghost predicate KeepsMarks(a: World, b: World) {
    forall brief :: IsMarked(a, brief) ==> IsMarked(b, brief)
  }

  lemma MarksOutlive(ws: seq<World>, es: seq<Event>, vs: seq<World>, fs: seq<Event>)
    requires Store.IsRun(ws, es) && Store.IsRun(vs, fs) && es <= fs
    ensures KeepsMarks(ws[|es|], vs[|fs|])
  {
    forall brief | IsMarked(ws[|es|], brief) ensures IsMarked(vs[|fs|], brief) {
      MarkOutlives(ws, es, vs, fs, brief);
    }
  }

  /** The terminal callback, and the dispatch unless that ends in an exception. */
  method Finish(w: Worker, db: Database, env: Envelope, results: seq<F.BatchResult>,
                created: seq<(Id, Job)>, passed: seq<(Id, Job)>)
    returns (escaped: bool, ghost terminal: seq<Entry>, ghost posts: seq<Entry>,
             ghost segs: seq<seq<Entry>>, ghost updates: seq<bool>, ghost fsegs: seq<seq<Entry>>, ghost fupdates: seq<bool>)
    requires db.Valid() && db.current == None && MayDispatch(results, created, passed, db.issued)
    modifies w, db
    ensures db.Valid() && db.current == None && old(db.events) <= db.events
    ensures Blame(old(db.troubles), db.troubles, AllTrue(segs, updates, |created|) && AllTrue(fsegs, fupdates, |passed|))
    ensures w.log == old(w.log) + terminal + posts && posts == Flat(segs) + Flat(fsegs)
    ensures |segs| == |updates| && |fsegs| == |fupdates|
    ensures UntoldIfHalted(segs, updates) && UntoldIfHalted(fsegs, fupdates)
    ensures TriedIf(HasCallback(env), terminal, Patch(Aggregate(results)), CallbackIsSendable(env), Limit(w.settings))
    ensures if Escaped(terminal) then segs == [] && fsegs == [] else InTurn(segs, |results|, fsegs, |passed|)
    ensures escaped == (Escaped(terminal) || Halted(segs) || Halted(fsegs))
    ensures AllDispatched(w.settings, env, results, created, segs) && AllForwarded(w.settings, env, passed, fsegs)
    ensures AllEnd(old(db.world).db.jobs, db.world.db.jobs, created, segs, updates)
    ensures AllEnd(old(db.world).db.jobs, db.world.db.jobs, passed, fsegs, fupdates)
    ensures KeepsMarks(old(db.world), db.world)
  {
    var body := Summarize(results);
    escaped, terminal := false, [];
    if HasCallback(env) {
      escaped, terminal := w.PatchCallback(body, CallbackIsSendable(env));
    }
    assert w.log == old(w.log) + terminal;
    if escaped {
      posts, segs, updates, fsegs, fupdates := [], [], [], [], [];
      return;
    }
    ghost var worlds, events := db.worlds, db.events;
    escaped, posts, segs, updates, fsegs, fupdates := DispatchStage(w, db, env, results, created, passed);
    MarksOutlive(worlds, events, db.worlds, db.events);
  }

  lemma EachIsFresh(a: seq<(Id, Job)>, b: seq<(Id, Job)>, was: set<Id>, ids: set<Id>)
    requires FreshIds(a + b, was, ids)
    ensures forall k :: 0 <= k < |a| ==> a[k].0 in ids && IsUuid(a[k].0)
    ensures forall k :: 0 <= k < |b| ==> b[k].0 in ids
  {
    forall k | 0 <= k < |a| ensures a[k].0 in ids && IsUuid(a[k].0) {
      assert (a + b)[k] == a[k];
    }
    forall k | 0 <= k < |b| ensures b[k].0 in ids {
      assert (a + b)[|a| + k] == b[k];
    }
  }

  /** What has been stored, or tried, is fit for the dispatch. */
  lemma ReadyToDispatch(rep: Report, was: set<Id>, ids: set<Id>)
    requires WellShaped(rep.results) && FreshIds(rep.created + rep.passed, was, ids)
    requires PersistOutcome(LinesOf(WithJobs(rep.results)), rep.created, rep.committed)
    requires PersistOutcome(PassthroughLines(rep.passthrough), rep.passed, rep.passedCommitted)
    ensures Persisted(rep) && MayDispatch(rep.results, rep.created, rep.passed, ids)
  {
    CreatedByIndex(rep.results, rep.created, rep.committed);
    EachIsFresh(rep.created, rep.passed, was, ids);
    DistinctParts(rep.created, rep.passed);
  }

  lemma IsCarried(s: Settings, env: Envelope, stored: Report, rep: Report)
    requires Persisted(stored)
    requires rep == stored.(terminal := rep.terminal, posts := rep.posts, dispatched := rep.dispatched, updates := rep.updates,
                            forwarded := rep.forwarded, forwardUpdates := rep.forwardUpdates)
    requires TriedIf(HasCallback(env), rep.terminal, Patch(Aggregate(rep.results)), CallbackIsSendable(env), Limit(s))
    requires Dispatched(s, env, rep) && InOrder(rep)
    ensures Carried(s, env, rep)
  {
  }

  /** The rows as the two transactions leave them, before the dispatch. */
  predicate Inserted(rows: map<Id, JobRow>, ctx: Context, rep: Report) {
    && (if rep.committed then HasRows(rows, ctx, LinesOf(WithJobs(rep.results)), rep.created) else Unstored(rows, rep.created))
    && (if rep.passedCommitted then HasRows(rows, ctx, PassthroughLines(rep.passthrough), rep.passed) else Unstored(rows, rep.passed))
  }

  lemma StoredAtLast(rows: map<Id, JobRow>, now: map<Id, JobRow>, ctx: Context, rep: Report)
    requires Inserted(rows, ctx, rep)
    requires AllEnd(rows, now, rep.created, rep.dispatched, rep.updates)
    requires AllEnd(rows, now, rep.passed, rep.forwarded, rep.forwardUpdates)
    ensures Stored(now, ctx, rep)
  {
  }

  /** The rest of the run, after everything is stored. */
  method FinishStored(w: Worker, db: Database, env: Envelope, results: seq<F.BatchResult>,
                      created: seq<(Id, Job)>, passed: seq<(Id, Job)>, ghost stored: Report)
    returns (escaped: bool, ghost rep: Report)
    requires stored.results == results && stored.created == created && stored.passed == passed
    requires db.Valid() && db.current == None && Persisted(stored) && MayDispatch(results, created, passed, db.issued)
    modifies w, db
    ensures db.Valid() && db.current == None && escaped == !Unbroken(rep)
    ensures rep == stored.(terminal := rep.terminal, posts := rep.posts, dispatched := rep.dispatched, updates := rep.updates,
                           forwarded := rep.forwarded, forwardUpdates := rep.forwardUpdates)
    ensures w.log == old(w.log) + rep.terminal + rep.posts && Carried(w.settings, env, rep)
    ensures forall ctx :: Inserted(old(db.world).db.jobs, ctx, stored) ==> Stored(db.world.db.jobs, ctx, rep)
    ensures KeepsMarks(old(db.world), db.world)
    ensures Blame(old(db.troubles), db.troubles,
                  AllTrue(rep.dispatched, rep.updates, |created|) && AllTrue(rep.forwarded, rep.forwardUpdates, |passed|))
  {
    ghost var terminal, posts, segs, updates, fsegs, fupdates;
    escaped, terminal, posts, segs, updates, fsegs, fupdates := Finish(w, db, env, results, created, passed);
    rep := stored.(terminal := terminal, posts := posts, dispatched := segs, updates := updates,
                   forwarded := fsegs, forwardUpdates := fupdates);
    IsCarried(w.settings, env, stored, rep);
    forall ctx | Inserted(old(db.world).db.jobs, ctx, stored) ensures Stored(db.world.db.jobs, ctx, rep) {
      StoredAtLast(old(db.world).db.jobs, db.world.db.jobs, ctx, rep);
    }
  }

  /** From the results of the batch to the last dispatch. */
  method Deliver(w: Worker, db: Database, pctx: Option<Context>, env: Envelope,
                 results: seq<F.BatchResult>, llmJobs: seq<Job>, passthrough: seq<Job>) returns (escaped: bool, ghost rep: Report)
    requires db.Valid() && db.current == None && (pctx.Some? ==> pctx.value in db.world.contexts)
    requires WellShaped(results)
    modifies w, db
    ensures db.Valid() && db.current == None
    ensures rep.results == results && rep.passthrough == passthrough && escaped == !Unbroken(rep)
    ensures w.log == old(w.log) + rep.terminal + rep.posts && Carried(w.settings, env, rep)
    ensures if pctx.Some? then Stored(db.world.db.jobs, pctx.value, rep)
            else !rep.committed && !rep.passedCommitted && rep.created == [] && rep.passed == []
    ensures pctx.Some? && db.troubles == old(db.troubles) ==> Faultless(rep)
    ensures pctx.Some? && (rep.committed || (llmJobs != [] && db.troubles == old(db.troubles))) ==>
              IsMarked(db.world, pctx.value.brief)
  {
    var created, passed;
    ghost var committed, passedCommitted;
    created, committed, passed, passedCommitted := PersistAll(db, pctx, results, llmJobs, passthrough);
    ghost var stored := NOTHING.(results := results, passthrough := passthrough, created := created, committed := committed,
                                 passed := passed, passedCommitted := passedCommitted);
    ReadyToDispatch(stored, old(db.issued), db.issued);
    assert pctx.Some? ==> Inserted(db.world.db.jobs, pctx.value, stored);
    escaped, rep := FinishStored(w, db, env, results, created, passed, stored);
  }

  /** How a run goes: it reports progress; if the request can be read, it carries it out;
      and it finishes unless that is cut short by an exception. */
  predicate Behaves(s: Settings, env: Envelope, finished: bool, started: seq<Entry>, rep: Report) {
    && TriedIf(HasCallback(env), started, Patch(IN_PROGRESS), CallbackIsSendable(env), Limit(s))
    && (if Readable(env) && !Escaped(started) then Carried(s, env, rep) else rep == NOTHING)
    && (finished <==> Readable(env) && !Escaped(started) && Unbroken(rep))
  }

  /** `_run_and_callback` for a `subscription_strategy` task. A run that does not finish has
      raised. */
  method RunAndCallback(w: Worker, db: Database, pctx: Option<Context>, env: Envelope, r: Reasoning)
    returns (finished: bool, ghost started: seq<Entry>, ghost rep: Report, ghost batch: Batch)
    requires db.Valid() && db.current == None && (pctx.Some? ==> pctx.value in db.world.contexts)
    requires Possible(r)
    modifies w, db
    ensures db.Valid() && db.current == None
    ensures w.log == old(w.log) + started + rep.terminal + rep.posts
    ensures Behaves(w.settings, env, finished, started, rep)
    ensures SettledAnswers(batch)
    ensures Readable(env) && !Escaped(started) ==>
              && IsWork(env, batch, rep.results, rep.passthrough)
              && (LlmJobsOf(env) != [] ==> Yields(r, Renumbered(LlmJobsOf(env)), batch))
    ensures pctx.Some? ==> Stored(db.world.db.jobs, pctx.value, rep)
    ensures pctx.Some? && db.troubles == old(db.troubles) ==> Faultless(rep)
    ensures pctx == None ==> rep.created == [] && rep.passed == []
    ensures pctx.Some? && rep.committed ==> IsMarked(db.world, pctx.value.brief)
    ensures pctx.Some? && Readable(env) && !Escaped(started) && LlmJobsOf(env) != [] && db.troubles == old(db.troubles) ==>
              IsMarked(db.world, pctx.value.brief)
  {
    started, rep, batch := [], NOTHING, Crashes;
    var escaped := false;
    if HasCallback(env) {
      escaped, started := w.PatchCallback(IN_PROGRESS, CallbackIsSendable(env));
    }
    assert w.log == old(w.log) + started;
    if escaped || !ContextIsReadable(env) {
      return false, started, NOTHING, batch;
    }
    var ok, llmJobs, passthrough, results;
    ok, llmJobs, passthrough, results, batch := Work(env, r);
    if !ok {
      return false, started, NOTHING, batch;
    }
    escaped, rep := Deliver(w, db, pctx, env, results, llmJobs, passthrough);
    finished := !escaped;
  }

  // ---- Theorems: the end of a run ----

  predicate Clean(log: seq<Entry>) {
    forall p :: 0 <= p < |log| ==> log[p].answer != Uncaught
  }

  /** Cut short: the last request raised, and no other. */
  predicate Cut(log: seq<Entry>) {
    Escaped(log) && Clean(log[..|log| - 1])
  }

  lemma TriedIsCleanOrCut(configured: bool, seg: seq<Entry>, r: Request, sendable: bool, limit: nat)
    requires TriedIf(configured, seg, r, sendable, limit)
    ensures if Escaped(seg) then Cut(seg) else Clean(seg)
  {
    forall q | 0 <= q < |seg| && seg[q].answer == Uncaught ensures q == |seg| - 1 {
      StopsLast(seg, r, sendable, limit, q);
    }
  }

  lemma CleanFirst(a: seq<Entry>, b: seq<Entry>)
    requires Clean(a)
    ensures Clean(b) ==> Clean(a + b)
    ensures Cut(b) ==> Cut(a + b)
  {
    if Cut(b) {
      assert (a + b)[..|a + b| - 1] == a + b[..|b| - 1];
    }
  }

  lemma {:induction false} FlatIsCleanOrCut(segs: seq<seq<Entry>>, n: int)
    requires RunsTo(segs, n)
    requires forall k :: 0 <= k < |segs| ==> if Escaped(segs[k]) then Cut(segs[k]) else Clean(segs[k])
    ensures if Halted(segs) then Cut(Flat(segs)) else Clean(Flat(segs))
  {
    if segs != [] {
      var before := segs[..|segs| - 1];
      assert !Halted(before);
      FlatIsCleanOrCut(before, |before|);
      CleanFirst(Flat(before), segs[|segs| - 1]);
    }
  }

  lemma PostsAreCleanOrCut(s: Settings, env: Envelope, rep: Report)
    requires Dispatched(s, env, rep) && InOrder(rep)
    ensures if Halted(rep.dispatched) || Halted(rep.forwarded) then Cut(rep.posts) else Clean(rep.posts)
    ensures Escaped(rep.terminal) ==> rep.posts == []
  {
    forall k | 0 <= k < |rep.dispatched|
      ensures if Escaped(rep.dispatched[k]) then Cut(rep.dispatched[k]) else Clean(rep.dispatched[k])
    {
      DispatchedIsCleanOrCut(s, env, rep.results[k], IdAt(rep.created, k), rep.dispatched[k]);
    }
    forall k | 0 <= k < |rep.forwarded|
      ensures if Escaped(rep.forwarded[k]) then Cut(rep.forwarded[k]) else Clean(rep.forwarded[k])
    {
      assert ForwardedAs(s, env, rep.passed[k].1, rep.forwarded[k]);
      TriedIsCleanOrCut(s.hasDispatcher, rep.forwarded[k],
                        PostProduct(OrElse(rep.passed[k].1.productUuid, ""), AccountOf(env)), true, Limit(s));
    }
    FlatIsCleanOrCut(rep.dispatched, if Escaped(rep.terminal) then 0 else |rep.results|);
    FlatIsCleanOrCut(rep.forwarded, if Escaped(rep.terminal) || Halted(rep.dispatched) then 0 else |rep.passed|);
    if Halted(rep.dispatched) {
      assert rep.posts == Flat(rep.dispatched);
    } else {
      CleanFirst(Flat(rep.dispatched), Flat(rep.forwarded));
    }
  }

  lemma DispatchedIsCleanOrCut(s: Settings, env: Envelope, r: F.BatchResult, id: Option<Id>, seg: seq<Entry>)
    requires DispatchedAs(s, env, r, id, seg)
    ensures if Escaped(seg) then Cut(seg) else Clean(seg)
  {
    if r.1.Some? && id.Some? && IsCompleted(r.0) {
      TriedIsCleanOrCut(s.hasOrchestrator, seg, JobRequest(env.taskId, r.0, r.1.value, id.value), JobIsSendable(env), Limit(s));
    }
  }

  function LogOf(started: seq<Entry>, rep: Report): seq<Entry> {
    started + rep.terminal + rep.posts
  }

  /** A run finishes if and only if its request can be read and none of its requests ends in
      an exception that the retry loops let through. One that is cut short has such an
      exception as its last answer, and as no other. */
  lemma FinishesIff(s: Settings, env: Envelope, finished: bool, started: seq<Entry>, rep: Report)
    requires Behaves(s, env, finished, started, rep)
    ensures finished <==> Readable(env) && Clean(LogOf(started, rep))
    ensures Readable(env) && !finished ==> Cut(LogOf(started, rep))
  {
    TriedIsCleanOrCut(HasCallback(env), started, Patch(IN_PROGRESS), CallbackIsSendable(env), Limit(s));
    if Readable(env) {
      if Escaped(started) {
        assert LogOf(started, rep) == started;
      } else {
        var a := started + rep.terminal;
        TriedIsCleanOrCut(HasCallback(env), rep.terminal, Patch(Aggregate(rep.results)), CallbackIsSendable(env), Limit(s));
        PostsAreCleanOrCut(s, env, rep);
        CleanFirst(started, rep.terminal);
        if Escaped(rep.terminal) {
          assert LogOf(started, rep) == a;
        } else {
          CleanFirst(a, rep.posts);
        }
      }
    }
  }

  // ---- Theorems: the callback ----

  lemma PostsAreNoPatches(s: Settings, env: Envelope, rep: Report)
    requires Dispatched(s, env, rep)
    ensures forall p :: 0 <= p < |rep.posts| ==> !rep.posts[p].request.Patch?
  {
    forall p | 0 <= p < |rep.posts| ensures !rep.posts[p].request.Patch? {
      if p < |Flat(rep.dispatched)| {
        var k, q := Locate(rep.dispatched, p);
        assert DispatchedAs(s, env, rep.results[k], IdAt(rep.created, k), rep.dispatched[k]);
      } else {
        var k, q := Locate(rep.forwarded, p - |Flat(rep.dispatched)|);
        assert ForwardedAs(s, env, rep.passed[k].1, rep.forwarded[k]);
      }
    }
  }

  /** With a callback URL, the callback bodies of a run that carries its request out are
      IN_PROGRESS, at least once and at most once per attempt, and then one terminal body,
      likewise; every POST comes later. This holds for a run that is cut short, too. */
  lemma CallbackIsBracketed(s: Settings, env: Envelope, started: seq<Entry>, rep: Report, p: nat)
    requires HasCallback(env) && Tried(started, Patch(IN_PROGRESS), CallbackIsSendable(env), Limit(s)) && Carried(s, env, rep)
    requires p < |LogOf(started, rep)|
    ensures 1 <= |started| <= Limit(s) && 1 <= |rep.terminal| <= Limit(s)
    ensures var sent := LogOf(started, rep)[p].request;
            if p < |started| then sent == Patch(IN_PROGRESS)
            else if p < |started| + |rep.terminal| then sent == Patch(Aggregate(rep.results)) && sent.body.status != R.InProgress
            else !sent.Patch?
  {
    PostsAreNoPatches(s, env, rep);
    var all := LogOf(started, rep);
    assert p < |started| ==> all[p] == started[p];
    assert |started| <= p < |started| + |rep.terminal| ==> all[p] == rep.terminal[p - |started|];
    assert p >= |started| + |rep.terminal| ==> all[p] == rep.posts[p - |started| - |rep.terminal|];
  }

  /** A terminal body is put to the HTTP client. */
  predicate SendsTerminal(log: seq<Entry>) {
    exists p :: 0 <= p < |log| && log[p].request.Patch? && log[p].request.body.status != R.InProgress
  }

  /** With a callback URL, a terminal body is put to the client if and only if the request
      can be read and reporting progress does not raise; and it does raise if the URL or the
      correlation id is not one that the client takes. */
  lemma TerminalIffReadable(s: Settings, env: Envelope, finished: bool, started: seq<Entry>, rep: Report)
    requires HasCallback(env) && Behaves(s, env, finished, started, rep)
    ensures SendsTerminal(LogOf(started, rep)) <==> Readable(env) && Clean(started)
    ensures !CallbackIsSendable(env) ==> !Clean(started)
  {
    var all := LogOf(started, rep);
    TriedIsCleanOrCut(true, started, Patch(IN_PROGRESS), CallbackIsSendable(env), Limit(s));
    if Readable(env) && !Escaped(started) {
      CallbackIsBracketed(s, env, started, rep, 0);
      CallbackIsBracketed(s, env, started, rep, |started|);
      assert all[|started|].request.Patch?;
    } else {
      assert all == started;
    }
  }

  /** Four requests that leave their task without a terminal body, whatever the peers answer:
      a job with an infinite quantity, a context that is null, a correlation id that is a
      number, and a callback URL that is none. */
  lemma SomeRequestsHang(s: Settings, env: Envelope, finished: bool, started: seq<Entry>, rep: Report)
    requires var item := Jobs.Object(Some("create_post"), Some("text"), None, None, None, NotFinite);
             || env == Envelope("t", GoodUrl, HeaderId, Given(Payload(Given("a"), Given(ClientRequest(Some([item]), true)))))
             || env == Envelope("t", GoodUrl, HeaderId, Given(Payload(Falsy, Missing)))
             || env == Envelope("t", GoodUrl, OtherId, Given(Payload(Missing, Missing)))
             || env == Envelope("t", BadUrl, HeaderId, Given(Payload(Missing, Missing)))
    requires Behaves(s, env, finished, started, rep)
    ensures !SendsTerminal(LogOf(started, rep)) && !finished
  {
    if ItemsOf(env) != [] {
      assert ItemsOf(env)[0].Object? && ItemsOf(env)[0].quantity == NotFinite;
    }
    assert !Readable(env);
    TerminalIffReadable(s, env, finished, started, rep);
  }

  // ---- Theorems: the dispatch ----

  /** Once the results are stored, every completed sub-job has a database id. */
  lemma CommitCoversCompleted(rep: Report, k: nat)
    requires Persisted(rep) && WellShaped(rep.results) && rep.committed
    requires k < |rep.results| && rep.results[k].1.Some? && rep.results[k].0.status == R.Completed
    ensures k < |rep.created| && rep.created[k].1 == rep.results[k].1.value
  {
    assert LinesOf(WithJobs(rep.results))[k].status == JobDone;
  }

  /** Unless it is cut short before, the run comes to every result and every pass-through row. */
  lemma UnbrokenCoversAll(rep: Report)
    requires InOrder(rep) && Unbroken(rep)
    ensures |rep.dispatched| == |rep.results| && |rep.forwarded| == |rep.passed|
  {
  }

  /** A completed sub-job with a database id that the loop comes to is posted, whether or not
      its row was stored. */
  lemma CompletedIsDispatched(s: Settings, env: Envelope, rep: Report, k: nat) returns (p: nat)
    requires Dispatched(s, env, rep) && s.hasOrchestrator && k < |rep.dispatched|
    requires k < |rep.created| && rep.results[k].1.Some?
    requires rep.results[k].0.status == R.Completed && rep.results[k].0.output.Some?
    ensures p < |rep.posts|
    ensures CarriesJob(rep.posts[p].request, env.taskId, rep.results[k].1.value, rep.created[k].0, rep.results[k].0.output.value)
  {
    JobRequestCarriesJob(env.taskId, rep.results[k].0, rep.results[k].1.value, rep.created[k].0);
    assert DispatchedAs(s, env, rep.results[k], IdAt(rep.created, k), rep.dispatched[k]);
    Place(rep.dispatched, k, 0);
    p := |Flat(rep.dispatched[..k])|;
  }

  lemma ForwardsAreProducts(s: Settings, env: Envelope, rep: Report, p: nat)
    requires Dispatched(s, env, rep) && p < |rep.posts|
    ensures p >= |Flat(rep.dispatched)| ==> rep.posts[p].request.PostProduct?
  {
    if p >= |Flat(rep.dispatched)| {
      var k, q := Locate(rep.forwarded, p - |Flat(rep.dispatched)|);
      assert ForwardedAs(s, env, rep.passed[k].1, rep.forwarded[k]);
    }
  }

  /** Every job POST belongs to a completed sub-job and carries its id, content and index;
      in particular a failed sub-job is never posted. */
  lemma JobPostsAreCompleted(s: Settings, env: Envelope, rep: Report, p: nat) returns (k: nat, q: nat)
    requires Dispatched(s, env, rep) && p < |rep.posts| && rep.posts[p].request.PostJob?
    ensures k < |rep.created| && k < |rep.dispatched| && rep.results[k].1.Some?
    ensures rep.results[k].0.status == R.Completed && rep.results[k].0.output.Some?
    ensures rep.posts[p].request == JobRequest(env.taskId, rep.results[k].0, rep.results[k].1.value, rep.created[k].0)
    ensures CarriesJob(rep.posts[p].request, env.taskId, rep.results[k].1.value, rep.created[k].0, rep.results[k].0.output.value)
    ensures q < |rep.dispatched[k]| && rep.posts[p] == rep.dispatched[k][q] && p == |Flat(rep.dispatched[..k])| + q
    ensures Tried(rep.dispatched[k], rep.posts[p].request, JobIsSendable(env), Limit(s))
  {
    ForwardsAreProducts(s, env, rep, p);
    k, q := Locate(rep.dispatched, p);
    assert DispatchedAs(s, env, rep.results[k], IdAt(rep.created, k), rep.dispatched[k]);
    JobRequestCarriesJob(env.taskId, rep.results[k].0, rep.results[k].1.value, rep.created[k].0);
  }

  /** With a correlation id that the client cannot send, a job POST raises. */
  lemma UnsendableJobsRaise(s: Settings, env: Envelope, rep: Report, p: nat)
    requires Dispatched(s, env, rep) && p < |rep.posts| && rep.posts[p].request.PostJob? && env.correlation == OtherId
    ensures rep.posts[p].answer == Uncaught
  {
    var k, q := JobPostsAreCompleted(s, env, rep, p);
    UnsendableRaises(rep.dispatched[k], rep.posts[p].request, Limit(s), q);
  }

  /** Distinct sub-jobs have distinct keys on the wire, every retry of a sub-job repeats its
      request, and the orchestrator accepts each key at most once. */
  lemma KeysAreDispatchedOnce(s: Settings, env: Envelope, rep: Report, p: nat, q: nat)
    requires Dispatched(s, env, rep) && Persisted(rep)
    requires p < |rep.posts| && q < |rep.posts| && rep.posts[p].request.PostJob? && rep.posts[q].request.PostJob?
    requires rep.posts[p].request.key == rep.posts[q].request.key
    ensures rep.posts[p].request == rep.posts[q].request
    ensures Accepted(rep.posts[p].answer) && Accepted(rep.posts[q].answer) ==> p == q
  {
    var k, i := JobPostsAreCompleted(s, env, rep, p);
    var m, j := JobPostsAreCompleted(s, env, rep, q);
    KeysAreInjective(env.taskId, rep.created[k].0, env.taskId, rep.created[m].0);
    DistinctParts(rep.created, rep.passed);
    assert k == m;
    if Accepted(rep.posts[p].answer) && Accepted(rep.posts[q].answer) {
      StopsLast(rep.dispatched[k], rep.posts[p].request, JobIsSendable(env), Limit(s), i);
      StopsLast(rep.dispatched[k], rep.posts[p].request, JobIsSendable(env), Limit(s), j);
    }
  }

  /** What the request says of an item of the client's list. */
  predicate OrdersItem(r: Request, item: RawItem) {
    && r.PostJob? && item.Object?
    && CleanString(item.actionKey) == Some(r.action) && (r.action == "create_post" || r.action == "edit_post")
    && r.description == (match CleanString(item.description)
                         case Some(text) => text
                         case None =>
                           match CleanString(item.slug)
                           case Some(slug) => "Generate a " + slug + " post"
                           case None => "Generate a " + r.action)
    && r.slug == (match CleanString(item.slug) case Some(slug) => slug case None => "")
    && r.productUuid == match CleanString(item.productUuid) case Some(product) => product case None => ""
  }

  /** The list of jobs that the client asks for, if the envelope has one. */
  predicate AsksFor(env: Envelope, items: seq<RawItem>) {
    env.payload.Given? && env.payload.value.clientRequest.Given? && env.payload.value.clientRequest.value.jobs == Some(items)
  }

  /** Job k of the results is the post at position p of the expanded list. */
  lemma ResultsFollowTheList(env: Envelope, batch: Batch, k: nat) returns (items: seq<RawItem>, p: nat, m: nat)
    requires k < |ResultsOf(env, batch)| && ResultsOf(env, batch)[k].1.Some?
    ensures AsksFor(env, items) && p < |Expanded(items)| && m < |items| && StemsFrom(Expanded(items)[p], items[m])
    ensures ResultsOf(env, batch)[k].1.value.index == k && IsPost(Expanded(items)[p])
    ensures SameOrder(ResultsOf(env, batch)[k].1.value, Expanded(items)[p])
  {
    items := ItemsOf(env);
    var at := LlmJobsInOrder(Expanded(items));
    p := at[k];
    m := JobsStemFromItems(items, p);
  }

  /** The two jobs order the same thing. */
  predicate SameOrder(a: Job, b: Job) {
    a.actionKey == b.actionKey && a.description == b.description && a.slug == b.slug && a.productUuid == b.productUuid
  }

  /** From the envelope to the wire: every job POST stems from one object of the client's list,
      whose action, description, slug and product it carries, cleaned, together with the
      output of its own result, its own position and its own id. */
  lemma JobPostsStemFromItems(s: Settings, env: Envelope, rep: Report, batch: Batch, p: nat)
    returns (items: seq<RawItem>, m: nat, k: nat)
    requires IsWork(env, batch, rep.results, rep.passthrough) && Dispatched(s, env, rep)
    requires p < |rep.posts| && rep.posts[p].request.PostJob?
    ensures AsksFor(env, items) && m < |items| && OrdersItem(rep.posts[p].request, items[m])
    ensures k < |rep.created| && rep.posts[p].request.key == "marketer:" + env.taskId + ":" + UuidText(rep.created[k].0)
    ensures k < |rep.results| && rep.posts[p].request.index == k
    ensures rep.results[k].0.status == R.Completed && rep.results[k].0.output == Some(rep.posts[p].request.output)
  {
    var q, at;
    k, q := JobPostsAreCompleted(s, env, rep, p);
    items, at, m := ResultsFollowTheList(env, batch, k);
  }

  lemma DispatchesAreJobs(s: Settings, env: Envelope, rep: Report, p: nat)
    requires Dispatched(s, env, rep) && p < |Flat(rep.dispatched)|
    ensures rep.posts[p].request.PostJob?
  {
    var k, q := Locate(rep.dispatched, p);
    assert DispatchedAs(s, env, rep.results[k], IdAt(rep.created, k), rep.dispatched[k]);
  }

  lemma ProductPostsArePassed(s: Settings, env: Envelope, rep: Report, p: nat) returns (k: nat)
    requires Dispatched(s, env, rep) && Persisted(rep) && p < |rep.posts| && rep.posts[p].request.PostProduct?
    ensures k < |rep.passthrough|
    ensures rep.posts[p].request == PostProduct(OrElse(rep.passthrough[k].productUuid, ""), AccountOf(env))
  {
    if p < |Flat(rep.dispatched)| {
      DispatchesAreJobs(s, env, rep, p);
    }
    var q;
    k, q := Locate(rep.forwarded, p - |Flat(rep.dispatched)|);
    assert ForwardedAs(s, env, rep.passed[k].1, rep.forwarded[k]);
    assert rep.passed[k].1 == PassthroughLines(rep.passthrough)[k].job == rep.passthrough[k];
  }

  lemma PassthroughStems(env: Envelope, k: nat) returns (items: seq<RawItem>, m: nat)
    requires k < |PassthroughOf(env)|
    ensures AsksFor(env, items) && m < |items| && StemsFrom(PassthroughOf(env)[k], items[m]) && !IsPost(PassthroughOf(env)[k])
  {
    items := ItemsOf(env);
    var at := PassthroughJobsInOrder(Expanded(items));
    assert PassthroughOf(env)[k] == Expanded(items)[at[k]];
    m := JobsStemFromItems(items, at[k]);
  }

  /** Likewise, every product POST names the product of an object of the list that is no
      post, and the account of the envelope's context. */
  lemma ProductPostsStemFromItems(s: Settings, env: Envelope, rep: Report, batch: Batch, p: nat)
    returns (items: seq<RawItem>, m: nat)
    requires IsWork(env, batch, rep.results, rep.passthrough) && Dispatched(s, env, rep) && Persisted(rep)
    requires p < |rep.posts| && rep.posts[p].request.PostProduct?
    ensures AsksFor(env, items) && m < |items| && items[m].Object?
    ensures CleanString(items[m].actionKey) != Some("create_post") && CleanString(items[m].actionKey) != Some("edit_post")
    ensures rep.posts[p].request.product == match CleanString(items[m].productUuid) case Some(product) => product case None => ""
    ensures rep.posts[p].request.account
            == if env.payload.value.account.Given? then env.payload.value.account.value else ""
  {
    var k := ProductPostsArePassed(s, env, rep, p);
    items, m := PassthroughStems(env, k);
  }

  /** With one call per job, every job POST carries the brand DNA that was extracted for the
      batch, in the enrichment and in the payload, whatever the model wrote. */
  lemma PostsCarryTheDna(s: Settings, env: Envelope, rep: Report, r: Reasoning, batch: Batch, p: nat, dna: string)
    requires IsWork(env, batch, rep.results, rep.passthrough)
    requires LlmJobsOf(env) != [] ==> Yields(r, Renumbered(LlmJobsOf(env)), batch)
    requires Dispatched(s, env, rep) && p < |rep.posts| && rep.posts[p].request.PostJob?
    requires r.ManyCalls? && r.dna == Ok(Some(dna)) && dna != ""
    ensures var output := rep.posts[p].request.output;
            output.data.clientDna == dna && output.enrichment.brandDna == dna
  {
    var k, q := JobPostsAreCompleted(s, env, rep, p);
    ResultsCarryTheDna(LlmJobsOf(env), batch, dna, k);
  }

  // ---- Theorems: the rows ----

  /** An id that the run gave to a job, posted or not, is that of a row if and only if the
      transaction of that job took effect. */
  lemma IdsHaveRowsIff(ctx: Context, jobs: map<Id, JobRow>, rep: Report, k: nat)
    requires Stored(jobs, ctx, rep)
    ensures k < |rep.created| ==> (rep.created[k].0 in jobs <==> rep.committed)
    ensures k < |rep.passed| ==> (rep.passed[k].0 in jobs <==> rep.passedCommitted)
  {
  }

  /** A job POST names a row, the one of its own result, if and only if the transaction that
      stores the results took effect. */
  lemma PostsNameRowsIff(s: Settings, env: Envelope, ctx: Context, jobs: map<Id, JobRow>, rep: Report, p: nat) returns (k: nat)
    requires Dispatched(s, env, rep) && Persisted(rep) && Stored(jobs, ctx, rep)
    requires p < |rep.posts| && rep.posts[p].request.PostJob?
    ensures k < |rep.created| && k < |rep.results| && rep.posts[p].request.key == KeyText(env.taskId, rep.created[k].0)
    ensures rep.committed <==> exists id :: id in jobs && IsUuid(id) && rep.posts[p].request.key == KeyText(env.taskId, id)
  {
    var q;
    k, q := JobPostsAreCompleted(s, env, rep, p);
    IdsHaveRowsIff(ctx, jobs, rep, k);
    forall id | id in jobs && IsUuid(id) && rep.posts[p].request.key == KeyText(env.taskId, id) ensures id == rep.created[k].0 {
      KeysAreInjective(env.taskId, rep.created[k].0, env.taskId, id);
    }
  }

  /** The update of row k was reached and took effect. */
  predicate Told(updates: seq<bool>, k: nat) {
    k < |updates| && updates[k]
  }

  /** How a stored row ends. It stays pending exactly if its job was done and the update of
      its dispatch status was not reached or did not take effect; otherwise it is ok or
      failed, and ok exactly if its last POST was accepted. */
  lemma RowsEndAsReported(jobs: map<Id, JobRow>, ctx: Context, lines: seq<Line>, created: seq<(Id, Job)>,
                          segs: seq<seq<Entry>>, updates: seq<bool>, k: nat)
    requires RowsEnd(jobs, ctx, lines, created, segs, updates) && k < |created|
    requires lines[k].dispatch == (if lines[k].status == JobDone then Pending else DispatchFailed)
    requires lines[k].status == JobFailed && k < |segs| ==> segs[k] == []
    ensures created[k].0 in jobs
    ensures var row := jobs[created[k].0];
            && row.user == ctx.user && row.brief == ctx.brief && row.status == lines[k].status
            && (row.dispatch == Pending <==> lines[k].status == JobDone && !Told(updates, k))
            && (row.dispatch == Pending || row.dispatch == DispatchOk || row.dispatch == DispatchFailed)
            && (row.dispatch == DispatchOk <==> Told(updates, k) && Succeeded(segs[k]))
            && (row.dispatch == DispatchOk ==> exists q :: 0 <= q < |segs[k]| && Accepted(segs[k][q].answer))
  {
    assert IsRow(jobs, created[k].0, ctx,
                 lines[k].(dispatch := if k < |updates| && updates[k] then Reached(segs[k]) else lines[k].dispatch));
  }

  /** The same for every row that a run has stored, cut short or not. */
  lemma StoredRowsAreReported(s: Settings, env: Envelope, ctx: Context, jobs: map<Id, JobRow>, rep: Report, k: nat)
    requires Persisted(rep) && Dispatched(s, env, rep) && WellShaped(rep.results) && Stored(jobs, ctx, rep) && rep.committed
    requires k < |rep.created|
    ensures rep.created[k].0 in jobs
    ensures var row := jobs[rep.created[k].0];
            && row.user == ctx.user && row.brief == ctx.brief
            && (row.status == JobDone <==> rep.results[k].0.status == R.Completed)
            && (row.dispatch == Pending <==> row.status == JobDone && !Told(rep.updates, k))
            && (row.dispatch == Pending || row.dispatch == DispatchOk || row.dispatch == DispatchFailed)
            && (row.dispatch == DispatchOk <==> Told(rep.updates, k) && Succeeded(rep.dispatched[k]))
  {
    if k < |rep.dispatched| {
      assert DispatchedAs(s, env, rep.results[k], IdAt(rep.created, k), rep.dispatched[k]);
    }
    RowsEndAsReported(jobs, ctx, LinesOf(WithJobs(rep.results)), rep.created, rep.dispatched, rep.updates, k);
  }

  /** A run that is cut short leaves pending the row of the completed sub-job on which it
      raised and of all completed ones after it. */
  lemma CutShortLeavesPending(s: Settings, env: Envelope, ctx: Context, jobs: map<Id, JobRow>, rep: Report, k: nat)
    requires Persisted(rep) && Dispatched(s, env, rep) && WellShaped(rep.results) && Stored(jobs, ctx, rep) && rep.committed
    requires k < |rep.created|
    ensures rep.created[k].0 in jobs
    ensures rep.results[k].0.status == R.Completed
            && (k >= |rep.dispatched| || (Halted(rep.dispatched) && k == |rep.dispatched| - 1))
            ==> jobs[rep.created[k].0].dispatch == Pending
  {
    StoredRowsAreReported(s, env, ctx, jobs, rep, k);
  }

  /** If their transaction took effect, every pass-through job has a row, its product is
      posted when the loop comes to it, unless there is no dispatcher, and the row ends as
      reported. */
  lemma PassedRowsAreReported(s: Settings, env: Envelope, ctx: Context, jobs: map<Id, JobRow>, rep: Report, k: nat)
    requires Persisted(rep) && Dispatched(s, env, rep) && Stored(jobs, ctx, rep) && rep.passedCommitted
    requires k < |rep.passthrough|
    ensures k < |rep.passed| && rep.passed[k].1 == rep.passthrough[k] && rep.passed[k].0 in jobs
    ensures k < |rep.forwarded| ==>
              TriedIf(s.hasDispatcher, rep.forwarded[k],
                      PostProduct(OrElse(rep.passthrough[k].productUuid, ""), AccountOf(env)), true, Limit(s))
    ensures var row := jobs[rep.passed[k].0];
            && row.status == JobDone
            && (row.dispatch == Pending <==> !Told(rep.forwardUpdates, k))
            && (row.dispatch == DispatchOk <==> Told(rep.forwardUpdates, k) && Succeeded(rep.forwarded[k]))
  {
    var lines := PassthroughLines(rep.passthrough);
    assert lines[k].status == JobDone;
    if k < |rep.forwarded| {
      assert ForwardedAs(s, env, rep.passed[k].1, rep.forwarded[k]);
    }
    RowsEndAsReported(jobs, ctx, lines, rep.passed, rep.forwarded, rep.forwardUpdates, k);
  }

  /** If no statement fails, nothing raises and some sub-job was completed, every sub-job has
      a row, which ends ok or failed, and ok exactly if its last POST was accepted. */
  lemma FaultlessRunsSettleEveryRow(s: Settings, env: Envelope, ctx: Context, jobs: map<Id, JobRow>, rep: Report, done: nat, k: nat)
    requires Persisted(rep) && Dispatched(s, env, rep) && InOrder(rep)
    requires WellShaped(rep.results) && Stored(jobs, ctx, rep)
    requires done < |rep.results| && k < |rep.results|
    ensures Faultless(rep) && Unbroken(rep) && rep.results[done].1.Some? && rep.results[done].0.status == R.Completed ==>
              && k < |rep.created| && k < |rep.dispatched| && rep.created[k].0 in jobs
              && var row := jobs[rep.created[k].0];
                 && row.user == ctx.user && row.brief == ctx.brief
                 && row.dispatch == if Succeeded(rep.dispatched[k]) then DispatchOk else DispatchFailed
  {
    if Faultless(rep) && Unbroken(rep) && rep.results[done].1.Some? && rep.results[done].0.status == R.Completed {
      FaultlessCreatesAll(rep, done);
      FaultlessIsTold(rep, k);
      StoredRowsAreReported(s, env, ctx, jobs, rep, k);
      FailedIsUnsent(s, env, rep, k);
    }
  }

  lemma FaultlessCreatesAll(rep: Report, done: nat)
    requires Persisted(rep) && WellShaped(rep.results) && Faultless(rep)
    requires done < |rep.results| && rep.results[done].1.Some? && rep.results[done].0.status == R.Completed
    ensures rep.committed && |rep.created| == |rep.results|
  {
    assert WithJobs(rep.results) != [];
    assert LinesOf(WithJobs(rep.results))[done].status == JobDone;
  }

  lemma FaultlessIsTold(rep: Report, k: nat)
    requires InOrder(rep) && Unbroken(rep) && Faultless(rep) && |rep.updates| == |rep.dispatched|
    requires k < |rep.created| && k < |rep.results|
    ensures k < |rep.dispatched| && Told(rep.updates, k)
  {
    assert !Escaped(rep.dispatched[k]);
  }

  lemma FailedIsUnsent(s: Settings, env: Envelope, rep: Report, k: nat)
    requires Dispatched(s, env, rep) && k < |rep.dispatched|
    ensures k < |rep.results| && (rep.results[k].0.status != R.Completed ==> !Succeeded(rep.dispatched[k]))
  {
    assert DispatchedAs(s, env, rep.results[k], IdAt(rep.created, k), rep.dispatched[k]);
  }

  // ---- A task with a single job ----

  /** After the reasoner, the length of the description is logged: it must have one. */
  predicate SingleReadable(env: Envelope) {
    && (HasCallback(env) ==> CallbackIsSendable(env))
    && ContextIsReadable(env) && !RequestOf(env).Malformed?
    && (RequestOf(env).Given? ==> RequestOf(env).value.describable)
  }

  function SingleBody(outcome: F.Outcome): R.Callback {
    if outcome.Returned? then outcome.cb else R.Failure(R.InternalError)
  }

  /** How the run of a single job goes. */
  predicate SingleBehaves(s: Settings, env: Envelope, outcome: F.Outcome, finished: bool, started: seq<Entry>, terminal: seq<Entry>) {
    && TriedIf(HasCallback(env), started, Patch(IN_PROGRESS), CallbackIsSendable(env), Limit(s))
    && TriedIf(SingleReadable(env) && !Escaped(started) && HasCallback(env), terminal, Patch(SingleBody(outcome)), true, Limit(s))
    && (finished <==> SingleReadable(env) && !Escaped(started) && !Escaped(terminal))
  }

  /** What it has stored: the brief is marked, and a completed job has its row. */
  predicate SingleStored(db: Db, ctx: Context, cb: R.Callback, row: Option<Id>) {
    && ctx.brief in db.briefs
    && db.briefs[ctx.brief].status == (if cb.status == R.Completed && cb.output.Some? then BriefDone else BriefFailed)
    && (cb.status == R.Completed && cb.output.Some? ==> row.Some?)
    && (row.Some? ==>
          && row.value in db.jobs
          && var r := db.jobs[row.value];
             && r.user == ctx.user && r.brief == ctx.brief && r.dispatch == NotTracked
             && r.status == if cb.status == R.Completed && cb.output.Some? then JobDone else JobFailed)
  }

  /** `_run_and_callback` for every other action: the callback of the one job is sent as it
      is, after its row is stored. */
  method RunSingle(w: Worker, db: Database, pctx: Option<Context>, env: Envelope, outcome: F.Outcome)
    returns (finished: bool, ghost started: seq<Entry>, ghost terminal: seq<Entry>, ghost committed: bool, ghost row: Option<Id>)
    requires db.Valid() && db.current == None && (pctx.Some? ==> pctx.value in db.world.contexts)
    modifies w, db
    ensures db.Valid() && db.current == None
    ensures w.log == old(w.log) + started + terminal
    ensures SingleBehaves(w.settings, env, outcome, finished, started, terminal)
    ensures committed ==> pctx.Some? && SingleStored(db.world.db, pctx.value, SingleBody(outcome), row)
    ensures Blame(old(db.troubles), db.troubles, pctx.Some? && SingleReadable(env) && !Escaped(started) ==> committed)
  {
    started, terminal, committed, row := [], [], false, None;
    var escaped := false;
    if HasCallback(env) {
      escaped, started := w.PatchCallback(IN_PROGRESS, CallbackIsSendable(env));
    }
    assert w.log == old(w.log) + started;
    finished := false;
    if escaped || !ContextIsReadable(env) {
      return;
    }
    var callback := if outcome.Returned? then outcome.cb else R.Failure(R.InternalError);
    if RequestOf(env).Malformed? || (RequestOf(env).Given? && !RequestOf(env).value.describable) {
      return;
    }
    if pctx.Some? {
      committed, row := PersistOnComplete(db, pctx.value, callback);
    }
    if HasCallback(env) {
      escaped, terminal := w.PatchCallback(callback, CallbackIsSendable(env));
    }
    finished := !escaped;
  }

  /** With a callback URL, the terminal body, which is the callback of the job or else the
      internal error, is put if and only if the request can be read and reporting progress
      does not raise. */
  lemma SingleTerminalIffReadable(s: Settings, env: Envelope, outcome: F.Outcome, finished: bool, started: seq<Entry>, terminal: seq<Entry>)
    requires HasCallback(env) && SingleBehaves(s, env, outcome, finished, started, terminal) && R.Settled(SingleBody(outcome))
    ensures SendsTerminal(started + terminal) <==> SingleReadable(env) && Clean(started)
    ensures forall p :: 0 <= p < |terminal| ==>
              terminal[p].request == Patch(match outcome
                                           case Returned(cb) => cb
                                           case Exception => R.Callback(R.Failed, None, Some(R.InternalError)))
  {
    var all := started + terminal;
    TriedIsCleanOrCut(true, started, Patch(IN_PROGRESS), CallbackIsSendable(env), Limit(s));
    assert forall p :: 0 <= p < |started| ==> all[p] == started[p];
    if terminal != [] {
      assert all[|started|] == terminal[0];
    }
  }

  /** A description that is a number leaves the task without a terminal body. */
  lemma SomeSingleRequestHangs(s: Settings, env: Envelope, outcome: F.Outcome, finished: bool, started: seq<Entry>, terminal: seq<Entry>)
    requires env == Envelope("t", GoodUrl, HeaderId, Given(Payload(Given("a"), Given(ClientRequest(None, false)))))
    requires SingleBehaves(s, env, outcome, finished, started, terminal) && R.Settled(SingleBody(outcome))
    ensures !SendsTerminal(started + terminal) && !finished
  {
    SingleTerminalIffReadable(s, env, outcome, finished, started, terminal);
  }
}
