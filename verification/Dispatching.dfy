/**
 The dispatch of the sub-jobs: completed ones to the orchestrator, pass-through ones to the
 dispatcher, and the update of their rows. An exception that the retry loops do not catch
 ends it where it stands.
 */
module Dispatching {
  import opened Wrappers
  import opened Jobs
  import opened Store
  import opened Persistence
  import opened Delivery
  import opened Batches
  import R = Reasoner
  import F = Fanout

  /** The log has grown by these segments. */
  predicate Extends(start: seq<Entry>, log: seq<Entry>, segs: seq<seq<Entry>>) {
    log == start + Flat(segs)
  }

  lemma ExtendsStep(start: seq<Entry>, log: seq<Entry>, segs: seq<seq<Entry>>, seg: seq<Entry>)
    requires Extends(start, log, segs)
    ensures Extends(start, log + seg, segs + [seg])
  {
    FlatGrows(segs, seg);
  }

  ghost predicate Indexes(ids: map<nat, Id>, created: seq<(Id, Job)>) {
    && (forall k: nat :: k in ids <==> k < |created|)
    && (forall k :: 0 <= k < |created| ==> ids[k] == created[k].0)
  }

  /** The map from job index to database id, built from the created list. */
  method IndexIds(created: seq<(Id, Job)>) returns (ids: map<nat, Id>)
    requires forall k :: 0 <= k < |created| ==> created[k].1.index == k
    ensures Indexes(ids, created)
  {
    ids := map[];
    for i := 0 to |created|
      invariant forall k: nat :: k in ids <==> k < i
      invariant forall k :: 0 <= k < i ==> ids[k] == created[k].0
    {
      ids := ids[created[i].1.index := created[i].0];
    }
  }

  function IdAt(created: seq<(Id, Job)>, k: int): Option<Id> {
    if 0 <= k < |created| then Some(created[k].0) else None
  }

  function JobRequest(taskId: string, cb: R.Callback, job: Job, id: Id): Request
    requires cb.output.Some?
  {
    PostJob(KeyText(taskId, id), job.actionKey, OrElse(job.description, ""), OrElse(job.slug, ""), OrElse(job.productUuid, ""),
            job.index, cb.output.value)
  }

  /** The request says of the job what it has, field by field, with "" for what it has not. */
  predicate CarriesJob(r: Request, taskId: string, job: Job, id: Id, output: R.Output) {
    && r.PostJob?
    && r.key == "marketer:" + taskId + ":" + UuidText(id)
    && r.action == job.actionKey && r.index == job.index && r.output == output
    && r.description == (match job.description case Some(text) => text case None => "")
    && r.slug == (match job.slug case Some(slug) => slug case None => "")
    && r.productUuid == match job.productUuid case Some(product) => product case None => ""
  }

  lemma JobRequestCarriesJob(taskId: string, cb: R.Callback, job: Job, id: Id)
    requires cb.output.Some?
    ensures CarriesJob(JobRequest(taskId, cb, job, id), taskId, job, id, cb.output.value)
  {
  }

  /** A completed sub-job with a database id is posted, and no other. */
  predicate DispatchedAs(s: Settings, env: Envelope, r: F.BatchResult, id: Option<Id>, seg: seq<Entry>) {
    if r.1.Some? && id.Some? && IsCompleted(r.0)
    then TriedIf(s.hasOrchestrator, seg, JobRequest(env.taskId, r.0, r.1.value, id.value), JobIsSendable(env), Limit(s))
    else seg == []
  }

  predicate ForwardedAs(s: Settings, env: Envelope, job: Job, seg: seq<Entry>) {
    TriedIf(s.hasDispatcher, seg, PostProduct(OrElse(job.productUuid, ""), AccountOf(env)), true, Limit(s))
  }

  /** Segment k belongs to result k. */
  predicate AllDispatched(s: Settings, env: Envelope, results: seq<F.BatchResult>, created: seq<(Id, Job)>, segs: seq<seq<Entry>>) {
    && |segs| <= |results|
    && forall k :: 0 <= k < |segs| ==> DispatchedAs(s, env, results[k], IdAt(created, k), segs[k])
  }

  predicate AllForwarded(s: Settings, env: Envelope, created: seq<(Id, Job)>, segs: seq<seq<Entry>>) {
    && |segs| <= |created|
    && forall k :: 0 <= k < |segs| ==> ForwardedAs(s, env, created[k].1, segs[k])
  }

  /** A result without a job has no id to be posted under. */
  lemma IdNeedsAJob(s: Settings, env: Envelope, r: F.BatchResult, id: Option<Id>, seg: seq<Entry>)
    requires DispatchedAs(s, env, r, if r.1.Some? then id else None, seg)
    ensures DispatchedAs(s, env, r, id, seg)
  {
  }

  lemma OneMoreDispatched(s: Settings, env: Envelope, results: seq<F.BatchResult>, created: seq<(Id, Job)>,
                          segs: seq<seq<Entry>>, seg: seq<Entry>)
    requires AllDispatched(s, env, results, created, segs) && |segs| < |results|
    requires DispatchedAs(s, env, results[|segs|], IdAt(created, |segs|), seg)
    ensures AllDispatched(s, env, results, created, segs + [seg])
  {
    var more := segs + [seg];
    assert |more| == |segs| + 1 && more[|segs|] == seg;
    forall k | 0 <= k < |segs| ensures DispatchedAs(s, env, results[k], IdAt(created, k), more[k]) {
      assert more[k] == segs[k];
    }
  }

  /** The loop ended with an exception. */
  predicate Halted(segs: seq<seq<Entry>>) {
    segs != [] && Escaped(segs[|segs| - 1])
  }

  /** Only the last segment may end with an exception, and it does if the loop did not get
      through all n turns. */
  predicate RunsTo(segs: seq<seq<Entry>>, n: int) {
    && |segs| <= n && (|segs| < n ==> Halted(segs))
    && forall k :: 0 <= k < |segs| - 1 ==> !Escaped(segs[k])
  }

  /** The update that an exception keeps from happening. */
  predicate UntoldIfHalted(segs: seq<seq<Entry>>, updates: seq<bool>) {
    Halted(segs) && |updates| == |segs| ==> !updates[|segs| - 1]
  }

  /** What the row is told once the requests of its job are over. */
  function Reached(seg: seq<Entry>): Dispatch {
    if Succeeded(seg) then DispatchOk else DispatchFailed
  }

  /** The rows after the first n updates: row k has its new dispatch status if update k
      took effect, and nothing else is changed; no id of the run gets a row. */
  ghost predicate RowsSettle(start: map<Id, JobRow>, now: map<Id, JobRow>, created: seq<(Id, Job)>,
                             segs: seq<seq<Entry>>, updates: seq<bool>, n: int, ids: set<Id>)
    requires n <= |segs| && n <= |updates|
  {
    && (forall j :: j in ids && j in start && (forall k :: 0 <= k < |created| ==> created[k].0 != j) ==>
          j in now && now[j] == start[j])
    && (forall j :: j in ids && j !in start ==> j !in now)
    && (forall k :: 0 <= k < |created| && created[k].0 in start ==>
          && created[k].0 in now
          && now[created[k].0]
             == start[created[k].0].(dispatch := if k < n && updates[k] then Reached(segs[k]) else start[created[k].0].dispatch))
  }

  lemma RowsSettleStep(start: map<Id, JobRow>, was: map<Id, JobRow>, now: map<Id, JobRow>, created: seq<(Id, Job)>,
                       segs: seq<seq<Entry>>, updates: seq<bool>, seg: seq<Entry>, updated: bool, ids: set<Id>)
    requires |segs| == |updates| && DistinctIds(created)
    requires forall k :: 0 <= k < |created| ==> created[k].0 in ids
    requires RowsSettle(start, was, created, segs, updates, |segs|, ids)
    requires updated ==> |segs| < |created|
    requires SameRows(if updated then WithDispatch(was, created[|segs|].0, Reached(seg)) else was, now, ids)
    ensures RowsSettle(start, now, created, segs + [seg], updates + [updated], |segs| + 1, ids)
  {
  }

  /** One turn of the dispatch loop. */
  method DispatchOne(w: Worker, db: Database, env: Envelope, r: F.BatchResult, id: Option<Id>)
    returns (escaped: bool, ghost seg: seq<Entry>, ghost updated: bool)
    requires db.Valid() && db.current == None && (id.Some? ==> id.value in db.issued) && R.Settled(r.0)
    modifies w, db
    ensures db.Valid() && db.current == None && db.issued == old(db.issued) && old(db.events) <= db.events
    ensures w.log == old(w.log) + seg && DispatchedAs(w.settings, env, r, id, seg) && escaped == Escaped(seg)
    ensures updated ==> r.1.Some? && id.Some? && !escaped
    ensures Blame(old(db.troubles), db.troubles, updated || escaped || r.1 == None || id == None)
    ensures SameRows(if updated then WithDispatch(old(db.world).db.jobs, id.value, Reached(seg)) else old(db.world).db.jobs,
                     db.world.db.jobs, db.issued)
  {
    escaped, seg, updated := false, [], false;
    if r.1 == None || id == None {
      return;
    }
    if !IsCompleted(r.0) {
      updated := UpdateDispatchStatus(db, id.value, DispatchFailed);
      return;
    }
    var ok;
    escaped, ok, seg := w.PostOrchJob(JobRequest(env.taskId, r.0, r.1.value, id.value), JobIsSendable(env));
    if escaped {
      return;
    }
    updated := UpdateDispatchStatus(db, id.value, if ok then DispatchOk else DispatchFailed);
  }

  /** Among the first n updates, all took effect that were reached. */
  predicate AllTrue(segs: seq<seq<Entry>>, updates: seq<bool>, n: int) {
    forall k :: 0 <= k < n && k < |updates| && k < |segs| ==> updates[k] || Escaped(segs[k])
  }

  lemma OneMoreTrue(segs: seq<seq<Entry>>, updates: seq<bool>, seg: seq<Entry>, updated: bool, n: int)
    requires |segs| == |updates|
    ensures AllTrue(segs + [seg], updates + [updated], n)
            <==> AllTrue(segs, updates, n) && (|updates| < n ==> updated || Escaped(seg))
  {
    var more, longer := updates + [updated], segs + [seg];
    assert more[|updates|] == updated && longer[|segs|] == seg;
    assert forall k :: 0 <= k < |updates| ==> more[k] == updates[k] && longer[k] == segs[k];
  }

  /** The id of result i, by the index of its job. */
  method IdOf(job: Option<Job>, ids: map<nat, Id>, ghost created: seq<(Id, Job)>, ghost i: nat) returns (id: Option<Id>)
    requires job.Some? ==> job.value.index == i
    requires Indexes(ids, created)
    ensures id == if job.Some? then IdAt(created, i) else None
  {
    id := if job.Some? && job.value.index in ids then Some(ids[job.value.index]) else None;
  }

  /** The books after n turns of the dispatch loop without an exception: the log, what was
      sent for which result, and the rows. */
  ghost predicate Booked(s: Settings, env: Envelope, results: seq<F.BatchResult>, created: seq<(Id, Job)>,
                         start: seq<Entry>, log: seq<Entry>, segs: seq<seq<Entry>>,
                         rows: map<Id, JobRow>, now: map<Id, JobRow>, updates: seq<bool>, ids: set<Id>) {
    && |segs| == |updates| && RunsTo(segs, |segs|)
    && Extends(start, log, segs) && AllDispatched(s, env, results, created, segs)
    && RowsSettle(rows, now, created, segs, updates, |segs|, ids)
  }

  /** The trouble with the updates so far: none exactly if all took effect that were reached. */
  ghost predicate Accounts(before: nat, after: nat, segs: seq<seq<Entry>>, updates: seq<bool>, n: int) {
    Blame(before, after, AllTrue(segs, updates, n))
  }

  /** The created jobs are those of the first results, and every job sits where its index says. */
  predicate InStep(results: seq<F.BatchResult>, created: seq<(Id, Job)>, issued: set<Id>) {
    && |created| <= |results| && DistinctIds(created)
    && (forall k :: 0 <= k < |results| ==> R.Settled(results[k].0))
    && (forall k :: 0 <= k < |results| && results[k].1.Some? ==> results[k].1.value.index == k)
    && (forall k :: 0 <= k < |created| ==> created[k].0 in issued && created[k].1.index == k && results[k].1.Some?)
  }

  lemma OneMoreBooked(s: Settings, env: Envelope, results: seq<F.BatchResult>, created: seq<(Id, Job)>,
                      start: seq<Entry>, log: seq<Entry>, segs: seq<seq<Entry>>, seg: seq<Entry>,
                      rows: map<Id, JobRow>, was: map<Id, JobRow>, now: map<Id, JobRow>,
                      updates: seq<bool>, updated: bool, ids: set<Id>)
    requires Booked(s, env, results, created, start, log, segs, rows, was, updates, ids)
    requires |segs| < |results| && !Halted(segs) && DistinctIds(created) && forall k :: 0 <= k < |created| ==> created[k].0 in ids
    requires DispatchedAs(s, env, results[|segs|], IdAt(created, |segs|), seg)
    requires updated ==> |segs| < |created|
    requires SameRows(if updated then WithDispatch(was, created[|segs|].0, Reached(seg)) else was, now, ids)
    ensures Booked(s, env, results, created, start, log + seg, segs + [seg], rows, now, updates + [updated], ids)
    ensures Halted(segs + [seg]) <==> Escaped(seg)
  {
    RowsSettleStep(rows, was, now, created, segs, updates, seg, updated, ids);
    OneMoreDispatched(s, env, results, created, segs, seg);
    ExtendsStep(start, log, segs, seg);
    OneMoreTurn(segs, seg);
  }

  /** One turn of the dispatch loop, with the books kept. */
  method DispatchNext(w: Worker, db: Database, env: Envelope, results: seq<F.BatchResult>, created: seq<(Id, Job)>,
                      ids: map<nat, Id>, i: nat, ghost start: seq<Entry>, ghost rows: map<Id, JobRow>, ghost before: nat,
                      ghost segs: seq<seq<Entry>>, ghost updates: seq<bool>)
    returns (escaped: bool, ghost segs': seq<seq<Entry>>, ghost updates': seq<bool>)
    requires db.Valid() && db.current == None && InStep(results, created, db.issued) && Indexes(ids, created)
    requires i == |segs| < |results| && !Halted(segs)
    requires Booked(w.settings, env, results, created, start, w.log, segs, rows, db.world.db.jobs, updates, db.issued)
    requires Accounts(before, db.troubles, segs, updates, |created|)
    modifies w, db
    ensures db.Valid() && db.current == None && db.issued == old(db.issued) && old(db.events) <= db.events
    ensures |segs'| == i + 1 && escaped == Halted(segs') && UntoldIfHalted(segs', updates')
    ensures Booked(w.settings, env, results, created, start, w.log, segs', rows, db.world.db.jobs, updates', db.issued)
    ensures Accounts(before, db.troubles, segs', updates', |created|)
  {
    var id := IdOf(results[i].1, ids, created, i);
    ghost var was, log := db.world.db.jobs, w.log;
    ghost var seg, updated;
    escaped, seg, updated := DispatchOne(w, db, env, results[i], id);
    IdNeedsAJob(w.settings, env, results[i], IdAt(created, i), seg);
    OneMoreBooked(w.settings, env, results, created, start, log, segs, seg, rows, was, db.world.db.jobs, updates, updated, db.issued);
    OneMoreTrue(segs, updates, seg, updated, |created|);
    segs', updates' := segs + [seg], updates + [updated];
  }

  /** The dispatch loop over the results. */
  method DispatchAll(w: Worker, db: Database, env: Envelope, results: seq<F.BatchResult>, created: seq<(Id, Job)>)
    returns (escaped: bool, ghost segs: seq<seq<Entry>>, ghost updates: seq<bool>)
    requires db.Valid() && db.current == None && InStep(results, created, db.issued)
    modifies w, db
    ensures db.Valid() && db.current == None && db.issued == old(db.issued) && old(db.events) <= db.events
    ensures |segs| == |updates| && RunsTo(segs, |results|) && escaped == Halted(segs) && UntoldIfHalted(segs, updates)
    ensures Blame(old(db.troubles), db.troubles, AllTrue(segs, updates, |created|))
    ensures Extends(old(w.log), w.log, segs)
    ensures AllDispatched(w.settings, env, results, created, segs)
    ensures RowsSettle(old(db.world).db.jobs, db.world.db.jobs, created, segs, updates, |segs|, db.issued)
  {
    escaped, segs, updates := false, [], [];
    ghost var start, rows, before := w.log, db.world.db.jobs, db.troubles;
    var ids := IndexIds(created);
    for i := 0 to |results|
      invariant db.Valid() && db.current == None && db.issued == old(db.issued) && old(db.events) <= db.events
      invariant |segs| == i && !Halted(segs)
      invariant Booked(w.settings, env, results, created, start, w.log, segs, rows, db.world.db.jobs, updates, db.issued)
      invariant Accounts(before, db.troubles, segs, updates, |created|)
    {
      escaped, segs, updates := DispatchNext(w, db, env, results, created, ids, i, start, rows, before, segs, updates);
      if escaped {
        return;
      }
    }
  }

  lemma OneMoreTurn(segs: seq<seq<Entry>>, seg: seq<Entry>)
    requires RunsTo(segs, |segs|) && !Halted(segs)
    ensures RunsTo(segs + [seg], |segs| + 1) && (Halted(segs + [seg]) <==> Escaped(seg))
    ensures Escaped(seg) ==> forall n :: n > |segs| ==> RunsTo(segs + [seg], n)
  {
  }

  /** The loop over the rows of the pass-through jobs. */
  method ForwardAll(w: Worker, db: Database, env: Envelope, created: seq<(Id, Job)>)
    returns (escaped: bool, ghost segs: seq<seq<Entry>>, ghost updates: seq<bool>)
    requires db.Valid() && db.current == None && DistinctIds(created)
    requires forall k :: 0 <= k < |created| ==> created[k].0 in db.issued
    modifies w, db
    ensures db.Valid() && db.current == None && db.issued == old(db.issued) && old(db.events) <= db.events
    ensures |segs| == |updates| && RunsTo(segs, |created|) && escaped == Halted(segs) && UntoldIfHalted(segs, updates)
    ensures Blame(old(db.troubles), db.troubles, AllTrue(segs, updates, |created|))
    ensures Extends(old(w.log), w.log, segs)
    ensures AllForwarded(w.settings, env, created, segs)
    ensures RowsSettle(old(db.world).db.jobs, db.world.db.jobs, created, segs, updates, |segs|, db.issued)
  {
    escaped, segs, updates := false, [], [];
    for i := 0 to |created|
      invariant db.Valid() && db.current == None && db.issued == old(db.issued) && old(db.events) <= db.events
      invariant |segs| == |updates| == i && RunsTo(segs, i) && !Halted(segs)
      invariant Extends(old(w.log), w.log, segs)
      invariant Blame(old(db.troubles), db.troubles, AllTrue(segs, updates, |created|))
      invariant AllForwarded(w.settings, env, created, segs)
      invariant RowsSettle(old(db.world).db.jobs, db.world.db.jobs, created, segs, updates, i, db.issued)
    {
      ghost var was, before := db.world.db.jobs, w.log;
      ghost var seg, updated;
      escaped, seg, updated := ForwardOne(w, db, env, created[i].1, created[i].0);
      RowsSettleStep(old(db.world).db.jobs, was, db.world.db.jobs, created, segs, updates, seg, updated, db.issued);
      ExtendsStep(old(w.log), before, segs, seg);
      OneMoreTrue(segs, updates, seg, updated, |created|);
      OneMoreTurn(segs, seg);
      segs, updates := segs + [seg], updates + [updated];
      if escaped {
        return;
      }
    }
  }

  method ForwardOne(w: Worker, db: Database, env: Envelope, job: Job, id: Id)
    returns (escaped: bool, ghost seg: seq<Entry>, ghost updated: bool)
    requires db.Valid() && db.current == None && id in db.issued
    modifies w, db
    ensures db.Valid() && db.current == None && db.issued == old(db.issued) && old(db.events) <= db.events
    ensures w.log == old(w.log) + seg && ForwardedAs(w.settings, env, job, seg) && escaped == Escaped(seg)
    ensures Blame(old(db.troubles), db.troubles, updated || escaped) && (escaped ==> !updated)
    ensures SameRows(if updated then WithDispatch(old(db.world).db.jobs, id, Reached(seg)) else old(db.world).db.jobs,
                     db.world.db.jobs, db.issued)
  {
    updated := false;
    var ok;
    escaped, ok, seg := w.PostDispatcher(OrElse(job.productUuid, ""), AccountOf(env));
    if escaped {
      return;
    }
    updated := UpdateDispatchStatus(db, id, if ok then DispatchOk else DispatchFailed);
  }
}
