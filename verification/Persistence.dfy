/**
 The persistence hooks, statement by statement, over the store of `Store`: between any two
 statements of a hook other tasks take any number of steps, and any statement may fail.
 */
module Persistence {
  import opened Wrappers
  import opened Store
  import opened Jobs
  import R = Reasoner

  type JobResult = (R.Callback, Job)

  // ---- The store, as one run of the worker sees it ----

  predicate By(e: Event, t: Option<Id>) {
    !e.Idle? && Some(e.t) == t
  }

  /** The event writes one of these job rows. */
  predicate Touches(e: Event, ids: set<Id>) {
    || (e.CreateJob? && e.id in ids)
    || (e.SetDispatch? && e.job in ids)
  }

  predicate Foreign(tx: Tx, ids: set<Id>) {
    forall j :: j in ids ==> j !in tx.own.jobs && j !in tx.dispatches
  }

  ghost predicate SameRows(a: map<Id, JobRow>, b: map<Id, JobRow>, ids: set<Id>) {
    forall j :: j in ids ==> (j in a <==> j in b) && (j in a ==> a[j] == b[j])
  }

  /** Every open transaction but our own leaves these rows alone. */
  predicate Undisturbed(w: World, current: Option<Id>, ids: set<Id>) {
    forall t :: t in w.txs && Some(t) != current ==> Foreign(w.txs[t], ids)
  }

  ghost predicate SameTx(a: World, b: World, t: Option<Id>) {
    t.Some? ==> (t.value in a.txs <==> t.value in b.txs) && (t.value in a.txs ==> a.txs[t.value] == b.txs[t.value])
  }

  lemma OthersLeaveTheRows(w: World, e: Event, t: Option<Id>, ids: set<Id>)
    requires Enabled(w, e) && !By(e, t) && Undisturbed(w, t, ids)
    ensures SameRows(w.db.jobs, Apply(w, e).db.jobs, ids)
  {
    if e.Commit? {
      assert Foreign(w.txs[e.t], ids);
    }
  }

  lemma OthersLeaveAlone(w: World, e: Event, t: Option<Id>, ids: set<Id>)
    requires Enabled(w, e) && !By(e, t) && !Touches(e, ids) && Undisturbed(w, t, ids)
    ensures SameTx(w, Apply(w, e), t) && w.contexts <= Apply(w, e).contexts
    ensures Undisturbed(Apply(w, e), t, ids)
  {
    var w' := Apply(w, e);
    forall u | u in w'.txs && Some(u) != t ensures Foreign(w'.txs[u], ids) {
      if u in w.txs {
        assert Foreign(w.txs[u], ids);
      }
    }
  }

  /** A statement is a matter of its own transaction. */
  lemma StatementLeavesAlone(w: World, e: Event, ids: set<Id>)
    requires Enabled(w, e) && !e.Idle? && e.t in w.txs && !e.Commit? && !e.Abort? && Undisturbed(w, Some(e.t), ids)
    ensures Undisturbed(Apply(w, e), Some(e.t), ids) && e.t in Apply(w, e).txs
    ensures Apply(w, e).db == w.db && Apply(w, e).contexts == w.contexts
  {
    forall u | u in Apply(w, e).txs && u != e.t ensures Foreign(Apply(w, e).txs[u], ids) {
      assert Foreign(w.txs[u], ids);
    }
  }

  lemma BriefsOfContexts(ws: seq<World>, es: seq<Event>, c: Context)
    requires IsRun(ws, es) && c in ws[|es|].contexts
    ensures c.brief in ws[|es|].db.briefs
  {
    InvHolds(ws, es, |es|);
  }

  /** A step fails only if one of its statements does. */
  predicate Blame(before: nat, after: nat, ok: bool) {
    if ok then after == before else after > before
  }

  /** The keys of the strategies and briefs that an open transaction has inserted. */
  function OwnKeys(w: World, t: Option<Id>): set<Id> {
    if t.Some? && t.value in w.txs then w.txs[t.value].own.strategies.Keys + w.txs[t.value].own.briefs.Keys else {}
  }

  /** Exactly the keys that the transaction has gained are those that count as inserted. */
  predicate Adds(was: set<Id>, now: set<Id>, own: set<Id>, own': set<Id>) {
    was <= now && own' == own + (now - was)
  }

  /** Only two kinds of statements give a transaction a new key, and each gives it its own. */
  lemma OwnKeysGrow(w: World, e: Event)
    requires Enabled(w, e) && !e.Idle? && e.t in w.txs && !e.Commit? && !e.Abort?
    ensures var own, own' := OwnKeys(w, Some(e.t)), OwnKeys(Apply(w, e), Some(e.t));
            && (e.InsertStrategy? ==> own' == own + {e.id})
            && (e.InsertBrief? ==> own' == own + (if e.brief in VisibleBriefs(w, e.t) then {} else {e.brief}))
            && (!e.InsertStrategy? && !e.InsertBrief? ==> own' == own)
  {
  }

  predicate NoneStored(db: Db, ids: set<Id>) {
    forall id :: id in ids ==> id !in db.strategies && id !in db.briefs
  }

  predicate AllStored(db: Db, ids: set<Id>) {
    forall id :: id in ids ==> id in db.strategies || id in db.briefs
  }

  /** With a transaction that takes effect everything is stored that it has inserted, and
      with one that does not, nothing. */
  predicate AllOrNothing(committed: bool, db: Db, ids: set<Id>) {
    if committed then AllStored(db, ids) else NoneStored(db, ids)
  }

  lemma OwnIsNotStored(ws: seq<World>, es: seq<Event>, t: Id)
    requires IsRun(ws, es) && t in ws[|es|].txs
    ensures NoneStored(ws[|es|].db, OwnKeys(ws[|es|], Some(t)))
  {
    InvHolds(ws, es, |es|);
    var w, own := ws[|es|], ws[|es|].txs[t].own;
    forall id | id in OwnKeys(w, Some(t)) ensures !HasKey(w.db, id) {
      assert HasKey(own, id);
    }
  }

  /** The database. `issued` are the ids given to the job rows of this run, and `inserted` the
      keys of the strategies and briefs that it has inserted; UUIDs are never given out twice,
      and other tasks write only job rows of their own. The ghost fields hold the run of the
      whole store up to now, and how many statements have failed. */
  class Database {
    var world: World
    var current: Option<Id>
    var issued: set<Id>
    var inserted: set<Id>
    ghost var worlds: seq<World>
    ghost var events: seq<Event>
    ghost var troubles: nat

    ghost predicate Valid()
      reads this
    {
      && IsRun(worlds, events) && world == worlds[|events|]
      && Undisturbed(world, current, issued)
      && (current.Some? ==> current.value in world.txs)
    }

    constructor ()
      ensures Valid() && current == None && issued == {} && inserted == {} && events == []
    {
      world, current, issued := INITIAL, None, {};
      inserted, worlds, events, troubles := {}, [INITIAL], [], 0;
    }

    /** One more event of the store, known to be possible. */
    method Do(e: Event)
      requires IsRun(worlds, events) && world == worlds[|events|] && Enabled(world, e)
      modifies this`world, this`worlds, this`events
      ensures IsRun(worlds, events) && world == worlds[|events|]
      ensures world == Apply(old(world), e) && events == old(events) + [e]
    {
      world := Apply(world, e);
      worlds, events := worlds + [world], events + [e];
    }

    /** The other tasks run for a while. */
    method Interfere()
      requires Valid()
      modifies this`world, this`worlds, this`events
      ensures Valid() && old(events) <= events && old(world).contexts <= world.contexts
      ensures SameTx(old(world), world, current) && SameRows(old(world).db.jobs, world.db.jobs, issued)
    {
      var n: int := *;
      while n > 0
        invariant Valid() && old(events) <= events && old(world).contexts <= world.contexts
        invariant SameTx(old(world), world, current) && SameRows(old(world).db.jobs, world.db.jobs, issued)
      {
        var e: Event := *;
        if Enabled(world, e) && !By(e, current) && !Touches(e, issued) {
          OthersLeaveTheRows(world, e, current, issued);
          OthersLeaveAlone(world, e, current, issued);
          Do(e);
        }
        n := n - 1;
      }
    }

    /** The server makes up an id for a new row. */
    method Issue() returns (id: Option<Id>)
      requires Valid()
      modifies this`issued, this`troubles
      ensures Valid() && Blame(old(troubles), troubles, id.Some?)
      ensures id == None ==> issued == old(issued)
      ensures id.Some? ==> id.value !in old(issued) && issued == old(issued) + {id.value} && id.value !in world.db.jobs && IsUuid(id.value)
    {
      var x: Id := *;
      if !IsUuid(x) || x in issued || x in world.db.jobs || exists t :: t in world.txs && (x in world.txs[t].own.jobs || x in world.txs[t].dispatches) {
        troubles := troubles + 1;
        return None;
      }
      issued := issued + {x};
      id := Some(x);
    }

    // One statement each: other tasks first, then the statement takes effect or fails.

    method Begin(user: Id, purpose: Purpose) returns (t: Option<Id>)
      requires Valid() && current == None
      requires purpose.Persist? ==> HandedOut(world.contexts, user, purpose.brief)
      modifies this`world, this`current, this`worlds, this`events, this`troubles
      ensures Blame(old(troubles), troubles, t.Some?)
      ensures Valid() && old(events) <= events && current == t && old(world).contexts <= world.contexts
      ensures SameRows(old(world).db.jobs, world.db.jobs, issued)
      ensures t.Some? ==> world.txs[t.value] == Tx(user, purpose, false, None, None, EMPTY, map[], map[])
    {
      Interfere();
      var trouble: bool := *;
      var id: Id := *;
      if trouble || id in world.txs {
        troubles := troubles + 1;
        return None;
      }
      Do(Store.Begin(id, user, purpose));
      current := Some(id);
      t := current;
    }

    method Execute(e: Event) returns (ok: bool, ghost before: World)
      requires Valid() && current.Some? && By(e, current) && !e.Begin? && !e.Commit? && !e.Abort? && !e.InsertBrief?
      modifies this`world, this`worlds, this`events, this`troubles, this`inserted
      ensures Valid() && old(events) <= events && old(world).contexts <= world.contexts
      ensures SameTx(old(world), before, current) && SameRows(old(world).db.jobs, world.db.jobs, issued)
      ensures Blame(old(troubles), troubles, ok)
      ensures Adds(old(inserted), inserted, old(OwnKeys(world, current)), OwnKeys(world, current))
      ensures !e.InsertStrategy? ==> inserted == old(inserted)
      ensures if ok then Enabled(before, e) && world == Apply(before, e) else world == before
    {
      Interfere();
      before := world;
      var trouble: bool := *;
      ok := !trouble && Enabled(world, e) && !(e.InsertStrategy? && e.id in inserted);
      if ok {
        StatementLeavesAlone(world, e, issued);
        OwnKeysGrow(world, e);
        Do(e);
        if e.InsertStrategy? {
          inserted := inserted + {e.id};
        }
      } else {
        troubles := troubles + 1;
      }
    }

    /** The session scope is left normally. */
    method Commit() returns (ok: bool, ghost before: World)
      requires Valid() && current.Some?
      modifies this`world, this`current, this`worlds, this`events, this`troubles
      ensures Blame(old(troubles), troubles, ok)
      ensures Valid() && old(events) <= events && old(world).contexts <= world.contexts && current == None
      ensures SameTx(old(world), before, old(current)) && SameRows(old(world).db.jobs, before.db.jobs, issued)
      ensures ok ==> world == Apply(before, Store.Commit(old(current).value))
      ensures ok ==> AllStored(world.db, OwnKeys(old(world), old(current)))
      ensures !ok ==> SameRows(old(world).db.jobs, world.db.jobs, issued)
      ensures !ok ==> NoneStored(world.db, OwnKeys(old(world), old(current)))
    {
      Interfere();
      before := world;
      var trouble: bool := *;
      var t := current.value;
      if trouble {
        troubles := troubles + 1;
        Rollback();
        return false, before;
      }
      Do(Store.Commit(t));
      current := None;
      ok := true;
    }

    /** The session scope is left by an exception. */
    method Rollback()
      requires Valid() && current.Some?
      modifies this`world, this`current, this`worlds, this`events
      ensures Valid() && old(events) <= events && old(world).contexts <= world.contexts && current == None
      ensures SameRows(old(world).db.jobs, world.db.jobs, issued)
      ensures NoneStored(world.db, OwnKeys(old(world), old(current)))
    {
      OwnIsNotStored(worlds, events, current.value);
      Do(Abort(current.value));
      current := None;
    }

    /** `get_active_strategy`; None if the statement fails. */
    method SelectActive() returns (answer: Option<Option<Id>>, ghost before: World)
      requires Valid() && current.Some? && current.value in world.txs
      requires world.txs[current.value].purpose.Persist? && world.txs[current.value].pinned == None
      modifies this`world, this`worlds, this`events, this`troubles
      ensures Blame(old(troubles), troubles, answer.Some?)
      ensures Valid() && old(events) <= events && old(world).contexts <= world.contexts
      ensures SameTx(old(world), before, current) && SameRows(old(world).db.jobs, world.db.jobs, issued)
      ensures OwnKeys(world, current) == old(OwnKeys(world, current))
      ensures answer.Some? ==> Enabled(before, LookUp(current.value, answer.value)) && world == Apply(before, LookUp(current.value, answer.value))
    {
      Interfere();
      before := world;
      var trouble: bool := *;
      if trouble {
        troubles := troubles + 1;
        return None, before;
      }
      var visible := VisibleStrategies(world, current.value);
      var user := world.txs[current.value].user;
      var found := None;
      if s :| s in visible && visible[s].user == user && visible[s].isActive {
        found := Some(s);
      }
      Do(LookUp(current.value, found));
      answer := Some(found);
    }

    /** `insert_raw_brief`: the row of the task, which is inserted unless there is one; None
        if the statement fails. */
    method InsertOrFind() returns (brief: Option<Id>, ghost before: World)
      requires Valid() && current.Some? && current.value in world.txs
      requires world.txs[current.value].purpose.Ingest? && world.txs[current.value].found == None
      requires world.txs[current.value].user in world.txs[current.value].own.users
      modifies this`world, this`worlds, this`events, this`troubles, this`inserted
      ensures Blame(old(troubles), troubles, brief.Some?)
      ensures Valid() && old(events) <= events && old(world).contexts <= world.contexts
      ensures SameTx(old(world), before, current)
      ensures Adds(old(inserted), inserted, old(OwnKeys(world, current)), OwnKeys(world, current))
      ensures brief.Some? ==>
                Enabled(before, InsertBrief(current.value, brief.value)) && world == Apply(before, InsertBrief(current.value, brief.value))
    {
      Interfere();
      before := world;
      var trouble: bool := *;
      var id: Id := *;
      var visible, taskId := VisibleBriefs(world, current.value), world.txs[current.value].purpose.taskId;
      if b :| b in visible && visible[b].taskId == taskId {
        id := b;
      }
      if trouble || !Enabled(world, InsertBrief(current.value, id)) || (id !in visible && id in inserted) {
        troubles := troubles + 1;
        return None, before;
      }
      StatementLeavesAlone(world, InsertBrief(current.value, id), issued);
      OwnKeysGrow(world, InsertBrief(current.value, id));
      if id !in visible {
        inserted := inserted + {id};
      }
      Do(InsertBrief(current.value, id));
      brief := Some(id);
    }

    /** `ensure_strategy`: the active strategy, or a first version with the given content. */
    method EnsureStrategy(brandIntelligence: string) returns (strategy: Option<Id>)
      requires Valid() && current.Some? && current.value in world.txs
      requires world.txs[current.value].purpose.Persist? && world.txs[current.value].pinned == None
      modifies this`world, this`issued, this`worlds, this`events, this`troubles, this`inserted
      ensures Blame(old(troubles), troubles, strategy.Some?)
      ensures Valid() && old(events) <= events && old(world).contexts <= world.contexts && old(issued) <= issued
      ensures SameRows(old(world).db.jobs, world.db.jobs, old(issued))
      ensures strategy.Some? ==>
                var tx, was := world.txs[current.value], old(world).txs[current.value];
                && tx.pinned == strategy
                && tx.(looked := was.looked, pinned := was.pinned, own := was.own) == was && tx.own.jobs == was.own.jobs
                && (tx.own.strategies == was.own.strategies
                    || tx.own.strategies == was.own.strategies[strategy.value := Strategy(tx.user, 1, true, brandIntelligence)])
      ensures strategy.Some? ==> IsLookUp(VisibleStrategies(world, current.value), world.txs[current.value].user, strategy)
      ensures Adds(old(inserted), inserted, old(OwnKeys(world, current)), OwnKeys(world, current))
    {
      var found, before := SelectActive();
      if found == None || found.value.Some? {
        return if found == None then None else found.value;
      }
      var id: Id := *;
      var created, before' := Execute(InsertStrategy(current.value, id, brandIntelligence));
      strategy := if created then Some(id) else None;
    }
  }

  // ---- What the hooks leave behind ----

  /** A row that a hook is to create. */
  datatype Line = Line(job: Job, status: JobStatus, dispatch: Dispatch)

  /** One row for each result; what failed has nothing to dispatch. */
  function LinesOf(results: seq<JobResult>): (lines: seq<Line>)
    ensures |lines| == |results|
    ensures forall k :: 0 <= k < |lines| ==>
              lines[k] == if results[k].0.status == R.Completed then Line(results[k].1, JobDone, Pending)
                          else Line(results[k].1, JobFailed, DispatchFailed)
  {
    seq(|results|, k requires 0 <= k < |results| =>
      if results[k].0.status == R.Completed then Line(results[k].1, JobDone, Pending)
      else Line(results[k].1, JobFailed, DispatchFailed))
  }

  /** Jobs that skip the language model are done at once and await their dispatch. */
  function PassthroughLines(jobs: seq<Job>): (lines: seq<Line>)
    ensures |lines| == |jobs| && forall k :: 0 <= k < |lines| ==> lines[k] == Line(jobs[k], JobDone, Pending)
  {
    seq(|jobs|, k requires 0 <= k < |jobs| => Line(jobs[k], JobDone, Pending))
  }

  predicate AnyDone(lines: seq<Line>) {
    exists k :: 0 <= k < |lines| && lines[k].status == JobDone
  }

  predicate DistinctIds(created: seq<(Id, Job)>) {
    forall i, k :: 0 <= i < k < |created| ==> created[i].0 != created[k].0
  }

  /** The ids are new and all different. */
  predicate FreshIds(created: seq<(Id, Job)>, before: set<Id>, after: set<Id>) {
    && DistinctIds(created) && before <= after
    && forall k :: 0 <= k < |created| ==> created[k].0 in after && created[k].0 !in before && IsUuid(created[k].0)
  }

  /** The created list names a prefix of the lines; once committed it names all of them, or
      none because nothing is done and the user has no strategy. */
  predicate PersistOutcome(lines: seq<Line>, created: seq<(Id, Job)>, committed: bool) {
    && |created| <= |lines|
    && (forall k :: 0 <= k < |created| ==> created[k].1 == lines[k].job)
    && (committed ==> |created| == |lines| || (created == [] && !AnyDone(lines)))
  }

  predicate IsRow(jobs: map<Id, JobRow>, id: Id, ctx: Context, line: Line) {
    && id in jobs && jobs[id].user == ctx.user && jobs[id].brief == ctx.brief
    && jobs[id].status == line.status && jobs[id].dispatch == line.dispatch
  }

  /** Every listed job has its row. */
  predicate HasRows(jobs: map<Id, JobRow>, ctx: Context, lines: seq<Line>, created: seq<(Id, Job)>) {
    && |created| <= |lines|
    && forall k :: 0 <= k < |created| ==> IsRow(jobs, created[k].0, ctx, lines[k])
  }

  /** None of the listed ids is the key of a row. */
  predicate Unstored(jobs: map<Id, JobRow>, created: seq<(Id, Job)>) {
    forall k :: 0 <= k < |created| ==> created[k].0 !in jobs
  }

  /** These rows are all in the table. */
  predicate Holds(jobs: map<Id, JobRow>, rows: map<Id, JobRow>) {
    forall j :: j in rows ==> j in jobs && jobs[j] == rows[j]
  }

  lemma RowPublished(rows: map<Id, JobRow>, jobs: map<Id, JobRow>, id: Id)
    requires Holds(jobs, rows) && id in rows
    ensures id in jobs && jobs[id] == rows[id]
  {
  }

  lemma CommitPublishes(w: World, t: Id)
    requires t in w.txs && w.txs[t].dispatches == map[]
    ensures Holds(Apply(w, Store.Commit(t)).db.jobs, w.txs[t].own.jobs)
  {
  }

  lemma OneMoreRow(rows: map<Id, JobRow>, more: map<Id, JobRow>, ctx: Context, lines: seq<Line>, created: seq<(Id, Job)>, id: Id)
    requires |created| < |lines| && HasRows(rows, ctx, lines, created) && id !in rows
    requires id in more && more == rows[id := more[id]] && IsRow(more, id, ctx, lines[|created|])
    ensures HasRows(more, ctx, lines, created + [(id, lines[|created|].job)])
  {
  }

  lemma OneMoreDone(lines: seq<Line>, i: nat)
    requires i < |lines|
    ensures AnyDone(lines[..i + 1]) <==> AnyDone(lines[..i]) || lines[i].status == JobDone
  {
    assert forall k :: 0 <= k < i ==> lines[..i + 1][k] == lines[..i][k];
    assert lines[..i + 1][i] == lines[i];
  }

  lemma OneMoreId(created: seq<(Id, Job)>, jobs: map<Id, JobRow>, jobs': map<Id, JobRow>, was: set<Id>, ids: set<Id>, ids': set<Id>, id: Id, job: Job)
    requires FreshIds(created, was, ids) && ids <= ids' && id in ids' && id !in ids && IsUuid(id)
    requires Unstored(jobs, created) && SameRows(jobs, jobs', ids) && id !in jobs'
    ensures FreshIds(created + [(id, job)], was, ids') && Unstored(jobs', created + [(id, job)])
  {
  }

  /** A transaction that stores job rows. */
  predicate InHand(w: World, t: Option<Id>, ctx: Context, strategy: Option<Id>) {
    && t.Some? && t.value in w.txs
    && var tx := w.txs[t.value];
       && tx.user == ctx.user && tx.purpose == Persist(ctx.brief) && tx.pinned == strategy
       && tx.dispatches == map[] && tx.marks == map[]
  }

  function OwnRows(w: World, t: Option<Id>): map<Id, JobRow> {
    if t.Some? && t.value in w.txs then w.txs[t.value].own.jobs else map[]
  }

  function OwnStrategies(w: World, t: Option<Id>): map<Id, Strategy> {
    if t.Some? && t.value in w.txs then w.txs[t.value].own.strategies else map[]
  }

  // ---- Parts of the hooks ----

  predicate IsCompleted(cb: R.Callback) {
    cb.status == R.Completed && cb.output.Some?
  }

  /** `bi` is the brand intelligence of the first callback that is completed. */
  predicate IsFirstIntelligence(callbacks: seq<R.Callback>, bi: Option<string>) {
    match bi
    case None => forall i :: 0 <= i < |callbacks| ==> !IsCompleted(callbacks[i])
    case Some(content) =>
      exists k :: 0 <= k < |callbacks| && IsCompleted(callbacks[k])
        && callbacks[k].output.value.enrichment.brandIntelligence == content
        && forall i :: 0 <= i < k ==> !IsCompleted(callbacks[i])
  }

  method FirstIntelligence(callbacks: seq<R.Callback>) returns (bi: Option<string>)
    ensures IsFirstIntelligence(callbacks, bi)
  {
    for k := 0 to |callbacks|
      invariant forall i :: 0 <= i < k ==> !IsCompleted(callbacks[i])
    {
      if IsCompleted(callbacks[k]) {
        return Some(callbacks[k].output.value.enrichment.brandIntelligence);
      }
    }
    bi := None;
  }

  /** `create_job` with an id of the server; None if the statement fails. */
  method AddRow(db: Database, ctx: Context, strategy: Id, status: JobStatus, dispatch: Dispatch) returns (id: Option<Id>)
    requires db.Valid() && InHand(db.world, db.current, ctx, Some(strategy))
    modifies db
    ensures Blame(old(db.troubles), db.troubles, id.Some?)
    ensures db.Valid() && db.current == old(db.current)
    ensures old(db.events) <= db.events && old(db.world).contexts <= db.world.contexts && old(db.issued) <= db.issued
    ensures SameRows(old(db.world).db.jobs, db.world.db.jobs, old(db.issued))
    ensures db.inserted == old(db.inserted) && OwnKeys(db.world, db.current) == old(OwnKeys(db.world, db.current))
    ensures id == None ==> OwnRows(db.world, db.current) == old(OwnRows(db.world, db.current))
    ensures id.Some? ==>
              && InHand(db.world, db.current, ctx, Some(strategy))
              && id.value !in old(db.issued) && id.value in db.issued && IsUuid(id.value)
              && id.value in OwnRows(db.world, db.current)
              && id.value !in db.world.db.jobs && id.value !in old(OwnRows(db.world, db.current))
              && OwnRows(db.world, db.current)
                 == old(OwnRows(db.world, db.current))[id.value := JobRow(ctx.user, ctx.brief, strategy, status, dispatch)]
  {
    id := db.Issue();
    if id.Some? {
      var ok, _ := db.Execute(CreateJob(db.current.value, id.value, status, dispatch));
      if !ok {
        id := None;
      }
    }
  }

  /** One `create_job` after the other; without a strategy nothing is stored. Where a
      statement fails, `created` stays as it is. */
  method AddRows(db: Database, ctx: Context, strategy: Option<Id>, lines: seq<Line>)
    returns (ok: bool, created: seq<(Id, Job)>, anyDone: bool)
    requires db.Valid() && InHand(db.world, db.current, ctx, strategy) && OwnRows(db.world, db.current) == map[]
    modifies db
    ensures Blame(old(db.troubles), db.troubles, ok)
    ensures db.Valid() && db.current == old(db.current)
    ensures old(db.events) <= db.events && old(db.world).contexts <= db.world.contexts
    ensures SameRows(old(db.world).db.jobs, db.world.db.jobs, old(db.issued))
    ensures db.inserted == old(db.inserted) && OwnKeys(db.world, db.current) == old(OwnKeys(db.world, db.current))
    ensures FreshIds(created, old(db.issued), db.issued)
    ensures Unstored(db.world.db.jobs, created) && OwnRows(db.world, db.current).Keys !! old(db.issued)
    ensures |created| <= |lines| && forall k :: 0 <= k < |created| ==> created[k].1 == lines[k].job
    ensures ok ==>
              && InHand(db.world, db.current, ctx, strategy)
              && |created| == (if strategy == None then 0 else |lines|)
              && HasRows(OwnRows(db.world, db.current), ctx, lines, created)
              && anyDone == (strategy.Some? && AnyDone(lines))
  {
    created, anyDone := [], false;
    for i := 0 to |lines|
      invariant db.Valid() && db.current == old(db.current)
      invariant old(db.events) <= db.events && old(db.world).contexts <= db.world.contexts
      invariant SameRows(old(db.world).db.jobs, db.world.db.jobs, old(db.issued))
      invariant db.troubles == old(db.troubles)
      invariant db.inserted == old(db.inserted) && OwnKeys(db.world, db.current) == old(OwnKeys(db.world, db.current))
      invariant InHand(db.world, db.current, ctx, strategy)
      invariant FreshIds(created, old(db.issued), db.issued)
      invariant Unstored(db.world.db.jobs, created) && OwnRows(db.world, db.current).Keys !! old(db.issued)
      invariant |created| == if strategy == None then 0 else i
      invariant forall k :: 0 <= k < |created| ==> created[k].1 == lines[k].job
      invariant HasRows(OwnRows(db.world, db.current), ctx, lines, created)
      invariant anyDone == (strategy.Some? && AnyDone(lines[..i]))
    {
      if strategy == None {
        break;
      }
      ghost var rows, before, ids := OwnRows(db.world, db.current), db.world.db, db.issued;
      var id := AddRow(db, ctx, strategy.value, lines[i].status, lines[i].dispatch);
      if id == None {
        return false, created, anyDone;
      }
      OneMoreId(created, before.jobs, db.world.db.jobs, old(db.issued), ids, db.issued, id.value, lines[i].job);
      OneMoreRow(rows, OwnRows(db.world, db.current), ctx, lines, created, id.value);
      OneMoreDone(lines, i);
      created := created + [(id.value, lines[i].job)];
      anyDone := anyDone || lines[i].status == JobDone;
    }
    assert lines[..|lines|] == lines;
    ok := true;
  }

  /** The end of a session scope: the brief is marked, if at all, and the rows go in. */
  method Publish(db: Database, ctx: Context, strategy: Option<Id>, mark: Option<BriefStatus>) returns (ok: bool)
    requires db.Valid() && InHand(db.world, db.current, ctx, strategy) && ctx in db.world.contexts
    modifies db
    ensures Blame(old(db.troubles), db.troubles, ok)
    ensures db.Valid() && db.current == None && db.issued == old(db.issued)
    ensures old(db.events) <= db.events && old(db.world).contexts <= db.world.contexts
    ensures SameRows(old(db.world).db.jobs, db.world.db.jobs, old(db.issued) - OwnRows(old(db.world), old(db.current)).Keys)
    ensures !ok ==> SameRows(old(db.world).db.jobs, db.world.db.jobs, old(db.issued))
    ensures db.inserted == old(db.inserted) && AllOrNothing(ok, db.world.db, old(OwnKeys(db.world, db.current)))
    ensures ok ==>
              && Holds(db.world.db.jobs, old(OwnRows(db.world, db.current)))
              && ctx.brief in db.world.db.briefs && (mark.Some? ==> db.world.db.briefs[ctx.brief].status == mark.value)
  {
    if mark.Some? {
      var marked, _ := db.Execute(MarkBrief(db.current.value, mark.value));
      if !marked {
        db.Rollback();
        return false;
      }
    }
    ghost var t := db.current.value;
    ghost var before;
    ok, before := db.Commit();
    if ok {
      CommitPublishes(before, t);
      BriefsOfContexts(db.worlds, db.events, ctx);
    }
  }

  function CallbacksOf(results: seq<JobResult>): (callbacks: seq<R.Callback>)
    ensures |callbacks| == |results| && forall k :: 0 <= k < |results| ==> callbacks[k] == results[k].0
  {
    seq(|results|, k requires 0 <= k < |results| => results[k].0)
  }

  lemma NothingDone(results: seq<JobResult>)
    requires forall k :: 0 <= k < |results| ==> R.Settled(results[k].0)
    ensures AnyDone(LinesOf(results)) ==> exists k :: 0 <= k < |results| && IsCompleted(results[k].0)
  {
    if AnyDone(LinesOf(results)) {
      var k :| 0 <= k < |results| && LinesOf(results)[k].status == JobDone;
      assert IsCompleted(results[k].0);
    }
  }

  /** The strategy to which the rows will point: seeded by the first completed result, if
      there is one, or else whatever the user has. */
  method PinStrategy(db: Database, ctx: Context, results: seq<JobResult>) returns (ok: bool, strategy: Option<Id>)
    requires db.Valid() && InHand(db.world, db.current, ctx, None) && OwnRows(db.world, db.current) == map[]
    requires OwnStrategies(db.world, db.current) == map[] && OwnKeys(db.world, db.current) == {}
    requires forall k :: 0 <= k < |results| ==> R.Settled(results[k].0)
    modifies db
    ensures Blame(old(db.troubles), db.troubles, ok)
    ensures Adds(old(db.inserted), db.inserted, {}, OwnKeys(db.world, db.current))
    ensures db.Valid() && db.current == old(db.current)
    ensures old(db.events) <= db.events && old(db.world).contexts <= db.world.contexts && old(db.issued) <= db.issued
    ensures SameRows(old(db.world).db.jobs, db.world.db.jobs, old(db.issued))
    ensures ok ==> InHand(db.world, db.current, ctx, strategy) && OwnRows(db.world, db.current) == map[]
    ensures ok && AnyDone(LinesOf(results)) ==> strategy.Some?
    ensures ok ==> forall s :: s in OwnStrategies(db.world, db.current) ==>
              IsFirstIntelligence(CallbacksOf(results), Some(OwnStrategies(db.world, db.current)[s].brandIntelligence))
  {
    var callbacks := CallbacksOf(results);
    var firstBi := FirstIntelligence(callbacks);
    if firstBi.Some? {
      strategy := db.EnsureStrategy(firstBi.value);
      ok := strategy.Some?;
    } else {
      assert forall k :: 0 <= k < |results| ==> callbacks[k] == results[k].0;
      NothingDone(results);
      var found, _ := db.SelectActive();
      ok, strategy := found.Some?, if found.Some? then found.value else None;
    }
  }

  /** Pass-through rows point to the user's strategy, or to one seeded by the first
      completed result, or to an empty one. */
  method PinAnyStrategy(db: Database, ctx: Context, callbacks: seq<R.Callback>) returns (strategy: Option<Id>)
    requires db.Valid() && InHand(db.world, db.current, ctx, None) && OwnRows(db.world, db.current) == map[]
    requires OwnStrategies(db.world, db.current) == map[] && OwnKeys(db.world, db.current) == {}
    modifies db
    ensures Blame(old(db.troubles), db.troubles, strategy.Some?)
    ensures Adds(old(db.inserted), db.inserted, {}, OwnKeys(db.world, db.current))
    ensures db.Valid() && db.current == old(db.current)
    ensures old(db.events) <= db.events && old(db.world).contexts <= db.world.contexts && old(db.issued) <= db.issued
    ensures SameRows(old(db.world).db.jobs, db.world.db.jobs, old(db.issued))
    ensures strategy.Some? ==> InHand(db.world, db.current, ctx, strategy) && OwnRows(db.world, db.current) == map[]
    ensures strategy.Some? ==> forall s :: s in OwnStrategies(db.world, db.current) ==>
              var content := OwnStrategies(db.world, db.current)[s].brandIntelligence;
              IsFirstIntelligence(callbacks, Some(content)) || (content == "" && IsFirstIntelligence(callbacks, None))
  {
    var found, _ := db.SelectActive();
    if found == None || found.value.Some? {
      return if found == None then None else found.value;
    }
    var firstBi := FirstIntelligence(callbacks);
    strategy := db.EnsureStrategy(if firstBi.Some? then firstBi.value else "");
  }

  // ---- The hooks ----

  /** A payload or a context that is neither falsy nor an object. */
  datatype IngestError = AttributeError

  /** `persist_on_ingest`: `user` and `taskId` are None where the envelope has no valid
      UUID, `hasAction` tells whether it names an action, and `known` whether that is in
      the catalog. */
  method PersistOnIngest(db: Database, configured: bool, areObjects: bool, user: Option<Id>, taskId: Option<Id>,
                         hasAction: bool, known: bool) returns (outcome: Result<Option<Context>, IngestError>)
    requires db.Valid() && db.current == None
    modifies db
    ensures db.Valid() && db.current == None && old(db.events) <= db.events && old(db.world).contexts <= db.world.contexts
    ensures outcome.Raised? <==> configured && !areObjects
    ensures outcome.Ok? && outcome.value.Some? ==>
              && var ctx := outcome.value.value;
                 configured && Some(ctx.user) == user && Some(ctx.taskId) == taskId && hasAction && known && ctx in db.world.contexts
    ensures configured && areObjects && user.Some? && taskId.Some? && hasAction && known ==>
              Blame(old(db.troubles), db.troubles, outcome.value.Some?)
  {
    if !configured {
      return Ok(None);
    }
    if !areObjects {
      return Raised(AttributeError);
    }
    if user == None || taskId == None || !hasAction {
      return Ok(None);
    }
    var ctx := IngestBrief(db, user.value, taskId.value, known);
    outcome := Ok(ctx);
  }

  /** The statements of the ingest. */
  method IngestRows(db: Database) returns (brief: Option<Id>)
    requires db.Valid() && db.current.Some? && db.current.value in db.world.txs
    requires db.world.txs[db.current.value].purpose.Ingest? && db.world.txs[db.current.value].found == None
    modifies db
    ensures Blame(old(db.troubles), db.troubles, brief.Some?)
    ensures Adds(old(db.inserted), db.inserted, old(OwnKeys(db.world, db.current)), OwnKeys(db.world, db.current))
    ensures db.Valid() && db.current == old(db.current)
    ensures old(db.events) <= db.events && old(db.world).contexts <= db.world.contexts
    ensures brief.Some? ==>
              var tx, was := db.world.txs[db.current.value], old(db.world.txs[db.current.value]);
              tx.user == was.user && tx.purpose == was.purpose && tx.found == brief
  {
    var ok, _ := db.Execute(UpsertUser(db.current.value));
    if !ok {
      return None;
    }
    ghost var before;
    brief, before := db.InsertOrFind();
  }

  /** The transaction of the ingest. */
  method IngestBrief(db: Database, user: Id, taskId: Id, known: bool) returns (ctx: Option<Context>)
    requires db.Valid() && db.current == None
    modifies db
    ensures db.Valid() && db.current == None && old(db.events) <= db.events && old(db.world).contexts <= db.world.contexts
    ensures AllOrNothing(ctx.Some?, db.world.db, db.inserted - old(db.inserted))
    ensures ctx.Some? ==> ctx.value.user == user && ctx.value.taskId == taskId && known && ctx.value in db.world.contexts
    ensures known ==> Blame(old(db.troubles), db.troubles, ctx.Some?)
  {
    var t := db.Begin(user, Ingest(taskId));
    if t == None {
      return None;
    }
    if !known {
      var _, _ := db.Commit();
      return None;
    }
    var brief := IngestRows(db);
    if brief == None {
      db.Rollback();
      return None;
    }
    var ok, _ := db.Commit();
    ctx := if ok then Some(Context(user, taskId, brief.value)) else None;
  }

  /** `persist_on_complete_multi`; `committed` tells whether its transaction took effect. */
  method PersistOnCompleteMulti(db: Database, ctx: Context, results: seq<JobResult>)
    returns (created: seq<(Id, Job)>, ghost committed: bool)
    requires db.Valid() && db.current == None && ctx in db.world.contexts
    requires forall k :: 0 <= k < |results| ==> R.Settled(results[k].0)
    modifies db
    ensures Blame(old(db.troubles), db.troubles, committed)
    ensures AllOrNothing(committed, db.world.db, db.inserted - old(db.inserted))
    ensures db.Valid() && db.current == None && old(db.events) <= db.events && old(db.world).contexts <= db.world.contexts
    ensures FreshIds(created, old(db.issued), db.issued)
    ensures PersistOutcome(LinesOf(results), created, committed)
    ensures SameRows(old(db.world).db.jobs, db.world.db.jobs, old(db.issued))
    ensures if committed then HasRows(db.world.db.jobs, ctx, LinesOf(results), created) else Unstored(db.world.db.jobs, created)
    ensures committed ==>
              && ctx.brief in db.world.db.briefs
              && db.world.db.briefs[ctx.brief].status == if AnyDone(LinesOf(results)) then BriefDone else BriefFailed
  {
    created, committed := [], false;
    assert HandedOut(db.world.contexts, ctx.user, ctx.brief);
    var t := db.Begin(ctx.user, Persist(ctx.brief));
    if t == None {
      return;
    }
    var pinned, strategy := PinStrategy(db, ctx, results);
    if !pinned {
      db.Rollback();
      return;
    }
    var ok, anyCompleted;
    ok, created, anyCompleted := AddRows(db, ctx, strategy, LinesOf(results));
    if !ok {
      db.Rollback();
      return;
    }
    committed := Publish(db, ctx, strategy, Some(if anyCompleted then BriefDone else BriefFailed));
  }

  /** A completed run may found the user's strategy; a failed one only uses it. */
  method PinOne(db: Database, ctx: Context, cb: R.Callback) returns (ok: bool, strategy: Option<Id>)
    requires db.Valid() && InHand(db.world, db.current, ctx, None) && OwnRows(db.world, db.current) == map[]
    requires OwnStrategies(db.world, db.current) == map[] && OwnKeys(db.world, db.current) == {}
    modifies db
    ensures Blame(old(db.troubles), db.troubles, ok)
    ensures Adds(old(db.inserted), db.inserted, {}, OwnKeys(db.world, db.current))
    ensures db.Valid() && db.current == old(db.current) && old(db.world).contexts <= db.world.contexts
    ensures ok ==> InHand(db.world, db.current, ctx, strategy) && OwnRows(db.world, db.current) == map[]
    ensures ok && IsCompleted(cb) ==> strategy.Some?
    ensures ok ==> forall s :: s in OwnStrategies(db.world, db.current) ==>
              IsCompleted(cb)
              && OwnStrategies(db.world, db.current)[s].brandIntelligence == cb.output.value.enrichment.brandIntelligence
  {
    if IsCompleted(cb) {
      strategy := db.EnsureStrategy(cb.output.value.enrichment.brandIntelligence);
      ok := strategy.Some?;
    } else {
      var found, _ := db.SelectActive();
      ok, strategy := found.Some?, if found.Some? then found.value else None;
    }
  }

  /** `persist_on_complete`, for a task with a single job; `row` is the key of its row. */
  method PersistOnComplete(db: Database, ctx: Context, cb: R.Callback) returns (ghost committed: bool, ghost row: Option<Id>)
    requires db.Valid() && db.current == None && ctx in db.world.contexts
    modifies db
    ensures Blame(old(db.troubles), db.troubles, committed)
    ensures AllOrNothing(committed, db.world.db, db.inserted - old(db.inserted))
    ensures db.Valid() && db.current == None
    ensures committed ==>
              && ctx.brief in db.world.db.briefs
              && db.world.db.briefs[ctx.brief].status == (if IsCompleted(cb) then BriefDone else BriefFailed)
              && (IsCompleted(cb) ==> row.Some?)
    ensures committed && row.Some? ==>
              && row.value in db.world.db.jobs
              && var r := db.world.db.jobs[row.value];
                 r.user == ctx.user && r.brief == ctx.brief && r.dispatch == NotTracked
                 && r.status == if IsCompleted(cb) then JobDone else JobFailed
  {
    committed, row := false, None;
    assert HandedOut(db.world.contexts, ctx.user, ctx.brief);
    var t := db.Begin(ctx.user, Persist(ctx.brief));
    if t == None {
      return;
    }
    var pinned, strategy := PinOne(db, ctx, cb);
    if !pinned {
      db.Rollback();
      return;
    }
    var mark := Some(if IsCompleted(cb) then BriefDone else BriefFailed);
    if strategy == None {
      committed := Publish(db, ctx, strategy, mark);
      return;
    }
    var id := AddRow(db, ctx, strategy.value, if IsCompleted(cb) then JobDone else JobFailed, NotTracked);
    if id == None {
      db.Rollback();
      return;
    }
    row := id;
    ghost var rows := OwnRows(db.world, db.current);
    committed := Publish(db, ctx, strategy, mark);
    if committed {
      RowPublished(rows, db.world.db.jobs, id.value);
    }
  }

  /** The rows of the pass-through jobs, in a transaction of their own. */
  method PersistPassthrough(db: Database, ctx: Context, callbacks: seq<R.Callback>, jobs: seq<Job>)
    returns (created: seq<(Id, Job)>, ghost committed: bool)
    requires db.Valid() && db.current == None && ctx in db.world.contexts
    modifies db
    ensures Blame(old(db.troubles), db.troubles, committed)
    ensures AllOrNothing(committed, db.world.db, db.inserted - old(db.inserted))
    ensures db.Valid() && db.current == None && old(db.events) <= db.events && old(db.world).contexts <= db.world.contexts
    ensures FreshIds(created, old(db.issued), db.issued)
    ensures PersistOutcome(PassthroughLines(jobs), created, committed) && (committed ==> |created| == |jobs|)
    ensures SameRows(old(db.world).db.jobs, db.world.db.jobs, old(db.issued))
    ensures if committed then HasRows(db.world.db.jobs, ctx, PassthroughLines(jobs), created) else Unstored(db.world.db.jobs, created)
  {
    created, committed := [], false;
    assert HandedOut(db.world.contexts, ctx.user, ctx.brief);
    var t := db.Begin(ctx.user, Persist(ctx.brief));
    if t == None {
      return;
    }
    var strategy := PinAnyStrategy(db, ctx, callbacks);
    if strategy == None {
      db.Rollback();
      return;
    }
    var ok, anyDone;
    ok, created, anyDone := AddRows(db, ctx, strategy, PassthroughLines(jobs));
    if !ok {
      db.Rollback();
      return;
    }
    committed := Publish(db, ctx, strategy, None);
  }

  /** A batch that failed as a whole only marks its brief. */
  method MarkBatchFailed(db: Database, ctx: Context) returns (ghost committed: bool)
    requires db.Valid() && db.current == None && ctx in db.world.contexts
    modifies db
    ensures Blame(old(db.troubles), db.troubles, committed)
    ensures db.Valid() && db.current == None && db.issued == old(db.issued) && db.inserted == old(db.inserted)
    ensures old(db.events) <= db.events && old(db.world).contexts <= db.world.contexts
    ensures SameRows(old(db.world).db.jobs, db.world.db.jobs, old(db.issued))
    ensures committed ==> ctx.brief in db.world.db.briefs && db.world.db.briefs[ctx.brief].status == BriefFailed
  {
    committed := false;
    assert HandedOut(db.world.contexts, ctx.user, ctx.brief);
    var t := db.Begin(ctx.user, Persist(ctx.brief));
    if t.Some? {
      committed := Publish(db, ctx, None, Some(BriefFailed));
    }
  }

  function WithDispatch(jobs: map<Id, JobRow>, id: Id, status: Dispatch): map<Id, JobRow> {
    if id in jobs then jobs[id := jobs[id].(dispatch := status)] else jobs
  }

  lemma CommitDispatches(w: World, t: Id, id: Id, status: Dispatch, ids: set<Id>)
    requires t in w.txs && w.txs[t].own.jobs == map[] && w.txs[t].dispatches == map[id := status]
    ensures SameRows(WithDispatch(w.db.jobs, id, status), Apply(w, Store.Commit(t)).db.jobs, ids)
  {
  }

  lemma WithDispatchKeeps(a: map<Id, JobRow>, b: map<Id, JobRow>, id: Id, status: Dispatch, ids: set<Id>)
    requires SameRows(a, b, ids) && id in ids
    ensures SameRows(WithDispatch(a, id, status), WithDispatch(b, id, status), ids)
  {
  }

  /** `update_dispatch_status`, best effort. */
  method UpdateDispatchStatus(db: Database, id: Id, status: Dispatch) returns (ghost committed: bool)
    requires db.Valid() && db.current == None && id in db.issued
    modifies db
    ensures Blame(old(db.troubles), db.troubles, committed)
    ensures db.Valid() && db.current == None && db.issued == old(db.issued)
    ensures old(db.events) <= db.events && old(db.world).contexts <= db.world.contexts
    ensures SameRows(if committed then WithDispatch(old(db.world).db.jobs, id, status) else old(db.world).db.jobs,
                     db.world.db.jobs, db.issued)
  {
    committed := false;
    var t := db.Begin(0, Dispatching);
    if t.Some? {
      ghost var before;
      var ok, _ := db.Execute(SetDispatch(t.value, id, status));
      if !ok {
        db.Rollback();
        return;
      }
      var done;
      done, before := db.Commit();
      committed := done;
      if done {
        WithDispatchKeeps(old(db.world).db.jobs, before.db.jobs, id, status, db.issued);
        CommitDispatches(before, t.value, id, status, db.issued);
      }
    }
  }
}
