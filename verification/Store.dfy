/**
 The Postgres-backed store as a transition system. Transactions of any number of tasks
 overlap; a statement sees the committed rows and its own, an insert waits for an
 uncommitted insert of the same unique key, and a transaction commits as a whole or not
 at all.
 */
module Store {
  import opened Wrappers

  /** UUIDs and the identities of transactions. */
  type Id = int

  const UUIDS: int := 0x1_0000_0000_0000_0000_0000_0000_0000_0000

  predicate IsUuid(id: Id) {
    0 <= id < UUIDS
  }

  datatype BriefStatus = Received | BriefDone | BriefFailed

  datatype Brief = Brief(user: Id, taskId: Id, status: BriefStatus)

  datatype Strategy = Strategy(user: Id, version: nat, isActive: bool, brandIntelligence: string)

  datatype JobStatus = JobDone | JobFailed

  datatype Dispatch = NotTracked | Pending | DispatchOk | DispatchFailed

  datatype JobRow = JobRow(user: Id, brief: Id, strategy: Id, status: JobStatus, dispatch: Dispatch)

  datatype Db = Db(users: set<Id>, briefs: map<Id, Brief>, strategies: map<Id, Strategy>, jobs: map<Id, JobRow>)

  const EMPTY: Db := Db({}, map[], map[], map[])

  /** What a task is given when its ingest has committed. */
  datatype Context = Context(user: Id, taskId: Id, brief: Id)

  datatype Purpose = Ingest(taskId: Id) | Persist(brief: Id) | Dispatching

  /** An open transaction: what it is for, what it has read, and its uncommitted writes. */
  datatype Tx = Tx(user: Id, purpose: Purpose, looked: bool, pinned: Option<Id>, found: Option<Id>,
                   own: Db, marks: map<Id, BriefStatus>, dispatches: map<Id, Dispatch>)

  datatype World = World(db: Db, txs: map<Id, Tx>, contexts: set<Context>)

  datatype Event =
    | Idle
    | Begin(t: Id, user: Id, purpose: Purpose)
    | UpsertUser(t: Id)
    | InsertBrief(t: Id, brief: Id)                            // or find the existing row
    | LookUp(t: Id, found: Option<Id>)                         // select the active strategy
    | InsertStrategy(t: Id, id: Id, brandIntelligence: string)
    | CreateJob(t: Id, id: Id, outcome: JobStatus, dispatch: Dispatch)
    | MarkBrief(t: Id, mark: BriefStatus)
    | SetDispatch(t: Id, job: Id, dispatch: Dispatch)
    | Commit(t: Id)
    | Abort(t: Id)

  // ---- What a statement sees, and the unique keys ----

  function VisibleBriefs(w: World, t: Id): map<Id, Brief>
    requires t in w.txs
  {
    w.db.briefs + w.txs[t].own.briefs
  }

  function VisibleStrategies(w: World, t: Id): map<Id, Strategy>
    requires t in w.txs
  {
    w.db.strategies + w.txs[t].own.strategies
  }

  predicate HasActive(strategies: map<Id, Strategy>, user: Id) {
    exists s :: s in strategies && strategies[s].user == user && strategies[s].isActive
  }

  predicate HasTask(briefs: map<Id, Brief>, taskId: Id) {
    exists b :: b in briefs && briefs[b].taskId == taskId
  }

  predicate HasKey(db: Db, id: Id) {
    id in db.briefs || id in db.strategies || id in db.jobs
  }

  /** No row, committed or not, has this key. */
  predicate Unused(w: World, id: Id) {
    !HasKey(w.db, id) && forall t :: t in w.txs ==> !HasKey(w.txs[t].own, id)
  }

  ghost predicate NoSharedKey(a: Db, b: Db) {
    forall id :: !(HasKey(a, id) && HasKey(b, id))
  }

  /** Another transaction holds an uncommitted active strategy of the user. */
  predicate StrategyBlocked(w: World, t: Id, user: Id) {
    exists u :: u in w.txs && u != t && HasActive(w.txs[u].own.strategies, user)
  }

  predicate BriefBlocked(w: World, t: Id, taskId: Id) {
    exists u :: u in w.txs && u != t && HasTask(w.txs[u].own.briefs, taskId)
  }

  /** The answer to the query for the active strategy of a user. */
  predicate IsLookUp(strategies: map<Id, Strategy>, user: Id, found: Option<Id>) {
    match found
    case Some(s) => s in strategies && strategies[s].isActive && strategies[s].user == user
    case None => !HasActive(strategies, user)
  }

  /** The brief was handed to a task of the user. */
  predicate HandedOut(contexts: set<Context>, user: Id, brief: Id) {
    exists c :: c in contexts && c.user == user && c.brief == brief
  }

  predicate Enabled(w: World, e: Event) {
    match e
    case Idle => true
    case Begin(t, user, purpose) =>
      t !in w.txs && (purpose.Persist? ==> HandedOut(w.contexts, user, purpose.brief))
    case UpsertUser(t) => t in w.txs && w.txs[t].purpose.Ingest?
    case InsertBrief(t, brief) =>
      && t in w.txs && w.txs[t].purpose.Ingest? && w.txs[t].found == None
      && w.txs[t].user in w.db.users + w.txs[t].own.users
      && var taskId := w.txs[t].purpose.taskId;
         if HasTask(VisibleBriefs(w, t), taskId) then
           brief in VisibleBriefs(w, t) && VisibleBriefs(w, t)[brief].taskId == taskId
         else !BriefBlocked(w, t, taskId) && Unused(w, brief)
    case LookUp(t, found) =>
      && t in w.txs && w.txs[t].purpose.Persist? && w.txs[t].pinned == None
      && IsLookUp(VisibleStrategies(w, t), w.txs[t].user, found)
    case InsertStrategy(t, id, _) =>
      && t in w.txs && w.txs[t].looked && w.txs[t].pinned == None && Unused(w, id)
      && !HasActive(VisibleStrategies(w, t), w.txs[t].user) && !StrategyBlocked(w, t, w.txs[t].user)
    case CreateJob(t, id, _, _) =>
      t in w.txs && w.txs[t].purpose.Persist? && w.txs[t].pinned.Some? && Unused(w, id)
    case MarkBrief(t, mark) => t in w.txs && w.txs[t].purpose.Persist? && mark != Received
    case SetDispatch(t, job, _) => t in w.txs && w.txs[t].purpose.Dispatching?
    case Commit(t) => t in w.txs
    case Abort(t) => t in w.txs
  }

  function Marked(briefs: map<Id, Brief>, marks: map<Id, BriefStatus>): (r: map<Id, Brief>)
    ensures r.Keys == briefs.Keys
    ensures forall b :: b in r ==> r[b].user == briefs[b].user && r[b].taskId == briefs[b].taskId
  {
    map b | b in briefs :: if b in marks then briefs[b].(status := marks[b]) else briefs[b]
  }

  function Dispatched(jobs: map<Id, JobRow>, dispatches: map<Id, Dispatch>): (r: map<Id, JobRow>)
    ensures r.Keys == jobs.Keys
    ensures forall j :: j in r ==> r[j] == (if j in dispatches then jobs[j].(dispatch := dispatches[j]) else jobs[j])
  {
    map j | j in jobs :: if j in dispatches then jobs[j].(dispatch := dispatches[j]) else jobs[j]
  }

  function Committed(db: Db, tx: Tx): Db {
    Db(db.users + tx.own.users,
       Marked(db.briefs + tx.own.briefs, tx.marks),
       db.strategies + tx.own.strategies,
       Dispatched(db.jobs + tx.own.jobs, tx.dispatches))
  }

  function Apply(w: World, e: Event): World
    requires Enabled(w, e)
  {
    match e
    case Idle => w
    case Begin(t, user, purpose) =>
      w.(txs := w.txs[t := Tx(user, purpose, false, None, None, EMPTY, map[], map[])])
    case UpsertUser(t) =>
      var tx := w.txs[t];
      w.(txs := w.txs[t := tx.(own := tx.own.(users := tx.own.users + {tx.user}))])
    case InsertBrief(t, brief) =>
      var tx := w.txs[t];
      var row := Brief(tx.user, tx.purpose.taskId, Received);
      var own := if HasTask(VisibleBriefs(w, t), tx.purpose.taskId) then tx.own
                 else tx.own.(briefs := tx.own.briefs[brief := row]);
      w.(txs := w.txs[t := tx.(own := own, found := Some(brief))])
    case LookUp(t, found) => w.(txs := w.txs[t := w.txs[t].(looked := true, pinned := found)])
    case InsertStrategy(t, id, bi) =>
      var tx := w.txs[t];
      var row := Strategy(tx.user, 1, true, bi);
      w.(txs := w.txs[t := tx.(own := tx.own.(strategies := tx.own.strategies[id := row]), pinned := Some(id))])
    case CreateJob(t, id, status, dispatch) =>
      var tx := w.txs[t];
      var row := JobRow(tx.user, tx.purpose.brief, tx.pinned.value, status, dispatch);
      w.(txs := w.txs[t := tx.(own := tx.own.(jobs := tx.own.jobs[id := row]))])
    case MarkBrief(t, status) =>
      var tx := w.txs[t];
      w.(txs := w.txs[t := tx.(marks := tx.marks[tx.purpose.brief := status])])
    case SetDispatch(t, job, dispatch) =>
      var tx := w.txs[t];
      w.(txs := w.txs[t := tx.(dispatches := tx.dispatches[job := dispatch])])
    case Commit(t) =>
      var tx := w.txs[t];
      World(Committed(w.db, tx), w.txs - {t},
            if tx.purpose.Ingest? && tx.found.Some? then w.contexts + {Context(tx.user, tx.purpose.taskId, tx.found.value)}
            else w.contexts)
    case Abort(t) => w.(txs := w.txs - {t})
  }

  const INITIAL: World := World(EMPTY, map[], {})

  ghost predicate IsRun(ws: seq<World>, es: seq<Event>) {
    && |ws| == |es| + 1 && ws[0] == INITIAL
    && forall i :: 0 <= i < |es| ==> Enabled(ws[i], es[i]) && ws[i + 1] == Apply(ws[i], es[i])
  }

  // ---- The invariant ----

  /** One strategy per user, active and in its first version. */
  ghost predicate OneStrategyEach(strategies: map<Id, Strategy>) {
    && (forall s :: s in strategies ==> strategies[s].isActive && strategies[s].version == 1)
    && (forall s, r :: s in strategies && r in strategies && strategies[s].user == strategies[r].user ==> s == r)
  }

  /** Every job points to a strategy of its own user. */
  ghost predicate JobsPinned(jobs: map<Id, JobRow>, strategies: map<Id, Strategy>) {
    forall j :: j in jobs ==> jobs[j].strategy in strategies && strategies[jobs[j].strategy].user == jobs[j].user
  }

  ghost predicate OneBriefPerTask(briefs: map<Id, Brief>) {
    forall b, c :: b in briefs && c in briefs && briefs[b].taskId == briefs[c].taskId ==> b == c
  }

  ghost predicate TxValid(db: Db, tx: Tx) {
    && NoSharedKey(tx.own, db)
    && OneStrategyEach(tx.own.strategies) && OneBriefPerTask(tx.own.briefs)
    && (forall s :: s in tx.own.strategies ==> tx.own.strategies[s].user == tx.user && !HasActive(db.strategies, tx.user))
    && (forall b :: b in tx.own.briefs ==>
          tx.purpose.Ingest? && tx.own.briefs[b].taskId == tx.purpose.taskId && !HasTask(db.briefs, tx.purpose.taskId))
    && (tx.pinned.Some? ==>
          var s := tx.pinned.value;
          || (s in db.strategies && db.strategies[s].user == tx.user)
          || (s in tx.own.strategies && tx.own.strategies[s].user == tx.user))
    && (forall j :: j in tx.own.jobs ==> tx.own.jobs[j].user == tx.user && tx.pinned == Some(tx.own.jobs[j].strategy))
    && (tx.found.Some? ==>
          && tx.purpose.Ingest?
          && var b := tx.found.value;
             || (b in db.briefs && db.briefs[b].taskId == tx.purpose.taskId)
             || (b in tx.own.briefs && tx.own.briefs[b].taskId == tx.purpose.taskId))
  }

  /** Two open transactions have no key, strategy owner or task in common. */
  ghost predicate Apart(a: Tx, b: Tx) {
    && NoSharedKey(a.own, b.own)
    && (forall s, r :: s in a.own.strategies && r in b.own.strategies ==> a.user != b.user)
    && (forall c, d :: c in a.own.briefs && d in b.own.briefs ==> a.own.briefs[c].taskId != b.own.briefs[d].taskId)
  }

  ghost predicate DbValid(db: Db) {
    OneStrategyEach(db.strategies) && JobsPinned(db.jobs, db.strategies) && OneBriefPerTask(db.briefs)
  }

  ghost predicate Inv(w: World) {
    && DbValid(w.db)
    && (forall t :: t in w.txs ==> TxValid(w.db, w.txs[t]))
    && (forall t, u :: t in w.txs && u in w.txs && t != u ==> Apart(w.txs[t], w.txs[u]))
    && (forall c :: c in w.contexts ==> c.brief in w.db.briefs && w.db.briefs[c.brief].taskId == c.taskId)
  }

  // One lemma per kind of step; each changes one transaction, or commits one.

  lemma OwnStepKeeps(w: World, t: Id, tx: Tx)
    requires Inv(w) && t in w.txs && TxValid(w.db, tx)
    requires forall u :: u in w.txs && u != t ==> Apart(tx, w.txs[u]) && Apart(w.txs[u], tx)
    ensures Inv(w.(txs := w.txs[t := tx]))
  {
  }

  lemma CommitKeepsDb(db: Db, tx: Tx)
    requires DbValid(db) && TxValid(db, tx)
    ensures DbValid(Committed(db, tx))
    ensures forall s :: s in db.strategies ==> s in Committed(db, tx).strategies && Committed(db, tx).strategies[s] == db.strategies[s]
  {
    NoOverwrite(db, tx);
    CommitKeepsBriefs(db, tx);
    CommitKeepsStrategies(db, tx);
    CommitKeepsJobs(db, tx);
  }

  lemma NoOverwrite(db: Db, tx: Tx)
    requires TxValid(db, tx)
    ensures forall s :: s in db.strategies ==> s !in tx.own.strategies
    ensures forall b :: b in db.briefs ==> b !in tx.own.briefs
    ensures forall j :: j in db.jobs ==> j !in tx.own.jobs
  {
    forall id | HasKey(db, id) ensures !HasKey(tx.own, id) {
    }
    assert forall s :: s in db.strategies ==> HasKey(db, s);
    assert forall b :: b in db.briefs ==> HasKey(db, b);
    assert forall j :: j in db.jobs ==> HasKey(db, j);
  }

  lemma CommitKeepsStrategies(db: Db, tx: Tx)
    requires OneStrategyEach(db.strategies) && TxValid(db, tx)
    ensures OneStrategyEach(Committed(db, tx).strategies)
  {
    NoOverwrite(db, tx);
  }

  lemma CommitKeepsJobs(db: Db, tx: Tx)
    requires DbValid(db) && TxValid(db, tx)
    ensures JobsPinned(Committed(db, tx).jobs, Committed(db, tx).strategies)
  {
    NoOverwrite(db, tx);
  }

  lemma CommitKeepsBriefs(db: Db, tx: Tx)
    requires OneBriefPerTask(db.briefs) && TxValid(db, tx)
    ensures OneBriefPerTask(Committed(db, tx).briefs)
  {
    NoOverwrite(db, tx);
  }

  lemma BeginKeeps(w: World, e: Event)
    requires Inv(w) && e.Begin? && Enabled(w, e)
    ensures Inv(Apply(w, e))
  {
    var w' := Apply(w, e);
    assert TxValid(w.db, w'.txs[e.t]);
    forall t, u | t in w'.txs && u in w'.txs && t != u ensures Apart(w'.txs[t], w'.txs[u]) {
      if t != e.t && u != e.t {
        assert Apart(w.txs[t], w.txs[u]);
      }
    }
  }

  /** An inserted brief is the only one of its transaction, and its task is in no row. */
  lemma InsertedBriefIsFirst(w: World, e: Event)
    requires Inv(w) && e.InsertBrief? && Enabled(w, e)
    requires !HasTask(VisibleBriefs(w, e.t), w.txs[e.t].purpose.taskId)
    ensures forall b :: b !in w.txs[e.t].own.briefs
    ensures !HasTask(w.db.briefs, w.txs[e.t].purpose.taskId)
    ensures TxValid(w.db, Apply(w, e).txs[e.t])
  {
    var tx, after := w.txs[e.t], Apply(w, e).txs[e.t];
    var taskId := tx.purpose.taskId;
    NoOverwrite(w.db, tx);
    assert forall b :: b in tx.own.briefs ==> b in VisibleBriefs(w, e.t) && VisibleBriefs(w, e.t)[b].taskId == taskId;
    assert forall b :: b in w.db.briefs ==> b in VisibleBriefs(w, e.t) && VisibleBriefs(w, e.t)[b] == w.db.briefs[b];
    forall id | HasKey(w.db, id) ensures !HasKey(after.own, id) {
      assert !HasKey(tx.own, id);
    }
  }

  lemma InsertedBriefIsApart(w: World, e: Event, u: Id)
    requires Inv(w) && e.InsertBrief? && Enabled(w, e) && u in w.txs && u != e.t
    requires !HasTask(VisibleBriefs(w, e.t), w.txs[e.t].purpose.taskId)
    ensures Apart(Apply(w, e).txs[e.t], w.txs[u]) && Apart(w.txs[u], Apply(w, e).txs[e.t])
  {
    var tx, after, other := w.txs[e.t], Apply(w, e).txs[e.t], w.txs[u];
    var taskId := tx.purpose.taskId;
    InsertedBriefIsFirst(w, e);
    assert Apart(tx, other) && Apart(other, tx) && TxValid(w.db, other);
    assert !HasTask(other.own.briefs, taskId);
    forall id | HasKey(other.own, id) ensures !HasKey(after.own, id) {
      assert !HasKey(tx.own, id);
    }
  }

  lemma InsertBriefKeeps(w: World, e: Event)
    requires Inv(w) && e.InsertBrief? && Enabled(w, e)
    ensures Inv(Apply(w, e))
  {
    var tx, after := w.txs[e.t], Apply(w, e).txs[e.t];
    if HasTask(VisibleBriefs(w, e.t), tx.purpose.taskId) {
      NoOverwrite(w.db, tx);
      assert TxValid(w.db, after);
      assert forall u :: u in w.txs && u != e.t ==> Apart(tx, w.txs[u]) && Apart(w.txs[u], tx);
    } else {
      InsertedBriefIsFirst(w, e);
      forall u | u in w.txs && u != e.t ensures Apart(after, w.txs[u]) && Apart(w.txs[u], after) {
        InsertedBriefIsApart(w, e, u);
      }
    }
    OwnStepKeeps(w, e.t, after);
  }

  lemma LookUpKeeps(w: World, e: Event)
    requires Inv(w) && e.LookUp? && Enabled(w, e)
    ensures Inv(Apply(w, e))
  {
    var tx, after := w.txs[e.t], Apply(w, e).txs[e.t];
    assert TxValid(w.db, tx);
    NoOverwrite(w.db, tx);
    assert TxValid(w.db, after);
    assert forall u :: u in w.txs && u != e.t ==> Apart(tx, w.txs[u]) && Apart(w.txs[u], tx);
    OwnStepKeeps(w, e.t, after);
  }

  lemma ActiveInUnion(a: map<Id, Strategy>, b: map<Id, Strategy>, user: Id)
    requires forall s :: s in a ==> s !in b
    ensures HasActive(a, user) || HasActive(b, user) ==> HasActive(a + b, user)
  {
    assert forall s :: s in a ==> s in a + b && (a + b)[s] == a[s];
    assert forall s :: s in b ==> s in a + b && (a + b)[s] == b[s];
  }

  /** An inserted strategy is the only one of its transaction and the first of its user. */
  lemma InsertedStrategyIsFirst(w: World, e: Event)
    requires Inv(w) && e.InsertStrategy? && Enabled(w, e)
    ensures forall s :: s !in w.txs[e.t].own.strategies
    ensures !HasActive(w.db.strategies, w.txs[e.t].user)
    ensures TxValid(w.db, Apply(w, e).txs[e.t])
  {
    var tx, after := w.txs[e.t], Apply(w, e).txs[e.t];
    assert TxValid(w.db, tx);
    NoOverwrite(w.db, tx);
    ActiveInUnion(w.db.strategies, tx.own.strategies, tx.user);
    assert !HasActive(tx.own.strategies, tx.user);
    forall id | HasKey(w.db, id) ensures !HasKey(after.own, id) {
      assert !HasKey(tx.own, id);
    }
  }

  lemma InsertedStrategyIsApart(w: World, e: Event, u: Id)
    requires Inv(w) && e.InsertStrategy? && Enabled(w, e) && u in w.txs && u != e.t
    ensures Apart(Apply(w, e).txs[e.t], w.txs[u]) && Apart(w.txs[u], Apply(w, e).txs[e.t])
  {
    var tx, after, other := w.txs[e.t], Apply(w, e).txs[e.t], w.txs[u];
    assert Apart(tx, other) && Apart(other, tx) && TxValid(w.db, other);
    assert !HasActive(other.own.strategies, tx.user);
    forall id | HasKey(other.own, id) ensures !HasKey(after.own, id) {
      assert !HasKey(tx.own, id);
    }
  }

  lemma InsertStrategyKeeps(w: World, e: Event)
    requires Inv(w) && e.InsertStrategy? && Enabled(w, e)
    ensures Inv(Apply(w, e))
  {
    var after := Apply(w, e).txs[e.t];
    InsertedStrategyIsFirst(w, e);
    forall u | u in w.txs && u != e.t ensures Apart(after, w.txs[u]) && Apart(w.txs[u], after) {
      InsertedStrategyIsApart(w, e, u);
    }
    OwnStepKeeps(w, e.t, after);
  }

  lemma CreateJobKeeps(w: World, e: Event)
    requires Inv(w) && e.CreateJob? && Enabled(w, e)
    ensures Inv(Apply(w, e))
  {
    var tx, after := w.txs[e.t], Apply(w, e).txs[e.t];
    assert TxValid(w.db, tx);
    assert TxValid(w.db, after);
    assert forall u :: u in w.txs && u != e.t ==> Apart(tx, w.txs[u]) && Apart(w.txs[u], tx);
    OwnStepKeeps(w, e.t, after);
  }

  predicate SameRowsAs(tx: Tx, tx': Tx) {
    && tx'.own.briefs == tx.own.briefs && tx'.own.strategies == tx.own.strategies && tx'.own.jobs == tx.own.jobs
    && tx'.user == tx.user && tx'.purpose == tx.purpose && tx'.pinned == tx.pinned && tx'.found == tx.found
  }

  lemma SameRowsStayValid(db: Db, tx: Tx, tx': Tx)
    requires TxValid(db, tx) && SameRowsAs(tx, tx')
    ensures TxValid(db, tx')
  {
    assert forall id :: HasKey(tx'.own, id) == HasKey(tx.own, id);
  }

  lemma SameRowsStayApart(tx: Tx, tx': Tx, other: Tx)
    requires Apart(tx, other) && Apart(other, tx) && SameRowsAs(tx, tx')
    ensures Apart(tx', other) && Apart(other, tx')
  {
    assert forall id :: HasKey(tx'.own, id) == HasKey(tx.own, id);
  }

  lemma SameRowsKeep(w: World, t: Id, tx': Tx)
    requires Inv(w) && t in w.txs && SameRowsAs(w.txs[t], tx')
    ensures Inv(w.(txs := w.txs[t := tx']))
  {
    SameRowsStayValid(w.db, w.txs[t], tx');
    forall u | u in w.txs && u != t ensures Apart(tx', w.txs[u]) && Apart(w.txs[u], tx') {
      SameRowsStayApart(w.txs[t], tx', w.txs[u]);
    }
    OwnStepKeeps(w, t, tx');
  }

  lemma OtherOwnKeeps(w: World, e: Event)
    requires Inv(w) && (e.UpsertUser? || e.MarkBrief? || e.SetDispatch?) && Enabled(w, e)
    ensures Inv(Apply(w, e))
  {
    SameRowsKeep(w, e.t, Apply(w, e).txs[e.t]);
  }

  lemma OthersSurviveCommit(db: Db, tx: Tx, other: Tx)
    requires DbValid(db) && TxValid(db, tx) && TxValid(db, other) && Apart(tx, other)
    ensures TxValid(Committed(db, tx), other)
  {
    var after := Committed(db, tx);
    NoOverwrite(db, tx);
    forall id | HasKey(after, id) ensures !HasKey(other.own, id) {
      assert HasKey(db, id) || HasKey(tx.own, id);
    }
    forall r | r in other.own.strategies ensures !HasActive(after.strategies, other.user) {
      NoActiveAfter(db, tx, other, r);
    }
    forall c | c in other.own.briefs ensures !HasTask(after.briefs, other.purpose.taskId) {
      NoTaskAfter(db, tx, other, c);
    }
  }

  lemma NoActiveAfter(db: Db, tx: Tx, other: Tx, r: Id)
    requires TxValid(db, tx) && TxValid(db, other) && Apart(tx, other) && r in other.own.strategies
    ensures !HasActive(Committed(db, tx).strategies, other.user)
  {
    assert !HasActive(db.strategies, other.user);
    forall s | s in tx.own.strategies ensures tx.own.strategies[s].user != other.user {
    }
  }

  lemma NoTaskAfter(db: Db, tx: Tx, other: Tx, c: Id)
    requires TxValid(db, tx) && TxValid(db, other) && Apart(tx, other) && c in other.own.briefs
    ensures !HasTask(Committed(db, tx).briefs, other.purpose.taskId)
  {
    assert !HasTask(db.briefs, other.purpose.taskId);
    forall b | b in tx.own.briefs ensures tx.own.briefs[b].taskId != other.purpose.taskId {
      assert other.own.briefs[c].taskId == other.purpose.taskId;
    }
  }

  lemma CommitKeeps(w: World, e: Event)
    requires Inv(w) && e.Commit? && Enabled(w, e)
    ensures Inv(Apply(w, e))
  {
    var tx, after := w.txs[e.t], Apply(w, e);
    CommitKeepsDb(w.db, tx);
    NoOverwrite(w.db, tx);
    forall u | u in after.txs ensures TxValid(after.db, after.txs[u]) {
      OthersSurviveCommit(w.db, tx, w.txs[u]);
    }
  }

  lemma StepKeeps(w: World, e: Event)
    requires Inv(w) && Enabled(w, e)
    ensures Inv(Apply(w, e))
  {
    match e
    case Begin(_, _, _) => BeginKeeps(w, e);
    case InsertBrief(_, _) => InsertBriefKeeps(w, e);
    case LookUp(_, _) => LookUpKeeps(w, e);
    case InsertStrategy(_, _, _) => InsertStrategyKeeps(w, e);
    case CreateJob(_, _, _, _) => CreateJobKeeps(w, e);
    case UpsertUser(_) => OtherOwnKeeps(w, e);
    case MarkBrief(_, _) => OtherOwnKeeps(w, e);
    case SetDispatch(_, _, _) => OtherOwnKeeps(w, e);
    case Commit(_) => CommitKeeps(w, e);
    case Abort(_) =>
    case Idle =>
  }

  lemma {:induction false} InvHolds(ws: seq<World>, es: seq<Event>, i: nat)
    requires IsRun(ws, es) && i <= |es|
    ensures Inv(ws[i])
  {
    if i > 0 {
      InvHolds(ws, es, i - 1);
      StepKeeps(ws[i - 1], es[i - 1]);
    }
  }

  // ---- Properties of all runs ----

  /** Committed strategies, briefs and jobs stay: strategies are never changed at all,
      briefs keep their user and task, jobs keep everything but their dispatch status, and
      contexts that were handed out stay valid. */
  ghost predicate Grows(a: World, b: World) {
    && (forall s :: s in a.db.strategies ==> s in b.db.strategies && b.db.strategies[s] == a.db.strategies[s])
    && (forall c :: c in a.db.briefs ==>
          c in b.db.briefs && b.db.briefs[c].user == a.db.briefs[c].user && b.db.briefs[c].taskId == a.db.briefs[c].taskId)
    && (forall j :: j in a.db.jobs ==>
          j in b.db.jobs && b.db.jobs[j].(dispatch := a.db.jobs[j].dispatch) == a.db.jobs[j])
    && a.contexts <= b.contexts
  }

  lemma GrowsStep(w: World, e: Event)
    requires Inv(w) && Enabled(w, e)
    ensures Grows(w, Apply(w, e))
  {
    if e.Commit? {
      NoOverwrite(w.db, w.txs[e.t]);
    }
  }

  lemma GrowsOn(a: World, b: World, c: World)
    requires Grows(a, b) && Grows(b, c)
    ensures Grows(a, c)
  {
    forall j | j in a.db.jobs ensures j in c.db.jobs && c.db.jobs[j].(dispatch := a.db.jobs[j].dispatch) == a.db.jobs[j] {
      assert b.db.jobs[j].(dispatch := a.db.jobs[j].dispatch) == a.db.jobs[j];
      assert c.db.jobs[j].(dispatch := b.db.jobs[j].dispatch) == b.db.jobs[j];
    }
  }

  lemma {:induction false} HistoryGrows(ws: seq<World>, es: seq<Event>, i: nat, k: nat)
    requires IsRun(ws, es) && i <= k <= |es|
    ensures Grows(ws[i], ws[k])
  {
    if i < k {
      HistoryGrows(ws, es, i, k - 1);
      InvHolds(ws, es, k - 1);
      GrowsStep(ws[k - 1], es[k - 1]);
      GrowsOn(ws[i], ws[k - 1], ws[k]);
    }
  }

  /** Whatever transactions overlap and abort: a user has at most one committed strategy,
      and it is active and in version 1; once committed it never changes. */
  lemma StrategyIsUniqueAndFixed(ws: seq<World>, es: seq<Event>, i: nat, k: nat, s: Id, r: Id)
    requires IsRun(ws, es) && i <= k <= |es|
    requires s in ws[i].db.strategies && r in ws[k].db.strategies
    requires ws[i].db.strategies[s].user == ws[k].db.strategies[r].user
    ensures s == r && ws[k].db.strategies[r] == ws[i].db.strategies[s]
    ensures ws[k].db.strategies[r].isActive && ws[k].db.strategies[r].version == 1
  {
    HistoryGrows(ws, es, i, k);
    InvHolds(ws, es, k);
  }

  /** Every job points to a strategy of its own user, and all jobs a user ever gets share
      that strategy. */
  lemma JobsShareTheStrategy(ws: seq<World>, es: seq<Event>, i: nat, k: nat, a: Id, b: Id)
    requires IsRun(ws, es) && i <= k <= |es|
    requires a in ws[i].db.jobs && b in ws[k].db.jobs && ws[i].db.jobs[a].user == ws[k].db.jobs[b].user
    ensures ws[k].db.jobs[b].strategy in ws[k].db.strategies
    ensures ws[k].db.strategies[ws[k].db.jobs[b].strategy].user == ws[k].db.jobs[b].user
    ensures ws[i].db.jobs[a].strategy == ws[k].db.jobs[b].strategy
  {
    InvHolds(ws, es, i);
    InvHolds(ws, es, k);
    HistoryGrows(ws, es, i, k);
  }

  /** Ingest is idempotent: however often, and however concurrently, a task id is
      delivered, every ingest that commits is given the same raw brief. */
  lemma IngestIsIdempotent(ws: seq<World>, es: seq<Event>, i: nat, k: nat, c: Context, d: Context)
    requires IsRun(ws, es) && i <= k <= |es|
    requires c in ws[i].contexts && d in ws[k].contexts && c.taskId == d.taskId
    ensures c.brief == d.brief
    ensures c.brief in ws[k].db.briefs && ws[k].db.briefs[c.brief].taskId == c.taskId
  {
    HistoryGrows(ws, es, i, k);
    InvHolds(ws, es, k);
  }

  // ---- What is committed, and nothing else ----

  predicate Ends(e: Event, t: Id) {
    e == Commit(t) || e == Abort(t)
  }

  datatype Table = UserRows | BriefRows | StrategyRows | JobRows

  /** What is fixed in a row: all but the status of a brief and the dispatch status of a job. */
  datatype Row =
    | UserRow
    | BriefRow(user: Id, taskId: Id)
    | StrategyRow(strategy: Strategy)
    | JobAsStored(user: Id, brief: Id, pinned: Id, outcome: JobStatus)

  function RowOf(db: Db, table: Table, id: Id): Option<Row> {
    match table
    case UserRows => if id in db.users then Some(UserRow) else None
    case BriefRows => if id in db.briefs then Some(BriefRow(db.briefs[id].user, db.briefs[id].taskId)) else None
    case StrategyRows => if id in db.strategies then Some(StrategyRow(db.strategies[id])) else None
    case JobRows =>
      if id in db.jobs then Some(JobAsStored(db.jobs[id].user, db.jobs[id].brief, db.jobs[id].strategy, db.jobs[id].status))
      else None
  }

  predicate HasRow(db: Db, table: Table, id: Id) {
    RowOf(db, table, id).Some?
  }

  /** The statement inserts this row, or, for a brief, finds it. */
  predicate Writes(w: World, e: Event, table: Table, id: Id) {
    match table
    case UserRows => e.UpsertUser? && e.t in w.txs && w.txs[e.t].user == id
    case BriefRows => e.InsertBrief? && e.brief == id
    case StrategyRows => e.InsertStrategy? && e.id == id
    case JobRows => e.CreateJob? && e.id == id
  }

  /** The row that the statement inserts. */
  function Inserted(w: World, e: Event): Option<Row> {
    match e
    case UpsertUser(_) => Some(UserRow)
    case InsertBrief(t, _) =>
      if t in w.txs && w.txs[t].purpose.Ingest? then Some(BriefRow(w.txs[t].user, w.txs[t].purpose.taskId)) else None
    case InsertStrategy(t, _, bi) => if t in w.txs then Some(StrategyRow(Strategy(w.txs[t].user, 1, true, bi))) else None
    case CreateJob(t, _, outcome, _) =>
      if t in w.txs && w.txs[t].purpose.Persist? && w.txs[t].pinned.Some?
      then Some(JobAsStored(w.txs[t].user, w.txs[t].purpose.brief, w.txs[t].pinned.value, outcome)) else None
    case _ => None
  }

  /** The row is the one that the statement inserts. */
  predicate AsWritten(w: World, e: Event, row: Option<Row>, table: Table, id: Id) {
    Writes(w, e, table, id) && row == Inserted(w, e)
  }

  /** Event i writes the row, in a transaction that is still open before event k. */
  ghost predicate Pending(ws: seq<World>, es: seq<Event>, i: int, k: int, t: Id, table: Table, id: Id)
    requires IsRun(ws, es)
  {
    && 0 <= i < k <= |es| && !es[i].Idle? && es[i].t == t && Writes(ws[i], es[i], table, id)
    && forall x :: i < x < k ==> !Ends(es[x], t)
  }

  lemma OtherTxIsKept(w: World, e: Event, t: Id)
    requires Enabled(w, e) && t in Apply(w, e).txs && (e.Idle? || e.t != t)
    ensures t in w.txs && Apply(w, e).txs[t] == w.txs[t]
  {
  }

  lemma OwnRowStep(w: World, e: Event, table: Table, id: Id)
    requires Enabled(w, e) && !e.Idle? && e.t in Apply(w, e).txs && HasRow(Apply(w, e).txs[e.t].own, table, id)
    ensures var row := RowOf(Apply(w, e).txs[e.t].own, table, id);
            || (e.t in w.txs && !Ends(e, e.t) && RowOf(w.txs[e.t].own, table, id) == row)
            || AsWritten(w, e, row, table, id)
  {
  }

  lemma OwnStep(w: World, e: Event, t: Id, table: Table, id: Id)
    requires Enabled(w, e) && t in Apply(w, e).txs && HasRow(Apply(w, e).txs[t].own, table, id)
    ensures var row := RowOf(Apply(w, e).txs[t].own, table, id);
            || (t in w.txs && !Ends(e, t) && RowOf(w.txs[t].own, table, id) == row)
            || (!e.Idle? && e.t == t && AsWritten(w, e, row, table, id))
  {
    if e.Idle? || e.t != t {
      OtherTxIsKept(w, e, t);
    } else {
      OwnRowStep(w, e, table, id);
    }
  }

  lemma StillPending(ws: seq<World>, es: seq<Event>, i: nat, k: nat, t: Id, table: Table, id: Id)
    requires IsRun(ws, es) && 0 < k && Pending(ws, es, i, k - 1, t, table, id) && k <= |es| && !Ends(es[k - 1], t)
    ensures Pending(ws, es, i, k, t, table, id)
  {
  }

  /** What an open transaction has written is what its statements have written. */
  lemma {:induction false} OwnIsPending(ws: seq<World>, es: seq<Event>, k: nat, t: Id, table: Table, id: Id) returns (i: nat)
    requires IsRun(ws, es) && k <= |es| && t in ws[k].txs && HasRow(ws[k].txs[t].own, table, id)
    ensures Pending(ws, es, i, k, t, table, id)
    ensures AsWritten(ws[i], es[i], RowOf(ws[k].txs[t].own, table, id), table, id)
  {
    var w, e := ws[k - 1], es[k - 1];
    OwnStep(w, e, t, table, id);
    if !e.Idle? && e.t == t && AsWritten(w, e, RowOf(ws[k].txs[t].own, table, id), table, id) {
      i := k - 1;
    } else {
      i := OwnIsPending(ws, es, k - 1, t, table, id);
      StillPending(ws, es, i, k, t, table, id);
    }
  }

  lemma WrittenIsOwn(w: World, e: Event, t: Id, table: Table, id: Id)
    requires Enabled(w, e) && !e.Idle? && e.t == t && Writes(w, e, table, id)
    ensures t in Apply(w, e).txs
    ensures HasRow(Apply(w, e).txs[t].own, table, id) || HasRow(Apply(w, e).db, table, id)
  {
  }

  lemma RowsGrow(w: World, e: Event, table: Table, id: Id)
    requires Inv(w) && Enabled(w, e)
    ensures HasRow(Apply(w, e).db, table, id) <==>
              HasRow(w.db, table, id) || (e.Commit? && e.t in w.txs && HasRow(w.txs[e.t].own, table, id))
    ensures HasRow(w.db, table, id) ==> RowOf(Apply(w, e).db, table, id) == RowOf(w.db, table, id)
    ensures !HasRow(w.db, table, id) && e.Commit? && e.t in w.txs && HasRow(w.txs[e.t].own, table, id) ==>
              RowOf(Apply(w, e).db, table, id) == RowOf(w.txs[e.t].own, table, id)
  {
    if e.Commit? {
      NoOverwrite(w.db, w.txs[e.t]);
    }
  }

  lemma RowsGrowAt(ws: seq<World>, es: seq<Event>, k: nat, table: Table, id: Id)
    requires IsRun(ws, es) && k < |es|
    ensures HasRow(ws[k + 1].db, table, id) <==>
              HasRow(ws[k].db, table, id) || (es[k].Commit? && es[k].t in ws[k].txs && HasRow(ws[k].txs[es[k].t].own, table, id))
    ensures HasRow(ws[k].db, table, id) ==> RowOf(ws[k + 1].db, table, id) == RowOf(ws[k].db, table, id)
    ensures HasRow(ws[k + 1].db, table, id) && !HasRow(ws[k].db, table, id) ==>
              RowOf(ws[k + 1].db, table, id) == RowOf(ws[k].txs[es[k].t].own, table, id)
  {
    InvHolds(ws, es, k);
    RowsGrow(ws[k], es[k], table, id);
  }

  lemma OwnIsKept(w: World, e: Event, t: Id, table: Table, id: Id)
    requires Enabled(w, e) && !Ends(e, t) && t in w.txs && HasRow(w.txs[t].own, table, id)
    ensures t in Apply(w, e).txs && HasRow(Apply(w, e).txs[t].own, table, id)
  {
  }

  lemma OtherTxStays(w: World, e: Event, t: Id)
    requires Enabled(w, e) && !Ends(e, t) && t in w.txs
    ensures t in Apply(w, e).txs
  {
  }

  lemma StillOwnOrStored(ws: seq<World>, es: seq<Event>, k: nat, t: Id, table: Table, id: Id)
    requires IsRun(ws, es) && k < |es| && !Ends(es[k], t) && t in ws[k].txs
    requires HasRow(ws[k].txs[t].own, table, id) || HasRow(ws[k].db, table, id)
    ensures t in ws[k + 1].txs && (HasRow(ws[k + 1].txs[t].own, table, id) || HasRow(ws[k + 1].db, table, id))
  {
    RowsGrowAt(ws, es, k, table, id);
    OtherTxStays(ws[k], es[k], t);
    if HasRow(ws[k].txs[t].own, table, id) {
      OwnIsKept(ws[k], es[k], t, table, id);
    }
  }

  lemma {:induction false} PendingIsOwn(ws: seq<World>, es: seq<Event>, i: nat, k: nat, t: Id, table: Table, id: Id)
    requires IsRun(ws, es) && Pending(ws, es, i, k, t, table, id)
    ensures t in ws[k].txs && (HasRow(ws[k].txs[t].own, table, id) || HasRow(ws[k].db, table, id))
    decreases k
  {
    if i == k - 1 {
      WrittenIsOwn(ws[i], es[i], t, table, id);
    } else {
      PendingIsOwn(ws, es, i, k - 1, t, table, id);
      StillOwnOrStored(ws, es, k - 1, t, table, id);
    }
  }

  /** Event i writes the row, and event m commits the transaction to which i belongs. */
  ghost predicate CommittedWrite(ws: seq<World>, es: seq<Event>, i: int, m: int, table: Table, id: Id)
    requires IsRun(ws, es)
  {
    && 0 <= i < m < |es| && !es[i].Idle? && es[m] == Commit(es[i].t) && Pending(ws, es, i, m, es[i].t, table, id)
  }

  /** Every row is as the statement of a transaction that has committed inserted it: a
      strategy for good, a brief with its user and task, a job with its user, brief, strategy
      and outcome. */
  lemma {:induction false} RowsAreAsWritten(ws: seq<World>, es: seq<Event>, k: nat, table: Table, id: Id) returns (i: nat, m: nat)
    requires IsRun(ws, es) && k <= |es| && HasRow(ws[k].db, table, id)
    ensures m < k && CommittedWrite(ws, es, i, m, table, id) && AsWritten(ws[i], es[i], RowOf(ws[k].db, table, id), table, id)
  {
    var w, e := ws[k - 1], es[k - 1];
    RowsGrowAt(ws, es, k - 1, table, id);
    if HasRow(w.db, table, id) {
      i, m := RowsAreAsWritten(ws, es, k - 1, table, id);
    } else {
      m := k - 1;
      i := OwnIsPending(ws, es, m, e.t, table, id);
    }
  }

  lemma {:induction false} RowsStay(ws: seq<World>, es: seq<Event>, i: nat, k: nat, table: Table, id: Id)
    requires IsRun(ws, es) && i <= k <= |es| && HasRow(ws[i].db, table, id)
    ensures HasRow(ws[k].db, table, id)
  {
    if i < k {
      RowsStay(ws, es, i, k - 1, table, id);
      RowsGrowAt(ws, es, k - 1, table, id);
    }
  }

  lemma WrittenIsStored(ws: seq<World>, es: seq<Event>, i: nat, m: nat, k: nat, table: Table, id: Id)
    requires IsRun(ws, es) && m < k <= |es| && CommittedWrite(ws, es, i, m, table, id)
    ensures HasRow(ws[k].db, table, id)
  {
    PendingIsOwn(ws, es, i, m, es[i].t, table, id);
    RowsGrowAt(ws, es, m, table, id);
    RowsStay(ws, es, m + 1, k, table, id);
  }

  /** In every run, a user, brief, strategy or job is in the database if and only if a
      transaction that wrote it has committed: what is rolled back leaves nothing behind. */
  lemma RowsAreCommittedIff(ws: seq<World>, es: seq<Event>, k: nat, table: Table, id: Id)
    requires IsRun(ws, es) && k <= |es|
    ensures HasRow(ws[k].db, table, id) <==> exists i, m :: m < k && CommittedWrite(ws, es, i, m, table, id)
  {
    if HasRow(ws[k].db, table, id) {
      var i, m := RowsAreAsWritten(ws, es, k, table, id);
    }
    if i, m :| m < k && CommittedWrite(ws, es, i, m, table, id) {
      WrittenIsStored(ws, es, i, m, k, table, id);
    }
  }

  // ---- The status of a brief ----

  /** A transaction marks its own brief, a committed one, and inserts briefs as received. */
  ghost predicate TxMarks(tx: Tx, db: Db) {
    && (tx.purpose.Persist? ==> tx.purpose.brief in db.briefs)
    && (forall b :: b in tx.marks ==> tx.purpose.Persist? && b == tx.purpose.brief && tx.marks[b] != Received)
    && (forall b :: b in tx.own.briefs ==> tx.own.briefs[b].status == Received)
  }

  ghost predicate MarksAreFinal(w: World) {
    forall t :: t in w.txs ==> TxMarks(w.txs[t], w.db)
  }

  lemma OwnMarksStep(w: World, e: Event)
    requires Inv(w) && Enabled(w, e) && !e.Idle? && e.t in Apply(w, e).txs && (e.t in w.txs ==> TxMarks(w.txs[e.t], w.db))
    ensures TxMarks(Apply(w, e).txs[e.t], w.db)
  {
  }

  lemma TxMarksStep(w: World, e: Event, t: Id)
    requires Inv(w) && Enabled(w, e) && MarksAreFinal(w) && t in Apply(w, e).txs
    ensures TxMarks(Apply(w, e).txs[t], Apply(w, e).db)
  {
    GrowsStep(w, e);
    if e.Idle? || e.t != t {
      OtherTxIsKept(w, e, t);
      assert TxMarks(w.txs[t], w.db);
    } else {
      OwnMarksStep(w, e);
    }
  }

  lemma {:induction false} MarksHold(ws: seq<World>, es: seq<Event>, i: nat)
    requires IsRun(ws, es) && i <= |es|
    ensures MarksAreFinal(ws[i])
  {
    if i > 0 {
      MarksHold(ws, es, i - 1);
      InvHolds(ws, es, i - 1);
      forall t | t in ws[i].txs ensures TxMarks(ws[i].txs[t], ws[i].db) {
        TxMarksStep(ws[i - 1], es[i - 1], t);
      }
    }
  }

  /** The brief is done or failed. */
  predicate IsMarked(w: World, b: Id) {
    b in w.db.briefs && w.db.briefs[b].status != Received
  }

  /** The event commits a mark of the brief. */
  predicate CommitsMark(w: World, e: Event, b: Id) {
    e.Commit? && e.t in w.txs && b in w.txs[e.t].marks
  }

  lemma MarkedStep(w: World, e: Event, b: Id)
    requires Inv(w) && Enabled(w, e) && MarksAreFinal(w)
    ensures IsMarked(Apply(w, e), b) <==> IsMarked(w, b) || CommitsMark(w, e, b)
  {
    if e.Commit? {
      var tx := w.txs[e.t];
      assert TxMarks(tx, w.db);
      NoOverwrite(w.db, tx);
    }
  }

  /** In every run, a brief is done or failed if and only if a transaction that marks it has
      committed before. */
  lemma {:induction false} MarkedIff(ws: seq<World>, es: seq<Event>, k: nat, b: Id)
    requires IsRun(ws, es) && k <= |es|
    ensures IsMarked(ws[k], b) <==> exists m :: 0 <= m < k && CommitsMark(ws[m], es[m], b)
  {
    if k > 0 {
      MarkedIff(ws, es, k - 1, b);
      InvHolds(ws, es, k - 1);
      MarksHold(ws, es, k - 1);
      MarkedStep(ws[k - 1], es[k - 1], b);
      assert CommitsMark(ws[k - 1], es[k - 1], b) ==> IsMarked(ws[k], b);
    }
  }

  /** Once done or failed, a brief is never again only received. */
  lemma MarkedForGood(ws: seq<World>, es: seq<Event>, i: nat, k: nat, b: Id)
    requires IsRun(ws, es) && i <= k <= |es| && IsMarked(ws[i], b)
    ensures IsMarked(ws[k], b)
  {
    MarkedIff(ws, es, i, b);
    MarkedIff(ws, es, k, b);
  }

  /** A run is determined by its events. */
  lemma {:induction false} SameUpTo(ws: seq<World>, es: seq<Event>, vs: seq<World>, fs: seq<Event>, i: nat)
    requires IsRun(ws, es) && IsRun(vs, fs) && es <= fs && i <= |es|
    ensures vs[i] == ws[i]
  {
    if i > 0 {
      SameUpTo(ws, es, vs, fs, i - 1);
      assert fs[i - 1] == es[i - 1];
    }
  }

  lemma MarkOutlives(ws: seq<World>, es: seq<Event>, vs: seq<World>, fs: seq<Event>, b: Id)
    requires IsRun(ws, es) && IsRun(vs, fs) && es <= fs && IsMarked(ws[|es|], b)
    ensures IsMarked(vs[|fs|], b)
  {
    SameUpTo(ws, es, vs, fs, |es|);
    MarkedForGood(vs, fs, |es|, |fs|, b);
  }

  // ---- The owner of a job's brief ----

  /** Every delivery of a task id names the same account. */
  ghost predicate OneAccountPerTask(es: seq<Event>, account: Id -> Id) {
    forall i :: 0 <= i < |es| && es[i].Begin? && es[i].purpose.Ingest? ==> es[i].user == account(es[i].purpose.taskId)
  }

  ghost predicate RowsOwned(db: Db, contexts: set<Context>, account: Id -> Id) {
    && (forall b :: b in db.briefs ==> db.briefs[b].user == account(db.briefs[b].taskId))
    && (forall c :: c in contexts ==> c.user == account(c.taskId))
  }

  ghost predicate TxOwned(tx: Tx, account: Id -> Id) {
    && (tx.purpose.Ingest? ==> tx.user == account(tx.purpose.taskId))
    && (forall b :: b in tx.own.briefs ==> tx.own.briefs[b].user == account(tx.own.briefs[b].taskId))
  }

  ghost predicate OwnedBy(w: World, account: Id -> Id) {
    RowsOwned(w.db, w.contexts, account) && forall t :: t in w.txs ==> TxOwned(w.txs[t], account)
  }

  lemma OwnedTx(w: World, e: Event, account: Id -> Id, t: Id)
    requires Enabled(w, e) && OwnedBy(w, account)
    requires e.Begin? && e.purpose.Ingest? ==> e.user == account(e.purpose.taskId)
    requires t in Apply(w, e).txs
    ensures TxOwned(Apply(w, e).txs[t], account)
  {
    if t in w.txs {
      assert TxOwned(w.txs[t], account);
    }
  }

  lemma OwnedStep(w: World, e: Event, account: Id -> Id)
    requires Inv(w) && Enabled(w, e) && OwnedBy(w, account)
    requires e.Begin? && e.purpose.Ingest? ==> e.user == account(e.purpose.taskId)
    ensures OwnedBy(Apply(w, e), account)
  {
    var w' := Apply(w, e);
    if e.Commit? {
      assert TxOwned(w.txs[e.t], account);
      NoOverwrite(w.db, w.txs[e.t]);
    }
    forall t | t in w'.txs ensures TxOwned(w'.txs[t], account) {
      OwnedTx(w, e, account, t);
    }
  }

  // ---- When a delivery owns its brief ----

  /** No visible brief of the task belongs to another user. */
  predicate OwnsTask(w: World, t: Id)
    requires t in w.txs && w.txs[t].purpose.Ingest?
  {
    forall b :: b in VisibleBriefs(w, t) && VisibleBriefs(w, t)[b].taskId == w.txs[t].purpose.taskId ==>
      VisibleBriefs(w, t)[b].user == w.txs[t].user
  }

  /** The brief that a transaction has found, in the database or among its own rows. */
  ghost predicate HasFound(w: World, t: Id, user: Id, taskId: Id, brief: Id, owner: Id) {
    && t in w.txs && w.txs[t].user == user && w.txs[t].purpose == Ingest(taskId) && w.txs[t].found == Some(brief)
    && brief in VisibleBriefs(w, t)
    && VisibleBriefs(w, t)[brief].taskId == taskId && VisibleBriefs(w, t)[brief].user == owner
  }

  /** What is found belongs to the user exactly if no other user's brief has the task. */
  lemma FoundIsOwnedIff(w: World, e: Event)
    requires Inv(w) && e.InsertBrief? && Enabled(w, e)
    ensures exists owner :: HasFound(Apply(w, e), e.t, w.txs[e.t].user, w.txs[e.t].purpose.taskId, e.brief, owner)
                            && (owner == w.txs[e.t].user <==> OwnsTask(w, e.t))
  {
    var tx, w' := w.txs[e.t], Apply(w, e);
    var before, after := VisibleBriefs(w, e.t), VisibleBriefs(w', e.t);
    VisibleIsValid(w, e.t);
    if HasTask(before, tx.purpose.taskId) {
      assert after == before;
      assert HasFound(w', e.t, tx.user, tx.purpose.taskId, e.brief, before[e.brief].user);
    } else {
      assert after[e.brief] == Brief(tx.user, tx.purpose.taskId, Received);
      assert OwnsTask(w, e.t);
      assert HasFound(w', e.t, tx.user, tx.purpose.taskId, e.brief, tx.user);
    }
  }

  lemma VisibleIsValid(w: World, t: Id)
    requires Inv(w) && t in w.txs
    ensures OneBriefPerTask(VisibleBriefs(w, t))
  {
    assert TxValid(w.db, w.txs[t]);
    NoOverwrite(w.db, w.txs[t]);
  }

  lemma OwnBriefsAreKept(w: World, e: Event, t: Id)
    requires Enabled(w, e) && !Ends(e, t) && t in w.txs && w.txs[t].found.Some?
    ensures t in Apply(w, e).txs
    ensures var tx, tx' := w.txs[t], Apply(w, e).txs[t];
            tx'.own.briefs == tx.own.briefs && tx'.user == tx.user && tx'.purpose == tx.purpose && tx'.found == tx.found
  {
  }

  lemma FoundIsKept(w: World, e: Event, t: Id, user: Id, taskId: Id, brief: Id, owner: Id)
    requires Inv(w) && Enabled(w, e) && !Ends(e, t) && HasFound(w, t, user, taskId, brief, owner)
    ensures HasFound(Apply(w, e), t, user, taskId, brief, owner)
  {
    OwnBriefsAreKept(w, e, t);
    GrowsStep(w, e);
    if brief in w.txs[t].own.briefs {
      assert VisibleBriefs(Apply(w, e), t)[brief] == w.txs[t].own.briefs[brief];
    }
  }

  lemma {:induction false} FoundUntil(ws: seq<World>, es: seq<Event>, i: nat, k: nat, t: Id, user: Id, taskId: Id, brief: Id, owner: Id)
    requires IsRun(ws, es) && i <= k <= |es| && HasFound(ws[i], t, user, taskId, brief, owner)
    requires forall m :: i <= m < k ==> !Ends(es[m], t)
    ensures HasFound(ws[k], t, user, taskId, brief, owner)
  {
    if i < k {
      FoundUntil(ws, es, i, k - 1, t, user, taskId, brief, owner);
      InvHolds(ws, es, k - 1);
      FoundIsKept(ws[k - 1], es[k - 1], t, user, taskId, brief, owner);
    }
  }

  lemma FoundIsHandedOut(w: World, t: Id, user: Id, taskId: Id, brief: Id, owner: Id)
    requires Inv(w) && HasFound(w, t, user, taskId, brief, owner)
    ensures Context(user, taskId, brief) in Apply(w, Commit(t)).contexts
    ensures brief in Apply(w, Commit(t)).db.briefs && Apply(w, Commit(t)).db.briefs[brief].user == owner
  {
    assert TxValid(w.db, w.txs[t]);
  }

  /** A delivery that looks its brief up at event i and commits at event k is given a brief
      of its own user if and only if, at event i, it sees no brief of the task that belongs
      to another. This holds for ever after. */
  lemma DeliveryOwnsItsBriefIff(ws: seq<World>, es: seq<Event>, i: nat, k: nat, n: nat)
    requires IsRun(ws, es) && i < k < n <= |es|
    requires es[i].InsertBrief? && es[k] == Commit(es[i].t) && forall m :: i < m < k ==> !Ends(es[m], es[i].t)
    ensures es[i].t in ws[i].txs && ws[i].txs[es[i].t].purpose.Ingest?
    ensures var tx := ws[i].txs[es[i].t];
            && Context(tx.user, tx.purpose.taskId, es[i].brief) in ws[n].contexts
            && es[i].brief in ws[n].db.briefs
            && (ws[n].db.briefs[es[i].brief].user == tx.user <==> OwnsTask(ws[i], es[i].t))
  {
    var t, brief := es[i].t, es[i].brief;
    assert Enabled(ws[i], es[i]) && ws[i + 1] == Apply(ws[i], es[i]);
    var user, taskId := ws[i].txs[t].user, ws[i].txs[t].purpose.taskId;
    InvHolds(ws, es, i);
    FoundIsOwnedIff(ws[i], es[i]);
    var owner :| HasFound(ws[i + 1], t, user, taskId, brief, owner) && (owner == user <==> OwnsTask(ws[i], t));
    FoundUntil(ws, es, i + 1, k, t, user, taskId, brief, owner);
    InvHolds(ws, es, k);
    assert ws[k + 1] == Apply(ws[k], es[k]);
    FoundIsHandedOut(ws[k], t, user, taskId, brief, owner);
    HistoryGrows(ws, es, k + 1, n);
  }

  lemma FoundStep(w: World, e: Event, t: Id)
    requires Enabled(w, e) && t in Apply(w, e).txs && Apply(w, e).txs[t].found.Some?
    ensures t in w.txs && w.txs[t].user == Apply(w, e).txs[t].user && w.txs[t].purpose == Apply(w, e).txs[t].purpose
    ensures e == InsertBrief(t, Apply(w, e).txs[t].found.value)
            || (w.txs[t].found == Apply(w, e).txs[t].found && !Ends(e, t))
  {
  }

  /** What a transaction has found was found by one of its statements. */
  lemma {:induction false} FoundByItself(ws: seq<World>, es: seq<Event>, k: nat, t: Id) returns (i: nat)
    requires IsRun(ws, es) && k <= |es| && t in ws[k].txs && ws[k].txs[t].found.Some?
    ensures i < k && es[i] == InsertBrief(t, ws[k].txs[t].found.value) && forall x :: i < x < k ==> !Ends(es[x], t)
    ensures t in ws[i].txs && ws[i].txs[t].user == ws[k].txs[t].user && ws[i].txs[t].purpose == ws[k].txs[t].purpose
  {
    FoundStep(ws[k - 1], es[k - 1], t);
    if es[k - 1] == InsertBrief(t, ws[k].txs[t].found.value) {
      i := k - 1;
    } else {
      i := FoundByItself(ws, es, k - 1, t);
    }
  }

  /** A delivery of the context's task by its user has looked up the brief at event i, and has
      committed at event m. */
  ghost predicate Delivered(ws: seq<World>, es: seq<Event>, i: int, m: int, c: Context)
    requires IsRun(ws, es)
  {
    && 0 <= i < m < |es| && es[i].InsertBrief? && es[i].brief == c.brief && es[m] == Commit(es[i].t)
    && (forall x :: i < x < m ==> !Ends(es[x], es[i].t))
    && es[i].t in ws[i].txs && ws[i].txs[es[i].t].user == c.user && ws[i].txs[es[i].t].purpose == Ingest(c.taskId)
  }

  lemma {:induction false} ContextIsDelivered(ws: seq<World>, es: seq<Event>, k: nat, c: Context) returns (i: nat, m: nat)
    requires IsRun(ws, es) && k <= |es| && c in ws[k].contexts
    ensures m < k && Delivered(ws, es, i, m, c)
  {
    assert Enabled(ws[k - 1], es[k - 1]) && ws[k] == Apply(ws[k - 1], es[k - 1]);
    if c in ws[k - 1].contexts {
      i, m := ContextIsDelivered(ws, es, k - 1, c);
    } else {
      m := k - 1;
      i := FoundByItself(ws, es, m, es[m].t);
    }
  }

  /** In every run, a context has been handed out if and only if a delivery of its task by its
      user has committed that had found, or inserted, its brief. */
  lemma ContextsAreDeliveredIff(ws: seq<World>, es: seq<Event>, k: nat, c: Context)
    requires IsRun(ws, es) && k <= |es|
    ensures c in ws[k].contexts <==> exists i, m :: m < k && Delivered(ws, es, i, m, c)
  {
    if c in ws[k].contexts {
      var i, m := ContextIsDelivered(ws, es, k, c);
    }
    if i, m :| m < k && Delivered(ws, es, i, m, c) {
      DeliveryOwnsItsBriefIff(ws, es, i, m, k);
    }
  }

  // ---- From contexts to jobs ----

  ghost predicate JobsHandedOut(w: World) {
    && (forall j :: j in w.db.jobs ==> HandedOut(w.contexts, w.db.jobs[j].user, w.db.jobs[j].brief))
    && (forall t :: t in w.txs ==> TxHandedOut(w.txs[t], w.contexts))
  }

  ghost predicate TxHandedOut(tx: Tx, contexts: set<Context>) {
    && (tx.purpose.Persist? ==> HandedOut(contexts, tx.user, tx.purpose.brief))
    && (forall j :: j in tx.own.jobs ==>
          tx.purpose.Persist? && tx.own.jobs[j].user == tx.user && tx.own.jobs[j].brief == tx.purpose.brief)
  }

  lemma TxHandedOutStep(w: World, e: Event, t: Id)
    requires Enabled(w, e) && JobsHandedOut(w) && t in Apply(w, e).txs
    ensures TxHandedOut(Apply(w, e).txs[t], Apply(w, e).contexts)
  {
    if t in w.txs {
      assert TxHandedOut(w.txs[t], w.contexts);
    }
  }

  lemma JobsHandedOutStep(w: World, e: Event)
    requires Inv(w) && Enabled(w, e) && JobsHandedOut(w)
    ensures JobsHandedOut(Apply(w, e))
  {
    var w' := Apply(w, e);
    forall t | t in w'.txs ensures TxHandedOut(w'.txs[t], w'.contexts) {
      TxHandedOutStep(w, e, t);
    }
    if e.Commit? {
      assert TxHandedOut(w.txs[e.t], w.contexts);
      forall j | j in w'.db.jobs ensures HandedOut(w'.contexts, w'.db.jobs[j].user, w'.db.jobs[j].brief) {
        assert HandedOut(w.contexts, w'.db.jobs[j].user, w'.db.jobs[j].brief);
      }
    }
  }

  /** In every run, user and brief of a job are those of a context that was handed out. */
  lemma {:induction false} JobsComeFromContexts(ws: seq<World>, es: seq<Event>, i: nat)
    requires IsRun(ws, es) && i <= |es|
    ensures JobsHandedOut(ws[i])
  {
    if i > 0 {
      JobsComeFromContexts(ws, es, i - 1);
      InvHolds(ws, es, i - 1);
      JobsHandedOutStep(ws[i - 1], es[i - 1]);
    }
  }

  /** Every context was given a brief of its own user. */
  predicate ContextsMatch(w: World) {
    forall c :: c in w.contexts ==> c.brief in w.db.briefs && w.db.briefs[c.brief].user == c.user
  }

  predicate JobMatches(w: World, j: Id) {
    j in w.db.jobs && w.db.jobs[j].brief in w.db.briefs && w.db.briefs[w.db.jobs[j].brief].user == w.db.jobs[j].user
  }

  lemma MatchingContexts(w: World)
    requires JobsHandedOut(w) && ContextsMatch(w)
    ensures forall j :: j in w.db.jobs ==> JobMatches(w, j)
  {
    forall j | j in w.db.jobs ensures JobMatches(w, j) {
      assert HandedOut(w.contexts, w.db.jobs[j].user, w.db.jobs[j].brief);
    }
  }

  /** If every delivery of a task id names the same account, every job and its raw brief
      belong to the same user. */
  lemma {:induction false} JobsMatchTheirBrief(ws: seq<World>, es: seq<Event>, account: Id -> Id, i: nat)
    requires IsRun(ws, es) && OneAccountPerTask(es, account) && i <= |es|
    ensures OwnedBy(ws[i], account)
    ensures forall j :: j in ws[i].db.jobs ==> JobMatches(ws[i], j)
  {
    if i > 0 {
      JobsMatchTheirBrief(ws, es, account, i - 1);
      InvHolds(ws, es, i - 1);
      OwnedStep(ws[i - 1], es[i - 1], account);
    }
    InvHolds(ws, es, i);
    JobsComeFromContexts(ws, es, i);
    assert ContextsMatch(ws[i]);
    MatchingContexts(ws[i]);
  }

  // ---- The steps that store one job ----

  /** The events are possible one after the other. */
  predicate CanDo(w: World, es: seq<Event>)
    decreases |es|
  {
    es == [] || (Enabled(w, es[0]) && CanDo(Apply(w, es[0]), es[1..]))
  }

  function After(w: World, es: seq<Event>): World
    requires CanDo(w, es)
    decreases |es|
  {
    if es == [] then w else After(Apply(w, es[0]), es[1..])
  }

  lemma {:induction false} DoBoth(w: World, a: seq<Event>, b: seq<Event>)
    requires CanDo(w, a) && CanDo(After(w, a), b)
    ensures CanDo(w, a + b) && After(w, a + b) == After(After(w, a), b)
    decreases |a|
  {
    if a == [] {
      assert a + b == b;
    } else {
      DoBoth(Apply(w, a[0]), a[1..], b);
      assert (a + b)[0] == a[0] && (a + b)[1..] == a[1..] + b;
    }
  }

  lemma DoOne(w: World, e: Event, es: seq<Event>)
    requires Enabled(w, e) && CanDo(Apply(w, e), es)
    ensures CanDo(w, [e] + es) && After(w, [e] + es) == After(Apply(w, e), es)
  {
    assert ([e] + es)[0] == e && ([e] + es)[1..] == es;
  }

  predicate NoIngest(es: seq<Event>) {
    forall k :: 0 <= k < |es| && es[k].Begin? ==> !es[k].purpose.Ingest?
  }

  predicate NobodyIngests(w: World) {
    forall t :: t in w.txs ==> !w.txs[t].purpose.Ingest?
  }

  lemma MatchingStep(w: World, e: Event)
    requires Inv(w) && Enabled(w, e) && ContextsMatch(w) && NobodyIngests(w) && (e.Begin? ==> !e.purpose.Ingest?)
    ensures ContextsMatch(Apply(w, e)) && NobodyIngests(Apply(w, e))
  {
    GrowsStep(w, e);
    assert Apply(w, e).contexts == w.contexts;
  }

  lemma {:induction false} StaysMatching(w: World, es: seq<Event>)
    requires Inv(w) && JobsHandedOut(w) && ContextsMatch(w) && NobodyIngests(w) && CanDo(w, es) && NoIngest(es)
    ensures forall j :: j in After(w, es).db.jobs ==> JobMatches(After(w, es), j)
    decreases |es|
  {
    if es == [] {
      MatchingContexts(w);
    } else {
      StepKeeps(w, es[0]);
      JobsHandedOutStep(w, es[0]);
      MatchingStep(w, es[0]);
      StaysMatching(Apply(w, es[0]), es[1..]);
    }
  }

  lemma UnusedId(s: set<Id>) returns (x: Id)
    ensures x !in s && forall y :: y in s ==> y < x
  {
    if y :| y in s {
      var z := UnusedId(s - {y});
      x := if y < z then z else y + 1;
      assert forall v :: v in s ==> v == y || v in s - {y};
    } else {
      x := 0;
    }
  }

  /** A transaction for the context, pinned, that has stored no job yet. */
  ghost predicate IsPinned(w: World, db: Db, contexts: set<Context>, c: Context, s: Id) {
    && w.db == db && w.contexts == contexts && w.txs.Keys == {0}
    && var tx := w.txs[0];
       && tx.user == c.user && tx.purpose == Persist(c.brief) && tx.pinned.Some?
       && tx.own.briefs == map[] && tx.own.jobs == map[] && tx.own.strategies.Keys <= {s}
       && tx.marks == map[] && tx.dispatches == map[]
  }

  lemma PinAStrategy(w: World, c: Context, s: Id) returns (es: seq<Event>)
    requires w.txs == map[0 := Tx(c.user, Persist(c.brief), false, None, None, EMPTY, map[], map[])]
    requires !HasKey(w.db, s)
    ensures CanDo(w, es) && NoIngest(es) && IsPinned(After(w, es), w.db, w.contexts, c, s)
  {
    assert VisibleStrategies(w, 0) == w.db.strategies;
    if r :| r in w.db.strategies && w.db.strategies[r].user == c.user && w.db.strategies[r].isActive {
      DoOne(w, LookUp(0, Some(r)), []);
      es := [LookUp(0, Some(r))] + [];
    } else {
      assert !HasActive(w.db.strategies, c.user);
      var w' := Apply(w, LookUp(0, None));
      assert VisibleStrategies(w', 0) == w'.db.strategies;
      DoOne(w', InsertStrategy(0, s, ""), []);
      DoOne(w, LookUp(0, None), [InsertStrategy(0, s, "")] + []);
      es := [LookUp(0, None)] + ([InsertStrategy(0, s, "")] + []);
    }
  }

  lemma FinishAJob(w: World, db: Db, contexts: set<Context>, c: Context, s: Id, j: Id)
    requires IsPinned(w, db, contexts, c, s) && !HasKey(db, j) && j != s && c.brief in db.briefs
    ensures var es := [CreateJob(0, j, JobDone, NotTracked)] + ([Commit(0)] + []);
            && CanDo(w, es)
            && j in After(w, es).db.jobs && After(w, es).db.jobs[j].user == c.user && After(w, es).db.jobs[j].brief == c.brief
            && c.brief in After(w, es).db.briefs && After(w, es).db.briefs[c.brief].user == db.briefs[c.brief].user
  {
    var create := CreateJob(0, j, JobDone, NotTracked);
    assert Unused(w, j);
    var w' := Apply(w, create);
    assert w'.txs[0].own.jobs.Keys == {j} && w'.txs[0].own.jobs[j].user == c.user;
    DoOne(w', Commit(0), []);
    DoOne(w, create, [Commit(0)] + []);
  }

  /** With no transaction open, any context can be used to store a job. */
  lemma StoreAJob(w: World, c: Context) returns (es: seq<Event>, j: Id)
    requires Inv(w) && w.txs == map[] && c in w.contexts
    ensures CanDo(w, es) && NoIngest(es)
    ensures j in After(w, es).db.jobs && After(w, es).db.jobs[j].user == c.user && After(w, es).db.jobs[j].brief == c.brief
    ensures c.brief in After(w, es).db.briefs && After(w, es).db.briefs[c.brief].user == w.db.briefs[c.brief].user
  {
    var s := UnusedId(w.db.briefs.Keys + w.db.strategies.Keys + w.db.jobs.Keys);
    j := s + 1;
    assert HandedOut(w.contexts, c.user, c.brief);
    var begin := Begin(0, c.user, Persist(c.brief));
    var w1 := Apply(w, begin);
    assert w1.txs == map[0 := Tx(c.user, Persist(c.brief), false, None, None, EMPTY, map[], map[])];
    var pinning := PinAStrategy(w1, c, s);
    var storing := [CreateJob(0, j, JobDone, NotTracked)] + ([Commit(0)] + []);
    FinishAJob(After(w1, pinning), w.db, w.contexts, c, s, j);
    DoBoth(w1, pinning, storing);
    DoOne(w, begin, pinning + storing);
    es := [begin] + (pinning + storing);
  }

  /** With no transaction open and no further delivery, every job that is ever stored
      belongs to the user of its brief if and only if every context handed out so far does. */
  lemma JobsMatchIff(ws: seq<World>, es: seq<Event>)
    requires IsRun(ws, es) && ws[|es|].txs == map[]
    ensures ContextsMatch(ws[|es|]) <==>
            forall fs :: CanDo(ws[|es|], fs) && NoIngest(fs) ==>
              forall j :: j in After(ws[|es|], fs).db.jobs ==> JobMatches(After(ws[|es|], fs), j)
  {
    var w := ws[|es|];
    InvHolds(ws, es, |es|);
    JobsComeFromContexts(ws, es, |es|);
    if ContextsMatch(w) {
      forall fs | CanDo(w, fs) && NoIngest(fs)
        ensures forall j :: j in After(w, fs).db.jobs ==> JobMatches(After(w, fs), j)
      {
        StaysMatching(w, fs);
      }
    } else {
      var c :| c in w.contexts && w.db.briefs[c.brief].user != c.user;
      var fs, j := StoreAJob(w, c);
      assert !JobMatches(After(w, fs), j);
    }
  }

  lemma {:induction false} DoingKeeps(w: World, es: seq<Event>)
    requires Inv(w) && CanDo(w, es)
    ensures Inv(After(w, es))
    decreases |es|
  {
    if es != [] {
      StepKeeps(w, es[0]);
      DoingKeeps(Apply(w, es[0]), es[1..]);
    }
  }

  /** The last two steps of a delivery that nothing disturbs. */
  lemma FinishDelivery(w: World, user: Id, taskId: Id, brief: Id)
    requires w.txs == map[0 := Tx(user, Ingest(taskId), false, None, None, EMPTY.(users := {user}), map[], map[])]
    requires if HasTask(w.db.briefs, taskId) then brief in w.db.briefs && w.db.briefs[brief].taskId == taskId
             else !HasKey(w.db, brief)
    ensures var es := [InsertBrief(0, brief)] + ([Commit(0)] + []);
            && CanDo(w, es) && After(w, es).txs == map[]
            && Context(user, taskId, brief) in After(w, es).contexts
            && brief in After(w, es).db.briefs && After(w, es).db.briefs[brief].taskId == taskId
            && After(w, es).db.briefs[brief].user == if brief in w.db.briefs then w.db.briefs[brief].user else user
  {
    assert VisibleBriefs(w, 0) == w.db.briefs;
    assert w.txs.Keys == {0} && Unused(w, brief) == !HasKey(w.db, brief);
    var w' := Apply(w, InsertBrief(0, brief));
    assert w'.txs.Keys == {0};
    DoOne(w', Commit(0), []);
    DoOne(w, InsertBrief(0, brief), [Commit(0)] + []);
  }

  /** A delivery that nothing disturbs, of a task that has a brief or has none. */
  lemma Deliver(w: World, user: Id, taskId: Id) returns (es: seq<Event>, brief: Id)
    requires Inv(w) && w.txs == map[]
    ensures CanDo(w, es) && Inv(After(w, es)) && After(w, es).txs == map[]
    ensures Context(user, taskId, brief) in After(w, es).contexts
    ensures brief in After(w, es).db.briefs && After(w, es).db.briefs[brief].taskId == taskId
    ensures After(w, es).db.briefs[brief].user == if brief in w.db.briefs then w.db.briefs[brief].user else user
    ensures if HasTask(w.db.briefs, taskId) then brief in w.db.briefs && w.db.briefs[brief].taskId == taskId
            else brief !in w.db.briefs
  {
    if b :| b in w.db.briefs && w.db.briefs[b].taskId == taskId {
      brief := b;
    } else {
      brief := UnusedId(w.db.briefs.Keys + w.db.strategies.Keys + w.db.jobs.Keys);
    }
    var begin := Begin(0, user, Ingest(taskId));
    var w1 := Apply(w, begin);
    var w2 := Apply(w1, UpsertUser(0));
    assert EMPTY.users + {user} == {user};
    assert w2.txs == map[0 := Tx(user, Ingest(taskId), false, None, None, EMPTY.(users := {user}), map[], map[])];
    FinishDelivery(w2, user, taskId, brief);
    var finish := [InsertBrief(0, brief)] + ([Commit(0)] + []);
    DoOne(w1, UpsertUser(0), finish);
    DoOne(w, begin, [UpsertUser(0)] + finish);
    es := [begin] + ([UpsertUser(0)] + finish);
    DoingKeeps(w, es);
  }

  /** A task id delivered again under another account: the second user is given the first
      user's raw brief, and gets a job stored with it. */
  lemma ReplayUnderAnotherAccount(w: World, brief: Id, user: Id) returns (es: seq<Event>, j: Id)
    requires Inv(w) && w.txs == map[] && brief in w.db.briefs && w.db.briefs[brief].user != user
    ensures CanDo(w, es) && !JobMatches(After(w, es), j)
    ensures j in After(w, es).db.jobs && After(w, es).db.jobs[j].user == user && After(w, es).db.jobs[j].brief == brief
  {
    var taskId := w.db.briefs[brief].taskId;
    var ds, found := Deliver(w, user, taskId);
    assert HasTask(w.db.briefs, taskId) && found == brief;
    var js;
    js, j := StoreAJob(After(w, ds), Context(user, taskId, brief));
    DoBoth(w, ds, js);
    es := ds + js;
  }

  lemma RunGrows(ws: seq<World>, es: seq<Event>, e: Event)
    requires IsRun(ws, es) && Enabled(ws[|es|], e)
    ensures IsRun(ws + [Apply(ws[|es|], e)], es + [e])
  {
    var vs, fs := ws + [Apply(ws[|es|], e)], es + [e];
    forall i | 0 <= i < |fs| ensures Enabled(vs[i], fs[i]) && vs[i + 1] == Apply(vs[i], fs[i]) {
      if i < |es| {
        assert vs[i] == ws[i] && vs[i + 1] == ws[i + 1] && fs[i] == es[i];
      }
    }
  }

  /** What can be done is a run. */
  lemma {:induction false} ToRun(ws: seq<World>, es: seq<Event>, fs: seq<Event>) returns (vs: seq<World>)
    requires IsRun(ws, es) && CanDo(ws[|es|], fs)
    ensures IsRun(vs, es + fs) && vs[|es + fs|] == After(ws[|es|], fs)
    decreases |fs|
  {
    if fs == [] {
      assert es + fs == es;
      vs := ws;
    } else {
      RunGrows(ws, es, fs[0]);
      var longer, more := ws + [Apply(ws[|es|], fs[0])], es + [fs[0]];
      assert longer[|more|] == Apply(ws[|es|], fs[0]);
      vs := ToRun(longer, more, fs[1..]);
      assert more + fs[1..] == es + fs;
    }
  }

  /** This happens from the empty database, with two deliveries of one task. */
  lemma SomeJobMismatches() returns (ws: seq<World>, es: seq<Event>, j: Id)
    ensures IsRun(ws, es) && j in ws[|es|].db.jobs && !JobMatches(ws[|es|], j)
  {
    var ds, brief := Deliver(INITIAL, 1, 7);
    var js;
    js, j := ReplayUnderAnotherAccount(After(INITIAL, ds), brief, 2);
    DoBoth(INITIAL, ds, js);
    assert IsRun([INITIAL], []);
    ws := ToRun([INITIAL], [], ds + js);
    es := [] + (ds + js);
  }
}
