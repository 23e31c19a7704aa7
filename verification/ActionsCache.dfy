/**
 The in-memory cache of the action catalog: a time-to-live, one lock, and a check that is
 repeated under the lock. Any number of coroutines interleave at their awaits; the code
 between two awaits is atomic. The catalog changes underneath at any time.
 */
module ActionsCache {
  import opened Wrappers

  const TTL_SECONDS: real := 60.0

  datatype ActionRecord = ActionRecord(surface: string, mode: string, overlay: string, requiresPriorPost: bool, isEnabled: bool)

  type Catalog = map<string, ActionRecord>

  type Coroutine = int

  // ---- The module's globals ----

  datatype Shared = Shared(cache: Catalog, expiresAt: real, holder: Option<Coroutine>)

  predicate Fresh(sh: Shared, now: real) {
    sh.cache != map[] && now < sh.expiresAt
  }

  /** Taking the lock and, unless the refresh is forced, checking again: a fresh cache
      releases the lock at once. */
  function Acquired(sh: Shared, c: Coroutine, forced: bool, now: real): Shared {
    if !forced && Fresh(sh, now) then sh else sh.(holder := Some(c))
  }

  function Published(sh: Shared, rows: Catalog, now: real): Shared {
    sh.(cache := rows, expiresAt := now + TTL_SECONDS)
  }

  function Released(sh: Shared): Shared {
    sh.(holder := None)
  }

  function Invalidated(sh: Shared): Shared {
    sh.(cache := map[], expiresAt := 0.0)
  }

  const INITIAL: Shared := Shared(map[], 0.0, None)

  // ---- The transition system ----

  /** Where a coroutine stands. */
  datatype Pc =
    | Idle
    | Waiting(forced: bool)                  // at the lock
    | Reading(forced: bool)                  // holds the lock, read not yet answered
    | Fetched(forced: bool, rows: Catalog)   // rows read in the database, not yet resumed
    | Committing                             // published, session not yet closed

  predicate Critical(pc: Pc) {
    pc.Reading? || pc.Fetched? || pc.Committing?
  }

  datatype State = State(now: real, catalog: Catalog, shared: Shared, pcs: map<Coroutine, Pc>)

  function PcOf(w: State, c: Coroutine): Pc {
    if c in w.pcs then w.pcs[c] else Idle
  }

  datatype Event =
    | Tick(now: real)                // time passes
    | SetCatalog(catalog: Catalog)   // somebody edits the table
    | Invalidate
    | CheckFast(c: Coroutine)        // `_ensure_fresh` is entered
    | Force(c: Coroutine)            // `refresh` is entered
    | Acquire(c: Coroutine)          // the lock is obtained, and the check repeated
    | Select(c: Coroutine)           // the database takes its snapshot
    | Publish(c: Coroutine)          // the rows arrive
    | Finish(c: Coroutine)           // the session closes, or fails to, and the lock is released
    | Fail(c: Coroutine)             // a read fails or a coroutine is cancelled

  predicate Enabled(w: State, e: Event) {
    match e
    case Tick(t) => t >= w.now
    case SetCatalog(_) => true
    case Invalidate => true
    case CheckFast(c) => PcOf(w, c) == Idle
    case Force(c) => PcOf(w, c) == Idle
    case Acquire(c) => PcOf(w, c).Waiting? && w.shared.holder == None
    case Select(c) => PcOf(w, c).Reading?
    case Publish(c) => PcOf(w, c).Fetched?
    case Finish(c) => PcOf(w, c).Committing?
    case Fail(c) => PcOf(w, c).Waiting? || PcOf(w, c).Reading? || PcOf(w, c).Fetched?
  }

  function Apply(w: State, e: Event): State
    requires Enabled(w, e)
  {
    match e
    case Tick(t) => w.(now := t)
    case SetCatalog(catalog) => w.(catalog := catalog)
    case Invalidate => w.(shared := Invalidated(w.shared))
    case CheckFast(c) => if Fresh(w.shared, w.now) then w else w.(pcs := w.pcs[c := Waiting(false)])
    case Force(c) => w.(pcs := w.pcs[c := Waiting(true)])
    case Acquire(c) =>
      var forced := PcOf(w, c).forced;
      w.(shared := Acquired(w.shared, c, forced, w.now),
         pcs := w.pcs[c := if forced || !Fresh(w.shared, w.now) then Reading(forced) else Idle])
    case Select(c) => w.(pcs := w.pcs[c := Fetched(PcOf(w, c).forced, w.catalog)])
    case Publish(c) =>
      w.(shared := Published(w.shared, PcOf(w, c).rows, w.now), pcs := w.pcs[c := Committing])
    case Finish(c) => w.(shared := Released(w.shared), pcs := w.pcs[c := Idle])
    case Fail(c) =>
      w.(shared := if PcOf(w, c).Waiting? then w.shared else Released(w.shared), pcs := w.pcs[c := Idle])
  }

  /** A run: its states, and the event between each two of them. */
  ghost predicate IsRun(ws: seq<State>, es: seq<Event>) {
    && |ws| == |es| + 1
    && ws[0].shared == INITIAL && ws[0].pcs == map[]
    && forall i :: 0 <= i < |es| ==> Enabled(ws[i], es[i]) && ws[i + 1] == Apply(ws[i], es[i])
  }

  // ---- The lock ----

  ghost predicate LockInvariant(w: State) {
    forall c :: Critical(PcOf(w, c)) <==> w.shared.holder == Some(c)
  }

  lemma LockIsKept(w: State, e: Event)
    requires LockInvariant(w) && Enabled(w, e)
    ensures LockInvariant(Apply(w, e))
  {
    var v := Apply(w, e);
    forall c ensures Critical(PcOf(v, c)) <==> v.shared.holder == Some(c) {
      assert Critical(PcOf(w, c)) <==> w.shared.holder == Some(c);
    }
  }

  lemma {:induction false} LockHolds(ws: seq<State>, es: seq<Event>, i: nat)
    requires IsRun(ws, es) && i <= |es|
    ensures LockInvariant(ws[i])
  {
    if i > 0 {
      LockHolds(ws, es, i - 1);
      LockIsKept(ws[i - 1], es[i - 1]);
    }
  }

  /** The catalog is read and published by the holder of the lock only, and nobody else is
      between lock and release. */
  lemma RefreshOnlyUnderLock(ws: seq<State>, es: seq<Event>, i: nat, c: Coroutine, d: Coroutine)
    requires IsRun(ws, es) && i < |es|
    requires es[i] == Select(c) || es[i] == Publish(c)
    ensures ws[i].shared.holder == Some(c)
    ensures Critical(PcOf(ws[i], d)) ==> d == c
  {
    LockHolds(ws, es, i);
    assert Critical(PcOf(ws[i], c));
  }

  // ---- The code ----

  predicate By(e: Event, c: Coroutine) {
    !e.Tick? && !e.SetCatalog? && !e.Invalidate? && e.c == c
  }

  lemma RunGrows(ws: seq<State>, es: seq<Event>, e: Event)
    requires IsRun(ws, es) && Enabled(ws[|es|], e)
    ensures IsRun(ws + [Apply(ws[|es|], e)], es + [e])
  {
    var vs, fs := ws + [Apply(ws[|es|], e)], es + [e];
    forall i | 0 <= i < |fs| ensures Enabled(vs[i], fs[i]) && vs[i + 1] == Apply(vs[i], fs[i]) {
      if i < |es| {
        assert vs[i] == ws[i] && vs[i + 1] == ws[i + 1] && fs[i] == es[i];
      }
    }
  }

  /** What is in the cache at instant i was published, and was something, at event p, less
      than a minute ago, and nobody has replaced or dropped it since. */
  ghost predicate InForce(ws: seq<State>, es: seq<Event>, p: nat, i: nat) {
    && p < i <= |es| && |ws| == |es| + 1
    && es[p].Publish? && PcOf(ws[p], es[p].c).Fetched? && PcOf(ws[p], es[p].c).rows != map[]
    && ws[i].now < ws[p].now + 60.0
    && forall m :: p < m < i ==> !es[m].Publish? && es[m] != Invalidate
  }

  ghost predicate IsCurrent(ws: seq<State>, es: seq<Event>, i: nat) {
    exists p :: InForce(ws, es, p, i)
  }

  /** At one of these instants the cache was current, or coroutine c filled it. */
  ghost predicate SeenCurrent(ws: seq<State>, es: seq<Event>, from: nat, c: Coroutine) {
    exists i :: from <= i <= |es| && (IsCurrent(ws, es, i) || (i < |es| && es[i] == Publish(c)))
  }

  /** The record was published in this call, or less than a minute before an instant of it
      at which the cache still held it. */
  ghost predicate ServedFrom(ws: seq<State>, es: seq<Event>, from: nat, p: nat, code: string, record: ActionRecord) {
    && p < |es| && |ws| == |es| + 1 && es[p].Publish? && PcOf(ws[p], es[p].c).Fetched?
    && code in PcOf(ws[p], es[p].c).rows && PcOf(ws[p], es[p].c).rows[code] == record
    && (from <= p || exists i :: from <= i <= |es| && InForce(ws, es, p, i))
  }

  /** What the cache holds after the call is what was current during it. */
  lemma SeenIsServed(ws: seq<State>, es: seq<Event>, from: nat, c: Coroutine, code: string) returns (p: nat)
    requires IsRun(ws, es) && SeenCurrent(ws, es, from, c) && code in ws[|es|].shared.cache
    ensures ServedFrom(ws, es, from, p, code, ws[|es|].shared.cache[code])
  {
    p := FilledBefore(ws, es, |es|);
    if p < from {
      var i :| from <= i <= |es| && (IsCurrent(ws, es, i) || (i < |es| && es[i] == Publish(c)));
      assert IsCurrent(ws, es, i);
      var q :| InForce(ws, es, q, i);
      assert q == p;
    }
  }

  /** The last event before instant i that gave the cache its contents. */
  ghost predicate LastFilled(ws: seq<State>, es: seq<Event>, p: int, i: nat)
    requires |ws| == |es| + 1 && i <= |es|
  {
    && 0 <= p < i && es[p].Publish? && PcOf(ws[p], es[p].c).Fetched?
    && ws[i].shared.cache == PcOf(ws[p], es[p].c).rows
    && ws[i].shared.expiresAt == ws[p].now + TTL_SECONDS
    && forall m :: p < m < i ==> !es[m].Publish? && es[m] != Invalidate
  }

  lemma {:induction false} FilledBefore(ws: seq<State>, es: seq<Event>, i: nat) returns (p: int)
    requires IsRun(ws, es) && i <= |es| && ws[i].shared.cache != map[]
    ensures LastFilled(ws, es, p, i)
  {
    assert Enabled(ws[i - 1], es[i - 1]) && ws[i] == Apply(ws[i - 1], es[i - 1]);
    if es[i - 1].Publish? {
      p := i - 1;
    } else {
      p := FilledBefore(ws, es, i - 1);
    }
  }

  lemma {:induction false} FilledSince(ws: seq<State>, es: seq<Event>, p: nat, i: nat)
    requires IsRun(ws, es) && p < i <= |es| && es[p].Publish?
    requires forall m :: p < m < i ==> !es[m].Publish? && es[m] != Invalidate
    ensures LastFilled(ws, es, p, i)
  {
    assert Enabled(ws[i - 1], es[i - 1]) && ws[i] == Apply(ws[i - 1], es[i - 1]);
    if p < i - 1 {
      FilledSince(ws, es, p, i - 1);
    }
  }

  /** The test of the code says exactly that the cache is current. */
  lemma FreshMeansCurrent(ws: seq<State>, es: seq<Event>, i: nat)
    requires IsRun(ws, es) && i <= |es|
    ensures Fresh(ws[i].shared, ws[i].now) <==> IsCurrent(ws, es, i)
  {
    if ws[i].shared.cache != map[] {
      var p := FilledBefore(ws, es, i);
      assert Fresh(ws[i].shared, ws[i].now) ==> InForce(ws, es, p, i);
    }
    if IsCurrent(ws, es, i) {
      var p :| InForce(ws, es, p, i);
      FilledSince(ws, es, p, i);
    }
  }

  /** Whoever enters is sent to the lock if and only if the cache is not current, and whoever
      obtains the lock reads if and only if the refresh is forced or it still is not. */
  lemma ReadsIffNotCurrent(ws: seq<State>, es: seq<Event>, k: nat, c: Coroutine)
    requires IsRun(ws, es) && k < |es|
    ensures es[k] == CheckFast(c) ==> (PcOf(ws[k + 1], c) == Waiting(false) <==> !IsCurrent(ws, es, k))
    ensures es[k] == Acquire(c) ==> PcOf(ws[k], c).Waiting?
    ensures es[k] == Acquire(c) ==>
              (PcOf(ws[k + 1], c) == Reading(PcOf(ws[k], c).forced) <==> PcOf(ws[k], c).forced || !IsCurrent(ws, es, k))
    ensures es[k] == Acquire(c) && PcOf(ws[k + 1], c) != Reading(PcOf(ws[k], c).forced) ==>
              PcOf(ws[k + 1], c) == Idle && ws[k + 1].shared == ws[k].shared
  {
    assert Enabled(ws[k], es[k]) && ws[k + 1] == Apply(ws[k], es[k]);
    FreshMeansCurrent(ws, es, k);
  }

  ghost predicate Filled(es: seq<Event>, from: nat, c: Coroutine) {
    exists i :: from <= i < |es| && es[i] == Publish(c)
  }

  /** The globals of the module, the world around them, and in the ghost fields the run up
      to now. A method for a stretch of code between two awaits is one event of the run. */
  class Cache {
    var cache: Catalog
    var expiresAt: real
    var holder: Option<Coroutine>
    var now: real
    var catalog: Catalog
    var pcs: map<Coroutine, Pc>
    ghost var states: seq<State>
    ghost var events: seq<Event>

    function Value(): Shared
      reads this
    {
      Shared(cache, expiresAt, holder)
    }

    function World(): State
      reads this
    {
      State(now, catalog, Value(), pcs)
    }

    ghost predicate Valid()
      reads this
    {
      IsRun(states, events) && states[|events|] == World()
    }

    ghost predicate Recorded(states: seq<State>, events: seq<Event>, e: Event)
      reads this
    {
      this.states == states + [World()] && this.events == events + [e]
    }

    constructor (now: real, catalog: Catalog)
      ensures Valid() && events == [] && World() == State(now, catalog, INITIAL, map[])
    {
      this.now, this.catalog, pcs := now, catalog, map[];
      cache, expiresAt, holder := map[], 0.0, None;
      states, events := [State(now, catalog, INITIAL, map[])], [];
    }

    /** `_ensure_fresh` up to the lock; true if the caller is served from the cache. */
    method CheckUnlocked(c: Coroutine) returns (served: bool)
      requires Valid() && PcOf(World(), c) == Idle
      modifies this
      ensures Valid() && World() == Apply(old(World()), CheckFast(c)) && Recorded(old(states), old(events), CheckFast(c))
      ensures served <==> IsCurrent(states, events, |old(events)|)
      ensures PcOf(World(), c) == if served then Idle else Waiting(false)
    {
      RunGrows(states, events, CheckFast(c));
      served := cache != map[] && now < expiresAt;
      if !served {
        pcs := pcs[c := Waiting(false)];
      }
      states, events := states + [World()], events + [CheckFast(c)];
      FreshMeansCurrent(states, events, |old(events)|);
    }

    /** `refresh` up to the lock. */
    method EnterRefresh(c: Coroutine)
      requires Valid() && PcOf(World(), c) == Idle
      modifies this
      ensures Valid() && World() == Apply(old(World()), Force(c)) && Recorded(old(states), old(events), Force(c))
    {
      RunGrows(states, events, Force(c));
      pcs := pcs[c := Waiting(true)];
      states, events := states + [World()], events + [Force(c)];
    }

    /** From the moment the lock is obtained to the database read, or to the return. */
    method LockAndRecheck(c: Coroutine) returns (mustRead: bool)
      requires Valid() && PcOf(World(), c).Waiting? && holder == None
      modifies this
      ensures Valid() && World() == Apply(old(World()), Acquire(c)) && Recorded(old(states), old(events), Acquire(c))
      ensures mustRead <==> PcOf(old(World()), c).forced || !IsCurrent(states, events, |old(events)|)
      ensures PcOf(World(), c) == if mustRead then Reading(PcOf(old(World()), c).forced) else Idle
    {
      RunGrows(states, events, Acquire(c));
      var forced := pcs[c].forced;
      holder := Some(c);
      mustRead := true;
      if !forced && cache != map[] && now < expiresAt {
        holder := None;
        mustRead := false;
      }
      pcs := pcs[c := if mustRead then Reading(forced) else Idle];
      states, events := states + [World()], events + [Acquire(c)];
      FreshMeansCurrent(states, events, |old(events)|);
    }

    /** The database answers the query. */
    method TakeSnapshot(c: Coroutine)
      requires Valid() && PcOf(World(), c).Reading?
      modifies this
      ensures Valid() && World() == Apply(old(World()), Select(c)) && Recorded(old(states), old(events), Select(c))
    {
      RunGrows(states, events, Select(c));
      pcs := pcs[c := Fetched(pcs[c].forced, catalog)];
      states, events := states + [World()], events + [Select(c)];
    }

    /** From the arrival of the rows to the end of the session. */
    method PublishRows(c: Coroutine)
      requires Valid() && PcOf(World(), c).Fetched?
      modifies this
      ensures Valid() && World() == Apply(old(World()), Publish(c)) && Recorded(old(states), old(events), Publish(c))
    {
      RunGrows(states, events, Publish(c));
      cache := pcs[c].rows;
      expiresAt := now + TTL_SECONDS;
      pcs := pcs[c := Committing];
      states, events := states + [World()], events + [Publish(c)];
    }

    method Release(c: Coroutine)
      requires Valid() && PcOf(World(), c) == Committing
      modifies this
      ensures Valid() && World() == Apply(old(World()), Finish(c)) && Recorded(old(states), old(events), Finish(c))
    {
      RunGrows(states, events, Finish(c));
      holder := None;
      pcs := pcs[c := Idle];
      states, events := states + [World()], events + [Finish(c)];
    }

    /** A cancelled wait or a failed read: the lock is released if it is held. */
    method GiveUp(c: Coroutine)
      requires Valid() && (PcOf(World(), c).Waiting? || PcOf(World(), c).Reading? || PcOf(World(), c).Fetched?)
      modifies this
      ensures Valid() && World() == Apply(old(World()), Fail(c)) && Recorded(old(states), old(events), Fail(c))
    {
      RunGrows(states, events, Fail(c));
      if !pcs[c].Waiting? {
        holder := None;
      }
      pcs := pcs[c := Idle];
      states, events := states + [World()], events + [Fail(c)];
    }

    /** `invalidate`. */
    method Drop()
      requires Valid()
      modifies this
      ensures Valid() && World() == Apply(old(World()), Invalidate) && Recorded(old(states), old(events), Invalidate)
    {
      RunGrows(states, events, Invalidate);
      cache := map[];
      expiresAt := 0.0;
      states, events := states + [World()], events + [Invalidate];
    }

    /** An await of coroutine c: time passes, and everybody else may run. */
    method Interfere(c: Coroutine)
      requires Valid()
      modifies this
      ensures Valid() && old(events) <= events && PcOf(World(), c) == old(PcOf(World(), c))
    {
      var n: int := *;
      while n > 0
        invariant Valid() && old(events) <= events && PcOf(World(), c) == old(PcOf(World(), c))
      {
        var e: Event := *;
        if Enabled(World(), e) && !By(e, c) {
          RunGrows(states, events, e);
          var v := Apply(World(), e);
          now, catalog, pcs := v.now, v.catalog, v.pcs;
          cache, expiresAt, holder := v.shared.cache, v.shared.expiresAt, v.shared.holder;
          states, events := states + [v], events + [e];
        }
        n := n - 1;
      }
    }

    /** The query of `_refresh_locked`; false if it fails. */
    method Query(c: Coroutine) returns (ok: bool)
      requires Valid() && PcOf(World(), c).Reading?
      modifies this
      ensures Valid() && old(events) <= events
      ensures if ok then PcOf(World(), c).Fetched? else PcOf(World(), c) == Idle
    {
      Interfere(c);
      ok := *;
      if !ok {
        GiveUp(c);
        return;
      }
      TakeSnapshot(c);
    }

    /** `_refresh_locked` to the release of the lock; false if the read or the session fails. */
    method RefreshLocked(c: Coroutine) returns (ok: bool)
      requires Valid() && PcOf(World(), c).Reading?
      modifies this
      ensures Valid() && old(events) <= events && PcOf(World(), c) == Idle
      ensures ok ==> Filled(events, |old(events)|, c)
    {
      ok := Query(c);
      if ok {
        Interfere(c);
        ok := *;
        if !ok {
          GiveUp(c);
          return;
        }
        ok := Store(c);
      }
    }

    /** The rows are stored, and the session is closed, which may fail. */
    method Store(c: Coroutine) returns (ok: bool)
      requires Valid() && PcOf(World(), c).Fetched?
      modifies this
      ensures Valid() && old(events) <= events && PcOf(World(), c) == Idle && Filled(events, |old(events)|, c)
    {
      PublishRows(c);
      assert events[|old(events)|] == Publish(c);
      Interfere(c);
      Release(c);
      ok := *;
      assert events[|old(events)|] == Publish(c);
    }

    /** `_ensure_fresh`: when it returns, the cache was current at some instant of the call,
        or the caller has filled it. False stands for an exception. */
    method EnsureFresh(c: Coroutine) returns (ok: bool)
      requires Valid() && PcOf(World(), c) == Idle
      modifies this
      ensures Valid() && old(events) <= events && PcOf(World(), c) == Idle
      ensures ok ==> SeenCurrent(states, events, |old(events)|, c)
    {
      var served := CheckUnlocked(c);
      if served {
        return true;
      }
      Interfere(c);
      if holder != None {
        GiveUp(c);
        return false;
      }
      ghost var at := |events|;
      var mustRead := LockAndRecheck(c);
      if !mustRead {
        assert |old(events)| <= at && IsCurrent(states, events, at);
        return true;
      }
      ok := RefreshLocked(c);
      if ok {
        ghost var i :| at <= i < |events| && events[i] == Publish(c);
        assert |old(events)| <= i;
      }
    }

    /** `refresh`: when it returns, the caller has filled the cache. */
    method Refresh(c: Coroutine) returns (ok: bool)
      requires Valid() && PcOf(World(), c) == Idle
      modifies this
      ensures Valid() && old(events) <= events && PcOf(World(), c) == Idle
      ensures ok ==> Filled(events, |old(events)|, c)
    {
      EnterRefresh(c);
      Interfere(c);
      if holder != None {
        GiveUp(c);
        return false;
      }
      var _ := LockAndRecheck(c);
      ok := RefreshLocked(c);
    }

    /** `get`: a record that it returns is current in the sense of the cache, and was in the
        catalog at some instant of the run. */
    method Get(c: Coroutine, code: string) returns (ok: bool, record: Option<ActionRecord>)
      requires Valid() && PcOf(World(), c) == Idle
      modifies this
      ensures Valid() && old(events) <= events && PcOf(World(), c) == Idle
      ensures ok ==> SeenCurrent(states, events, |old(events)|, c)
      ensures ok ==> record == if code in cache then Some(cache[code]) else None
      ensures record.Some? ==> exists p :: ServedFrom(states, events, |old(events)|, p, code, record.value)
      ensures record.Some? ==>
                exists j :: 0 <= j < |states| && code in states[j].catalog && states[j].catalog[code] == record.value
    {
      record := None;
      ok := EnsureFresh(c);
      if ok && code in cache {
        record := Some(cache[code]);
        CacheIsASnapshot(states, events, |events|);
        ghost var p := SeenIsServed(states, events, |old(events)|, c, code);
      }
    }
  }

  // ---- What the cache holds ----

  /** `catalog` was the catalog at some instant of the run between `from` and `upto`, and
      no later than time `latest`. */
  ghost predicate WasCatalog(ws: seq<State>, from: nat, upto: nat, catalog: Catalog, latest: real) {
    exists j :: from <= j <= upto < |ws| && ws[j].catalog == catalog && ws[j].now <= latest
  }

  ghost predicate Traceable(ws: seq<State>, from: nat, i: nat)
    requires i < |ws|
  {
    && (ws[i].shared.cache != map[] ==>
          WasCatalog(ws, from, i, ws[i].shared.cache, ws[i].shared.expiresAt - TTL_SECONDS))
    && (forall c :: PcOf(ws[i], c).Fetched? ==> WasCatalog(ws, from, i, PcOf(ws[i], c).rows, ws[i].now))
  }

  lemma LaterStillTraceable(ws: seq<State>, from: nat, i: nat, catalog: Catalog, latest: real, later: real)
    requires WasCatalog(ws, from, i, catalog, latest) && i + 1 < |ws| && latest <= later
    ensures WasCatalog(ws, from, i + 1, catalog, later)
  {
    var j :| from <= j <= i < |ws| && ws[j].catalog == catalog && ws[j].now <= latest;
    assert from <= j <= i + 1;
  }

  lemma TraceableStep(ws: seq<State>, es: seq<Event>, from: nat, i: nat)
    requires IsRun(ws, es) && from <= i < |es| && Traceable(ws, from, i)
    ensures Traceable(ws, from, i + 1)
  {
    var w, v, e := ws[i], ws[i + 1], es[i];
    assert v == Apply(w, e) && w.now <= v.now;
    forall c | PcOf(v, c).Fetched? ensures WasCatalog(ws, from, i + 1, PcOf(v, c).rows, v.now) {
      if e == Select(c) {
        assert ws[i + 1].catalog == PcOf(v, c).rows;
      } else {
        assert PcOf(w, c) == PcOf(v, c);
        LaterStillTraceable(ws, from, i, PcOf(v, c).rows, w.now, v.now);
      }
    }
    if v.shared.cache != map[] {
      if e.Publish? {
        LaterStillTraceable(ws, from, i, PcOf(w, e.c).rows, w.now, w.now);
      } else {
        LaterStillTraceable(ws, from, i, w.shared.cache, w.shared.expiresAt - TTL_SECONDS, w.shared.expiresAt - TTL_SECONDS);
      }
    }
  }

  lemma {:induction false} StaysTraceable(ws: seq<State>, es: seq<Event>, from: nat, i: nat)
    requires IsRun(ws, es) && from <= i <= |es| && Traceable(ws, from, from)
    ensures Traceable(ws, from, i)
  {
    if from < i {
      StaysTraceable(ws, es, from, i - 1);
      TraceableStep(ws, es, from, i - 1);
    }
  }

  /** A cache that is not empty is the catalog as it was at one instant of the run, a full
      time-to-live before the cache expires or earlier. */
  lemma CacheIsASnapshot(ws: seq<State>, es: seq<Event>, i: nat)
    requires IsRun(ws, es) && i <= |es| && ws[i].shared.cache != map[]
    ensures exists j :: 0 <= j <= i && ws[j].catalog == ws[i].shared.cache
                        && ws[j].now <= ws[i].shared.expiresAt - TTL_SECONDS
  {
    StaysTraceable(ws, es, 0, i);
  }

  /** Nobody holds rows that differ from the catalog of this instant. */
  ghost predicate NoStaleRead(w: State) {
    forall c :: PcOf(w, c).Fetched? && PcOf(w, c).rows != map[] ==> PcOf(w, c).rows == w.catalog
  }

  /** After the invalidation at event m, the cache holds at instant i what the catalog has
      not been since. */
  ghost predicate Outdated(ws: seq<State>, m: nat, i: nat) {
    m < i < |ws| && ws[i].shared.cache != map[] && forall j :: m < j <= i ==> ws[j].catalog != ws[i].shared.cache
  }

  ghost predicate TraceableSince(ws: seq<State>, m: nat, i: nat)
    requires m < i < |ws|
  {
    && (ws[i].shared.cache != map[] ==> SeenSince(ws, m, i, ws[i].shared.cache))
    && (forall c :: PcOf(ws[i], c).Fetched? && PcOf(ws[i], c).rows != map[] ==> SeenSince(ws, m, i, PcOf(ws[i], c).rows))
  }

  ghost predicate SeenSince(ws: seq<State>, m: nat, i: nat, catalog: Catalog) {
    exists j :: m < j <= i < |ws| && ws[j].catalog == catalog
  }

  lemma StillSeen(ws: seq<State>, m: nat, i: nat, catalog: Catalog)
    requires SeenSince(ws, m, i, catalog) && i + 1 < |ws|
    ensures SeenSince(ws, m, i + 1, catalog)
  {
    var j :| m < j <= i && ws[j].catalog == catalog;
    assert j <= i + 1;
  }

  lemma {:induction false} TraceableAfter(ws: seq<State>, es: seq<Event>, m: nat, i: nat)
    requires IsRun(ws, es) && m < i <= |es| && TraceableSince(ws, m, m + 1)
    ensures TraceableSince(ws, m, i)
  {
    if m + 1 < i {
      TraceableAfter(ws, es, m, i - 1);
      var w, v, e := ws[i - 1], ws[i], es[i - 1];
      assert v == Apply(w, e);
      forall c | PcOf(v, c).Fetched? && PcOf(v, c).rows != map[] ensures SeenSince(ws, m, i, PcOf(v, c).rows) {
        if e == Select(c) {
          assert ws[i].catalog == PcOf(v, c).rows;
        } else {
          assert PcOf(w, c) == PcOf(v, c);
          StillSeen(ws, m, i - 1, PcOf(v, c).rows);
        }
      }
      if v.shared.cache != map[] {
        StillSeen(ws, m, i - 1, v.shared.cache);
      }
    }
  }

  /** If nobody holds outdated rows when the cache is invalidated, whatever it holds later
      was the catalog at an instant after the invalidation. */
  lemma InvalidationHolds(ws: seq<State>, es: seq<Event>, m: nat, i: nat)
    requires IsRun(ws, es) && m < i <= |es| && es[m] == Invalidate && NoStaleRead(ws[m])
    ensures !Outdated(ws, m, i)
  {
    var w, v := ws[m], ws[m + 1];
    assert v == Apply(w, es[m]);
    forall c | PcOf(v, c).Fetched? && PcOf(v, c).rows != map[] ensures SeenSince(ws, m, m + 1, PcOf(v, c).rows) {
      assert PcOf(v, c) == PcOf(w, c);
      assert ws[m + 1].catalog == PcOf(v, c).rows;
    }
    TraceableAfter(ws, es, m, i);
  }

  /** The condition is exact: after an invalidation, the run can go on to an outdated cache
      if and only if somebody holds outdated rows. */
  lemma InvalidationHoldsIff(ws: seq<State>, es: seq<Event>, m: nat)
    requires IsRun(ws, es) && |es| == m + 1 && es[m] == Invalidate
    ensures NoStaleRead(ws[m]) <==> forall vs, fs, i: nat :: IsRun(vs, fs) && ws <= vs && es <= fs ==> !Outdated(vs, m, i)
  {
    if NoStaleRead(ws[m]) {
      forall vs, fs, i: nat | IsRun(vs, fs) && ws <= vs && es <= fs ensures !Outdated(vs, m, i) {
        assert vs[m] == ws[m] && fs[m] == es[m];
        if m < i < |vs| {
          InvalidationHolds(vs, fs, m, i);
        }
      }
    } else {
      var c :| PcOf(ws[m], c).Fetched? && PcOf(ws[m], c).rows != map[] && PcOf(ws[m], c).rows != ws[m].catalog;
      assert ws[m + 1] == Apply(ws[m], Invalidate);
      RunGrows(ws, es, Publish(c));
      var vs, fs := ws + [Apply(ws[m + 1], Publish(c))], es + [Publish(c)];
      assert vs[m + 2].shared.cache == PcOf(ws[m], c).rows;
      assert vs[m + 1] == ws[m + 1];
      assert Outdated(vs, m, m + 2);
      assert ws <= vs && es <= fs;
    }
  }

  /** One such run: the rows are read, the table is edited, the cache is invalidated, and
      then the old rows arrive. */
  lemma InvalidationMayBeUndone(stale: Catalog, edited: Catalog) returns (ws: seq<State>, es: seq<Event>)
    requires stale != map[] && stale != edited
    ensures IsRun(ws, es) && |es| == 6 && es[4] == Invalidate && Outdated(ws, 4, 6)
    ensures ws[6].shared.cache == stale && ws[6].catalog == edited
  {
    es := [CheckFast(1), Acquire(1), Select(1), SetCatalog(edited), Invalidate, Publish(1)];
    var w0 := State(0.0, stale, INITIAL, map[]);
    var w1 := Apply(w0, es[0]);
    var w2 := Apply(w1, es[1]);
    var w3 := Apply(w2, es[2]);
    var w4 := Apply(w3, es[3]);
    var w5 := Apply(w4, es[4]);
    ws := [w0, w1, w2, w3, w4, w5, Apply(w5, es[5])];
  }

  // ---- No stampede ----

  /** Something that makes an early second read legitimate, at one of the events from..k. */
  ghost predicate Excused(ws: seq<State>, es: seq<Event>, p: nat, k: nat)
    requires IsRun(ws, es)
  {
    exists m :: p <= m < k <= |es| && (es[m] == Invalidate || (es[m].Publish? && ws[m + 1].shared.cache == map[]))
  }

  lemma {:induction false} FreshUntilExpiry(ws: seq<State>, es: seq<Event>, p: nat, i: nat)
    requires IsRun(ws, es) && p < i <= |es| && es[p].Publish?
    ensures Excused(ws, es, p, i)
            || (ws[i].shared.cache != map[] && ws[i].shared.expiresAt >= ws[p].now + TTL_SECONDS && ws[i].now >= ws[p].now)
  {
    if p + 1 < i {
      FreshUntilExpiry(ws, es, p, i - 1);
      if Excused(ws, es, p, i - 1) {
        var m :| p <= m < i - 1 && (es[m] == Invalidate || (es[m].Publish? && ws[m + 1].shared.cache == map[]));
        assert p <= m < i;
      }
    }
  }

  /** The last time a reading coroutine obtained the lock: nobody published since. */
  lemma {:induction false} AcquiredBefore(ws: seq<State>, es: seq<Event>, i: nat, c: Coroutine) returns (a: nat)
    requires IsRun(ws, es) && i <= |es| && PcOf(ws[i], c).Reading?
    ensures a < i && es[a] == Acquire(c) && PcOf(ws[a], c) == Waiting(PcOf(ws[i], c).forced)
    ensures PcOf(ws[i], c).forced || !Fresh(ws[a].shared, ws[a].now)
    ensures ws[a].now <= ws[i].now
    ensures forall q :: a <= q < i ==> !es[q].Publish?
  {
    LockHolds(ws, es, i - 1);
    if PcOf(ws[i - 1], c).Reading? {
      a := AcquiredBefore(ws, es, i - 1, c);
      assert Critical(PcOf(ws[i - 1], c));
      assert es[i - 1].Publish? ==> Critical(PcOf(ws[i - 1], es[i - 1].c));
    } else {
      a := i - 1;
    }
  }

  /** No stampede: once a refresh has published at event p, a later unforced database read
      at event k comes a full time-to-live after it, unless the cache was invalidated or an
      empty catalog was published in between. */
  lemma NoStampede(ws: seq<State>, es: seq<Event>, p: nat, k: nat, c: Coroutine)
    requires IsRun(ws, es) && p < k < |es|
    requires es[p].Publish? && es[k] == Select(c) && PcOf(ws[k], c) == Reading(false)
    ensures ws[k].now >= ws[p].now + TTL_SECONDS || Excused(ws, es, p, k)
  {
    var a := AcquiredBefore(ws, es, k, c);
    assert p < a;
    FreshUntilExpiry(ws, es, p, a);
    if Excused(ws, es, p, a) {
      var m :| p <= m < a && (es[m] == Invalidate || (es[m].Publish? && ws[m + 1].shared.cache == map[]));
      assert p <= m < k;
    }
  }
}
