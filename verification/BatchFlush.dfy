/** What the flush of a failure batch does to the database: one statement and, when it
    gave no answer, a fallback statement per job. */
module BatchFlush {
  import opened JobTable

  /** What the worker sees of a statement: applied and acknowledged, applied with the
      answer lost, or refused. */
  datatype Outcome = Acknowledged | AnswerLost | Refused

  predicate Applied(o: Outcome) { !o.Refused? }

  datatype Failure = Failure(job: JobId, named: bool, runAt: int)

  function FailAll(db: Db, batch: seq<Failure>, w: string): Db {
    if batch == [] then db
    else
      var last := batch[|batch| - 1];
      Fail(FailAll(db, batch[..|batch| - 1], w), last.job, w, last.runAt)
  }

  ghost predicate InBatch(batch: seq<Failure>, j: JobId) { exists i :: 0 <= i < |batch| && batch[i].job == j }

  /** The requests whose persistence was acknowledged and that name a queue. */
  function Released(batch: seq<Failure>, persisted: seq<bool>): set<nat>
    requires |persisted| == |batch|
  {
    set i: nat | i < |batch| && persisted[i] && batch[i].named
  }

  /** Failing jobs by `w` lets go only of jobs that `w` holds and the batch lists. */
  ghost predicate LetsGo(db: Db, db': Db, batch: seq<Failure>, w: string) {
    && Valid(db')
    && (forall v, k :: Owned(db, v, k) && !(v == w && InBatch(batch, k)) ==> Owned(db', v, k))
    && (forall v, k :: LockedBy(db', v, k) ==> LockedBy(db, v, k))
  }

  lemma {:induction false} FailAllExact(db: Db, batch: seq<Failure>, w: string)
    ensures Valid(db) ==> LetsGo(db, FailAll(db, batch, w), batch, w)
    ensures forall v, k :: LockedBy(FailAll(db, batch, w), v, k) <==>
              LockedBy(db, v, k) && !(v == w && InBatch(batch, k))
  {
    if batch != [] {
      var n := |batch| - 1;
      var front := batch[..n];
      FailAllExact(db, front, w);
      FailReleases(FailAll(db, front, w), batch[n].job, w, batch[n].runAt);
      if Valid(db) { FailExact(FailAll(db, front, w), batch[n].job, w, batch[n].runAt); }
      forall k ensures InBatch(batch, k) <==> InBatch(front, k) || k == batch[n].job {
        if InBatch(batch, k) {
          var i :| 0 <= i < |batch| && batch[i].job == k;
          assert i < n ==> front[i].job == k;
        }
        if InBatch(front, k) {
          var i :| 0 <= i < |front| && front[i].job == k;
          assert batch[i].job == k;
        }
        assert batch[n].job == k ==> InBatch(batch, k);
      }
    }
  }

  // ---------------------------------------------------------------- the fallback

  /** Everybody keeps the jobs and the named queues they have. */
  ghost predicate TakesNothing(db: Db, db': Db) {
    && (forall v, k :: LockedBy(db, v, k) ==> LockedBy(db', v, k))
    && (forall v, k :: Owned(db, v, k) ==> Owned(db', v, k))
  }

  /** What a single failure statement does to whatever database it finds: nothing, and it
      takes nothing from anybody, if and only if the worker does not hold the job then. */
  lemma FallbackHarmlessExactly(found: Db, j: JobId, w: string, runAt: int)
    ensures Fail(found, j, w, runAt) == found <==> !LockedBy(found, w, j)
    ensures TakesNothing(found, Fail(found, j, w, runAt)) <==> !LockedBy(found, w, j)
  {
    if LockedBy(found, w, j) {
      FailReleases(found, j, w, runAt);
      assert !LockedBy(Fail(found, j, w, runAt), w, j);
    } else {
      FailUnheld(found, j, w, runAt);
    }
  }

  /** Failing a job that the worker no longer holds changes nothing. */
  lemma FailUnheld(db: Db, j: JobId, w: string, runAt: int)
    requires !LockedBy(db, w, j)
    ensures Fail(db, j, w, runAt) == db
  {
    assert HeldAmong(db, {j}, w) == {};
    assert QueuesOf(db, {}) == {};
    assert Freed(db, {}, w) == {};
    assert Fail(db, j, w, runAt).jobs == db.jobs;
    assert Fail(db, j, w, runAt).queues == db.queues;
  }

  /** The failing case: the batch took effect, the same worker claimed the job again before
      its fallback, and the fallback unlocks the claimed job and opens its named queue. */
  lemma FallbackUnlocksReclaimed(db: Db, j: JobId, w: string, runAt: int, r: Request, claimed: set<JobId>, found: Db,
                                 again: int)
    requires LockedBy(db, w, j)
    requires ClaimStep(Fail(db, j, w, runAt), r, claimed, found) && r.worker == w && j in claimed
    ensures Owned(found, w, j)
    ensures var after := Fail(found, j, w, again);
            && j in after.jobs && after.jobs[j].lock.None?
            && (after.jobs[j].queue.Some? ==>
                  after.jobs[j].queue.value in after.queues && after.queues[after.jobs[j].queue.value].None?)
  {
    ClaimStepClaimable(Fail(db, j, w, runAt), r, claimed, found);
    ClaimRows(Fail(db, j, w, runAt), claimed, Lock(r.worker, r.now));
    FailFrees(found, j, w, again);
  }

  /** The database after `n` single statements. */
  function Ran(start: Db, batch: seq<Failure>, w: string, world: World, single: seq<Outcome>, n: nat): Db
    requires n <= |batch| == |single|
  {
    if n == 0 then start
    else
      var found := world(n - 1, Ran(start, batch, w, world, single, n - 1));
      if Applied(single[n - 1]) then Fail(found, batch[n - 1].job, w, batch[n - 1].runAt) else found
  }

  /** The same without any single statement. */
  function Undisturbed(start: Db, world: World, n: nat): Db {
    if n == 0 then start else world(n - 1, Undisturbed(start, world, n - 1))
  }

  /** The n-th single statement finds its job held by the worker. */
  ghost predicate FindsHeld(start: Db, batch: seq<Failure>, w: string, world: World, single: seq<Outcome>, n: nat)
    requires n < |batch| == |single|
  {
    LockedBy(world(n, Ran(start, batch, w, world, single, n)), w, batch[n].job)
  }

  /** Whatever runs in between, the fallback leaves no trace as long as no statement that
      takes effect finds its job held. */
  lemma {:induction false} FallbackLeavesNoTrace(start: Db, batch: seq<Failure>, w: string, world: World,
                                                 single: seq<Outcome>, n: nat)
    requires n <= |batch| == |single|
    requires forall i :: 0 <= i < n && Applied(single[i]) ==> !FindsHeld(start, batch, w, world, single, i)
    ensures Ran(start, batch, w, world, single, n) == Undisturbed(start, world, n)
  {
    if n > 0 {
      FallbackLeavesNoTrace(start, batch, w, world, single, n - 1);
      if Applied(single[n - 1]) {
        assert !FindsHeld(start, batch, w, world, single, n - 1);
        FailUnheld(world(n - 1, Ran(start, batch, w, world, single, n - 1)), batch[n - 1].job, w, batch[n - 1].runAt);
      }
    }
  }

  lemma {:induction false} RanValid(start: Db, batch: seq<Failure>, w: string, world: World, single: seq<Outcome>,
                                    n: nat)
    requires Valid(start) && Possible(world) && n <= |batch| == |single|
    ensures Valid(Ran(start, batch, w, world, single, n))
  {
    if n > 0 {
      RanValid(start, batch, w, world, single, n - 1);
      var before := Ran(start, batch, w, world, single, n - 1);
      assert Evolves(before, world(n - 1, before));
      EvolvesKeeps(before, world(n - 1, before));
      FailExact(world(n - 1, before), batch[n - 1].job, w, batch[n - 1].runAt);
    }
  }

  /** What the batch statement leaves. */
  function Start(db: Db, batch: seq<Failure>, w: string, whole: Outcome): Db {
    if Applied(whole) then FailAll(db, batch, w) else db
  }

  /** Each acknowledged single statement leaves its job unlocked. */
  ghost predicate Unlocks(start: Db, batch: seq<Failure>, w: string, world: World, single: seq<Outcome>, n: nat)
    requires n <= |batch| == |single|
  {
    forall i :: 0 <= i < n && single[i].Acknowledged? ==>
      !LockedBy(Ran(start, batch, w, world, single, i + 1), w, batch[i].job)
  }

  lemma AllUnlock(start: Db, batch: seq<Failure>, w: string, world: World, single: seq<Outcome>)
    requires |batch| == |single|
    ensures Unlocks(start, batch, w, world, single, |batch|)
  {
    forall i | 0 <= i < |batch| && single[i].Acknowledged?
      ensures !LockedBy(Ran(start, batch, w, world, single, i + 1), w, batch[i].job)
    {
      FailReleases(world(i, Ran(start, batch, w, world, single, i)), batch[i].job, w, batch[i].runAt);
    }
  }

  /** Which failures count as persisted: their batch or their own statement was acknowledged. */
  function Persisted(whole: Outcome, single: seq<Outcome>): seq<bool> {
    seq(|single|, i requires 0 <= i < |single| => whole.Acknowledged? || single[i].Acknowledged?)
  }

  /** The fallback, one statement per job with anything in between. */
  method RunFallback(start: Db, batch: seq<Failure>, w: string, single: seq<Outcome>, world: World)
    returns (db': Db, persisted: seq<bool>)
    requires |single| == |batch|
    ensures db' == Ran(start, batch, w, world, single, |batch|) && persisted == Persisted(Refused, single)
  {
    db', persisted := start, [];
    for i := 0 to |batch|
      invariant |persisted| == i && db' == Ran(start, batch, w, world, single, i)
      invariant forall k :: 0 <= k < i ==> (persisted[k] <==> single[k].Acknowledged?)
    {
      db' := world(i, db');
      if Applied(single[i]) { db' := Fail(db', batch[i].job, w, batch[i].runAt); }
      persisted := persisted + [single[i].Acknowledged?];
    }
  }

  /** `persist_failure_batch`: one statement, then job by job if it gave no answer. A
      failure counts as persisted exactly when its batch or its own statement was
      acknowledged, and its job is unlocked at that moment. */
  method PersistFailures(db: Db, batch: seq<Failure>, w: string, whole: Outcome, single: seq<Outcome>, world: World)
    returns (db': Db, persisted: seq<bool>)
    requires |single| == |batch|
    ensures persisted == Persisted(whole, single) && (Valid(db) && Possible(world) ==> Valid(db'))
    ensures whole.Acknowledged? ==>
              db' == FailAll(db, batch, w) && forall i :: 0 <= i < |batch| ==> !LockedBy(db', w, batch[i].job)
    ensures !whole.Acknowledged? ==>
              && db' == Ran(Start(db, batch, w, whole), batch, w, world, single, |batch|)
              && Unlocks(Start(db, batch, w, whole), batch, w, world, single, |batch|)
  {
    FailAllExact(db, batch, w);
    if whole.Acknowledged? {
      assert forall i :: 0 <= i < |batch| ==> InBatch(batch, batch[i].job);
      return FailAll(db, batch, w), seq(|batch|, _ => true);
    }
    var start := Start(db, batch, w, whole);
    db', persisted := RunFallback(start, batch, w, single, world);
    if Valid(db) && Possible(world) { RanValid(start, batch, w, world, single, |batch|); }
    AllUnlock(start, batch, w, world, single);
  }

  /** The loop over the persisted failures. */
  method Announce(batch: seq<Failure>, persisted: seq<bool>) returns (wake: nat, hooks: seq<Failure>)
    requires |persisted| == |batch|
    ensures wake == |Released(batch, persisted)| && hooks == Announced(batch, persisted)
  {
    wake, hooks := 0, [];
    for i := 0 to |batch|
      invariant wake == |Released(batch[..i], persisted[..i])|
      invariant hooks == Announced(batch[..i], persisted[..i])
    {
      ReleasedSnoc(batch, persisted, i);
      AnnouncedSnoc(batch, persisted, i);
      if persisted[i] {
        if batch[i].named { wake := wake + 1; }
        hooks := hooks + [batch[i]];
      }
    }
    assert batch[..|batch|] == batch && persisted[..|batch|] == persisted;
  }

  /** `flush_failure_batch`: the wakeup counts exactly the acknowledged named failures,
      and exactly the acknowledged ones are announced, in order. */
  method FlushFailures(db: Db, batch: seq<Failure>, w: string, whole: Outcome, single: seq<Outcome>, world: World)
    returns (db': Db, wake: nat, hooks: seq<Failure>)
    requires |single| == |batch|
    ensures wake == |Released(batch, Persisted(whole, single))| && (Valid(db) && Possible(world) ==> Valid(db'))
    ensures hooks == Announced(batch, Persisted(whole, single))
  {
    if batch == [] {
      assert Released(batch, Persisted(whole, single)) == {};
      return db, 0, [];
    }
    var persisted;
    db', persisted := PersistFailures(db, batch, w, whole, single, world);
    wake, hooks := Announce(batch, persisted);
  }

  function Announced(batch: seq<Failure>, persisted: seq<bool>): seq<Failure>
    requires |persisted| == |batch|
  {
    if batch == [] then []
    else
      var n := |batch| - 1;
      Announced(batch[..n], persisted[..n]) + if persisted[n] then [batch[n]] else []
  }

  lemma AnnouncedSnoc(batch: seq<Failure>, persisted: seq<bool>, i: nat)
    requires |persisted| == |batch| && i < |batch|
    ensures Announced(batch[..i + 1], persisted[..i + 1])
         == Announced(batch[..i], persisted[..i]) + if persisted[i] then [batch[i]] else []
  {
    assert batch[..i + 1][..i] == batch[..i] && persisted[..i + 1][..i] == persisted[..i];
  }

  lemma ReleasedSnoc(batch: seq<Failure>, persisted: seq<bool>, i: nat)
    requires |persisted| == |batch| && i < |batch|
    ensures |Released(batch[..i + 1], persisted[..i + 1])|
         == |Released(batch[..i], persisted[..i])| + if persisted[i] && batch[i].named then 1 else 0
  {
    var before := Released(batch[..i], persisted[..i]);
    var after := Released(batch[..i + 1], persisted[..i + 1]);
    assert i !in before;
    assert after == before + if persisted[i] && batch[i].named then {i} else {};
  }
}
