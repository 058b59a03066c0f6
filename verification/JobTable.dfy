/** The jobs and job_queues tables and the statements that claim, return, fail and
    complete jobs. One statement is one atomic transition. */
module JobTable {
  import opened Wrappers
  import opened FlagFilter

  type JobId = int
  type QueueId = int

  /** `locked_by` and `locked_at`, which every statement sets and clears together. */
  datatype Lock = Lock(worker: string, at: int)

  datatype Row = Row(
    queue: Option<QueueId>, task: int, priority: int, runAt: int,
    attempts: nat, maxAttempts: nat, retired: bool, flags: Option<Json>, lock: Option<Lock>)

  datatype Db = Db(jobs: map<JobId, Row>, queues: map<QueueId, Option<Lock>>)

  ghost predicate LockedBy(db: Db, w: string, j: JobId) {
    j in db.jobs && db.jobs[j].lock.Some? && db.jobs[j].lock.value.worker == w
  }

  /** Worker `w` holds the job and, when it has one, its named queue. */
  ghost predicate Owned(db: Db, w: string, j: JobId) {
    && LockedBy(db, w, j)
    && (db.jobs[j].queue.Some? ==>
          && db.jobs[j].queue.value in db.queues
          && db.queues[db.jobs[j].queue.value] == db.jobs[j].lock)
  }

  /** Job `j` is locked and belongs to queue `q`. */
  ghost predicate Occupies(db: Db, j: JobId, q: QueueId) {
    j in db.jobs && db.jobs[j].lock.Some? && db.jobs[j].queue == Some(q)
  }

  /** Queue `q` is serial: a locked job of it holds it under the same lock, there is at
      most one such job, and the queue is not locked without one. */
  ghost predicate QueueOk(db: Db, q: QueueId) {
    && (forall j :: Occupies(db, j, q) ==> q in db.queues && db.queues[q] == db.jobs[j].lock)
    && (forall j, k :: Occupies(db, j, q) && Occupies(db, k, q) ==> j == k)
    && (q in db.queues && db.queues[q].Some? ==> exists j :: Occupies(db, j, q))
  }

  /** The jobs of `q` that `w` has locked: there is at most one, and it holds the queue. */
  ghost predicate Sole(db: Db, w: string, q: QueueId) {
    && (forall j :: OccupiesFor(db, w, j, q) ==> Owned(db, w, j))
    && (forall j, k :: OccupiesFor(db, w, j, q) && OccupiesFor(db, w, k, q) ==> j == k)
  }

  ghost predicate OccupiesFor(db: Db, w: string, j: JobId, q: QueueId) {
    LockedBy(db, w, j) && db.jobs[j].queue == Some(q)
  }

  /** Retired jobs have no attempts left. */
  ghost predicate RetiredOk(db: Db) {
    forall j :: j in db.jobs && db.jobs[j].retired ==> db.jobs[j].maxAttempts <= db.jobs[j].attempts
  }

  ghost predicate Valid(db: Db) { RetiredOk(db) && forall q :: QueueOk(db, q) }

  // ------------------------------------------------------------------- claiming

  predicate Available(row: Row) { row.lock.None? && row.attempts < row.maxAttempts }

  predicate QueueOpen(db: Db, row: Row) {
    row.queue.Some? ==> row.queue.value in db.queues && db.queues[row.queue.value].None?
  }

  datatype Request = Request(worker: string, tasks: set<int>, filter: Filter, now: int, limit: nat)

  ghost predicate Eligible(db: Db, r: Request, j: JobId) {
    && j in db.jobs
    && var row := db.jobs[j];
    && Available(row)
    && row.runAt <= r.now
    && row.task in r.tasks
    && QueueOpen(db, row)
    && Admits(r.filter, row.flags)
  }

  /** `order by priority asc, run_at asc`; ties are in no particular order. */
  predicate NotAfter(a: Row, b: Row) {
    a.priority < b.priority || (a.priority == b.priority && a.runAt <= b.runAt)
  }

  /** The rows `j_raw` may select: eligible, not skipped because another transaction
      has them locked, at most `limit`, and none passed over for a later one. */
  ghost predicate CandidateSet(db: Db, r: Request, skipped: set<JobId>, cand: set<JobId>) {
    && cand <= db.jobs.Keys && |cand| <= r.limit
    && (forall c :: c in cand ==> Eligible(db, r, c) && c !in skipped)
    && (forall e :: Eligible(db, r, e) && e !in skipped && e !in cand ==>
          |cand| == r.limit && forall c :: c in cand ==> NotAfter(db.jobs[c], db.jobs[e]))
  }

  /** The order of `distinct on`: (priority, run_at, id), total because ids differ. */
  predicate Before(db: Db, j: JobId, k: JobId)
    requires j in db.jobs && k in db.jobs
  {
    var a, b := db.jobs[j], db.jobs[k];
    a.priority < b.priority
    || (a.priority == b.priority && (a.runAt < b.runAt || (a.runAt == b.runAt && j <= k)))
  }

  predicate SameQueue(db: Db, j: JobId, k: JobId)
    requires j in db.jobs && k in db.jobs
  {
    if db.jobs[j].queue.None? then j == k else db.jobs[j].queue == db.jobs[k].queue
  }

  /** The candidates that survive `distinct on (job_queue_id, ...)`. */
  function Winners(db: Db, cand: set<JobId>): set<JobId>
    requires cand <= db.jobs.Keys
  {
    set j | j in cand && forall k <- cand :: SameQueue(db, j, k) ==> Before(db, j, k)
  }

  function QueuesOf(db: Db, ids: set<JobId>): set<QueueId> {
    set j | j in ids && j in db.jobs && db.jobs[j].queue.Some? :: db.jobs[j].queue.value
  }

  /** Locks the jobs `ids` and their queues and counts an attempt for each job. */
  function Claim(db: Db, ids: set<JobId>, lock: Lock): Db {
    Db(map j | j in db.jobs ::
         if j in ids then db.jobs[j].(attempts := db.jobs[j].attempts + 1, lock := Some(lock)) else db.jobs[j],
       map q | q in db.queues :: if q in QueuesOf(db, ids) then Some(lock) else db.queues[q])
  }

  /** `batch_get_jobs`, and `get_job` with limit one. */
  ghost predicate ClaimStep(db: Db, r: Request, claimed: set<JobId>, db': Db) {
    exists skipped, cand :: CandidateSet(db, r, skipped, cand)
                         && claimed == Winners(db, cand)
                         && db' == Claim(db, claimed, Lock(r.worker, r.now))
  }

  // ------------------------------------------------------- releasing and finishing

  /** The jobs among `ids` that `w` still holds. */
  function HeldAmong(db: Db, ids: set<JobId>, w: string): set<JobId> {
    set j | j in ids && j in db.jobs && db.jobs[j].lock.Some? && db.jobs[j].lock.value.worker == w
  }

  /** Queues that lose their lock when `w` lets go of the jobs `held`. */
  function Freed(db: Db, held: set<JobId>, w: string): set<QueueId> {
    set q | q in QueuesOf(db, held) && q in db.queues && db.queues[q].Some? && db.queues[q].value.worker == w
  }

  function Unlock(db: Db, freed: set<QueueId>): map<QueueId, Option<Lock>> {
    map q | q in db.queues :: if q in freed then None else db.queues[q]
  }

  function Refund(row: Row): nat {
    if row.retired || row.attempts == 0 then row.attempts else row.attempts - 1
  }

  /** `_private_return_jobs`: unlocks the listed jobs the worker still holds, gives
      their attempt back unless they were retired, and unlocks their queues. */
  function Return(db: Db, ids: set<JobId>, w: string): Db {
    var held := HeldAmong(db, ids, w);
    Db(map j | j in db.jobs ::
         if j in held then db.jobs[j].(attempts := Refund(db.jobs[j]), lock := None) else db.jobs[j],
       Unlock(db, Freed(db, held, w)))
  }

  /** `fail_job`: unlocks a job the worker still holds and postpones it. */
  function Fail(db: Db, j: JobId, w: string, runAt: int): Db {
    var held := HeldAmong(db, {j}, w);
    Db(map k | k in db.jobs :: if k in held then db.jobs[k].(runAt := runAt, lock := None) else db.jobs[k],
       Unlock(db, Freed(db, held, w)))
  }

  /** `complete_job`: deletes the row whoever holds it. The queue is looked at only
      when the caller's copy of the job names one. */
  function Complete(db: Db, j: JobId, named: bool, w: string): Db {
    Db(map k | k in db.jobs && k != j :: db.jobs[k],
       if named then Unlock(db, Freed(db, {j}, w)) else db.queues)
  }

  // ------------------------------------------------------- what a claim selects

  /** Every queue with a candidate has exactly one winner, the least of its
      candidates, and every unnamed candidate wins. */
  lemma WinnersExact(db: Db, cand: set<JobId>)
    requires cand <= db.jobs.Keys
    ensures forall j :: j in cand && db.jobs[j].queue.None? ==> j in Winners(db, cand)
    ensures forall j, k :: j in Winners(db, cand) && k in Winners(db, cand) && SameQueue(db, j, k) ==> j == k
    ensures forall c :: c in cand ==> exists j :: j in Winners(db, cand) && SameQueue(db, c, j) && Before(db, j, c)
  {
    forall c | c in cand
      ensures exists j :: j in Winners(db, cand) && SameQueue(db, c, j) && Before(db, j, c)
    {
      var group := set k | k in cand && SameQueue(db, c, k);
      assert c in group;
      var least := LeastOf(db, group);
      assert least in Winners(db, cand);
    }
  }

  lemma Pick<T>(s: set<T>) returns (x: T)
    requires s != {}
    ensures x in s
  {
    x :| x in s;
  }

  lemma {:induction false} LeastOf(db: Db, ids: set<JobId>) returns (least: JobId)
    requires ids != {} && ids <= db.jobs.Keys
    ensures least in ids && forall k :: k in ids ==> Before(db, least, k)
  {
    var x := Pick(ids);
    least := x;
    var rest := ids - {x};
    if rest != {} {
      var other := LeastOf(db, rest);
      if Before(db, other, x) { least := other; }
    }
    forall k | k in ids ensures Before(db, least, k) {
      assert k == x || k in rest;
    }
  }

  /** Locks and queues that a claim of open jobs may take together. */
  ghost predicate Claimable(db: Db, ids: set<JobId>) {
    && (forall j :: j in ids ==> j in db.jobs && Available(db.jobs[j]) && QueueOpen(db, db.jobs[j]))
    && (forall j, k :: j in ids && k in ids && SameQueue(db, j, k) ==> j == k)
  }

  lemma ClaimQueue(db: Db, ids: set<JobId>, lock: Lock, q: QueueId)
    requires Claimable(db, ids) && QueueOk(db, q)
    ensures QueueOk(Claim(db, ids, lock), q)
  {
    var db' := Claim(db, ids, lock);
    forall j | Occupies(db', j, q)
      ensures q in db'.queues && db'.queues[q] == db'.jobs[j].lock
    {
      if j in ids { assert q in QueuesOf(db, ids); } else { assert Occupies(db, j, q); }
    }
    forall j, k | Occupies(db', j, q) && Occupies(db', k, q)
      ensures j == k
    {
      assert j in ids || Occupies(db, j, q);
      assert k in ids || Occupies(db, k, q);
    }
    if q in db'.queues && db'.queues[q].Some? {
      if q in QueuesOf(db, ids) {
        var j :| j in ids && j in db.jobs && db.jobs[j].queue == Some(q);
        assert Occupies(db', j, q);
      } else {
        var j :| Occupies(db, j, q);
        assert Occupies(db', j, q);
      }
    }
  }

  lemma {:induction false} SubsetSize<T>(a: set<T>, b: set<T>)
    requires a <= b
    ensures |a| <= |b|
  {
    if a != {} {
      var x :| x in a;
      SubsetSize(a - {x}, b - {x});
    }
  }

  /** The locks a claim takes. */
  lemma ClaimLocks(db: Db, ids: set<JobId>, lock: Lock)
    requires Claimable(db, ids)
    ensures var db' := Claim(db, ids, lock);
            && (forall j :: j in ids ==> LockedBy(db', lock.worker, j) && forall w :: !LockedBy(db, w, j))
            && (forall w, j :: LockedBy(db', w, j) <==> LockedBy(db, w, j) || (w == lock.worker && j in ids))
  {
  }

  /** What a claim does, row by row. */
  lemma ClaimRows(db: Db, ids: set<JobId>, lock: Lock)
    requires Claimable(db, ids)
    ensures var db' := Claim(db, ids, lock);
            && (forall j :: j in ids ==> Owned(db', lock.worker, j) && db'.jobs[j].attempts == db.jobs[j].attempts + 1)
            && (forall w, j :: Owned(db, w, j) ==> Owned(db', w, j) && j !in ids)
  {
    var db' := Claim(db, ids, lock);
    forall j | j in ids ensures Owned(db', lock.worker, j) {
      if db.jobs[j].queue.Some? { assert db.jobs[j].queue.value in QueuesOf(db, ids); }
    }
    forall w, j | Owned(db, w, j) ensures Owned(db', w, j) && j !in ids {
      if db.jobs[j].queue.Some? { assert db.jobs[j].queue.value !in QueuesOf(db, ids); }
    }
  }

  /** The statement commits a claim of open jobs, at most one per named queue. */
  lemma ClaimStepClaimable(db: Db, r: Request, claimed: set<JobId>, db': Db)
    requires ClaimStep(db, r, claimed, db')
    ensures Claimable(db, claimed) && |claimed| <= r.limit
    ensures forall j :: j in claimed ==> Eligible(db, r, j)
    ensures db' == Claim(db, claimed, Lock(r.worker, r.now))
  {
    var skipped, cand :| CandidateSet(db, r, skipped, cand)
                         && claimed == Winners(db, cand)
                         && db' == Claim(db, claimed, Lock(r.worker, r.now));
    WinnersExact(db, cand);
    SubsetSize(claimed, cand);
  }

  /** A claim locks exactly its winners for the worker, adds one attempt to each,
      and leaves every other row, winner or loser of a race, as it was. */
  lemma ClaimExact(db: Db, r: Request, claimed: set<JobId>, db': Db)
    requires Valid(db) && ClaimStep(db, r, claimed, db')
    ensures Valid(db')
    ensures db'.jobs.Keys == db.jobs.Keys && |claimed| <= r.limit
    ensures forall j :: j in claimed ==>
              Eligible(db, r, j) && Owned(db', r.worker, j) && db'.jobs[j].attempts == db.jobs[j].attempts + 1
    ensures forall j :: j in db.jobs && j !in claimed ==> db'.jobs[j] == db.jobs[j]
    ensures forall w, j :: Owned(db, w, j) ==> Owned(db', w, j) && j !in claimed
    ensures forall w, j :: LockedBy(db', w, j) <==> LockedBy(db, w, j) || (w == r.worker && j in claimed)
  {
    ClaimStepClaimable(db, r, claimed, db');
    forall q ensures QueueOk(db', q) { ClaimQueue(db, claimed, Lock(r.worker, r.now), q); }
    ClaimLocks(db, claimed, Lock(r.worker, r.now));
    ClaimRows(db, claimed, Lock(r.worker, r.now));
  }

  // ------------------------------------------------- what the other statements keep

  /** `db'` is `db` after letting go of jobs `gone` that `w` holds, and of exactly their
      queues. */
  ghost predicate Releases(db: Db, db': Db, gone: set<JobId>, w: string) {
    && (forall j :: j in gone ==> LockedBy(db, w, j))
    && db'.jobs.Keys <= db.jobs.Keys && db.jobs.Keys <= db'.jobs.Keys + gone
    && (forall j :: j in db'.jobs && j !in gone ==> db'.jobs[j] == db.jobs[j])
    && (forall j :: j in db'.jobs && j in gone ==> db'.jobs[j].lock.None?)
    && db'.queues == Unlock(db, Freed(db, gone, w))
  }

  lemma ReleaseQueue(db: Db, db': Db, gone: set<JobId>, w: string, q: QueueId)
    requires QueueOk(db, q) && Releases(db, db', gone, w)
    ensures QueueOk(db', q)
  {
    forall j | Occupies(db', j, q)
      ensures Occupies(db, j, q) && q !in Freed(db, gone, w)
    {
      assert Occupies(db, j, q);
      if q in Freed(db, gone, w) {
        var g :| g in gone && g in db.jobs && db.jobs[g].queue == Some(q);
        assert Occupies(db, g, q);
      }
    }
    if q in db'.queues && db'.queues[q].Some? {
      var j :| Occupies(db, j, q);
      assert j !in gone || q in QueuesOf(db, gone);
      assert Occupies(db', j, q);
    }
  }

  /** A locked job of a serial queue is owned with its queue. */
  lemma LockedIsOwned(db: Db, w: string, j: JobId)
    requires LockedBy(db, w, j) && (db.jobs[j].queue.Some? ==> QueueOk(db, db.jobs[j].queue.value))
    ensures Owned(db, w, j)
  {
    if db.jobs[j].queue.Some? { assert Occupies(db, j, db.jobs[j].queue.value); }
  }

  /** A release keeps the table valid and every other owned job owned. */
  lemma ReleaseKeeps(db: Db, db': Db, gone: set<JobId>, w: string)
    requires Valid(db) && RetiredOk(db') && Releases(db, db', gone, w)
    ensures Valid(db')
    ensures forall v, j :: Owned(db, v, j) && j !in gone ==> Owned(db', v, j)
    ensures forall v, j :: LockedBy(db', v, j) ==> LockedBy(db, v, j) && j !in gone
  {
    forall q ensures QueueOk(db', q) { ReleaseQueue(db, db', gone, w, q); }
    forall v, j | Owned(db, v, j) && j !in gone ensures Owned(db', v, j) {
      assert LockedBy(db', v, j);
      LockedIsOwned(db', v, j);
    }
  }

  lemma ReturnReleases(db: Db, ids: set<JobId>, w: string)
    ensures Releases(db, Return(db, ids, w), HeldAmong(db, ids, w), w)
    ensures forall v, j :: LockedBy(Return(db, ids, w), v, j) <==> LockedBy(db, v, j) && (v != w || j !in ids)
  {
  }

  lemma FailReleases(db: Db, j: JobId, w: string, runAt: int)
    ensures Releases(db, Fail(db, j, w, runAt), HeldAmong(db, {j}, w), w)
    ensures forall v, k :: LockedBy(Fail(db, j, w, runAt), v, k) <==> LockedBy(db, v, k) && (v != w || k != j)
  {
  }

  lemma ReturnExact(db: Db, ids: set<JobId>, w: string)
    requires Valid(db)
    ensures var db' := Return(db, ids, w);
            && Valid(db') && db'.jobs.Keys == db.jobs.Keys
            && (forall j :: j in ids ==> !LockedBy(db', w, j))
            && (forall v, j :: Owned(db, v, j) && (v != w || j !in ids) ==> Owned(db', v, j))
            && (forall v, j :: LockedBy(db', v, j) <==> LockedBy(db, v, j) && (v != w || j !in ids))
  {
    ReturnReleases(db, ids, w);
    ReleaseKeeps(db, Return(db, ids, w), HeldAmong(db, ids, w), w);
  }

  lemma FailExact(db: Db, j: JobId, w: string, runAt: int)
    requires Valid(db)
    ensures var db' := Fail(db, j, w, runAt);
            && Valid(db') && !LockedBy(db', w, j)
            && (forall v, k :: Owned(db, v, k) && (v != w || k != j) ==> Owned(db', v, k))
            && (forall v, k :: LockedBy(db', v, k) <==> LockedBy(db, v, k) && (v != w || k != j))
  {
    FailReleases(db, j, w, runAt);
    ReleaseKeeps(db, Fail(db, j, w, runAt), HeldAmong(db, {j}, w), w);
  }

  /** A failed job and its queue are open to everybody. */
  lemma FailFrees(db: Db, j: JobId, w: string, runAt: int)
    requires Owned(db, w, j)
    ensures var db' := Fail(db, j, w, runAt);
            && j in db'.jobs && db'.jobs[j].lock.None?
            && (db'.jobs[j].queue.Some? ==>
                  db'.jobs[j].queue.value in db'.queues && db'.queues[db'.jobs[j].queue.value].None?)
  {
    assert j in HeldAmong(db, {j}, w);
    if db.jobs[j].queue.Some? {
      assert db.jobs[j].queue.value in QueuesOf(db, HeldAmong(db, {j}, w));
    }
  }

  /** When a completion leaves named queues in order. A held job must be known to be
      named; a job that is not held must be unlocked and its queue not in use by `w`. */
  ghost predicate CompletesCleanly(db: Db, j: JobId, named: bool, w: string) {
    j in db.jobs && db.jobs[j].queue.Some? ==>
      var q := db.jobs[j].queue.value;
      if db.jobs[j].lock.Some? then LockedBy(db, w, j) && named
      else !(named && q in db.queues && db.queues[q].Some? && db.queues[q].value.worker == w)
  }

  /** The queue of a row, if there is such a row. */
  function QueueOf(db: Db, j: JobId): Option<QueueId> { if j in db.jobs then db.jobs[j].queue else None }

  /** A completion deletes the job whoever holds it and disturbs no other job's lock. */
  lemma CompleteLocks(db: Db, j: JobId, named: bool, w: string)
    ensures var db' := Complete(db, j, named, w);
            && j !in db'.jobs && (forall k :: k in db.jobs && k != j ==> k in db'.jobs && db'.jobs[k] == db.jobs[k])
            && (forall v, k :: LockedBy(db', v, k) <==> LockedBy(db, v, k) && k != j)
            && (forall k, q :: Occupies(db', k, q) <==> Occupies(db, k, q) && k != j)
  {
  }

  /** It leaves every queue but the job's own in order. */
  lemma CompleteOther(db: Db, j: JobId, named: bool, w: string, q: QueueId)
    requires QueueOk(db, q) && QueueOf(db, j) != Some(q)
    ensures QueueOk(Complete(db, j, named, w), q)
  {
    var db' := Complete(db, j, named, w);
    CompleteLocks(db, j, named, w);
    assert q !in QueuesOf(db, {j});
    assert q in db'.queues <==> q in db.queues;
    if q in db'.queues && db'.queues[q].Some? {
      var k :| Occupies(db, k, q);
      assert Occupies(db', k, q);
    }
  }

  /** And the job's own exactly when it completes cleanly: otherwise it leaves the queue
      locked without a job, or opens it under a running one. */
  lemma CompleteOwn(db: Db, j: JobId, named: bool, w: string, q: QueueId)
    requires QueueOk(db, q) && QueueOf(db, j) == Some(q)
    ensures QueueOk(Complete(db, j, named, w), q) <==> CompletesCleanly(db, j, named, w)
  {
    var db' := Complete(db, j, named, w);
    CompleteLocks(db, j, named, w);
    assert QueuesOf(db, {j}) == {q};
    var frees := named && q in db.queues && db.queues[q].Some? && db.queues[q].value.worker == w;
    assert q in db'.queues <==> q in db.queues;
    assert q in db.queues ==> db'.queues[q] == if frees then None else db.queues[q];
    if db.jobs[j].lock.Some? {
      assert Occupies(db, j, q);
      if !frees { assert !exists k :: Occupies(db', k, q); }
    } else if q in db.queues && db.queues[q].Some? {
      var k :| Occupies(db, k, q);
      assert Occupies(db', k, q);
    }
  }

  /** A completion keeps named queues serial exactly when it completes cleanly. */
  lemma CompleteAny(db: Db, j: JobId, named: bool, w: string)
    requires Valid(db)
    ensures var db' := Complete(db, j, named, w);
            && j !in db'.jobs && (forall k :: k in db.jobs && k != j ==> k in db'.jobs && db'.jobs[k] == db.jobs[k])
            && (forall v, k :: LockedBy(db', v, k) <==> LockedBy(db, v, k) && k != j)
            && (Valid(db') <==> CompletesCleanly(db, j, named, w))
  {
    var db' := Complete(db, j, named, w);
    CompleteLocks(db, j, named, w);
    forall q | QueueOf(db, j) != Some(q) ensures QueueOk(db', q) { CompleteOther(db, j, named, w, q); }
    if QueueOf(db, j).Some? { CompleteOwn(db, j, named, w, QueueOf(db, j).value); }
  }

  /** Completing a held job frees exactly its queue. */
  lemma CompleteExact(db: Db, j: JobId, w: string)
    requires Valid(db) && LockedBy(db, w, j)
    ensures var db' := Complete(db, j, db.jobs[j].queue.Some?, w);
            && Valid(db') && j !in db'.jobs
            && (forall v, k :: Owned(db, v, k) && k != j ==> Owned(db', v, k))
            && (forall v, k :: LockedBy(db', v, k) <==> LockedBy(db, v, k) && k != j)
  {
    var db' := Complete(db, j, db.jobs[j].queue.Some?, w);
    assert Unlock(db, Freed(db, {j}, w)) == db'.queues;
    assert Releases(db, db', {j}, w);
    ReleaseKeeps(db, db', {j}, w);
  }

  // ------------------------------------------------------------------ round trips

  /** Returning a whole claim undoes it: attempts, locks and queues come back. */
  lemma ReturnUndoesClaim(db: Db, r: Request, claimed: set<JobId>, db': Db)
    requires Valid(db) && ClaimStep(db, r, claimed, db')
    ensures Return(db', claimed, r.worker) == db
  {
    ClaimStepClaimable(db, r, claimed, db');
    ClaimRows(db, claimed, Lock(r.worker, r.now));
    var back := Return(db', claimed, r.worker);
    assert forall j :: j in claimed ==> LockedBy(db', r.worker, j);
    assert HeldAmong(db', claimed, r.worker) == claimed;
    assert back.jobs == db.jobs;
    forall q | q in db.queues ensures back.queues[q] == db.queues[q] {
      if q in QueuesOf(db, claimed) {
        var j :| j in claimed && j in db.jobs && db.jobs[j].queue == Some(q);
        assert QueueOpen(db, db.jobs[j]) && db'.jobs[j].queue == Some(q);
        assert q in QueuesOf(db', claimed);
      } else {
        assert q !in QueuesOf(db', claimed);
      }
    }
  }

  /** A return that committed before its answer was lost can be sent again. */
  lemma ReturnIdempotent(db: Db, ids: set<JobId>, w: string)
    ensures Return(Return(db, ids, w), ids, w) == Return(db, ids, w)
  {
    var once := Return(db, ids, w);
    assert HeldAmong(once, ids, w) == {};
    assert QueuesOf(once, {}) == {};
    assert Freed(once, {}, w) == {};
    assert Return(once, ids, w).queues == once.queues;
  }

  // ------------------------------------------------------------- whole histories

  /** Adding, rescheduling, retiring or removing jobs and unlocked queues: locked rows keep
      their lock and queue, rows that were not locked stay so, and new queues are unlocked. */
  ghost predicate EditStep(db: Db, db': Db) {
    && (forall j :: j in db.jobs && db.jobs[j].lock.Some? ==>
          j in db'.jobs && db'.jobs[j].lock == db.jobs[j].lock && db'.jobs[j].queue == db.jobs[j].queue)
    && (forall j :: j in db'.jobs && db'.jobs[j].lock.Some? ==> j in db.jobs && db.jobs[j].lock.Some?)
    && RetiredOk(db')
    && (forall q :: q in db.queues && db.queues[q].Some? ==> q in db'.queues)
    && (forall q :: q in db.queues && q in db'.queues ==> db'.queues[q] == db.queues[q])
    && (forall q :: q in db'.queues && q !in db.queues ==> db'.queues[q].None?)
  }

  /** One statement of one worker. A completion may be of a job its worker no longer holds,
      and is told whether the worker's copy of the job names a queue. */
  datatype Statement =
    | ClaimJobs(request: Request, claimed: set<JobId>)
    | ReturnJobs(worker: string, ids: set<JobId>)
    | FailJob(worker: string, id: JobId, runAt: int)
    | CompleteJob(worker: string, id: JobId, named: bool)
    | EditJobs

  ghost predicate Executes(db: Db, st: Statement, db': Db) {
    match st
    case ClaimJobs(r, claimed) => ClaimStep(db, r, claimed, db')
    case ReturnJobs(w, ids) => db' == Return(db, ids, w)
    case FailJob(w, j, runAt) => db' == Fail(db, j, w, runAt)
    case CompleteJob(w, j, named) => db' == Complete(db, j, named, w)
    case EditJobs => EditStep(db, db')
  }

  function Deleted(st: Statement): set<JobId> { if st.CompleteJob? then {st.id} else {} }

  /** A completion that leaves the job's queue locked without a job, or opens it under one. */
  ghost predicate Spoils(db: Db, st: Statement, q: QueueId) {
    st.CompleteJob? && QueueOf(db, st.id) == Some(q) && !CompletesCleanly(db, st.id, st.named, st.worker)
  }

  /** A completion by `w` of a job it has lost opens `q` under another job `w` has locked. */
  ghost predicate OpensUnder(db: Db, st: Statement, w: string, q: QueueId) {
    && st.CompleteJob? && st.worker == w && st.named && QueueOf(db, st.id) == Some(q) && !LockedBy(db, w, st.id)
    && q in db.queues && db.queues[q].Some? && db.queues[q].value.worker == w
    && exists k :: OccupiesFor(db, w, k, q)
  }

  /** The worker whose locks a statement may take or drop. */
  ghost predicate SentBy(st: Statement, w: string) {
    match st
    case ClaimJobs(r, _) => r.worker == w
    case EditJobs => false
    case _ => st.worker == w
  }

  /** Any statements of any workers that spoil no queue lead from `db` to `db'`; each may
      roll back. */
  ghost predicate Evolves(db: Db, db': Db) {
    exists history, statements :: Evolution(history, statements) && history[0] == db && history[|statements|] == db'
  }

  ghost predicate Evolution(history: seq<Db>, statements: seq<Statement>) {
    && |history| == |statements| + 1
    && forall i: nat :: i < |statements| ==> Runs(history, statements, i) && SpoilsNone(history[i], statements[i])
  }

  ghost predicate SpoilsNone(db: Db, st: Statement) { forall q :: !Spoils(db, st, q) }

  ghost predicate Runs(history: seq<Db>, statements: seq<Statement>, i: nat)
    requires i < |statements| < |history|
  {
    history[i + 1] == history[i] || Executes(history[i], statements[i], history[i + 1])
  }

  /** `history` interleaves statements of any workers; each may roll back. */
  ghost predicate History(history: seq<Db>, statements: seq<Statement>) {
    |history| == |statements| + 1 && forall i: nat :: i < |statements| ==> Runs(history, statements, i)
  }

  lemma EditQueue(db: Db, db': Db, q: QueueId)
    requires QueueOk(db, q) && EditStep(db, db')
    ensures QueueOk(db', q)
  {
    forall j ensures Occupies(db', j, q) <==> Occupies(db, j, q) {}
    if q in db'.queues && db'.queues[q].Some? {
      var j :| Occupies(db, j, q);
      assert Occupies(db', j, q);
    }
  }

  /** A statement keeps a serial queue serial exactly when it does not spoil it. */
  lemma ExecutesQueue(db: Db, st: Statement, db': Db, q: QueueId)
    requires QueueOk(db, q) && Executes(db, st, db')
    ensures QueueOk(db', q) <==> !Spoils(db, st, q)
  {
    match st
    case ClaimJobs(r, claimed) =>
      ClaimStepClaimable(db, r, claimed, db');
      ClaimQueue(db, claimed, Lock(r.worker, r.now), q);
    case ReturnJobs(w, ids) =>
      ReturnReleases(db, ids, w);
      ReleaseQueue(db, db', HeldAmong(db, ids, w), w, q);
    case FailJob(w, j, runAt) =>
      FailReleases(db, j, w, runAt);
      ReleaseQueue(db, db', HeldAmong(db, {j}, w), w, q);
    case CompleteJob(w, j, named) =>
      if QueueOf(db, j) == Some(q) {
        CompleteOwn(db, j, named, w, q);
      } else {
        CompleteOther(db, j, named, w, q);
      }
    case EditJobs => EditQueue(db, db', q);
  }

  lemma ExecutesLocks(db: Db, st: Statement, db': Db, w: string)
    requires Executes(db, st, db') && !SentBy(st, w)
    ensures forall j :: LockedBy(db', w, j) <==> LockedBy(db, w, j) && j !in Deleted(st)
    ensures !st.EditJobs? ==> forall j :: LockedBy(db', w, j) ==> db'.jobs[j] == db.jobs[j]
    ensures forall j, q :: OccupiesFor(db', w, j, q) <==> OccupiesFor(db, w, j, q) && j !in Deleted(st)
  {
    match st
    case ClaimJobs(r, claimed) =>
      ClaimStepClaimable(db, r, claimed, db');
      ClaimLocks(db, claimed, Lock(r.worker, r.now));
    case ReturnJobs(v, ids) => ReturnReleases(db, ids, v);
    case FailJob(v, j, runAt) => FailReleases(db, j, v, runAt);
    case CompleteJob(v, j, named) => CompleteLocks(db, j, named, v);
    case EditJobs =>
  }

  /** Nobody else frees a queue that a worker holds, also not by completing what it lost. */
  lemma ExecutesOwned(db: Db, st: Statement, db': Db, w: string, j: JobId)
    requires Executes(db, st, db') && !SentBy(st, w) && Owned(db, w, j) && j !in Deleted(st)
    ensures Owned(db', w, j)
  {
    ExecutesLocks(db, st, db', w);
    match st
    case ClaimJobs(r, claimed) =>
      ClaimStepClaimable(db, r, claimed, db');
      ClaimRows(db, claimed, Lock(r.worker, r.now));
    case ReturnJobs(v, ids) =>
    case FailJob(v, k, runAt) =>
    case CompleteJob(v, k, named) =>
    case EditJobs =>
      assert db'.jobs[j].lock == db.jobs[j].lock && db'.jobs[j].queue == db.jobs[j].queue;
      if db.jobs[j].queue.Some? {
        var q := db.jobs[j].queue.value;
        assert db.queues[q].Some? && q in db'.queues && db'.queues[q] == db.queues[q];
      }
  }

  lemma SoleClaim(db: Db, ids: set<JobId>, lock: Lock, q: QueueId)
    requires Claimable(db, ids) && Sole(db, lock.worker, q)
    ensures Sole(Claim(db, ids, lock), lock.worker, q)
  {
    var w, db' := lock.worker, Claim(db, ids, lock);
    ClaimLocks(db, ids, lock);
    ClaimRows(db, ids, lock);
    forall j, k | OccupiesFor(db', w, j, q) && OccupiesFor(db', w, k, q) ensures j == k {
      assert j in ids || OccupiesFor(db, w, j, q);
      assert k in ids || OccupiesFor(db, w, k, q);
    }
    forall j | OccupiesFor(db', w, j, q) ensures Owned(db', w, j) {
      assert j in ids || OccupiesFor(db, w, j, q);
    }
  }

  lemma SoleRelease(db: Db, db': Db, gone: set<JobId>, w: string, q: QueueId)
    requires Releases(db, db', gone, w) && Sole(db, w, q)
    ensures Sole(db', w, q)
  {
    forall j | OccupiesFor(db', w, j, q) ensures OccupiesFor(db, w, j, q) && Owned(db', w, j) {
      assert j !in gone && OccupiesFor(db, w, j, q);
      if q in Freed(db, gone, w) {
        var g :| g in gone && g in db.jobs && db.jobs[g].queue == Some(q);
        assert OccupiesFor(db, w, g, q);
      }
    }
  }

  lemma SerialIsSole(db: Db, w: string, q: QueueId)
    requires QueueOk(db, q)
    ensures Sole(db, w, q)
  {
    forall j | OccupiesFor(db, w, j, q) ensures Occupies(db, j, q) && Owned(db, w, j) {
      assert Occupies(db, j, q);
    }
  }

  /** The one statement by which a worker opens a queue under its own job. */
  lemma SoleComplete(db: Db, j: JobId, named: bool, w: string, q: QueueId)
    requires Sole(db, w, q)
    ensures Sole(Complete(db, j, named, w), w, q) <==> !OpensUnder(db, CompleteJob(w, j, named), w, q)
  {
    var db' := Complete(db, j, named, w);
    CompleteLocks(db, j, named, w);
    assert forall k :: OccupiesFor(db', w, k, q) <==> OccupiesFor(db, w, k, q) && k != j;
    assert q in QueuesOf(db, {j}) <==> QueueOf(db, j) == Some(q);
    forall k | OccupiesFor(db', w, k, q) ensures Owned(db', w, k) <==> !(named && q in Freed(db, {j}, w)) {}
    if LockedBy(db, w, j) && QueueOf(db, j) == Some(q) {
      assert OccupiesFor(db, w, j, q);
    } else if k :| OccupiesFor(db, w, k, q) {
      assert OccupiesFor(db', w, k, q);
    }
  }

  /** The job under which a queue is opened stays locked without it. */
  lemma OpenedUnder(db: Db, st: Statement, w: string, q: QueueId)
    requires OpensUnder(db, st, w, q)
    ensures var db' := Complete(db, st.id, st.named, w);
            exists k :: OccupiesFor(db', w, k, q) && !Owned(db', w, k)
  {
    var db' := Complete(db, st.id, st.named, w);
    var k :| OccupiesFor(db, w, k, q);
    CompleteLocks(db, st.id, st.named, w);
    assert q in Freed(db, {st.id}, w);
    assert OccupiesFor(db', w, k, q) && !Owned(db', w, k);
  }

  /** A worker's locked jobs keep their queues through everybody's statements, except
      exactly when its own completion of a lost job opens one. */
  lemma ExecutesSole(db: Db, st: Statement, db': Db, w: string, q: QueueId)
    requires Sole(db, w, q) && Executes(db, st, db')
    ensures Sole(db', w, q) <==> !OpensUnder(db, st, w, q)
  {
    if !SentBy(st, w) {
      ExecutesLocks(db, st, db', w);
      forall j | OccupiesFor(db', w, j, q) ensures Owned(db', w, j) { ExecutesOwned(db, st, db', w, j); }
    } else {
      match st
      case ClaimJobs(r, claimed) =>
        ClaimStepClaimable(db, r, claimed, db');
        SoleClaim(db, claimed, Lock(r.worker, r.now), q);
      case ReturnJobs(_, ids) =>
        ReturnReleases(db, ids, w);
        SoleRelease(db, db', HeldAmong(db, ids, w), w, q);
      case FailJob(_, j, runAt) =>
        FailReleases(db, j, w, runAt);
        SoleRelease(db, db', HeldAmong(db, {j}, w), w, q);
      case CompleteJob(_, j, named) => SoleComplete(db, j, named, w, q);
    }
  }

  lemma ExecutesRetired(db: Db, st: Statement, db': Db)
    requires RetiredOk(db) && Executes(db, st, db')
    ensures RetiredOk(db')
  {
    if st.ClaimJobs? { ClaimStepClaimable(db, st.request, st.claimed, db'); }
  }

  /** A statement keeps named queues serial exactly when it spoils none, and takes no job or
      named queue away from a worker that did not send it, nor locks one for it, unless it
      is a completion, which deletes its job whoever holds it and nothing else. */
  lemma ExecutesKeeps(db: Db, st: Statement, db': Db)
    requires Valid(db) && Executes(db, st, db')
    ensures Valid(db') <==> SpoilsNone(db, st)
    ensures forall w, j :: !SentBy(st, w) && Owned(db, w, j) && j !in Deleted(st) ==> Owned(db', w, j)
    ensures forall w, j :: !SentBy(st, w) ==> (LockedBy(db', w, j) <==> LockedBy(db, w, j) && j !in Deleted(st))
    ensures forall j :: j in Deleted(st) ==> j !in db'.jobs
  {
    ExecutesRetired(db, st, db');
    forall q ensures QueueOk(db', q) <==> !Spoils(db, st, q) { ExecutesQueue(db, st, db', q); }
    forall w, j | !SentBy(st, w) ensures LockedBy(db', w, j) <==> LockedBy(db, w, j) && j !in Deleted(st) {
      ExecutesLocks(db, st, db', w);
    }
    forall w, j | !SentBy(st, w) && Owned(db, w, j) && j !in Deleted(st) ensures Owned(db', w, j) {
      ExecutesOwned(db, st, db', w, j);
    }
  }

  /** A step of a history that spoils the queue and is not rolled back. */
  ghost predicate SpoiltAt(history: seq<Db>, statements: seq<Statement>, i: nat, q: QueueId)
    requires i < |statements| < |history|
  {
    history[i + 1] != history[i] && Spoils(history[i], statements[i], q)
  }

  lemma RunsQueue(history: seq<Db>, statements: seq<Statement>, i: nat, q: QueueId)
    requires History(history, statements) && i < |statements| && QueueOk(history[i], q)
    ensures QueueOk(history[i + 1], q) <==> !SpoiltAt(history, statements, i, q)
  {
    assert Runs(history, statements, i);
    if history[i + 1] != history[i] { ExecutesQueue(history[i], statements[i], history[i + 1], q); }
  }

  /** A named queue runs serially over an interleaving of every worker's statements, with at
      most one locked job, if and only if none of them is a completion that spoils it. */
  lemma {:induction false} QueuesStaySerial(history: seq<Db>, statements: seq<Statement>, n: nat, q: QueueId)
    requires History(history, statements) && n < |history| && QueueOk(history[0], q)
    ensures (forall i: nat :: i <= n ==> QueueOk(history[i], q)) <==>
              forall i: nat :: i < n ==> !SpoiltAt(history, statements, i, q)
    ensures QueueOk(history[n], q) ==>
              forall j, k :: Occupies(history[n], j, q) && Occupies(history[n], k, q) ==> j == k
  {
    if n > 0 {
      QueuesStaySerial(history, statements, n - 1, q);
      if forall i: nat :: i <= n ==> QueueOk(history[i], q) {
        forall i: nat | i < n ensures !SpoiltAt(history, statements, i, q) {
          assert QueueOk(history[i], q) && QueueOk(history[i + 1], q);
          RunsQueue(history, statements, i, q);
        }
      }
      if forall i: nat :: i < n ==> !SpoiltAt(history, statements, i, q) {
        assert QueueOk(history[n - 1], q);
        RunsQueue(history, statements, n - 1, q);
      }
    }
  }

  /** What others, and the worker's other tasks, do before the n-th statement of a loop. */
  type World = (nat, Db) -> Db

  ghost predicate Possible(world: World) { forall n, db :: Evolves(db, world(n, db)) }

  lemma {:induction false} EvolutionKeeps(history: seq<Db>, statements: seq<Statement>, i: nat)
    requires Evolution(history, statements) && i < |history| && Valid(history[0])
    ensures Valid(history[i])
  {
    if i > 0 {
      EvolutionKeeps(history, statements, i - 1);
      assert Runs(history, statements, i - 1) && SpoilsNone(history[i - 1], statements[i - 1]);
      if history[i] != history[i - 1] { ExecutesKeeps(history[i - 1], statements[i - 1], history[i]); }
    }
  }

  lemma EvolvesKeeps(db: Db, db': Db)
    requires Valid(db) && Evolves(db, db')
    ensures Valid(db')
  {
    var history, statements :| Evolution(history, statements) && history[0] == db && history[|statements|] == db';
    EvolutionKeeps(history, statements, |statements|);
  }
}
