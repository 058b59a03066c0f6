/** The two retry loops: pooled statements that failed before commit, and the return of
    claims, which is repeated whatever the failure. */
module SqlRetry {
  import opened JobTable

  // ------------------------------------------------------------ pooled statements

  datatype Code = SerializationFailure | DeadlockDetected | CannotConnectNow | HostUnreachable | TimedOut | OtherCode

  /** A failure, and whether the statement took effect although its answer was lost. */
  datatype Outcome = Success | Failure(code: Code, connection: bool, applied: bool)

  predicate TookEffect(o: Outcome) { o.Success? || o.applied }

  /** The failures for which `backoff` names a delay. */
  predicate Retryable(o: Outcome) {
    o.Failure? &&
    match o.code
    case SerializationFailure => true
    case DeadlockDetected => true
    case CannotConnectNow => true
    case HostUnreachable => o.connection
    case TimedOut => o.connection
    case OtherCode => false
  }

  /** How many of the first `n` executions took effect. */
  function Effects(script: nat -> Outcome, n: nat): nat {
    if n == 0 then 0 else Effects(script, n - 1) + if TookEffect(script(n - 1)) then 1 else 0
  }

  /** Retryable errors are known to precede the commit. */
  ghost predicate Sound(script: nat -> Outcome) {
    forall k: nat :: Retryable(script(k)) ==> !TookEffect(script(k))
  }

  lemma {:induction false} RetriesHaveNoEffect(script: nat -> Outcome, n: nat)
    requires Sound(script) && forall k: nat :: k < n ==> Retryable(script(k))
    ensures Effects(script, n) == 0
  {
    if n > 0 { RetriesHaveNoEffect(script, n - 1); }
  }

  /** `SqlRetryPolicy::run` against any environment: `script(k)` is what the k-th execution
      would meet. At most `maxAttempts` executions happen, the last outcome is the one
      returned, and all before it were retryable. When retryable errors precede the
      commit, the statement took effect at most once: exactly once if it succeeded. */
  method Run(maxAttempts: nat, script: nat -> Outcome) returns (result: Outcome, executions: nat)
    requires 0 < maxAttempts
    ensures 0 < executions <= maxAttempts && result == script(executions - 1)
    ensures forall k: nat :: k < executions - 1 ==> Retryable(script(k))
    ensures executions < maxAttempts ==> !Retryable(result)
    ensures Sound(script) ==> Effects(script, executions) == if TookEffect(result) then 1 else 0
  {
    executions := 0;
    for attempt := 1 to maxAttempts
      invariant executions == attempt - 1
      invariant forall k: nat :: k < executions ==> Retryable(script(k))
    {
      result := script(executions);
      executions := executions + 1;
      if result.Success? || !Retryable(result) {
        if Sound(script) { RetriesHaveNoEffect(script, executions - 1); }
        return;
      }
    }
    result := script(executions);
    executions := executions + 1;
    if Sound(script) { RetriesHaveNoEffect(script, executions - 1); }
  }

  // ---------------------------------------------------------- returning claims

  const MAX_RETURN_ATTEMPTS: nat := 20

  /** A return changes nothing if and only if the worker holds none of the jobs by then. */
  lemma ReturnHarmlessExactly(found: Db, ids: set<JobId>, w: string)
    ensures Return(found, ids, w) == found <==> HeldAmong(found, ids, w) == {}
  {
    if HeldAmong(found, ids, w) == {} {
      assert QueuesOf(found, {}) == {};
      assert Freed(found, {}, w) == {};
      assert Return(found, ids, w).queues == found.queues;
      assert Return(found, ids, w).jobs == found.jobs;
    } else {
      var j := Pick(HeldAmong(found, ids, w));
      assert Return(found, ids, w).jobs[j].lock.None? && found.jobs[j].lock.Some?;
    }
  }

  /** The database after `n` attempts, with anything in between. */
  function Returned(db: Db, ids: set<JobId>, w: string, script: nat -> Outcome, world: World, n: nat): Db {
    if n == 0 then db
    else
      var found := world(n - 1, Returned(db, ids, w, script, world, n - 1));
      if TookEffect(script(n - 1)) then Return(found, ids, w) else found
  }

  /** `return_jobs_with_retry`: repeats until an answer says Ok, at most twenty times. An
      Ok leaves none of the jobs held at that moment; an error comes only after twenty. */
  method ReturnJobsWithRetry(db: Db, ids: set<JobId>, w: string, script: nat -> Outcome, world: World)
    returns (ok: bool, db': Db, attempts: nat)
    ensures 0 < attempts <= MAX_RETURN_ATTEMPTS
    ensures ok <==> script(attempts - 1).Success?
    ensures !ok ==> attempts == MAX_RETURN_ATTEMPTS
    ensures db' == Returned(db, ids, w, script, world, attempts)
    ensures ok ==> HeldAmong(db', ids, w) == {}
  {
    db', attempts := db, 0;
    while true
      invariant attempts < MAX_RETURN_ATTEMPTS
      invariant db' == Returned(db, ids, w, script, world, attempts)
      decreases MAX_RETURN_ATTEMPTS - attempts
    {
      var answer := script(attempts);
      db' := world(attempts, db');
      if TookEffect(answer) { db' := Return(db', ids, w); }
      attempts := attempts + 1;
      if answer.Success? { return true, db', attempts; }
      if attempts >= MAX_RETURN_ATTEMPTS { return false, db', attempts; }
    }
  }

  /** What the pending permit gives: nothing claims the jobs for this worker meanwhile. */
  ghost predicate Fenced(world: World, ids: set<JobId>, w: string) {
    forall n, db :: HeldAmong(world(n, db), ids, w) <= HeldAmong(db, ids, w)
  }

  lemma {:induction false} StaysReturned(db: Db, ids: set<JobId>, w: string, script: nat -> Outcome, world: World,
                                         m: nat, n: nat)
    requires Fenced(world, ids, w) && m < n && TookEffect(script(m))
    ensures HeldAmong(Returned(db, ids, w, script, world, n), ids, w) == {}
  {
    var found := world(n - 1, Returned(db, ids, w, script, world, n - 1));
    if m < n - 1 {
      StaysReturned(db, ids, w, script, world, m, n - 1);
      assert HeldAmong(found, ids, w) <= HeldAmong(Returned(db, ids, w, script, world, n - 1), ids, w);
      ReturnHarmlessExactly(found, ids, w);
    }
  }

  /** Behind that fence the jobs are given back exactly once: after the first attempt that
      takes effect every later one, however often the answer is lost, changes nothing. */
  lemma GivenBackOnce(db: Db, ids: set<JobId>, w: string, script: nat -> Outcome, world: World, m: nat, n: nat)
    requires Fenced(world, ids, w) && m < n && TookEffect(script(m))
    ensures var found := world(n, Returned(db, ids, w, script, world, n));
            HeldAmong(found, ids, w) == {} && Return(found, ids, w) == found
  {
    var found := world(n, Returned(db, ids, w, script, world, n));
    StaysReturned(db, ids, w, script, world, m, n);
    assert HeldAmong(found, ids, w) <= HeldAmong(Returned(db, ids, w, script, world, n), ids, w);
    ReturnHarmlessExactly(found, ids, w);
  }
}
