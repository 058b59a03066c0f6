/** What the local queues promise, over every execution. */
module LocalQueueTheorems {
  import opened Wrappers
  import opened JobTable
  import opened LocalQueue
  import opened LocalQueueLocks
  import opened LocalQueueClaims
  import opened LocalQueueSafety

  // -------------------------------------------------------------------- ownership

  /** The named queue of the job, if it has one, was not opened under a job of the worker. */
  ghost predicate QueueKept(states: seq<State>, steps: seq<Step>, i: nat, j: JobId)
    requires i <= |steps| && |states| == |steps| + 1
  {
    QueueOf(states[i].db, j).Some? ==> !Opened(states, steps, i, QueueOf(states[i].db, j).value)
  }

  lemma LockedKeepsQueue(states: seq<State>, steps: seq<Step>, i: nat, j: JobId)
    requires Execution(states, steps) && i < |states| && LockedBy(states[i].db, states[i].me, j)
    requires QueueKept(states, steps, i, j)
    ensures Owned(states[i].db, states[i].me, j)
  {
    if QueueOf(states[i].db, j).Some? {
      var q := QueueOf(states[i].db, j).value;
      SoleReachable(states, steps, i, q);
      assert OccupiesFor(states[i].db, states[i].me, j, q);
    }
  }

  /** A job in the cache, in flight, in a handler or forgotten is locked by this worker
      unless it was robbed of that very job, and its named queue is locked with it unless
      the worker itself opened that very queue. */
  lemma ClaimsStayOwned(states: seq<State>, steps: seq<Step>, i: nat, j: JobId, p: Place)
    requires Execution(states, steps) && i < |states|
    requires !Robbed(states, steps, i, j) && At(states[i], j, p) && !p.InPending?
    ensures LockedBy(states[i].db, states[i].me, j)
    ensures QueueKept(states, steps, i, j) ==> Owned(states[i].db, states[i].me, j)
  {
    JobReachable(states, steps, i, j);
    if QueueKept(states, steps, i, j) { LockedKeepsQueue(states, steps, i, j); }
  }

  /** What a late statement, or a statement of another worker, does to a job the worker
      relies on: the worker goes on relying on it, and still has it locked exactly when the
      step does not take it. A late claim takes none, and another worker only by completing. */
  lemma LateHarmlessExactly(states: seq<State>, steps: seq<Step>, i: nat, j: JobId)
    requires Execution(states, steps) && i < |steps| && (steps[i].LateStep? || steps[i].Elsewhere?)
    requires !Robbed(states, steps, i, j) && Relied(states[i], j)
    ensures var s' := states[i + 1];
            Relied(s', j) && (LockedBy(s'.db, s'.me, j) <==> j !in Taken(steps[i]))
  {
    JobReachable(states, steps, i, j);
    assert StepAt(states, steps, i);
    TakingLocks(states[i], steps[i], states[i + 1], j);
  }

  lemma TakingLocks(s: State, step: Step, s': State, j: JobId)
    requires Next(s, step, s') && (step.LateStep? || step.Elsewhere?) && Relied(s, j)
    ensures s'.me == s.me && Relied(s', j) && (j in Taken(step) ==> !LockedBy(s'.db, s.me, j))
    ensures j !in Taken(step) && LockedBy(s.db, s.me, j) ==> LockedBy(s'.db, s.me, j)
  {
    if step.LateStep? {
      LateLocks(s, step.stmt, step.claimed, step.runAt, s', j);
    } else {
      var p :| At(s, j, p) && !p.InPending? && !p.Stranded?;
      assert At(s', j, p);
      ExecutesLocks(s.db, step.st, s'.db, s.me);
    }
  }

  lemma LateLocks(s: State, stmt: LateStatement, claimed: set<JobId>, runAt: int, s': State, j: JobId)
    requires TakesEffect(s, stmt, claimed, runAt, s') && Relied(s, j)
    ensures s'.me == s.me && Relied(s', j) && (j in Listed(stmt) ==> !LockedBy(s'.db, s.me, j))
    ensures j !in Listed(stmt) && LockedBy(s.db, s.me, j) ==> LockedBy(s'.db, s.me, j)
  {
    var p :| At(s, j, p) && !p.InPending? && !p.Stranded?;
    assert At(s', j, p);
    match stmt
    case LateFail(k) => FailReleases(s.db, k, s.me, runAt);
    case LateDone(k, named) => CompleteLocks(s.db, k, named, s.me);
    case LateReturn(ids) => ReturnReleases(s.db, ids, s.me);
    case LateClaim(r) =>
      ClaimStepClaimable(s.db, r, claimed, s'.db);
      ClaimLocks(s.db, claimed, Lock(r.worker, r.now));
  }

  /** Over any step at all: a job that the worker relied on and goes on relying on loses its
      lock if and only if the step hits it. */
  lemma HitExactly(states: seq<State>, steps: seq<Step>, i: nat, j: JobId)
    requires Execution(states, steps) && i < |steps| && !Robbed(states, steps, i, j)
    requires Relied(states[i], j) && Relied(states[i + 1], j)
    ensures LockedBy(states[i + 1].db, states[i + 1].me, j) <==> !Hits(states[i], steps[i], j)
  {
    JobReachable(states, steps, i, j);
    InvReachable(states, steps, i);
    assert StepAt(states, steps, i);
    if Hits(states[i], steps[i], j) {
      TakingLocks(states[i], steps[i], states[i + 1], j);
    } else {
      NextKeepsJob(states[i], steps[i], states[i + 1], j);
    }
  }

  /** The worker has locked every job it has, and holds the named queue of every job it has
      locked. */
  ghost predicate AllOwned(s: State) {
    && (forall j, p :: At(s, j, p) && !p.InPending? ==> LockedBy(s.db, s.me, j))
    && (forall j :: LockedBy(s.db, s.me, j) ==> Owned(s.db, s.me, j))
  }

  /** The step hits no job, and does not open a named queue under a job of the worker. */
  ghost predicate Harmless(s: State, step: Step) {
    (forall j :: !Hits(s, step, j)) && (forall q :: !Opening(s, step, q))
  }

  /** The worker owns everything throughout an execution, jobs and named queues, if and only
      if every step of it was harmless. */
  lemma OwnedThroughout(states: seq<State>, steps: seq<Step>, n: nat)
    requires Execution(states, steps) && n < |states|
    ensures (forall k: nat :: k <= n ==> AllOwned(states[k])) <==>
              forall k: nat :: k < n ==> Harmless(states[k], steps[k])
  {
    if forall k: nat :: k <= n ==> AllOwned(states[k]) {
      forall k: nat | k < n ensures Harmless(states[k], steps[k]) { OwnedMeansHarmless(states, steps, k); }
    }
    if forall k: nat :: k < n ==> Harmless(states[k], steps[k]) {
      forall k: nat | k <= n ensures AllOwned(states[k]) { HarmlessMeansOwned(states, steps, k); }
    }
  }

  lemma OwnedMeansHarmless(states: seq<State>, steps: seq<Step>, k: nat)
    requires Execution(states, steps) && k < |steps| && AllOwned(states[k + 1])
    ensures Harmless(states[k], steps[k])
  {
    assert StepAt(states, steps, k);
    forall j ensures !Hits(states[k], steps[k], j) {
      if Hits(states[k], steps[k], j) { TakingLocks(states[k], steps[k], states[k + 1], j); }
    }
    forall q ensures !Opening(states[k], steps[k], q) {
      if Opening(states[k], steps[k], q) { OpeningShows(states[k], steps[k], states[k + 1], q); }
    }
  }

  lemma OpeningShows(s: State, step: Step, s': State, q: QueueId)
    requires Next(s, step, s') && Opening(s, step, q)
    ensures !AllOwned(s')
  {
    StepExecutes(s, step, s');
    OpenedUnder(s.db, StatementOf(s, step).value, s.me, q);
  }

  lemma HarmlessMeansOwned(states: seq<State>, steps: seq<Step>, k: nat)
    requires Execution(states, steps) && k < |states|
    requires forall i: nat :: i < k ==> Harmless(states[i], steps[i])
    ensures AllOwned(states[k])
  {
    forall j, p | At(states[k], j, p) && !p.InPending? ensures LockedBy(states[k].db, states[k].me, j) {
      ClaimsStayOwned(states, steps, k, j, p);
    }
    forall j | LockedBy(states[k].db, states[k].me, j) ensures Owned(states[k].db, states[k].me, j) {
      LockedKeepsQueue(states, steps, k, j);
    }
  }

  // ------------------------------------------------------------------ named queues

  /** A named queue stays serial throughout an execution if and only if no completion, by a
      handler of this worker or another one, on time or late, spoils it. */
  lemma SerialThroughout(states: seq<State>, steps: seq<Step>, n: nat, q: QueueId)
    requires Execution(states, steps) && n < |states|
    ensures (forall k: nat :: k <= n ==> QueueOk(states[k].db, q)) <==> Unspoilt(states, steps, n, q)
  {
    if forall k: nat :: k <= n ==> QueueOk(states[k].db, q) {
      forall k: nat | k < n ensures !Spoiling(states[k], steps[k], q) {
        assert StepAt(states, steps, k) && QueueOk(states[k].db, q) && QueueOk(states[k + 1].db, q);
        NextKeepsQueue(states[k], steps[k], states[k + 1], q);
      }
    }
    if Unspoilt(states, steps, n, q) {
      forall k: nat | k <= n ensures QueueOk(states[k].db, q) { SerialReachable(states, steps, k, q); }
    }
  }

  /** A handler of this worker whose report takes effect on time spoils a named queue only by
      completing a job it was robbed of. */
  lemma SpoilerWasRobbed(states: seq<State>, steps: seq<Step>, i: nat, q: QueueId)
    requires Execution(states, steps) && i < |steps| && steps[i].ReportDone? && Spoiling(states[i], steps[i], q)
    ensures Robbed(states, steps, i, steps[i].job)
  {
    assert StepAt(states, steps, i);
    if !Robbed(states, steps, i, steps[i].job) {
      JobReachable(states, steps, i, steps[i].job);
      HolderCompletesCleanly(states[i], steps[i].job, steps[i].named);
    }
  }

  lemma HolderCompletesCleanly(s: State, j: JobId, named: bool)
    requires JobInv(s, j) && Tells(s, j, named)
    ensures CompletesCleanly(s.db, j, named, s.me)
  {
    assert At(s, j, InHands);
    assert CurrentCopy(s, j);
  }

  // ------------------------------------------------------------- hits and returns

  /** What a hit does: the fallback of a failure report that finds its job running again
      takes the job and its named queue from the running handler, so that others can
      claim both. */
  lemma FallbackRobsHandler(states: seq<State>, steps: seq<Step>, i: nat, j: JobId, runAt: int)
    requires Execution(states, steps) && i < |states| && !Robbed(states, steps, i, j)
    requires j in states[i].held && LateFail(j) in states[i].late
    ensures var s := states[i];
            var s' := LetGo(s, LateFail(j), Fail(s.db, j, s.me, runAt), {j});
            && Next(s, LateStep(LateFail(j), {}, runAt), s') && Hits(s, LateStep(LateFail(j), {}, runAt), j)
            && j in s'.held && j in s'.db.jobs && s'.db.jobs[j].lock.None?
            && (QueueKept(states, steps, i, j) ==> QueueOpen(s'.db, s'.db.jobs[j]))
  {
    var s := states[i];
    assert At(s, j, InHands);
    ClaimsStayOwned(states, steps, i, j, InHands);
    assert j in HeldAmong(s.db, {j}, s.me);
    if QueueKept(states, steps, i, j) { FailFrees(s.db, j, s.me, runAt); }
  }

  /** And what another worker does that completes a job it has lost: it is always possible,
      deletes the row under this worker, spoils the job's named queue, and leaves it locked
      by this worker without a job of its own. */
  lemma StrayCompletionRobs(states: seq<State>, steps: seq<Step>, i: nat, j: JobId, w: string, named: bool)
    requires Execution(states, steps) && i < |states| && !Robbed(states, steps, i, j)
    requires Relied(states[i], j) && w != states[i].me
    ensures var s := states[i];
            var step := Elsewhere(CompleteJob(w, j, named));
            var s' := s.(db := Complete(s.db, j, named, w), stranded := s.stranded - {j});
            && Next(s, step, s') && Hits(s, step, j) && Relied(s', j) && j !in s'.db.jobs
            && (QueueOf(s.db, j).Some? && QueueKept(states, steps, i, j) ==>
                  var q := QueueOf(s.db, j).value;
                  && Spoiling(s, step, q) && !Busy(s', q)
                  && q in s'.db.queues && s'.db.queues[q].Some? && s'.db.queues[q].value.worker == s.me)
  {
    var s := states[i];
    var step := Elsewhere(CompleteJob(w, j, named));
    var s' := s.(db := Complete(s.db, j, named, w), stranded := s.stranded - {j});
    var p :| At(s, j, p) && !p.InPending? && !p.Stranded?;
    ClaimsStayOwned(states, steps, i, j, p);
    TakingLocks(s, step, s', j);
    if QueueOf(s.db, j).Some? && QueueKept(states, steps, i, j) {
      SoleReachable(states, steps, i, QueueOf(s.db, j).value);
      StrayLeaves(s, j, w, named, QueueOf(s.db, j).value);
    }
  }

  lemma StrayLeaves(s: State, j: JobId, w: string, named: bool, q: QueueId)
    requires Sole(s.db, s.me, q) && OccupiesFor(s.db, s.me, j, q) && w != s.me
    ensures var db' := Complete(s.db, j, named, w);
            && q in db'.queues && db'.queues[q].Some? && db'.queues[q].value.worker == s.me
            && forall k :: !OccupiesFor(db', s.me, k, q)
  {
    CompleteLocks(s.db, j, named, w);
    assert Owned(s.db, s.me, j);
    forall k ensures !OccupiesFor(Complete(s.db, j, named, w), s.me, k, q) {
      assert OccupiesFor(s.db, s.me, k, q) ==> k == j;
    }
  }

  /** A return statement, first or retried, changes no row outside the pending jobs,
      and takes no job or named queue from a handler, from a cache or from another worker. */
  lemma RetriedReturnIsHarmless(states: seq<State>, steps: seq<Step>, i: nat, t: Tid, post: Option<Pc>)
    requires Execution(states, steps) && i < |steps| && steps[i] == TaskStep(t, SqlReturn, post)
    ensures var s, s' := states[i], states[i + 1];
            && (forall j, p :: !Robbed(states, steps, i, j) && At(s, j, p) && !p.InPending? ==>
                  && LockedBy(s'.db, s.me, j) && j in s.db.jobs && s'.db.jobs[j] == s.db.jobs[j]
                  && (QueueKept(states, steps, i, j) ==> Owned(s'.db, s.me, j)))
            && (forall w, j :: w != s.me && LockedBy(s.db, w, j) ==>
                  j in s'.db.jobs && s'.db.jobs[j] == s.db.jobs[j] && (Owned(s.db, w, j) ==> Owned(s'.db, w, j)))
  {
    var s, s' := states[i], states[i + 1];
    assert StepAt(states, steps, i);
    var q := s.tasks[t].q;
    ReturnSpares(s.db, SetOf(s.queues[q].pending), s.me);
    forall j, p | !Robbed(states, steps, i, j) && At(s, j, p) && !p.InPending?
      ensures LockedBy(s.db, s.me, j) && j !in SetOf(s.queues[q].pending)
      ensures QueueKept(states, steps, i, j) ==> Owned(s'.db, s.me, j)
    {
      JobReachable(states, steps, i, j);
      assert !At(s, j, InPending(q));
      if QueueKept(states, steps, i, j) { ReturnKeepsOwned(states, steps, i, SetOf(s.queues[q].pending), j); }
    }
  }

  lemma ReturnSpares(db: Db, ids: set<JobId>, w: string)
    ensures var db' := Return(db, ids, w);
            && (forall j :: LockedBy(db, w, j) && j !in ids ==> LockedBy(db', w, j) && db'.jobs[j] == db.jobs[j])
            && (forall v, j :: v != w && LockedBy(db, v, j) ==>
                  LockedBy(db', v, j) && db'.jobs[j] == db.jobs[j] && (Owned(db, v, j) ==> Owned(db', v, j)))
  {
    ReturnReleases(db, ids, w);
  }

  lemma ReturnKeepsOwned(states: seq<State>, steps: seq<Step>, i: nat, ids: set<JobId>, j: JobId)
    requires Execution(states, steps) && i < |steps| && QueueKept(states, steps, i, j)
    requires LockedBy(states[i].db, states[i].me, j) && j !in ids
    ensures Owned(Return(states[i].db, ids, states[i].me), states[i].me, j)
  {
    var s := states[i];
    var db' := Return(s.db, ids, s.me);
    ReturnReleases(s.db, ids, s.me);
    if s.db.jobs[j].queue.Some? {
      var q := s.db.jobs[j].queue.value;
      SoleReachable(states, steps, i, q);
      SoleRelease(s.db, db', HeldAmong(s.db, ids, s.me), s.me, q);
      assert OccupiesFor(db', s.me, j, q);
    }
  }

  // ----------------------------------------------------------------- conservation

  /** Every job this worker has locked is in exactly one place, unless it was robbed of it. */
  lemma ExactlyOnePlace(states: seq<State>, steps: seq<Step>, i: nat, j: JobId)
    requires Execution(states, steps) && i < |states|
    requires !Robbed(states, steps, i, j) && LockedBy(states[i].db, states[i].me, j)
    ensures exists p :: At(states[i], j, p) && forall p' :: At(states[i], j, p') ==> p' == p
  {
    JobReachable(states, steps, i, j);
    var p :| At(states[i], j, p);
  }

  /** The locked jobs a step makes nobody remember. */
  function Forgotten(s: State, step: Step): set<JobId> {
    match step
    case TaskStep(_, SqlClaimLost(_, claimed), _) => claimed
    case TaskStep(t, Strand(_), _) =>
      if t in s.tasks then HeldAmong(s.db, SetOf(Carried(s.tasks[t].pc)), s.me) else {}
    case TaskStep(t, ClearPending, _) =>
      if t in s.tasks && s.tasks[t].q in s.queues
      then HeldAmong(s.db, SetOf(s.queues[s.tasks[t].q].pending), s.me) else {}
    case FinishUnsaved(j) => HeldAmong(s.db, {j}, s.me)
    case DoneLost(j, _) => HeldAmong(s.db, {j}, s.me)
    case ReportLost(j, applied, _) => if applied then {} else HeldAmong(s.db, {j}, s.me)
    case DropQueue(q) =>
      if q in s.queues then HeldAmong(s.db, SetOf(s.queues[q].cache) + SetOf(s.queues[q].pending), s.me) else {}
    case LateStep(LateClaim(_), claimed, _) => claimed - PendingJobs(s)
    case _ => {}
  }

  /** A future that was dropped after it took a job and before it returned it: a
      `get_job` suspended in `set_mode` or in its claim statement. */
  ghost predicate DroppedHolding(s: State, step: Step) {
    && step.TaskStep? && step.t in s.tasks && step.post.None?
    && var pc := s.tasks[step.t].pc;
    || (pc.Get? && (pc.get.InHook? || (pc.get.Popped? && pc.get.last)))
    || (pc.Direct? && pc.direct.Answered?)
  }

  /** A statement of this worker without an answer, or a queue dropped with its jobs. */
  ghost predicate Unanswered(step: Step) {
    || step.FinishUnsaved? || step.DoneLost? || step.ReportLost? || step.DropQueue? || step.LateStep?
    || (step.TaskStep? && step.e.SqlClaimLost?)
  }

  /** A return is acknowledged although a late claim has locked the job again. */
  ghost predicate AckedRelocked(s: State, step: Step, j: JobId) {
    step.TaskStep? && step.e == ClearPending && j in s.relocked
  }

  /** How a claim may leave its place for good. */
  ghost predicate Leaves(s: State, step: Step, j: JobId, p: Place) {
    || (step.TaskStep? && step.e == ClearPending && p.InPending? && !LockedBy(s.db, s.me, j))
    || (Reports(step) && step.job == j)
    || (step.DropQueue? && p == InPending(step.q) && !LockedBy(s.db, s.me, j))
    || (p == Stranded && j in Taken(step))
  }

  /** Conservation, job by job: a claim leaves its places only when its return was
      acknowledged, its handler reported, or it was forgotten and a late statement or
      another worker disposed of it; and it joins the forgotten ones exactly when a claim or
      a report got no answer, its queue was dropped, `get_job` was dropped while it held the
      job, or a late claim locked it again under its own return. */
  lemma ClaimsConserved(states: seq<State>, steps: seq<Step>, i: nat, j: JobId)
    requires Execution(states, steps) && i < |steps|
    requires !Robbed(states, steps, i, j) && !Hits(states[i], steps[i], j)
    ensures var s, step, s' := states[i], steps[i], states[i + 1];
            && (j in s'.stranded <==> (j in s.stranded && j !in Taken(step)) || j in Forgotten(s, step))
            && (j in Forgotten(s, step) ==> DroppedHolding(s, step) || Unanswered(step) || AckedRelocked(s, step, j))
            && (forall p :: At(s, j, p) && !Somewhere(s', j) ==> Leaves(s, step, j, p))
  {
    var s, step, s' := states[i], steps[i], states[i + 1];
    InvReachable(states, steps, i);
    JobReachable(states, steps, i, j);
    assert StepAt(states, steps, i);
    if step.TaskStep? {
      TaskConserves(s, step.t, step.e, step.post, s', j);
    } else {
      OutsideConserves(s, step, s', j);
    }
  }

  /** The ledger of relocked jobs, said without it. */
  lemma {:induction false} RelockedExactly(states: seq<State>, steps: seq<Step>, i: nat, j: JobId)
    requires Execution(states, steps) && i < |states|
    ensures j in states[i].relocked <==> exists k: nat :: k < i && Relocks(states[k], steps[k], j)
  {
    if i > 0 {
      RelockedExactly(states, steps, i - 1, j);
      assert StepAt(states, steps, i - 1);
      RelockStep(states[i - 1], steps[i - 1], states[i], j);
      if k: nat :| k < i && Relocks(states[k], steps[k], j) { assert k < i - 1 || k == i - 1; }
    }
  }

  /** A late claim locks a job whose return is not acknowledged yet. */
  ghost predicate Relocks(s: State, step: Step, j: JobId) {
    step.LateStep? && step.stmt.LateClaim? && j in step.claimed && j in PendingJobs(s)
  }

  lemma RelockStep(s: State, step: Step, s': State, j: JobId)
    requires Next(s, step, s')
    ensures j in s'.relocked <==> j in s.relocked || Relocks(s, step, j)
  {
    if step.LateStep? { assert TakesEffect(s, step.stmt, step.claimed, step.runAt, s'); }
  }

  lemma TaskConserves(s: State, t: Tid, e: Effect, post: Option<Pc>, s': State, j: JobId)
    requires Inv(s) && JobInv(s, j) && Next(s, TaskStep(t, e, post), s')
    ensures j in s'.stranded <==> j in s.stranded || j in Forgotten(s, TaskStep(t, e, post))
    ensures j in Forgotten(s, TaskStep(t, e, post)) ==>
              DroppedHolding(s, TaskStep(t, e, post)) || e.SqlClaimLost? || (e == ClearPending && j in s.relocked)
    ensures forall p :: At(s, j, p) && !Somewhere(s', j) ==>
              e == ClearPending && p.InPending? && !LockedBy(s.db, s.me, j)
  {
    var x := s.queues[s.tasks[t].q];
    CarryTable(x, s.permits, s.tasks[t].pc, e, post);
    TaskForgets(s, t, e, post, s', j);
    TaskStepTook(s, t, e, post);
    LeavesOnlyByAck(s, t, e, post, s', j);
  }

  lemma TaskForgets(s: State, t: Tid, e: Effect, post: Option<Pc>, s': State, j: JobId)
    requires JobInv(s, j) && Next(s, TaskStep(t, e, post), s')
    requires CarryStep(s.queues[s.tasks[t].q], s.tasks[t].pc, e, post)
    ensures j in s'.stranded <==> j in s.stranded || j in Forgotten(s, TaskStep(t, e, post))
    ensures j in Forgotten(s, TaskStep(t, e, post)) ==>
              DroppedHolding(s, TaskStep(t, e, post)) || e.SqlClaimLost? || (e == ClearPending && j in s.relocked)
  {
    var x := s.queues[s.tasks[t].q];
    if e.Strand? { StrandOrigin(x, s.permits, s.tasks[t].pc, e, post); }
    if e.ClearPending? && j in x.pending { assert Returned(s, t, j); }
    if e.SqlReturn? { assert !(At(s, j, Stranded) && At(s, j, InPending(s.tasks[t].q))); }
  }

  lemma StrandOrigin(x: Queue, n: nat, pc: Pc, e: Effect, post: Option<Pc>)
    requires Moves(x, n, pc, e, post) && e.Strand?
    ensures post.None? && e.jobs == Carried(pc)
    ensures (pc.Get? && (pc.get.InHook? || (pc.get.Popped? && pc.get.last))) || (pc.Direct? && pc.direct.Answered?)
  {
  }

  /** The points at which dropping a future loses claims, exactly. */
  lemma DroppableHolding(pc: Pc)
    ensures Cancellable(pc) && Carried(pc) != [] <==>
              || (pc.Get? && (pc.get.InHook? || (pc.get.Popped? && pc.get.last)))
              || (pc.Direct? && pc.direct.Answered? && pc.direct.jobs != [])
  {
  }

  /** At each of them the loss happens: the dropped job stays locked by this worker, and
      no cache, pending list, caller or other task has it. */
  lemma DroppedGetJobStrands(states: seq<State>, steps: seq<Step>, i: nat, t: Tid, j: JobId)
    requires Execution(states, steps) && i < |states| && !Robbed(states, steps, i, j) && t in states[i].tasks
    requires Cancellable(states[i].tasks[t].pc) && j in Carried(states[i].tasks[t].pc)
    ensures var s := states[i];
            var step := TaskStep(t, Strand(Carried(s.tasks[t].pc)), None);
            && s.tasks[t].q in s.queues
            && var s' := Apply(s, t, step.e, None);
            && Next(s, step, s') && LockedBy(s'.db, s'.me, j)
            && forall p :: At(s', j, p) <==> p == Stranded
  {
    InvReachable(states, steps, i);
    JobReachable(states, steps, i, j);
    DropStrands(states[i], t, j);
  }

  lemma DropStrands(s: State, t: Tid, j: JobId)
    requires Inv(s) && JobInv(s, j) && t in s.tasks
    requires Cancellable(s.tasks[t].pc) && j in Carried(s.tasks[t].pc)
    ensures s.tasks[t].q in s.queues
    ensures var e := Strand(Carried(s.tasks[t].pc));
            var s' := Apply(s, t, e, None);
            && Next(s, TaskStep(t, e, None), s') && LockedBy(s'.db, s'.me, j)
            && forall p :: At(s', j, p) <==> p == Stranded
  {
    var e := Strand(Carried(s.tasks[t].pc));
    var s' := Apply(s, t, e, None);
    StrandIsStep(s, t);
    NextKeepsJob(s, TaskStep(t, e, None), s', j);
    assert At(s, j, InTask(t)) && LockedBy(s.db, s.me, j);
    assert At(s', j, Stranded);
  }

  lemma StrandIsStep(s: State, t: Tid)
    requires t in s.tasks && s.tasks[t].q in s.queues
    requires Cancellable(s.tasks[t].pc) && Carried(s.tasks[t].pc) != []
    ensures var e := Strand(Carried(s.tasks[t].pc));
            Next(s, TaskStep(t, e, None), Apply(s, t, e, None))
  {
  }

  lemma LeavesOnlyByAck(s: State, t: Tid, e: Effect, post: Option<Pc>, s': State, j: JobId)
    requires PermitInv(s) && JobInv(s, j) && Took(s, t, e, post, s') && Answers(s, e, post)
    ensures forall p :: At(s, j, p) && !Somewhere(s', j) ==>
              e == ClearPending && p.InPending? && !LockedBy(s.db, s.me, j)
  {
    var q := s.tasks[t].q;
    if e.SqlClaim? || e.SqlClaimLost? {
      ClaimMoves(s, t, e, post, s', j);
    } else if Passes(e) {
      PassMoves(s, t, e, post, s', j);
    } else {
      SamePlaces(s, t, e, post, s', j);
    }
    forall p | At(s, j, p)
      ensures Somewhere(s', j) || (e == ClearPending && p == InPending(q) && !LockedBy(s.db, s.me, j))
    {
      assert || At(s', j, p) || At(s', j, Stranded) || At(s', j, Landing(t, e)) || (Passes(e) && At(s', j, To(q, t, e)))
             || (e == ClearPending && p == InPending(q) && !LockedBy(s.db, s.me, j));
    }
  }

  lemma OutsideConserves(s: State, step: Step, s': State, j: JobId)
    requires JobInv(s, j) && Next(s, step, s') && !step.TaskStep?
    ensures j in s'.stranded <==> (j in s.stranded && j !in Taken(step)) || j in Forgotten(s, step)
    ensures j in Forgotten(s, step) ==> Unanswered(step)
    ensures forall p :: At(s, j, p) && !Somewhere(s', j) ==> Leaves(s, step, j, p)
  {
    if step.DropQueue? {
      DropConserves(s, step.q, s', j);
    } else if step.LateStep? {
      LateConserves(s, step.stmt, step.claimed, step.runAt, s', j);
    } else if QueueStep(step) || step.Elsewhere? {
      QuietConserves(s, step, s', j);
    } else {
      HandlerConserves(s, step, s', j);
    }
  }

  lemma HandlerConserves(s: State, step: Step, s': State, j: JobId)
    requires OnePlace(s, j) && Next(s, step, s')
    requires !step.TaskStep? && !QueueStep(step) && !step.LateStep? && !step.Elsewhere?
    ensures j in s'.stranded <==> j in s.stranded || j in Forgotten(s, step)
    ensures LockedThere(s, j) ==> forall p :: At(s, j, p) && !Somewhere(s', j) ==> Reports(step) && step.job == j
  {
    if j == step.job {
      assert At(s, j, InHands) && !At(s, j, Stranded);
      assert LockedBy(s.db, s.me, j) && !Reports(step) ==> At(s', j, Stranded);
    } else {
      OthersStay(s, s', step.job, j);
    }
  }

  lemma OthersStay(s: State, s': State, k: JobId, j: JobId)
    requires j != k && s'.queues == s.queues && s'.tasks == s.tasks
    requires s'.held == s.held - multiset{k} && (j in s.stranded ==> j in s'.stranded)
    ensures forall p :: At(s, j, p) ==> Somewhere(s', j)
  {
    forall p | At(s, j, p) ensures Somewhere(s', j) { assert At(s', j, p); }
  }

  lemma QuietConserves(s: State, step: Step, s': State, j: JobId)
    requires Next(s, step, s') && (QueueStep(step) || step.Elsewhere?) && !step.DropQueue?
    ensures s'.stranded == s.stranded - Taken(step) && Forgotten(s, step) == {}
    ensures forall p :: At(s, j, p) && !Somewhere(s', j) ==> p == Stranded && j in Taken(step)
  {
    forall p | At(s, j, p) ensures Somewhere(s', j) || (p == Stranded && j in Taken(step)) {
      assert At(s', j, p) || (p == Stranded && j in Taken(step));
    }
  }

  lemma LateConserves(s: State, stmt: LateStatement, claimed: set<JobId>, runAt: int, s': State, j: JobId)
    requires TakesEffect(s, stmt, claimed, runAt, s')
    ensures j in s'.stranded <==>
              (j in s.stranded && j !in Listed(stmt)) || j in Forgotten(s, LateStep(stmt, claimed, runAt))
    ensures forall p :: At(s, j, p) && !Somewhere(s', j) ==> p == Stranded && j in Listed(stmt)
  {
    forall p | At(s, j, p) ensures Somewhere(s', j) || (p == Stranded && j in Listed(stmt)) {
      assert At(s', j, p) || (p == Stranded && j in Listed(stmt));
    }
  }

  lemma DropConserves(s: State, q: Qid, s': State, j: JobId)
    requires LockedThere(s, j) && Closes(s, q, s')
    ensures forall p :: At(s, j, p) && !Somewhere(s', j) ==> p == InPending(q) && !LockedBy(s.db, s.me, j)
  {
    forall p | At(s, j, p) ensures Somewhere(s', j) || (p == InPending(q) && !LockedBy(s.db, s.me, j)) {
      assert At(s', j, p) || At(s', j, Stranded) || (p == InPending(q) && !LockedBy(s.db, s.me, j));
    }
  }

  // ------------------------------------------------------------------ coordinator

  /** The coordinator counts exactly the queues with a live permit, also those whose
      return was dropped, and no claim guard coexists with a permit or with the write
      lock under which one is being taken. */
  lemma CoordinatorExcludes(states: seq<State>, steps: seq<Step>, i: nat)
    requires Execution(states, steps) && i < |states|
    ensures var s := states[i];
            && s.permits == |PermitSet(s)|
            && (forall q, t :: q in s.queues && s.queues[q].permit && t in s.tasks ==> !Guarded(s.tasks[t].pc))
            && (forall t, u :: t in s.tasks && u in s.tasks && Holds(s.tasks[t], ClaimWrite) ==>
                  !Holds(s.tasks[u], ClaimRead))
  {
    InvReachable(states, steps, i);
    GuardsAndPermits(states[i]);
  }

  lemma GuardsAndPermits(s: State)
    requires LocksInv(s) && PermitInv(s)
    ensures forall q, t :: q in s.queues && s.queues[q].permit && t in s.tasks ==> !Guarded(s.tasks[t].pc)
    ensures forall t, u :: t in s.tasks && u in s.tasks && Holds(s.tasks[t], ClaimWrite) ==>
              !Holds(s.tasks[u], ClaimRead)
  {
    forall q, t | q in s.queues && s.queues[q].permit && t in s.tasks ensures !Guarded(s.tasks[t].pc) {
      if Guarded(s.tasks[t].pc) { GuardMeansNoPending(s, t); }
    }
    forall t, u | t in s.tasks && u in s.tasks && Holds(s.tasks[t], ClaimWrite) ensures !Holds(s.tasks[u], ClaimRead) {
      if t != u { Exclusion(s.tasks[t], s.tasks[u]); }
    }
  }
}
