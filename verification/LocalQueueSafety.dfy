/** The claim protocol's guarantees in every reachable state of every execution. */
module LocalQueueSafety {
  import opened Wrappers
  import opened JobTable
  import opened LocalQueue
  import opened LocalQueueLocks
  import opened LocalQueueLife
  import opened LocalQueueClaims

  /** Locks, permits and lives are in order, whatever happens to the database. */
  ghost predicate CoreInv(s: State) { LocksInv(s) && PermitInv(s) && LifeInv(s) }

  ghost predicate Inv(s: State) { CoreInv(s) && CarryInv(s) }

  // -------------------------------------------------------- statements and hits

  /** The statement that a step carries out, if any. */
  ghost function StatementOf(s: State, step: Step): Option<Statement> {
    match step
    case TaskStep(t, e, _) =>
      if t in s.tasks && s.tasks[t].q in s.queues then EffectStatement(s, s.queues[s.tasks[t].q], e) else None
    case ReportDone(j, named) => Some(CompleteJob(s.me, j, named))
    case ReportFailed(j, runAt) => Some(FailJob(s.me, j, runAt))
    case ReportLost(j, applied, runAt) => if applied then Some(FailJob(s.me, j, runAt)) else None
    case LateStep(stmt, claimed, runAt) => Some(LateStatementOf(s, stmt, claimed, runAt))
    case Elsewhere(st) => Some(st)
    case _ => None
  }

  ghost function EffectStatement(s: State, x: Queue, e: Effect): Option<Statement> {
    match e
    case SqlClaim(r, claimed) => Some(ClaimJobs(r, claimed))
    case SqlClaimLost(r, claimed) => Some(ClaimJobs(r, claimed))
    case SqlReturn => Some(ReturnJobs(s.me, SetOf(x.pending)))
    case _ => None
  }

  ghost function LateStatementOf(s: State, stmt: LateStatement, claimed: set<JobId>, runAt: int): Statement {
    match stmt
    case LateFail(j) => FailJob(s.me, j, runAt)
    case LateDone(j, named) => CompleteJob(s.me, j, named)
    case LateReturn(ids) => ReturnJobs(s.me, ids)
    case LateClaim(r) => ClaimJobs(r, claimed)
  }

  /** Every step but those changes no table, and those change it by their statement. */
  lemma StepExecutes(s: State, step: Step, s': State)
    requires Next(s, step, s')
    ensures s'.me == s.me
    ensures match StatementOf(s, step)
            case None => s'.db == s.db
            case Some(st) => Executes(s.db, st, s'.db)
  {
    if step.LateStep? { LateExecutes(s, step.stmt, step.claimed, step.runAt, s'); }
  }

  lemma LateExecutes(s: State, stmt: LateStatement, claimed: set<JobId>, runAt: int, s': State)
    requires TakesEffect(s, stmt, claimed, runAt, s')
    ensures s'.me == s.me && Executes(s.db, LateStatementOf(s, stmt, claimed, runAt), s'.db)
  {
  }

  /** The jobs a late statement may unlock. */
  function Listed(stmt: LateStatement): set<JobId> {
    match stmt
    case LateFail(j) => {j}
    case LateDone(j, _) => {j}
    case LateReturn(ids) => ids
    case LateClaim(_) => {}
  }

  /** The jobs that a step takes from the worker without asking it: by a late failure,
      completion or return, or because another worker completes them. */
  function Taken(step: Step): set<JobId> {
    match step
    case LateStep(stmt, _, _) => Listed(stmt)
    case Elsewhere(st) => Deleted(st)
    case _ => {}
  }

  /** Such a step meets a job the worker relies on. */
  ghost predicate Hits(s: State, step: Step, j: JobId) { j in Taken(step) && Relied(s, j) }

  /** A completion leaves the queue locked without a job, or opens it under one. */
  ghost predicate Spoiling(s: State, step: Step, q: QueueId) {
    StatementOf(s, step).Some? && Spoils(s.db, StatementOf(s, step).value, q)
  }

  /** The worker completes a job it has lost and opens its queue under another job of its own. */
  ghost predicate Opening(s: State, step: Step, q: QueueId) {
    StatementOf(s, step).Some? && OpensUnder(s.db, StatementOf(s, step).value, s.me, q)
  }

  // ------------------------------------------------------------- the invariant

  lemma InitInv(s: State)
    requires Init(s)
    ensures Inv(s)
  {
    InitLocks(s);
    InitLife(s);
  }

  lemma InitLocks(s: State)
    requires Init(s)
    ensures LocksInv(s) && PermitInv(s)
  {
    assert PermitSet(s) == {};
    forall t, u | t in s.tasks && u in s.tasks && t != u ensures Compatible(s.tasks[t], s.tasks[u]) {
      LoopsCompatible(s.tasks[t], s.tasks[u]);
    }
  }

  /** Loops that have not started clash only on their own queue. */
  lemma LoopsCompatible(k: Task, m: Task)
    requires k.q != m.q && k.pc == m.pc == Run(RunPc.Begin)
    ensures Compatible(k, m)
  {
    assert forall l :: (Holds(k, l) ==> l == RunLock(k.q)) && (Holds(m, l) ==> l == RunLock(m.q));
  }

  lemma InitLife(s: State)
    requires Init(s)
    ensures LifeInv(s)
  {
    forall q | q in s.queues ensures s.queues[q].runDone <==> !Looping(s, q) {
      if t :| t in s.tasks && s.tasks[t].q == q { assert s.tasks[t].pc.Run?; }
    }
  }

  lemma InitJob(s: State, j: JobId)
    requires Init(s)
    ensures JobInv(s, j)
  {
    assert forall p :: At(s, j, p) ==> p == Stranded;
    if LockedBy(s.db, s.me, j) { assert At(s, j, Stranded); }
  }

  lemma TaskStepTook(s: State, t: Tid, e: Effect, post: Option<Pc>)
    requires CarryInv(s) && t in s.tasks && s.tasks[t].q in s.queues && (e.StartTimer? ==> e.timer !in s.tasks)
    requires CarryStep(s.queues[s.tasks[t].q], s.tasks[t].pc, e, post)
    ensures Took(s, t, e, post, Apply(s, t, e, post))
  {
    ApplyAdvances(s, t, e, post);
  }

  lemma JobKept(s: State, t: Tid, e: Effect, post: Option<Pc>, s': State, j: JobId)
    requires LocksInv(s) && PermitInv(s) && CarryInv(s)
    requires JobInv(s, j) && Took(s, t, e, post, s') && Answers(s, e, post)
    requires s'.db == DbAfter(s, s.queues[s.tasks[t].q], e)
    ensures JobInv(s', j)
  {
    if Passes(e) { PassKeeps(s, t, e, post, s', j); } else { ReturnedOrClaimedKept(s, t, e, post, s', j); }
  }

  lemma ReturnedOrClaimedKept(s: State, t: Tid, e: Effect, post: Option<Pc>, s': State, j: JobId)
    requires LocksInv(s) && PermitInv(s) && CarryInv(s)
    requires JobInv(s, j) && Took(s, t, e, post, s') && Answers(s, e, post) && !Passes(e)
    requires s'.db == DbAfter(s, s.queues[s.tasks[t].q], e)
    ensures JobInv(s', j)
  {
    if e.SqlClaim? || e.SqlClaimLost? {
      ClaimKeeps(s, t, e, post, s', j);
    } else if e.SqlReturn? {
      ReturnKeeps(s, t, e, post, s', j);
    } else {
      ClearKeeps(s, t, e, post, s', j);
    }
  }

  lemma TaskStepKeepsCore(s: State, t: Tid, e: Effect, post: Option<Pc>)
    requires CoreInv(s) && t in s.tasks && s.tasks[t].q in s.queues && Program(s, t, e, post)
    ensures CoreInv(Apply(s, t, e, post))
  {
    var k := s.tasks[t];
    var x := s.queues[k.q];
    var s' := Apply(s, t, e, post);
    ApplyAdvances(s, t, e, post);
    LocksKept(s, t, e, post, QueueAfter(x, e), s');
    assert x.permit ==> k.q in PermitSet(s);
    PermitTable(x, s.permits, k.pc, e, post);
    PermitKept(s, t, post, QueueAfter(x, e), s');
    assert k.pc.Run? ==> Looping(s, k.q);
    LifeTable(x, s.permits, k.pc, e, post);
    LifeKept(s, t, post, QueueAfter(x, e), s');
  }

  lemma TaskStepKeeps(s: State, t: Tid, e: Effect, post: Option<Pc>)
    requires Inv(s) && t in s.tasks && s.tasks[t].q in s.queues && Program(s, t, e, post)
    ensures Inv(Apply(s, t, e, post))
  {
    TaskStepKeepsCore(s, t, e, post);
    CarryTable(s.queues[s.tasks[t].q], s.permits, s.tasks[t].pc, e, post);
    TaskStepTook(s, t, e, post);
    CarryInvKept(s, t, e, post, Apply(s, t, e, post));
  }

  lemma TaskStepKeepsJob(s: State, t: Tid, e: Effect, post: Option<Pc>, j: JobId)
    requires Inv(s) && JobInv(s, j) && t in s.tasks && s.tasks[t].q in s.queues && Program(s, t, e, post)
    ensures JobInv(Apply(s, t, e, post), j)
  {
    CarryTable(s.queues[s.tasks[t].q], s.permits, s.tasks[t].pc, e, post);
    TaskStepTook(s, t, e, post);
    JobKept(s, t, e, post, Apply(s, t, e, post), j);
  }

  /** New callers, notifications, and queues that come and go. */
  predicate QueueStep(step: Step) {
    step.CallGetJob? || step.CallRelease? || step.CallDetails? || step.Wake? || step.NewQueue? || step.DropQueue?
  }

  lemma QueueStepKeeps(s: State, step: Step, s': State)
    requires Inv(s) && Next(s, step, s') && QueueStep(step)
    ensures Inv(s')
  {
    match step
    case CallGetJob(t, q, direct) => CallKeeps(s, t, Task(q, Get(Start(direct))), s');
    case CallRelease(t, q) => CallKeeps(s, t, Task(q, RelLock), s');
    case CallDetails(t, q, write) => CallKeeps(s, t, Task(q, if write then Refresh else Consult), s');
    case Wake(q) => WakeKeeps(s, q, s');
    case NewQueue(q, t, continuous) => NewKeeps(s, q, t, continuous, s');
    case DropQueue(q) => DropKeeps(s, q, s');
  }

  /** Handlers, late statements and everything outside this worker leave the queues alone. */
  lemma OutsideStepKeeps(s: State, step: Step, s': State)
    requires Inv(s) && Next(s, step, s') && !step.TaskStep? && !QueueStep(step)
    ensures Inv(s')
  {
    if step.LateStep? { LateTouches(s, step.stmt, step.claimed, step.runAt, s'); }
    QueuesUntouched(s, s');
  }

  /** A job that stays where it is, under the lock it has. */
  lemma StaysKeeps(s: State, s': State, j: JobId)
    requires JobInv(s, j) && Stays(s, s', j) && Single(s', j)
    requires s'.me == s.me && (LockedBy(s'.db, s.me, j) <==> LockedBy(s.db, s.me, j))
    requires s.relocked <= s'.relocked && forall t :: Returned(s', t, j) ==> Returned(s, t, j)
    ensures JobInv(s', j)
  {
    PlaceKept(s, s', j, Stranded);
  }

  predicate Entering(pc: Pc) { pc == RelLock || (pc.Get? && pc.get.Start?) || pc == Refresh || pc == Consult }

  lemma CallKeeps(s: State, t: Tid, k: Task, s': State)
    requires Inv(s) && t !in s.tasks && k.q in s.queues && Entering(k.pc)
    requires s' == s.(tasks := s.tasks[t := k])
    ensures Inv(s')
  {
    CallKeepsLocks(s, t, k, s');
    CallKeepsLife(s, t, k, s');
  }

  lemma CallKeepsLocks(s: State, t: Tid, k: Task, s': State)
    requires LocksInv(s) && PermitInv(s) && t !in s.tasks && k.q in s.queues && Entering(k.pc)
    requires s' == s.(tasks := s.tasks[t := k])
    ensures LocksInv(s') && PermitInv(s')
  {
    assert PermitSet(s') == PermitSet(s);
    assert forall l :: !Holds(k, l);
  }

  lemma CallKeepsLife(s: State, t: Tid, k: Task, s': State)
    requires LifeInv(s) && t !in s.tasks && k.q in s.queues && Entering(k.pc)
    requires s' == s.(tasks := s.tasks[t := k])
    ensures LifeInv(s')
  {
    forall q | q in s'.queues ensures Looping(s', q) <==> Looping(s, q) {
      if Looping(s, q) {
        var u :| u in s.tasks && s.tasks[u].q == q && s.tasks[u].pc.Run?;
        assert u in s'.tasks && s'.tasks[u] == s.tasks[u];
      }
    }
    forall u | u in s'.tasks ensures WillNotice(s', u) {
      if u in s.tasks && exists v :: v in s.tasks && s.tasks[v] == Task(s.tasks[u].q, RelNotify) {
        var v :| v in s.tasks && s.tasks[v] == Task(s.tasks[u].q, RelNotify);
        assert v in s'.tasks && s'.tasks[v] == s.tasks[v];
      }
    }
  }

  lemma CallKeepsJob(s: State, t: Tid, k: Task, s': State, j: JobId)
    requires JobInv(s, j) && t !in s.tasks && k.q in s.queues && Entering(k.pc)
    requires s' == s.(tasks := s.tasks[t := k])
    ensures JobInv(s', j)
  {
    forall p ensures At(s', j, p) <==> At(s, j, p) {}
    StaysKeeps(s, s', j);
  }

  lemma WakeKeeps(s: State, q: Qid, s': State)
    requires Inv(s) && q in s.queues && s' == s.(queues := s.queues[q := s.queues[q].(notice := true)])
    ensures Inv(s')
  {
    WakeKeepsLocks(s, q, s');
    WakeKeepsLife(s, q, s');
  }

  lemma WakeKeepsLocks(s: State, q: Qid, s': State)
    requires LocksInv(s) && PermitInv(s) && q in s.queues
    requires s' == s.(queues := s.queues[q := s.queues[q].(notice := true)])
    ensures LocksInv(s') && PermitInv(s')
  {
    assert PermitSet(s') == PermitSet(s);
    forall t | t in s'.tasks ensures PermitFacts(s'.queues[s'.tasks[t].q], s'.permits, s'.tasks[t].pc) {
      assert PermitFacts(s.queues[s.tasks[t].q], s.permits, s.tasks[t].pc);
    }
  }

  lemma WakeKeepsLife(s: State, q: Qid, s': State)
    requires LifeInv(s) && q in s.queues && s' == s.(queues := s.queues[q := s.queues[q].(notice := true)])
    ensures LifeInv(s')
  {
    forall r | r in s'.queues ensures Looping(s', r) <==> Looping(s, r) {}
    forall u | u in s'.tasks ensures LifeFacts(s'.queues[s'.tasks[u].q], s'.tasks[u].pc) && WillNotice(s', u) {
      assert LifeFacts(s.queues[s.tasks[u].q], s.tasks[u].pc) && WillNotice(s, u);
    }
  }

  lemma WakeKeepsJob(s: State, q: Qid, s': State, j: JobId)
    requires JobInv(s, j) && q in s.queues && s' == s.(queues := s.queues[q := s.queues[q].(notice := true)])
    ensures JobInv(s', j)
  {
    forall p ensures At(s', j, p) <==> At(s, j, p) {}
    StaysKeeps(s, s', j);
  }

  // ------------------------------------------------------- queues come and go

  lemma NewKeeps(s: State, q: Qid, t: Tid, continuous: bool, s': State)
    requires Inv(s) && Opens(s, q, t, continuous, s')
    ensures Inv(s')
  {
    NewKeepsLocks(s, q, t, continuous, s');
    NewKeepsLife(s, q, t, continuous, s');
  }

  lemma NewKeepsLocks(s: State, q: Qid, t: Tid, continuous: bool, s': State)
    requires LocksInv(s) && PermitInv(s) && Opens(s, q, t, continuous, s')
    ensures LocksInv(s') && PermitInv(s')
  {
    assert PermitSet(s') == PermitSet(s);
    forall u | u in s.tasks ensures Compatible(s.tasks[u], s'.tasks[t]) && Compatible(s'.tasks[t], s.tasks[u]) {
      assert s.tasks[u].q != q;
      assert forall l :: Holds(s'.tasks[t], l) ==> l == RunLock(q);
    }
    forall u | u in s.tasks ensures PermitFacts(s'.queues[s.tasks[u].q], s'.permits, s.tasks[u].pc) {
      assert PermitFacts(s.queues[s.tasks[u].q], s.permits, s.tasks[u].pc);
    }
  }

  lemma NewKeepsLife(s: State, q: Qid, t: Tid, continuous: bool, s': State)
    requires LifeInv(s) && Opens(s, q, t, continuous, s')
    ensures LifeInv(s')
  {
    assert t in s'.tasks && s'.tasks[t].q == q && s'.tasks[t].pc.Run?;
    forall r | r in s.queues ensures Looping(s', r) <==> Looping(s, r) {
      if Looping(s, r) {
        var u :| u in s.tasks && s.tasks[u].q == r && s.tasks[u].pc.Run?;
        assert u in s'.tasks && s'.tasks[u] == s.tasks[u];
      }
    }
    forall u | u in s.tasks ensures LifeFacts(s'.queues[s.tasks[u].q], s.tasks[u].pc) && WillNotice(s', u) {
      assert LifeFacts(s.queues[s.tasks[u].q], s.tasks[u].pc) && WillNotice(s, u);
      if exists v :: v in s.tasks && s.tasks[v] == Task(s.tasks[u].q, RelNotify) {
        var v :| v in s.tasks && s.tasks[v] == Task(s.tasks[u].q, RelNotify);
        assert v in s'.tasks && s'.tasks[v] == s.tasks[v];
      }
    }
  }

  lemma NewKeepsJob(s: State, q: Qid, t: Tid, continuous: bool, s': State, j: JobId)
    requires JobInv(s, j) && Opens(s, q, t, continuous, s')
    ensures JobInv(s', j)
  {
    forall p ensures At(s', j, p) <==> At(s, j, p) {}
    StaysKeeps(s, s', j);
  }

  /** Dropping a queue gives its permit back, forgets its locked jobs and nothing else. */
  lemma DropKeeps(s: State, q: Qid, s': State)
    requires Inv(s) && Closes(s, q, s')
    ensures Inv(s')
    ensures forall j :: JobInv(s, j) ==> JobInv(s', j)
    ensures forall j, p :: At(s', j, p) <==>
              || (At(s, j, p) && p != InCache(q) && p != InPending(q))
              || (p == Stranded && LockedBy(s.db, s.me, j) && (At(s, j, InCache(q)) || At(s, j, InPending(q))))
  {
    DropKeepsLocks(s, q, s');
    DropKeepsLife(s, q, s');
    forall j ensures JobInv(s, j) ==> JobInv(s', j) { if JobInv(s, j) { DropKeepsJob(s, q, s', j); } }
    forall j, p
      ensures At(s', j, p) <==>
                || (At(s, j, p) && p != InCache(q) && p != InPending(q))
                || (p == Stranded && LockedBy(s.db, s.me, j) && (At(s, j, InCache(q)) || At(s, j, InPending(q))))
    {
      DropPlaces(s, q, s', j);
    }
  }

  lemma DropKeepsLocks(s: State, q: Qid, s': State)
    requires LocksInv(s) && PermitInv(s) && Closes(s, q, s')
    ensures LocksInv(s') && PermitInv(s')
  {
    assert PermitSet(s') == PermitSet(s) - {q};
    assert s.queues[q].permit <==> q in PermitSet(s);
    forall u | u in s'.tasks
      ensures s'.tasks[u].q in s'.queues && PermitFacts(s'.queues[s'.tasks[u].q], s'.permits, s'.tasks[u].pc)
    {
      assert PermitFacts(s.queues[s.tasks[u].q], s.permits, s.tasks[u].pc);
    }
  }

  lemma DropKeepsLife(s: State, q: Qid, s': State)
    requires LifeInv(s) && Closes(s, q, s')
    ensures LifeInv(s')
  {
    forall r | r in s'.queues ensures Looping(s', r) <==> Looping(s, r) {}
    forall u | u in s'.tasks
      ensures s'.tasks[u].q in s'.queues && LifeFacts(s'.queues[s'.tasks[u].q], s'.tasks[u].pc) && WillNotice(s', u)
    {
      assert LifeFacts(s.queues[s.tasks[u].q], s.tasks[u].pc) && WillNotice(s, u);
    }
  }

  /** The locked jobs of a dropped queue are forgotten, everything else stays. */
  lemma DropKeepsJob(s: State, q: Qid, s': State, j: JobId)
    requires JobInv(s, j) && Closes(s, q, s')
    ensures JobInv(s', j)
  {
    DropPlaces(s, q, s', j);
    if LockedBy(s'.db, s'.me, j) {
      var p :| At(s, j, p);
      assert if p == InCache(q) || p == InPending(q) then At(s', j, Stranded) else At(s', j, p);
    }
    forall u | Returned(s', u, j) && LockedBy(s'.db, s'.me, j) ensures j in s'.relocked {
      assert Returned(s, u, j);
    }
  }

  lemma DropPlaces(s: State, q: Qid, s': State, j: JobId)
    requires Closes(s, q, s')
    ensures forall p :: At(s', j, p) <==>
              || (At(s, j, p) && p != InCache(q) && p != InPending(q))
              || (p == Stranded && LockedBy(s.db, s.me, j) && (At(s, j, InCache(q)) || At(s, j, InPending(q))))
  {
  }

  // ------------------------------------------------ the database and jobs in hand

  /** Steps that change only the database and the jobs in hand. */
  lemma QueuesUntouched(s: State, s': State)
    requires CoreInv(s)
    requires s'.queues == s.queues && s'.tasks == s.tasks && s'.permits == s.permits
    ensures CoreInv(s') && (CarryInv(s) ==> CarryInv(s'))
  {
    assert PermitSet(s') == PermitSet(s);
    forall q | q in s'.queues ensures Looping(s', q) <==> Looping(s, q) {}
    forall u | u in s'.tasks ensures WillNotice(s', u) { assert WillNotice(s, u); }
  }

  /** A handler lets go of its job: the others stay. */
  lemma HandsDown(s: State, j: JobId, s': State, k: JobId)
    requires j in s.held && s'.queues == s.queues && s'.tasks == s.tasks && s'.me == s.me
    requires s'.held == s.held - multiset{j} && s'.stranded == s.stranded - {j} && s'.relocked == s.relocked
    requires JobInv(s, k) && (LockedBy(s'.db, s.me, k) <==> LockedBy(s.db, s.me, k) && k != j)
    ensures JobInv(s', k)
  {
    if k == j {
      assert At(s, j, InHands);
      forall p ensures !At(s', j, p) { assert p != InHands ==> !At(s, j, p); }
    } else {
      forall p ensures At(s', k, p) <==> At(s, k, p) {}
      StaysKeeps(s, s', k);
    }
  }

  /** Nobody remembers a handled job any more; it stays locked. */
  lemma HandsForget(s: State, j: JobId, stmts: multiset<LateStatement>, k: JobId)
    requires j in s.held && JobInv(s, k)
    ensures JobInv(Abandoned(s, j, stmts), k)
  {
    var s' := Abandoned(s, j, stmts);
    if k == j {
      assert At(s, j, InHands);
      forall p ensures At(s', j, p) <==> p == Stranded { assert p != InHands ==> !At(s, j, p); }
      assert At(s', j, Stranded) && LockedBy(s.db, s.me, j);
      forall u ensures !Returned(s', u, j) {
        if u in s'.tasks { assert !At(s', j, InPending(s'.tasks[u].q)); }
      }
    } else {
      forall p ensures At(s', k, p) <==> At(s, k, p) {}
      StaysKeeps(s, s', k);
    }
  }

  /** A report that took effect. */
  predicate Reports(step: Step) { step.ReportDone? || step.ReportFailed? || (step.ReportLost? && step.applied) }

  lemma ReportKeepsJob(s: State, step: Step, s': State, k: JobId)
    requires JobInv(s, k) && Next(s, step, s') && Reports(step)
    ensures JobInv(s', k)
  {
    if step.ReportDone? {
      CompleteLocks(s.db, step.job, step.named, s.me);
    } else {
      FailReleases(s.db, step.job, s.me, step.runAt);
    }
    HandsDown(s, step.job, s', k);
  }

  lemma AbandonKeepsJob(s: State, step: Step, s': State, k: JobId)
    requires JobInv(s, k) && Next(s, step, s')
    requires step.FinishUnsaved? || step.DoneLost? || (step.ReportLost? && !step.applied)
    ensures JobInv(s', k)
  {
    match step
    case FinishUnsaved(j) => HandsForget(s, j, multiset{}, k);
    case DoneLost(j, named) => HandsForget(s, j, multiset{LateDone(j, named)}, k);
    case ReportLost(j, _, _) => HandsForget(s, j, multiset{LateFail(j), LateFail(j)}, k);
  }

  // --------------------------------------------------- statements of other workers

  lemma ElsewhereKeepsJob(s: State, st: Statement, s': State, k: JobId)
    requires JobInv(s, k) && Next(s, Elsewhere(st), s') && !Hits(s, Elsewhere(st), k)
    ensures JobInv(s', k)
  {
    ExecutesLocks(s.db, st, s'.db, s.me);
    UnhitMeans(s, Elsewhere(st), k);
    LetGoKeeps(s, Deleted(st), s', k);
  }

  /** A locked job that a step takes without hitting it is forgotten or pending. */
  lemma UnhitMeans(s: State, step: Step, k: JobId)
    requires JobInv(s, k) && !Hits(s, step, k)
    ensures k in HeldAmong(s.db, Taken(step), s.me) ==> k in s.stranded || k in PendingJobs(s)
  {
    if k in HeldAmong(s.db, Taken(step), s.me) {
      var p :| At(s, k, p);
      assert p.InPending? || p.Stranded?;
    }
  }

  // -------------------------------------------------------------- late statements

  lemma LateKeepsJob(s: State, stmt: LateStatement, claimed: set<JobId>, runAt: int, s': State, k: JobId)
    requires JobInv(s, k) && Next(s, LateStep(stmt, claimed, runAt), s') && !Hits(s, LateStep(stmt, claimed, runAt), k)
    ensures JobInv(s', k)
  {
    UnhitMeans(s, LateStep(stmt, claimed, runAt), k);
    match stmt
    case LateFail(j) =>
      FailReleases(s.db, j, s.me, runAt);
      LetGoKeeps(s, {j}, s', k);
    case LateDone(j, named) =>
      CompleteLocks(s.db, j, named, s.me);
      LetGoKeeps(s, {j}, s', k);
    case LateReturn(ids) =>
      ReturnReleases(s.db, ids, s.me);
      LetGoKeeps(s, ids, s', k);
    case LateClaim(r) => LateClaimKeeps(s, r, claimed, s', k);
  }

  lemma LateTouches(s: State, stmt: LateStatement, claimed: set<JobId>, runAt: int, s': State)
    requires TakesEffect(s, stmt, claimed, runAt, s')
    ensures s'.queues == s.queues && s'.tasks == s.tasks && s'.permits == s.permits
    ensures s'.me == s.me && s'.held == s.held
  {
  }

  /** A late statement that does not hit a job lets go of it only when it is forgotten or
      pending. */
  lemma LetGoKeeps(s: State, ids: set<JobId>, s': State, k: JobId)
    requires JobInv(s, k) && s'.me == s.me && s'.queues == s.queues && s'.tasks == s.tasks && s'.held == s.held
    requires s'.stranded == s.stranded - ids && s'.relocked == s.relocked
    requires k in HeldAmong(s.db, ids, s.me) ==> k in s.stranded || k in PendingJobs(s)
    requires LockedBy(s'.db, s.me, k) <==> LockedBy(s.db, s.me, k) && k !in ids
    ensures JobInv(s', k)
  {
    forall p ensures At(s', k, p) <==> At(s, k, p) && !(p == Stranded && k in ids) {}
    forall p | At(s', k, p) && !p.InPending? ensures LockedBy(s'.db, s'.me, k) {
      if k in ids { AmongMeans(s, ids, k); }
    }
    if LockedBy(s'.db, s'.me, k) { var p :| At(s, k, p); assert At(s', k, p); }
    forall u | Returned(s', u, k) && LockedBy(s'.db, s'.me, k) ensures k in s'.relocked {
      assert Returned(s, u, k);
    }
  }

  /** A locked job among `ids` is forgotten or pending. */
  lemma AmongMeans(s: State, ids: set<JobId>, k: JobId)
    requires k in ids && LockedBy(s.db, s.me, k)
    requires k in HeldAmong(s.db, ids, s.me) ==> k in s.stranded || k in PendingJobs(s)
    ensures At(s, k, Stranded) || exists q :: At(s, k, InPending(q))
  {
    if k !in s.stranded { PendingPlace(s, k); }
  }

  lemma PendingPlace(s: State, k: JobId)
    ensures k in PendingJobs(s) <==> exists q :: At(s, k, InPending(q))
  {
    if k in PendingJobs(s) {
      var q :| q in s.queues && k in s.queues[q].pending;
      assert At(s, k, InPending(q));
    }
  }

  /** A late claim strands a job, unless its return is pending. */
  lemma LateClaimKeeps(s: State, r: Request, claimed: set<JobId>, s': State, k: JobId)
    requires JobInv(s, k) && Claims(s, r, claimed)
    requires s' == LateClaimed(s, LateClaim(r), Claim(s.db, claimed, Lock(r.worker, r.now)), claimed)
    ensures JobInv(s', k)
  {
    ClaimStepClaimable(s.db, r, claimed, s'.db);
    ClaimLocks(s.db, claimed, Lock(r.worker, r.now));
    PendingPlace(s, k);
    forall p ensures At(s', k, p) <==> At(s, k, p) || (p == Stranded && k in claimed && k !in PendingJobs(s)) {}
    if k in claimed {
      if k in PendingJobs(s) {
        var q :| At(s, k, InPending(q));
        assert At(s', k, InPending(q));
      } else {
        assert At(s', k, Stranded);
        forall p ensures !At(s, k, p) {}
      }
    } else {
      StaysKeeps(s, s', k);
    }
  }

  // ----------------------------------------------------------- every reachable state

  lemma NextKeepsInv(s: State, step: Step, s': State)
    requires Inv(s) && Next(s, step, s')
    ensures Inv(s')
  {
    if step.TaskStep? {
      TaskStepKeeps(s, step.t, step.e, step.post);
    } else if QueueStep(step) {
      QueueStepKeeps(s, step, s');
    } else {
      OutsideStepKeeps(s, step, s');
    }
  }

  lemma NextKeepsJob(s: State, step: Step, s': State, j: JobId)
    requires Inv(s) && Next(s, step, s') && JobInv(s, j) && !Hits(s, step, j)
    ensures JobInv(s', j)
  {
    if step.TaskStep? {
      TaskStepKeepsJob(s, step.t, step.e, step.post, j);
    } else if QueueStep(step) {
      QueueStepKeepsJob(s, step, s', j);
    } else {
      OutsideStepKeepsJob(s, step, s', j);
    }
  }

  lemma QueueStepKeepsJob(s: State, step: Step, s': State, j: JobId)
    requires Next(s, step, s') && JobInv(s, j) && QueueStep(step)
    ensures JobInv(s', j)
  {
    match step
    case CallGetJob(t, q, direct) => CallKeepsJob(s, t, Task(q, Get(Start(direct))), s', j);
    case CallRelease(t, q) => CallKeepsJob(s, t, Task(q, RelLock), s', j);
    case CallDetails(t, q, write) => CallKeepsJob(s, t, Task(q, if write then Refresh else Consult), s', j);
    case Wake(q) => WakeKeepsJob(s, q, s', j);
    case NewQueue(q, t, continuous) => NewKeepsJob(s, q, t, continuous, s', j);
    case DropQueue(q) => DropKeepsJob(s, q, s', j);
  }

  lemma OutsideStepKeepsJob(s: State, step: Step, s': State, j: JobId)
    requires Next(s, step, s') && JobInv(s, j) && !Hits(s, step, j) && !step.TaskStep? && !QueueStep(step)
    ensures JobInv(s', j)
  {
    if step.LateStep? {
      LateKeepsJob(s, step.stmt, step.claimed, step.runAt, s', j);
    } else if step.Elsewhere? {
      ElsewhereKeepsJob(s, step.st, s', j);
    } else if Reports(step) {
      ReportKeepsJob(s, step, s', j);
    } else {
      AbandonKeepsJob(s, step, s', j);
    }
  }

  /** A step keeps a serial queue serial, and the worker's jobs in possession of theirs,
      exactly when it does not spoil or open the queue. */
  lemma NextKeepsQueue(s: State, step: Step, s': State, q: QueueId)
    requires Next(s, step, s')
    ensures QueueOk(s.db, q) ==> (QueueOk(s'.db, q) <==> !Spoiling(s, step, q))
    ensures Sole(s.db, s.me, q) ==> (Sole(s'.db, s'.me, q) <==> !Opening(s, step, q))
  {
    StepExecutes(s, step, s');
    if StatementOf(s, step).Some? {
      var st := StatementOf(s, step).value;
      if QueueOk(s.db, q) { ExecutesQueue(s.db, st, s'.db, q); }
      if Sole(s.db, s.me, q) { ExecutesSole(s.db, st, s'.db, s.me, q); }
    }
  }

  /** Every step keeps locks, permits and lives in order, every job that it does not hit, and
      every named queue that it does not spoil or open. */
  lemma NextKeeps(s: State, step: Step, s': State)
    requires Inv(s) && Next(s, step, s')
    ensures Inv(s')
    ensures forall j :: JobInv(s, j) && !Hits(s, step, j) ==> JobInv(s', j)
    ensures forall q :: QueueOk(s.db, q) ==> (QueueOk(s'.db, q) <==> !Spoiling(s, step, q))
    ensures forall q :: Sole(s.db, s.me, q) ==> (Sole(s'.db, s'.me, q) <==> !Opening(s, step, q))
  {
    NextKeepsInv(s, step, s');
    forall j | JobInv(s, j) && !Hits(s, step, j) ensures JobInv(s', j) { NextKeepsJob(s, step, s', j); }
    forall q | QueueOk(s.db, q) ensures QueueOk(s'.db, q) <==> !Spoiling(s, step, q) { NextKeepsQueue(s, step, s', q); }
    forall q | Sole(s.db, s.me, q) ensures Sole(s'.db, s'.me, q) <==> !Opening(s, step, q) {
      NextKeepsQueue(s, step, s', q);
    }
  }

  /** A late return, claim, completion or failure report keeps every job it does not list or
      that the worker does not rely on; only a late completion can spoil a named queue. */
  lemma LateKeeps(s: State, stmt: LateStatement, claimed: set<JobId>, runAt: int, s': State)
    requires Inv(s) && Next(s, LateStep(stmt, claimed, runAt), s')
    ensures Inv(s')
    ensures forall j :: JobInv(s, j) && !(j in Listed(stmt) && Relied(s, j)) ==> JobInv(s', j)
    ensures forall q :: QueueOk(s.db, q) && !stmt.LateDone? ==> QueueOk(s'.db, q)
  {
    NextKeeps(s, LateStep(stmt, claimed, runAt), s');
  }

  /** A step before state `i` hit the job, and the worker has had a trace of it ever since. */
  ghost predicate Robbed(states: seq<State>, steps: seq<Step>, i: nat, j: JobId)
    requires i <= |steps| && |states| == |steps| + 1
  {
    exists k: nat :: k < i && Hits(states[k], steps[k], j) && forall m: nat :: k < m <= i ==> !Gone(states[m], j)
  }

  /** The worker has a job of the queue locked. */
  ghost predicate Busy(s: State, q: QueueId) { exists j :: OccupiesFor(s.db, s.me, j, q) }

  /** A step before state `i` opened the queue under a job of the worker, which has had one
      of the queue locked ever since. */
  ghost predicate Opened(states: seq<State>, steps: seq<Step>, i: nat, q: QueueId)
    requires i <= |steps| && |states| == |steps| + 1
  {
    exists k: nat :: k < i && Opening(states[k], steps[k], q) && forall m: nat :: k < m <= i ==> Busy(states[m], q)
  }

  /** No step before state `i` spoilt the queue. */
  ghost predicate Unspoilt(states: seq<State>, steps: seq<Step>, i: nat, q: QueueId)
    requires i <= |steps| && |states| == |steps| + 1
  {
    forall k: nat :: k < i ==> !Spoiling(states[k], steps[k], q)
  }

  lemma {:induction false} InvReachable(states: seq<State>, steps: seq<Step>, i: nat)
    requires Execution(states, steps) && i < |states|
    ensures Inv(states[i])
  {
    if i == 0 {
      InitInv(states[0]);
    } else {
      InvReachable(states, steps, i - 1);
      assert StepAt(states, steps, i - 1);
      NextKeepsInv(states[i - 1], steps[i - 1], states[i]);
    }
  }

  lemma {:induction false} JobReachable(states: seq<State>, steps: seq<Step>, i: nat, j: JobId)
    requires Execution(states, steps) && i < |states| && !Robbed(states, steps, i, j)
    ensures JobInv(states[i], j)
  {
    if i == 0 {
      InitJob(states[0], j);
    } else if Gone(states[i], j) {
      GoneIsFine(states[i], j);
    } else {
      if Robbed(states, steps, i - 1, j) || Hits(states[i - 1], steps[i - 1], j) {
        RobbedOn(states, steps, i - 1, j);
      }
      JobReachable(states, steps, i - 1, j);
      InvReachable(states, steps, i - 1);
      assert StepAt(states, steps, i - 1);
      NextKeepsJob(states[i - 1], steps[i - 1], states[i], j);
    }
  }

  lemma RobbedOn(states: seq<State>, steps: seq<Step>, i: nat, j: JobId)
    requires i < |steps| && |states| == |steps| + 1 && !Gone(states[i + 1], j)
    requires Robbed(states, steps, i, j) || Hits(states[i], steps[i], j)
    ensures Robbed(states, steps, i + 1, j)
  {
    if Robbed(states, steps, i, j) {
      var k: nat :| k < i && Hits(states[k], steps[k], j) && forall m: nat :: k < m <= i ==> !Gone(states[m], j);
      assert forall m: nat :: k < m <= i + 1 ==> !Gone(states[m], j);
    }
  }

  lemma {:induction false} SoleReachable(states: seq<State>, steps: seq<Step>, i: nat, q: QueueId)
    requires Execution(states, steps) && i < |states| && !Opened(states, steps, i, q)
    ensures Sole(states[i].db, states[i].me, q)
  {
    if i == 0 {
      SerialIsSole(states[0].db, states[0].me, q);
    } else if Busy(states[i], q) {
      if Opened(states, steps, i - 1, q) || Opening(states[i - 1], steps[i - 1], q) {
        OpenedOn(states, steps, i - 1, q);
      }
      SoleReachable(states, steps, i - 1, q);
      assert StepAt(states, steps, i - 1);
      NextKeepsQueue(states[i - 1], steps[i - 1], states[i], q);
    }
  }

  lemma OpenedOn(states: seq<State>, steps: seq<Step>, i: nat, q: QueueId)
    requires i < |steps| && |states| == |steps| + 1 && Busy(states[i + 1], q)
    requires Opened(states, steps, i, q) || Opening(states[i], steps[i], q)
    ensures Opened(states, steps, i + 1, q)
  {
    if Opened(states, steps, i, q) {
      var k: nat :| k < i && Opening(states[k], steps[k], q) && forall m: nat :: k < m <= i ==> Busy(states[m], q);
      assert forall m: nat :: k < m <= i + 1 ==> Busy(states[m], q);
    }
  }

  lemma {:induction false} SerialReachable(states: seq<State>, steps: seq<Step>, i: nat, q: QueueId)
    requires Execution(states, steps) && i < |states| && Unspoilt(states, steps, i, q)
    ensures QueueOk(states[i].db, q)
  {
    if i > 0 {
      SerialReachable(states, steps, i - 1, q);
      assert StepAt(states, steps, i - 1);
      NextKeepsQueue(states[i - 1], steps[i - 1], states[i], q);
    }
  }

  /** In every reachable state locks, permits and lives are in order; every job is that was
      not robbed, every named queue is serial that was not spoilt, and the worker's jobs
      hold their named queues unless one was opened under them. */
  lemma Reachable(states: seq<State>, steps: seq<Step>, i: nat)
    requires Execution(states, steps) && i < |states|
    ensures Inv(states[i])
    ensures forall j :: !Robbed(states, steps, i, j) ==> JobInv(states[i], j)
    ensures forall q :: Unspoilt(states, steps, i, q) ==> QueueOk(states[i].db, q)
    ensures forall q :: !Opened(states, steps, i, q) ==> Sole(states[i].db, states[i].me, q)
  {
    InvReachable(states, steps, i);
    forall j | !Robbed(states, steps, i, j) ensures JobInv(states[i], j) { JobReachable(states, steps, i, j); }
    forall q | Unspoilt(states, steps, i, q) ensures QueueOk(states[i].db, q) { SerialReachable(states, steps, i, q); }
    forall q | !Opened(states, steps, i, q) ensures Sole(states[i].db, states[i].me, q) {
      SoleReachable(states, steps, i, q);
    }
  }
}
