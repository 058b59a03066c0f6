/** What a release leaves for good: no hand-out, no cached or pending claim, and exactly
    when a return permit. */
module LocalQueueRelease {
  import opened Wrappers
  import opened JobTable
  import opened LocalQueue
  import opened LocalQueueLocks
  import opened LocalQueueLife
  import opened LocalQueueSafety

  ghost predicate IsReleased(s: State, q: Qid) { q in s.queues && s.queues[q].mode == Released }

  /** Some release call of `q` has returned Ok. */
  ghost predicate ReleaseDone(s: State, q: Qid) { q in s.queues && s.queues[q].releaseDone }

  // --------------------------------------------------------------------- terminal

  /** One step of a queue's life: a queue ends only by being dropped. */
  lemma LifePersists(s: State, step: Step, s': State, q: Qid)
    requires Inv(s) && Next(s, step, s')
    ensures IsReleased(s, q) ==> IsReleased(s', q) || q in s'.gone
    ensures ReleaseDone(s, q) ==> ReleaseDone(s', q) || q in s'.gone
    ensures s.gone <= s'.gone
  {
    if step.TaskStep? { TaskLife(s, step.t, step.e, step.post, s', q); } else { OutsideLife(s, step, s', q); }
  }

  lemma TaskLife(s: State, t: Tid, e: Effect, post: Option<Pc>, s': State, q: Qid)
    requires LifeInv(s) && t in s.tasks && s.tasks[t].q in s.queues && Program(s, t, e, post)
    requires s' == Apply(s, t, e, post)
    ensures IsReleased(s, q) ==> IsReleased(s', q)
    ensures ReleaseDone(s, q) ==> ReleaseDone(s', q)
    ensures s'.gone == s.gone
  {
    var k := s.tasks[t];
    assert k.pc.Run? ==> Looping(s, k.q);
    LifeTable(s.queues[k.q], s.permits, k.pc, e, post);
  }

  /** Outside the tasks a queue at most gets a notice, until it is dropped. */
  lemma OutsideLife(s: State, step: Step, s': State, q: Qid)
    requires Next(s, step, s') && !step.TaskStep?
    ensures q in s.queues ==>
              q in s'.gone || (q in s'.queues && s'.queues[q].(notice := true) == s.queues[q].(notice := true))
    ensures s.gone <= s'.gone
  {
    if !QueueStep(step) { OutsideSame(s, step, s'); }
  }

  /** Handlers, late statements and other workers touch no queue and no task. */
  lemma OutsideSame(s: State, step: Step, s': State)
    requires Next(s, step, s') && !step.TaskStep? && !QueueStep(step)
    ensures s'.queues == s.queues && s'.gone == s.gone && s'.tasks == s.tasks
  {
    if step.LateStep? { LateSame(s, step.stmt, step.claimed, step.runAt, s'); }
  }

  lemma LateSame(s: State, stmt: LateStatement, claimed: set<JobId>, runAt: int, s': State)
    requires TakesEffect(s, stmt, claimed, runAt, s')
    ensures s'.queues == s.queues && s'.gone == s.gone && s'.tasks == s.tasks
  {
  }

  lemma LifePersistsAt(states: seq<State>, steps: seq<Step>, i: nat, q: Qid)
    requires Execution(states, steps) && i < |steps|
    ensures IsReleased(states[i], q) ==> IsReleased(states[i + 1], q) || q in states[i + 1].gone
    ensures ReleaseDone(states[i], q) ==> ReleaseDone(states[i + 1], q) || q in states[i + 1].gone
    ensures states[i].gone <= states[i + 1].gone
  {
    InvReachable(states, steps, i);
    assert StepAt(states, steps, i);
    LifePersists(states[i], steps[i], states[i + 1], q);
  }

  /** Released is terminal, and so is the completion of a release. */
  lemma {:induction false} ReleasedForever(states: seq<State>, steps: seq<Step>, i: nat, k: nat, q: Qid)
    requires Execution(states, steps) && i <= k < |states|
    ensures IsReleased(states[i], q) ==> IsReleased(states[k], q) || q in states[k].gone
    ensures ReleaseDone(states[i], q) ==> ReleaseDone(states[k], q) || q in states[k].gone
    ensures states[i].gone <= states[k].gone
  {
    if i < k {
      ReleasedForever(states, steps, i, k - 1, q);
      LifePersistsAt(states, steps, k - 1, q);
    }
  }

  /** What a release leaves: terminal mode, no fetch loop, nothing cached or pending,
      no release under way and no return statement on its way. */
  ghost predicate Finished(s: State, q: Qid) {
    && q in s.queues && s.queues[q].releaseDone && CleanedUp(s.queues[q]) && !Looping(s, q)
    && forall t :: t in s.tasks && s.tasks[t].q == q ==> !Releasing(s.tasks[t].pc) && !Sending(s.tasks[t].pc)
  }

  lemma DoneMeansFinished(s: State, q: Qid)
    requires Inv(s) && ReleaseDone(s, q)
    ensures Finished(s, q)
  {
    forall t | t in s.tasks && s.tasks[t].q == q ensures !Releasing(s.tasks[t].pc) && !Sending(s.tasks[t].pc) {
      assert LifeFacts(s.queues[q], s.tasks[t].pc);
      assert PermitFacts(s.queues[q], s.permits, s.tasks[t].pc);
    }
  }

  /** A release call returns Ok only once everything is cleaned up. */
  lemma ReleaseOkMeansFinished(states: seq<State>, steps: seq<Step>, i: nat, t: Tid)
    requires Execution(states, steps) && i < |steps| && steps[i] == TaskStep(t, FinishRelease, None)
    ensures t in states[i].tasks && Finished(states[i + 1], states[i].tasks[t].q)
  {
    FinishStores(states, steps, i, t);
    InvReachable(states, steps, i + 1);
    DoneMeansFinished(states[i + 1], states[i].tasks[t].q);
  }

  lemma FinishStores(states: seq<State>, steps: seq<Step>, i: nat, t: Tid)
    requires Execution(states, steps) && i < |steps| && steps[i] == TaskStep(t, FinishRelease, None)
    ensures t in states[i].tasks && ReleaseDone(states[i + 1], states[i].tasks[t].q)
  {
    assert StepAt(states, steps, i);
  }

  /** Once a release has returned Ok its queue stays cleaned up, whatever callers and
      timers overlapped it. */
  lemma FinishedForever(states: seq<State>, steps: seq<Step>, i: nat, k: nat, q: Qid)
    requires Execution(states, steps) && i <= k < |states| && ReleaseDone(states[i], q)
    ensures Finished(states[k], q) || q in states[k].gone
  {
    ReleasedForever(states, steps, i, k, q);
    InvReachable(states, steps, k);
    if ReleaseDone(states[k], q) { DoneMeansFinished(states[k], q); }
  }

  // ------------------------------------------------------------------- no hand-out

  /** The queue is released or its TTL return is under way or done. */
  ghost predicate Shut(s: State, q: Qid) {
    q in s.queues && (s.queues[q].mode == Released || s.queues[q].mode == TtlExpired)
  }

  /** Task `t` of `q` has popped `j` from the cache. */
  ghost predicate Carrying(s: State, t: Tid, q: Qid, j: JobId) {
    t in s.tasks && s.tasks[t].q == q && s.tasks[t].pc.Get? && Carried(s.tasks[t].pc) == [j]
  }

  /** Task `t` claims for `q` directly and has seen a mode that allows it. */
  ghost predicate Admitted(s: State, t: Tid, q: Qid) { t in s.tasks && s.tasks[t].q == q && ReadsMode(s.tasks[t].pc) }

  /** A step of some task of `q`. */
  ghost predicate StepOf(s: State, step: Step, q: Qid) { step.TaskStep? && step.t in s.tasks && s.tasks[step.t].q == q }

  /** What the control flow says about a shut queue. */
  ghost predicate ShutMoves(x: Queue, pc: Pc, e: Effect, post: Option<Pc>) {
    && e != PopFront
    && (forall j :: post.Some? && post.value.Get? && Carried(post.value) == [j] ==> pc.Get? && Carried(pc) == [j])
    && (x.mode == Released && post.Some? && ReadsMode(post.value) ==> ReadsMode(pc))
    && (e.HandOut? ==> (pc.Get? && Carried(pc) == [e.job]) || ReadsMode(pc))
    && (QueueAfter(x, e).cache != x.cache ==> e.Drain? || (e.Append? && QueueAfter(x, e).cache == x.cache + e.jobs))
  }

  lemma ShutTable(x: Queue, n: nat, pc: Pc, e: Effect, post: Option<Pc>)
    requires Moves(x, n, pc, e, post) && (x.mode == Released || x.mode == TtlExpired)
    ensures ShutMoves(x, pc, e, post)
  {
    if !Drops(x, pc, e, post) { ShutFlow(x, n, pc, e, post); }
  }

  lemma ShutFlow(x: Queue, n: nat, pc: Pc, e: Effect, post: Option<Pc>)
    requires Flows(x, n, pc, e, post) && (x.mode == Released || x.mode == TtlExpired)
    ensures ShutMoves(x, pc, e, post)
  {
    match pc
    case Run(r) => ShutTableRun(x, n, r, e, if post.Some? then Some(post.value.run) else None);
    case Get(g) => ShutTableGet(x, g, e, post);
    case Direct(d) => ShutTableDirect(x, n, d, e, if post.Some? then Some(post.value.direct) else None);
    case Ret(who, r) => ShutTableRet(x, who, r, e, if post.Some? then Some(post.value.ret) else None);
    case _ => ShutTableOther(x, pc, e, post);
  }

  lemma ShutTableOther(x: Queue, pc: Pc, e: Effect, post: Option<Pc>)
    requires OtherMoves(x, pc, e, post)
    ensures ShutMoves(x, pc, e, post)
  {
  }

  lemma ShutTableRun(x: Queue, n: nat, r: RunPc, e: Effect, to: Option<RunPc>)
    requires RunMoves(x, n, r, e, to)
    ensures ShutMoves(x, Run(r), e, if to.Some? then Some(Run(to.value)) else None)
  {
  }

  lemma ShutTableGet(x: Queue, g: GetPc, e: Effect, post: Option<Pc>)
    requires GetMoves(x, g, e, post) && (x.mode == Released || x.mode == TtlExpired)
    ensures ShutMoves(x, Get(g), e, post)
  {
  }

  lemma ShutTableDirect(x: Queue, n: nat, d: DirectPc, e: Effect, to: Option<DirectPc>)
    requires DirectMoves(x, n, d, e, to)
    ensures ShutMoves(x, Direct(d), e, if to.Some? then Some(Direct(to.value)) else None)
  {
  }

  lemma ShutTableRet(x: Queue, who: Who, r: RetPc, e: Effect, to: Option<RetPc>)
    requires RetMoves(x, who, r, e, to)
    ensures ShutMoves(x, Ret(who, r), e, if to.Some? then Some(Ret(who, to.value)) else None)
  {
  }

  /** While `q` is shut a step pops nothing, and cached jobs leave only to be returned. */
  ghost predicate PopsNothing(s: State, step: Step, s': State, q: Qid) {
    && (StepOf(s, step, q) ==> step.e != PopFront)
    && (forall j :: q in s.queues && q in s'.queues && j in s.queues[q].cache && j !in s'.queues[q].cache ==>
          StepOf(s, step, q) && step.e.Drain?)
  }

  /** One step while `q` is shut; nobody else gets hold of a job either. */
  lemma ShutStep(s: State, step: Step, s': State, q: Qid)
    requires Next(s, step, s') && Shut(s, q)
    ensures PopsNothing(s, step, s', q)
    ensures forall t, j :: Carrying(s', t, q, j) ==> Carrying(s, t, q, j)
    ensures s.queues[q].mode == Released ==> forall t :: Admitted(s', t, q) ==> Admitted(s, t, q)
    ensures StepOf(s, step, q) && step.e.HandOut? ==> Carrying(s, step.t, q, step.e.job) || Admitted(s, step.t, q)
  {
    if step.TaskStep? {
      if s.tasks[step.t].q == q { ShutTable(s.queues[q], s.permits, s.tasks[step.t].pc, step.e, step.post); }
    } else {
      OutsideShut(s, step, s', q);
    }
  }

  lemma OutsideShut(s: State, step: Step, s': State, q: Qid)
    requires Next(s, step, s') && !step.TaskStep? && q in s.queues
    ensures forall t, j :: Carrying(s', t, q, j) ==> Carrying(s, t, q, j)
    ensures forall t :: Admitted(s', t, q) ==> Admitted(s, t, q)
    ensures q in s'.queues ==> s'.queues[q].cache == s.queues[q].cache
  {
    if !QueueStep(step) { OutsideSame(s, step, s'); }
  }

  ghost predicate ShutThroughout(states: seq<State>, i: nat, k: nat, q: Qid)
    requires k < |states|
  {
    forall m :: i <= m <= k ==> Shut(states[m], q)
  }

  /** While a queue stays shut, released or expired, nothing is popped from its cache and
      cached jobs leave it only to be returned; whoever carries a popped job carried it
      already when the queue was shut. */
  lemma {:induction false} NothingPoppedWhileShut(states: seq<State>, steps: seq<Step>, i: nat, k: nat, q: Qid)
    requires Execution(states, steps) && i <= k < |states| && ShutThroughout(states, i, k, q)
    ensures forall t, j :: Carrying(states[k], t, q, j) ==> Carrying(states[i], t, q, j)
    ensures forall m: nat :: i <= m < k ==> PopsNothing(states[m], steps[m], states[m + 1], q)
  {
    if i < k {
      assert ShutThroughout(states, i, k - 1, q);
      NothingPoppedWhileShut(states, steps, i, k - 1, q);
      assert StepAt(states, steps, k - 1);
      assert Shut(states[k - 1], q);
      ShutStep(states[k - 1], steps[k - 1], states[k], q);
    }
  }

  /** Nor does a released queue admit another direct claim. */
  lemma {:induction false} NobodyAdmittedAfterRelease(states: seq<State>, steps: seq<Step>, i: nat, k: nat, q: Qid)
    requires Execution(states, steps) && i <= k < |states| && IsReleased(states[i], q)
    requires q in states[k].queues && q !in states[k].gone
    ensures ShutThroughout(states, i, k, q)
    ensures forall t :: Admitted(states[k], t, q) ==> Admitted(states[i], t, q)
  {
    ReleasedForever(states, steps, i, k, q);
    if i < k {
      ReleasedForever(states, steps, i, k - 1, q);
      LifePersistsAt(states, steps, k - 1, q);
      assert IsReleased(states[k - 1], q);
      NobodyAdmittedAfterRelease(states, steps, i, k - 1, q);
      assert StepAt(states, steps, k - 1);
      ShutStep(states[k - 1], steps[k - 1], states[k], q);
    }
  }

  /** After a release nothing new is handed out: every later hand-out on the queue is of a
      job its caller had popped before the mode changed, or of a direct claim that had
      read the mode before. */
  lemma HandOutsAfterRelease(states: seq<State>, steps: seq<Step>, i: nat, k: nat, q: Qid)
    requires Execution(states, steps) && i <= k < |steps| && IsReleased(states[i], q)
    requires StepOf(states[k], steps[k], q) && steps[k].e.HandOut?
    ensures Carrying(states[i], steps[k].t, q, steps[k].e.job) || Admitted(states[i], steps[k].t, q)
  {
    InvReachable(states, steps, k);
    ReleasedForever(states, steps, i, k, q);
    GoneIsGone(states, steps, k, q);
    NobodyAdmittedAfterRelease(states, steps, i, k, q);
    NothingPoppedWhileShut(states, steps, i, k, q);
    assert StepAt(states, steps, k);
    assert Shut(states[k], q);
    ShutStep(states[k], steps[k], states[k + 1], q);
  }

  /** A dropped queue does not come back. */
  lemma {:induction false} GoneIsGone(states: seq<State>, steps: seq<Step>, k: nat, q: Qid)
    requires Execution(states, steps) && k < |states|
    ensures q in states[k].gone ==> q !in states[k].queues
  {
    if k > 0 {
      GoneIsGone(states, steps, k - 1, q);
      assert StepAt(states, steps, k - 1);
      GoneStep(states[k - 1], steps[k - 1], states[k], q);
    }
  }

  lemma GoneStep(s: State, step: Step, s': State, q: Qid)
    requires Next(s, step, s') && (q in s.gone ==> q !in s.queues)
    ensures q in s'.gone ==> q !in s'.queues
  {
  }

  // -------------------------------------------------------- the permit afterwards

  /** A return of `q` gives its permit back. */
  ghost predicate ClosesPermit(s: State, step: Step, q: Qid) {
    StepOf(s, step, q) && (step.e.ClosePermit? || step.e.ClearPending?)
  }

  /** A TTL return of `q` that waits for the cache, permit in place, is dropped. */
  ghost predicate LeavesPermit(s: State, step: Step, q: Qid) {
    StepOf(s, step, q) && s.tasks[step.t].pc == Ret(Ttl, WantDrain) && step.post.None?
  }

  /** A TTL return of `q` was dropped so before state `k`, and no return has given the
      permit back since. */
  ghost predicate LeftBehind(states: seq<State>, steps: seq<Step>, k: nat, q: Qid)
    requires k <= |steps| < |states|
  {
    exists d: nat :: d < k && LeavesPermit(states[d], steps[d], q)
                  && forall c: nat :: d < c < k ==> !ClosesPermit(states[c], steps[c], q)
  }

  /** A TTL return of `q` has its permit and the pending lock. */
  ghost predicate TtlHolds(s: State, q: Qid) {
    exists t ::
      t in s.tasks && s.tasks[t].q == q && s.tasks[t].pc.Ret? && s.tasks[t].pc.who == Ttl && Permitted(s.tasks[t].pc)
  }

  /** A release of `q` has returned its jobs, and perhaps returned Ok. */
  ghost predicate Emptied(s: State, q: Qid) {
    q in s.queues && (s.queues[q].releaseDone || exists t :: t in s.tasks && s.tasks[t] == Task(q, Ret(Release, Done)))
  }

  predicate Closing(e: Effect) { e.ClosePermit? || e.ClearPending? }

  predicate PermittedPost(post: Option<Pc>) { post.Some? && Permitted(post.value) }

  /** Who takes, keeps and gives back a permit. */
  ghost predicate PermitMoves(x: Queue, pc: Pc, e: Effect, post: Option<Pc>) {
    var x' := QueueAfter(x, e);
    && (Closing(e) ==> !x'.permit && HoldsPending(pc) && !pc.ret.WantDrain? && !PermittedPost(post))
    && (e.OpenPermit? ==> x'.permit && pc.Ret? && pc.ret.Writer? && PermittedPost(post))
    && (!Closing(e) && !e.OpenPermit? ==> x'.permit == x.permit)
    && (PermittedPost(post) ==> pc.Ret? && HoldsPending(pc) && post.value.who == pc.who)
    && (Permitted(pc) && !Sending(pc) && !PermittedPost(post) ==> Closing(e) || (pc.ret.WantDrain? && post.None?))
    && (post.Some? && post.value.Ret? && post.value.ret.Done? ==> Closing(e) && pc.Ret?)
    && (pc.Ret? && !Permitted(pc) && PermittedPost(post) ==> x.permit || e.OpenPermit?)
  }

  lemma PermitMovesTable(x: Queue, n: nat, pc: Pc, e: Effect, post: Option<Pc>)
    requires Moves(x, n, pc, e, post)
    ensures PermitMoves(x, pc, e, post)
  {
    if Drops(x, pc, e, post) { DropMoves(x, pc, e, post); } else { PermitMovesFlow(x, n, pc, e, post); }
  }

  lemma DropMoves(x: Queue, pc: Pc, e: Effect, post: Option<Pc>)
    requires Drops(x, pc, e, post)
    ensures PermitMoves(x, pc, e, post)
  {
    assert QueueAfter(x, e) == x && post.None?;
  }

  lemma PermitMovesFlow(x: Queue, n: nat, pc: Pc, e: Effect, post: Option<Pc>)
    requires Flows(x, n, pc, e, post)
    ensures PermitMoves(x, pc, e, post)
  {
    match pc
    case Run(r) => PermitMovesRun(x, n, r, e, if post.Some? then Some(post.value.run) else None);
    case Get(g) => PermitMovesGet(x, g, e, post);
    case Direct(d) => PermitMovesDirect(x, n, d, e, if post.Some? then Some(post.value.direct) else None);
    case Ret(who, r) => PermitMovesRet(x, who, r, e, if post.Some? then Some(post.value.ret) else None);
    case _ => PermitMovesOther(x, pc, e, post);
  }

  lemma PermitMovesOther(x: Queue, pc: Pc, e: Effect, post: Option<Pc>)
    requires OtherMoves(x, pc, e, post)
    ensures PermitMoves(x, pc, e, post)
  {
  }

  lemma PermitMovesGet(x: Queue, g: GetPc, e: Effect, post: Option<Pc>)
    requires GetMoves(x, g, e, post)
    ensures PermitMoves(x, Get(g), e, post)
  {
  }

  lemma PermitMovesRun(x: Queue, n: nat, r: RunPc, e: Effect, to: Option<RunPc>)
    requires RunMoves(x, n, r, e, to)
    ensures PermitMoves(x, Run(r), e, if to.Some? then Some(Run(to.value)) else None)
  {
    assert !Closing(e) && !e.OpenPermit? && !e.Drain?;
    assert QueueAfter(x, e).permit == x.permit;
  }

  lemma PermitMovesDirect(x: Queue, n: nat, d: DirectPc, e: Effect, to: Option<DirectPc>)
    requires DirectMoves(x, n, d, e, to)
    ensures PermitMoves(x, Direct(d), e, if to.Some? then Some(Direct(to.value)) else None)
  {
  }

  lemma PermitMovesRet(x: Queue, who: Who, r: RetPc, e: Effect, to: Option<RetPc>)
    requires RetMoves(x, who, r, e, to)
    ensures PermitMoves(x, Ret(who, r), e, if to.Some? then Some(Ret(who, to.value)) else None)
  {
    if r.Writer? || r.Drained? || r.Acked? {
      PermitMovesChange(x, who, r, e, to);
    } else {
      assert !Closing(e) && !e.OpenPermit? && QueueAfter(x, e).permit == x.permit;
    }
  }

  lemma PermitMovesChange(x: Queue, who: Who, r: RetPc, e: Effect, to: Option<RetPc>)
    requires RetMoves(x, who, r, e, to) && (r.Writer? || r.Drained? || r.Acked?)
    ensures PermitMoves(x, Ret(who, r), e, if to.Some? then Some(Ret(who, to.value)) else None)
  {
  }

  /** No other task of the queue has its pending lock. */
  ghost predicate OnlyHolder(s: State, t: Tid, q: Qid) {
    forall u :: u in s.tasks && u != t && s.tasks[u].q == q ==> !HoldsPending(s.tasks[u].pc)
  }

  lemma HolderIsAlone(s: State, t: Tid)
    requires LocksInv(s) && t in s.tasks && HoldsPending(s.tasks[t].pc)
    ensures OnlyHolder(s, t, s.tasks[t].q)
  {
    forall u | u in s.tasks && u != t && s.tasks[u].q == s.tasks[t].q ensures !HoldsPending(s.tasks[u].pc) {
      Exclusion(s.tasks[t], s.tasks[u]);
    }
  }

  /** What is known of an emptied queue: nothing is pending, and no release returns. */
  lemma EmptiedFacts(s: State, q: Qid)
    requires CoreInv(s) && Emptied(s, q)
    ensures s.queues[q].pending == []
    ensures forall t :: t in s.tasks && s.tasks[t].q == q ==>
              && !Sending(s.tasks[t].pc) && (HoldsPending(s.tasks[t].pc) ==> s.tasks[t].pc.who == Ttl)
              && (Permitted(s.tasks[t].pc) ==> s.queues[q].permit)
  {
    if !s.queues[q].releaseDone {
      var u :| u in s.tasks && s.tasks[u] == Task(q, Ret(Release, Done));
      assert LifeFacts(s.queues[q], s.tasks[u].pc);
      forall t | t in s.tasks && s.tasks[t].q == q && t != u
        ensures !Releasing(s.tasks[t].pc)
      {
        Exclusion(s.tasks[u], s.tasks[t]);
      }
    }
    forall t | t in s.tasks && s.tasks[t].q == q
      ensures !Sending(s.tasks[t].pc) && (HoldsPending(s.tasks[t].pc) ==> s.tasks[t].pc.who == Ttl)
      ensures Permitted(s.tasks[t].pc) ==> s.queues[q].permit
    {
      assert LifeFacts(s.queues[q], s.tasks[t].pc);
      assert PermitFacts(s.queues[q], s.permits, s.tasks[t].pc);
    }
  }

  /** The permit of an emptied queue, given whether one was left behind. */
  ghost predicate Explained(s: State, q: Qid, left: bool) {
    Emptied(s, q) ==> (s.queues[q].permit <==> TtlHolds(s, q) || left)
  }

  ghost predicate Left(s: State, step: Step, q: Qid, left: bool) {
    LeavesPermit(s, step, q) || (left && !ClosesPermit(s, step, q))
  }

  lemma ExplainStep(s: State, step: Step, s': State, q: Qid, left: bool)
    requires CoreInv(s) && Next(s, step, s') && Explained(s, q, left)
    ensures Explained(s', q, Left(s, step, q, left))
  {
    if Emptied(s', q) {
      if step.TaskStep? {
        TaskExplained(s, step.t, step.e, step.post, s', q, left);
      } else {
        OutsideExplained(s, step, s', q);
      }
    }
  }

  lemma OutsideExplained(s: State, step: Step, s': State, q: Qid)
    requires CoreInv(s) && Next(s, step, s') && !step.TaskStep? && Emptied(s', q)
    ensures Emptied(s, q) && s'.queues[q].permit == s.queues[q].permit && (TtlHolds(s', q) <==> TtlHolds(s, q))
  {
    OutsideTasks(s, step, s');
    OutsideQueues(s, step, s', q);
  }

  /** Steps outside the tasks start no return and end nothing. */
  lemma OutsideTasks(s: State, step: Step, s': State)
    requires Next(s, step, s') && !step.TaskStep?
    ensures forall t :: t in s.tasks ==> t in s'.tasks && s'.tasks[t] == s.tasks[t]
    ensures forall t :: t in s'.tasks && s'.tasks[t].pc.Ret? ==> t in s.tasks && s.tasks[t] == s'.tasks[t]
  {
    if !QueueStep(step) { OutsideSame(s, step, s'); }
  }

  lemma OutsideQueues(s: State, step: Step, s': State, q: Qid)
    requires PermitInv(s) && Next(s, step, s') && !step.TaskStep? && Emptied(s', q)
    ensures q in s.queues && s'.queues[q].permit == s.queues[q].permit
    ensures s'.queues[q].releaseDone == s.queues[q].releaseDone
  {
    if !QueueStep(step) { OutsideSame(s, step, s'); }
  }

  lemma TaskExplained(s: State, t: Tid, e: Effect, post: Option<Pc>, s': State, q: Qid, left: bool)
    requires CoreInv(s) && Next(s, TaskStep(t, e, post), s') && Explained(s, q, left) && Emptied(s', q)
    ensures s'.queues[q].permit <==> TtlHolds(s', q) || Left(s, TaskStep(t, e, post), q, left)
  {
    var k := s.tasks[t];
    TaskFacts(s, t, e, post, s');
    if k.q != q {
      OthersExplained(s, t, post, QueueAfter(s.queues[k.q], e), s', q);
      LeftElsewhere(s, t, e, post, q, left);
    } else if Emptied(s, q) {
      EmptiedFacts(s, q);
      OwnExplained(s, t, e, post, s', left);
    } else {
      NewlyEmptied(s, t, e, post, s');
    }
  }

  lemma LeftElsewhere(s: State, t: Tid, e: Effect, post: Option<Pc>, q: Qid, left: bool)
    requires t in s.tasks && s.tasks[t].q != q
    ensures Left(s, TaskStep(t, e, post), q, left) <==> left
  {
  }

  lemma TaskFacts(s: State, t: Tid, e: Effect, post: Option<Pc>, s': State)
    requires LifeInv(s) && Next(s, TaskStep(t, e, post), s')
    ensures t in s.tasks && s.tasks[t].q in s.queues
    ensures var k := s.tasks[t];
            var x := s.queues[k.q];
            && Advances(s, t, post, QueueAfter(x, e), s') && PermitMoves(x, k.pc, e, post)
            && LifeStep(x, k.pc, post, QueueAfter(x, e))
  {
    var k := s.tasks[t];
    ApplyAdvances(s, t, e, post);
    PermitMovesTable(s.queues[k.q], s.permits, k.pc, e, post);
    assert k.pc.Run? ==> Looping(s, k.q);
    LifeTable(s.queues[k.q], s.permits, k.pc, e, post);
  }

  lemma OthersExplained(s: State, t: Tid, post: Option<Pc>, x': Queue, s': State, q: Qid)
    requires Advances(s, t, post, x', s') && s.tasks[t].q != q && Emptied(s', q)
    ensures Emptied(s, q) && s'.queues[q].permit == s.queues[q].permit && (TtlHolds(s', q) <==> TtlHolds(s, q))
  {
    forall u | u in s'.tasks && s'.tasks[u].q == q ensures u in s.tasks && s.tasks[u] == s'.tasks[u] {}
    forall u | u in s.tasks && s.tasks[u].q == q ensures u in s'.tasks && s'.tasks[u] == s.tasks[u] {}
  }

  lemma NewlyEmptied(s: State, t: Tid, e: Effect, post: Option<Pc>, s': State)
    requires LocksInv(s) && t in s.tasks && s.tasks[t].q in s.queues
    requires Advances(s, t, post, QueueAfter(s.queues[s.tasks[t].q], e), s')
    requires LifeStep(s.queues[s.tasks[t].q], s.tasks[t].pc, post, QueueAfter(s.queues[s.tasks[t].q], e))
    requires PermitMoves(s.queues[s.tasks[t].q], s.tasks[t].pc, e, post)
    requires Emptied(s', s.tasks[t].q) && !Emptied(s, s.tasks[t].q)
    ensures Closing(e) && !s'.queues[s.tasks[t].q].permit && !TtlHolds(s', s.tasks[t].q)
  {
    var q := s.tasks[t].q;
    ReachesDone(s, t, post, QueueAfter(s.queues[q], e), s');
    HolderIsAlone(s, t);
    forall u | u in s'.tasks && s'.tasks[u].q == q && u != t ensures !Permitted(s'.tasks[u].pc) {}
  }

  lemma ReachesDone(s: State, t: Tid, post: Option<Pc>, x': Queue, s': State)
    requires Advances(s, t, post, x', s') && LifeStep(s.queues[s.tasks[t].q], s.tasks[t].pc, post, x')
    requires Emptied(s', s.tasks[t].q) && !Emptied(s, s.tasks[t].q)
    ensures post == Some(Ret(Release, Done))
  {
    var q := s.tasks[t].q;
    assert s.tasks[t] == Task(q, s.tasks[t].pc);
    var u :| u in s'.tasks && s'.tasks[u] == Task(q, Ret(Release, Done));
  }

  lemma OwnExplained(s: State, t: Tid, e: Effect, post: Option<Pc>, s': State, left: bool)
    requires LocksInv(s) && t in s.tasks && s.tasks[t].q in s.queues
    requires Advances(s, t, post, QueueAfter(s.queues[s.tasks[t].q], e), s')
    requires PermitMoves(s.queues[s.tasks[t].q], s.tasks[t].pc, e, post) && !Sending(s.tasks[t].pc)
    requires Permitted(s.tasks[t].pc) ==> s.tasks[t].pc.who == Ttl && s.queues[s.tasks[t].q].permit
    requires HoldsPending(s.tasks[t].pc) ==> s.tasks[t].pc.who == Ttl
    requires s.queues[s.tasks[t].q].permit <==> TtlHolds(s, s.tasks[t].q) || left
    ensures s'.queues[s.tasks[t].q].permit <==>
              TtlHolds(s', s.tasks[t].q) || Left(s, TaskStep(t, e, post), s.tasks[t].q, left)
  {
    if HoldsPending(s.tasks[t].pc) {
      HolderIsAlone(s, t);
      HolderExplained(s, t, e, post, s', left);
    } else {
      BystanderExplained(s, t, e, post, s');
    }
  }

  lemma HolderExplained(s: State, t: Tid, e: Effect, post: Option<Pc>, s': State, left: bool)
    requires t in s.tasks && s.tasks[t].q in s.queues && HoldsPending(s.tasks[t].pc) && OnlyHolder(s, t, s.tasks[t].q)
    requires Advances(s, t, post, QueueAfter(s.queues[s.tasks[t].q], e), s')
    requires PermitMoves(s.queues[s.tasks[t].q], s.tasks[t].pc, e, post) && !Sending(s.tasks[t].pc)
    requires s.tasks[t].pc.who == Ttl
    requires Permitted(s.tasks[t].pc) ==> s.queues[s.tasks[t].q].permit
    requires s.queues[s.tasks[t].q].permit <==> TtlHolds(s, s.tasks[t].q) || left
    ensures s'.queues[s.tasks[t].q].permit <==>
              TtlHolds(s', s.tasks[t].q) || Left(s, TaskStep(t, e, post), s.tasks[t].q, left)
  {
    var pc, q := s.tasks[t].pc, s.tasks[t].q;
    assert TtlHolds(s, q) <==> Permitted(pc) by {
      if Permitted(pc) { assert t in s.tasks && s.tasks[t].q == q; }
    }
    assert TtlHolds(s', q) <==> PermittedPost(post) by {
      if PermittedPost(post) { assert t in s'.tasks && s'.tasks[t].q == q; }
      forall u | u in s'.tasks && s'.tasks[u].q == q && u != t ensures !Permitted(s'.tasks[u].pc) {}
    }
  }

  lemma BystanderExplained(s: State, t: Tid, e: Effect, post: Option<Pc>, s': State)
    requires t in s.tasks && s.tasks[t].q in s.queues && !HoldsPending(s.tasks[t].pc)
    requires Advances(s, t, post, QueueAfter(s.queues[s.tasks[t].q], e), s')
    requires PermitMoves(s.queues[s.tasks[t].q], s.tasks[t].pc, e, post)
    ensures s'.queues[s.tasks[t].q].permit == s.queues[s.tasks[t].q].permit
    ensures TtlHolds(s', s.tasks[t].q) <==> TtlHolds(s, s.tasks[t].q)
    ensures !Closing(e) && !LeavesPermit(s, TaskStep(t, e, post), s.tasks[t].q)
  {
    var q := s.tasks[t].q;
    forall u | u in s'.tasks && s'.tasks[u].q == q && Permitted(s'.tasks[u].pc)
      ensures u in s.tasks && s.tasks[u] == s'.tasks[u]
    {
    }
    forall u | u in s.tasks && u != t ensures u in s'.tasks && s'.tasks[u] == s.tasks[u] {}
  }

  lemma LeftBehindStep(states: seq<State>, steps: seq<Step>, k: nat, q: Qid)
    requires k < |steps| < |states|
    ensures LeftBehind(states, steps, k + 1, q) <==> Left(states[k], steps[k], q, LeftBehind(states, steps, k, q))
  {
    if LeftBehind(states, steps, k, q) && !ClosesPermit(states[k], steps[k], q) {
      var d: nat :| d < k && LeavesPermit(states[d], steps[d], q)
                    && forall c: nat :: d < c < k ==> !ClosesPermit(states[c], steps[c], q);
      assert forall c: nat :: d < c < k + 1 ==> !ClosesPermit(states[c], steps[c], q);
    }
    if LeftBehind(states, steps, k + 1, q) && !LeavesPermit(states[k], steps[k], q) {
      var d: nat :| d < k + 1 && LeavesPermit(states[d], steps[d], q)
                    && forall c: nat :: d < c < k + 1 ==> !ClosesPermit(states[c], steps[c], q);
      assert d < k;
    }
  }

  /** Exactly when a permit outlives a release: after the release has returned its jobs,
      the permit is there if and only if a TTL return of the queue holds the pending lock
      with it, or one was dropped while it waited for the cache and no return has given
      the permit back since. */
  lemma {:induction false} PermitAfterRelease(states: seq<State>, steps: seq<Step>, k: nat, q: Qid)
    requires Execution(states, steps) && k < |states|
    ensures Explained(states[k], q, LeftBehind(states, steps, k, q))
  {
    if k == 0 {
      NeverEmptyAtFirst(states[0], q);
    } else {
      PermitAfterRelease(states, steps, k - 1, q);
      ExplainAt(states, steps, k - 1, q, LeftBehind(states, steps, k - 1, q));
      LeftBehindStep(states, steps, k - 1, q);
    }
  }

  lemma ExplainAt(states: seq<State>, steps: seq<Step>, k: nat, q: Qid, left: bool)
    requires Execution(states, steps) && k < |steps| && Explained(states[k], q, left)
    ensures Explained(states[k + 1], q, Left(states[k], steps[k], q, left))
  {
    InvReachable(states, steps, k);
    assert StepAt(states, steps, k);
    ExplainStep(states[k], steps[k], states[k + 1], q, left);
  }

  lemma NeverEmptyAtFirst(s: State, q: Qid)
    requires Init(s)
    ensures !Emptied(s, q)
  {
  }

  /** A finished release whose permit is gone, with no task inside `return_cached_jobs`. */
  ghost predicate Quiet(s: State, q: Qid) {
    && Finished(s, q) && !s.queues[q].permit
    && forall t :: t in s.tasks && s.tasks[t].q == q ==> !s.tasks[t].pc.Ret?
  }

  /** With no TTL return left from before, the permit stays dropped for good. */
  lemma {:induction false} QuietForever(states: seq<State>, steps: seq<Step>, i: nat, k: nat, q: Qid)
    requires Execution(states, steps) && i <= k < |states| && Quiet(states[i], q)
    ensures Quiet(states[k], q) || q in states[k].gone
  {
    if i < k {
      QuietForever(states, steps, i, k - 1, q);
      QuietAt(states, steps, k - 1, q);
    }
  }

  lemma QuietAt(states: seq<State>, steps: seq<Step>, k: nat, q: Qid)
    requires Execution(states, steps) && k < |steps|
    ensures Quiet(states[k], q) ==> Quiet(states[k + 1], q) || q in states[k + 1].gone
    ensures q in states[k].gone ==> q in states[k + 1].gone
  {
    LifePersistsAt(states, steps, k, q);
    InvReachable(states, steps, k + 1);
    assert StepAt(states, steps, k);
    if Quiet(states[k], q) && ReleaseDone(states[k + 1], q) {
      DoneMeansFinished(states[k + 1], q);
      QuietPersists(states[k], steps[k], states[k + 1], q);
    }
  }

  lemma QuietPersists(s: State, step: Step, s': State, q: Qid)
    requires Next(s, step, s') && Quiet(s, q) && Finished(s', q)
    ensures Quiet(s', q)
  {
    if step.TaskStep? {
      if s.tasks[step.t].q == q { NoNewReturn(s.queues[q], s.permits, s.tasks[step.t].pc, step.e, step.post); }
    } else {
      OutsideTasks(s, step, s');
    }
  }

  lemma NoNewReturn(x: Queue, n: nat, pc: Pc, e: Effect, post: Option<Pc>)
    requires Moves(x, n, pc, e, post) && x.mode == Released && !pc.Ret? && !Releasing(pc)
    ensures post.Some? ==> !post.value.Ret?
    ensures QueueAfter(x, e).permit == x.permit
  {
    PermitMovesTable(x, n, pc, e, post);
    if !Drops(x, pc, e, post) && post.Some? && post.value.Ret? { ReturnsStart(x, n, pc, e, post); }
  }

  /** A return starts with an expired timer or with a release. */
  lemma ReturnsStart(x: Queue, n: nat, pc: Pc, e: Effect, post: Option<Pc>)
    requires Flows(x, n, pc, e, post) && !pc.Ret? && post.Some? && post.value.Ret?
    ensures (pc == TtlExpire && x.mode == Waiting) || pc == RelAwait
  {
    match pc
    case Get(g) => GetStaysGet(x, g, e, post);
    case _ =>
  }

  lemma GetStaysGet(x: Queue, g: GetPc, e: Effect, post: Option<Pc>)
    requires GetMoves(x, g, e, post)
    ensures post.Some? ==> post.value.Get? || post.value.Direct?
  {
  }

  /** One way to leave the permit: a TTL return that overlapped the release and is dropped
      while it waits for the cache, with nothing to return. */
  lemma StragglerKeepsPermit(s: State, t: Tid, q: Qid)
    requires Inv(s) && Finished(s, q) && t in s.tasks && s.tasks[t] == Task(q, Ret(Ttl, WantDrain))
    ensures var s' := Apply(s, t, Silent, None);
            && Next(s, TaskStep(t, Silent, None), s')
            && s'.queues[q].permit && s'.queues[q].pending == [] && t !in s'.tasks
  {
    assert PermitFacts(s.queues[q], s.permits, s.tasks[t].pc);
  }
}
