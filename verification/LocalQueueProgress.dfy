/** Local queues do not deadlock: whatever a suspended task waits for is held by a task
    that waits for something later in one fixed order, or for nothing. */
module LocalQueueProgress {
  import opened Wrappers
  import opened JobTable
  import opened LocalQueue
  import opened LocalQueueLocks
  import opened LocalQueueLife
  import opened LocalQueueSafety

  datatype Want =
    | Nothing
    | WantsLock(l: LockName)
    | WantsModeRead
    | WantsMode                 // the mode lock for writing
    | WantsDetails              // the task details for reading
    | WantsDetailsWrite
    | WantsLoopEnd              // release waits for the fetch loop
    | WantsNotice               // the fetch loop waits to be notified

  /** What a task must get before it goes on. `try_fetch` never waits. */
  function Wanted(x: Queue, k: Task): Want {
    match k.pc
    case Run(r) => RunWants(x, k.q, r)
    case Get(g) =>
      if g.Start? || g.CheckTtl? || g.HasCache? then WantsModeRead
      else if g.Repoll? || (g.Popped? && g.last) then WantsMode
      else if g.WantCache? then WantsLock(CacheLock(k.q)) else Nothing
    case Direct(d) => if d.Guard? then WantsModeRead else if d.Reading? then WantsDetails else Nothing
    case Ret(_, r) =>
      if r.WantPending? then WantsLock(PendingLock(k.q))
      else if r.WantPermit? && !x.permit then WantsLock(ClaimWrite)
      else if r.WantDrain? then WantsLock(CacheLock(k.q)) else Nothing
    case TtlSleep => WantsModeRead
    case TtlExpire => WantsMode
    case RelLock => WantsLock(ReleaseLock(k.q))
    case RelMode => WantsMode
    case RelAwait => WantsLoopEnd
    case Consult => WantsDetails
    case Refresh => WantsDetailsWrite
    case _ => Nothing
  }

  function RunWants(x: Queue, q: Qid, r: RunPc): Want {
    if r.Top? || r.After? then WantsModeRead
    else if r.Begin? || r.Extended? || r.Last? || (r.Deliver? && r.jobs == [] && !x.continuous) then WantsMode
    else if r.Guard? then WantsDetails
    else if r.Deliver? && r.jobs != [] then WantsLock(CacheLock(q))
    else if r.Idle? then WantsNotice else Nothing
  }

  /** The order in which everything is acquired. */
  function Level(w: Want): nat {
    match w
    case WantsLock(ReleaseLock(_)) => 0
    case WantsLoopEnd => 1
    case WantsLock(PendingLock(_)) => 2
    case WantsLock(ClaimWrite) => 3
    case WantsLock(CacheLock(_)) => 4
    case WantsModeRead => 5
    case WantsMode => 6
    case WantsNotice => 6
    case WantsDetails => 7
    case WantsDetailsWrite => 8
    case _ => 9
  }

  ghost predicate Placed(s: State, t: Tid) { t in s.tasks && s.tasks[t].q in s.queues }

  function WantOf(s: State, t: Tid): Want
    requires Placed(s, t)
  {
    Wanted(s.queues[s.tasks[t].q], s.tasks[t])
  }

  /** The read-write locks prefer writers: a suspended writer stops every new reader. */
  ghost predicate WaitsToWriteMode(s: State, u: Tid, q: Qid) {
    Placed(s, u) && s.tasks[u].q == q && WantOf(s, u) == WantsMode
  }

  /** What `t` wants is there to be had, even if every waiting writer came first. */
  ghost predicate Ready(s: State, t: Tid)
    requires Placed(s, t)
  {
    match WantOf(s, t)
    case Nothing => true
    case WantsLock(l) => Free(s, t, l)
    case WantsModeRead => forall u :: !WaitsToWriteMode(s, u, s.tasks[t].q)
    case WantsMode => ModeFree(s, s.tasks[t].q)
    case WantsDetails => forall u :: u in s.tasks ==> s.tasks[u].pc != Refresh
    case WantsDetailsWrite => DetailsFree(s)
    case WantsLoopEnd => s.queues[s.tasks[t].q].runDone
    case WantsNotice => s.queues[s.tasks[t].q].notice
  }

  /** The fetch loop of a live queue, resting until something happens. */
  ghost predicate Resting(s: State, t: Tid)
    requires Placed(s, t)
  {
    s.tasks[t].pc == Run(Idle) && s.queues[s.tasks[t].q].mode != Released
  }

  /** Edges of the wait-for graph: to whoever holds what `t` wants, to the writers that
      stop it reading, and to whoever is to end or to notify what it waits for. */
  ghost predicate WaitsFor(s: State, t: Tid, u: Tid)
    requires Placed(s, t) && Placed(s, u)
  {
    var q := s.tasks[t].q;
    match WantOf(s, t)
    case Nothing => false
    case WantsLock(l) => u != t && exists b :: Holds(s.tasks[u], b) && Clash(l, b)
    case WantsModeRead => WaitsToWriteMode(s, u, q)
    case WantsMode => Holds(s.tasks[u], ModeRead(q))
    case WantsDetails => s.tasks[u].pc == Refresh
    case WantsDetailsWrite => Holds(s.tasks[u], DetailsRead)
    case WantsLoopEnd => s.tasks[u].q == q && s.tasks[u].pc.Run?
    case WantsNotice => s.queues[q].mode == Released && s.tasks[u] == Task(q, RelNotify)
  }

  /** Every edge goes up in the order, so the graph has no cycle. */
  lemma EdgeGoesUp(s: State, t: Tid, u: Tid)
    requires PermitInv(s) && Placed(s, t) && Placed(s, u) && WaitsFor(s, t, u)
    ensures Level(WantOf(s, t)) < Level(WantOf(s, u))
  {
    assert PermitFacts(s.queues[s.tasks[u].q], s.permits, s.tasks[u].pc);
  }

  /** A task that is not ready waits for somebody. */
  lemma SomebodyBlocks(s: State, t: Tid)
    requires CoreInv(s) && Placed(s, t) && !Ready(s, t) && !Resting(s, t)
    ensures exists u :: Placed(s, u) && WaitsFor(s, t, u)
  {
    var want := WantOf(s, t);
    if want.WantsLoopEnd? || want.WantsNotice? { ReleaseBlocks(s, t); } else { HolderBlocks(s, t); }
  }

  /** Whoever holds the lock, or is about to write. */
  lemma HolderBlocks(s: State, t: Tid)
    requires PermitInv(s) && Placed(s, t) && !Ready(s, t) && !WantOf(s, t).WantsLoopEnd? && !WantOf(s, t).WantsNotice?
    ensures exists u :: Placed(s, u) && WaitsFor(s, t, u)
  {
    var q := s.tasks[t].q;
    match WantOf(s, t)
    case WantsLock(l) =>
      var u, b :| u in s.tasks && u != t && Holds(s.tasks[u], b) && Clash(l, b);
      assert Placed(s, u) && WaitsFor(s, t, u);
    case WantsModeRead =>
      var u :| WaitsToWriteMode(s, u, q);
      assert Placed(s, u) && WaitsFor(s, t, u);
    case WantsMode =>
      var u :| u in s.tasks && Holds(s.tasks[u], ModeRead(q));
      assert Placed(s, u) && WaitsFor(s, t, u);
    case WantsDetails =>
      var u :| u in s.tasks && s.tasks[u].pc == Refresh;
      assert Placed(s, u) && WaitsFor(s, t, u);
    case WantsDetailsWrite =>
      var u :| u in s.tasks && Holds(s.tasks[u], DetailsRead);
      assert Placed(s, u) && WaitsFor(s, t, u);
  }

  /** The loop that a release waits for, or the release that will notify the loop. */
  lemma ReleaseBlocks(s: State, t: Tid)
    requires LifeInv(s) && Placed(s, t) && !Ready(s, t) && !Resting(s, t)
    requires WantOf(s, t).WantsLoopEnd? || WantOf(s, t).WantsNotice?
    ensures exists u :: Placed(s, u) && WaitsFor(s, t, u)
  {
    var q := s.tasks[t].q;
    if WantOf(s, t).WantsLoopEnd? {
      assert Looping(s, q);
      var u :| u in s.tasks && s.tasks[u].q == q && s.tasks[u].pc.Run?;
      assert Placed(s, u) && WaitsFor(s, t, u);
    } else {
      assert WillNotice(s, t);
      var u :| u in s.tasks && s.tasks[u] == Task(q, RelNotify);
      assert Placed(s, u) && WaitsFor(s, t, u);
    }
  }

  // -------------------------------------------------------------- ready tasks step

  ghost predicate CanStep(s: State, t: Tid) {
    Placed(s, t) && exists e, post ::
      Flows(s.queues[s.tasks[t].q], s.permits, s.tasks[t].pc, e, post) && Permits(s, t, e, post)
  }

  function RunFlow(x: Queue, n: nat, r: RunPc, unused: Tid): (Effect, Option<RunPc>) {
    match r
    case Begin => (SetMode(Polling), Some(RunPc.Top))
    case Top => (Silent, Some(if x.mode == Released then RunPc.Stop else RunPc.Idle))
    case Idle => (TakeNotice, Some(RunPc.Top))
    case TryRead => (Silent, Some(RunPc.After))
    case Reader => (Silent, Some(if n == 0 then RunPc.Guard else RunPc.After))
    case Guard => (Silent, Some(RunPc.Querying))
    case Querying => (Silent, Some(RunPc.Answered(false, [])))
    case Answered(ok, jobs) => (Notify, Some(if ok then RunPc.Deliver(jobs) else RunPc.After))
    case Deliver(jobs) =>
      if jobs != [] then (Append(jobs), Some(RunPc.Extended))
      else (if x.continuous then Silent else SetMode(Released), Some(RunPc.After))
    case Extended => (SetMode(Waiting), Some(RunPc.TimerDue))
    case TimerDue => (StartTimer(unused), Some(RunPc.After))
    case After => (Silent, Some(if x.mode == Polling && !x.continuous then RunPc.Last else RunPc.Top))
    case Last => (SetMode(Released), Some(RunPc.Stop))
    case Stop => (FinishRun, None)
  }

  function GetFlow(x: Queue, g: GetPc): (Effect, Option<Pc>) {
    match g
    case Start(direct) =>
      (Silent, if x.mode == Released then None
               else if direct then Some(Direct(DirectPc.TryRead)) else Some(Get(CheckTtl)))
    case CheckTtl =>
      (Silent, if x.mode == TtlExpired && x.ttlDone then Some(Get(Repoll))
               else if x.mode == Released then None else Some(Get(WantCache)))
    case Repoll => (SetMode(Polling), Some(Get(WantCache)))
    case WantCache => (Silent, Some(Get(HasCache)))
    case HasCache =>
      if x.mode == Released || x.mode == TtlExpired || x.cache == [] then (Silent, None)
      else (PopFront, Some(Get(Popped(x.cache[0], |x.cache| == 1))))
    case Popped(job, last) => if last then (SetMode(Polling), Some(Get(InHook(job)))) else (HandOut(job), None)
    case InHook(job) => (HandOut(job), None)
  }

  function DirectFlow(x: Queue, n: nat, d: DirectPc): (Effect, Option<DirectPc>) {
    match d
    case TryRead => (Silent, None)
    case Reader => (Silent, if n == 0 then Some(DirectPc.Guard) else None)
    case Guard => (Silent, if x.mode == Released then None else Some(DirectPc.Reading))
    case Reading => (Silent, Some(DirectPc.Querying))
    case Querying => (Silent, None)
    case Answered(jobs) => (if jobs == [] then Silent else HandOut(jobs[0]), None)
  }

  function RetFlow(x: Queue, who: Who, r: RetPc): (Effect, Option<RetPc>) {
    match r
    case WantPending => (Silent, Some(WantPermit))
    case WantPermit => (Silent, Some(if x.permit then WantDrain else Writer))
    case Writer => (OpenPermit, Some(WantDrain))
    case WantDrain => (Drain, Some(Drained))
    case Drained => if x.pending == [] then (ClosePermit, Some(Done)) else (Silent, Some(Send(0)))
    case Send(n) => (SqlReturn, Some(Sent(n)))
    case Sent(n) => (Silent, Some(Acked))
    case Failed(n) => (Silent, if n + 1 < MAX_ATTEMPTS then Some(Send(n + 1)) else None)
    case Acked => (ClearPending, Some(Done))
    case Done => (if who == Ttl then StoreTtlDone else FinishRelease, None)
  }

  function OtherFlow(x: Queue, pc: Pc): (Effect, Option<Pc>) {
    match pc
    case TtlSleep => (Silent, if x.mode == Waiting then Some(TtlExpire) else None)
    case TtlExpire => if x.mode == Waiting then (Expire, Some(Ret(Ttl, WantPending))) else (Silent, None)
    case RelLock => (Silent, if x.releaseDone then None else Some(RelMode))
    case RelMode => (ForceReleased, Some(RelNotify))
    case RelNotify => (Notify, Some(RelAwait))
    case Consult => (Silent, Some(Consulting))
    case Consulting => (Silent, None)
    case Refresh => (WriteDetails, None)
    case _ => (Silent, Some(Ret(Release, WantPending)))
  }

  /** One way a ready task can go on. */
  function Flow(x: Queue, n: nat, pc: Pc, unused: Tid): (Effect, Option<Pc>) {
    match pc
    case Run(r) => var f := RunFlow(x, n, r, unused); (f.0, if f.1.Some? then Some(Run(f.1.value)) else None)
    case Get(g) => GetFlow(x, g)
    case Direct(d) => var f := DirectFlow(x, n, d); (f.0, if f.1.Some? then Some(Direct(f.1.value)) else None)
    case Ret(who, r) => var f := RetFlow(x, who, r); (f.0, if f.1.Some? then Some(Ret(who, f.1.value)) else None)
    case _ => OtherFlow(x, pc)
  }

  lemma FlowFlows(x: Queue, n: nat, pc: Pc, unused: Tid)
    requires pc == Run(Idle) ==> x.notice
    requires pc == RelAwait ==> x.runDone
    ensures Flows(x, n, pc, Flow(x, n, pc, unused).0, Flow(x, n, pc, unused).1)
  {
  }

  /** What a step needs is what the task wants. */
  ghost predicate NeedsWanted(x: Queue, k: Task, e: Effect, post: Option<Pc>, unused: Tid) {
    && !e.SqlClaim? && !e.SqlClaimLost? && !e.Orphan? && (e.StartTimer? ==> e.timer == unused)
    && (WritesMode(e) ==> Wanted(x, k) == WantsMode)
    && (e.WriteDetails? ==> Wanted(x, k) == WantsDetailsWrite)
    && (e.Append? || e.Drain? ==> Wanted(x, k) == WantsLock(CacheLock(k.q)))
    && (post.Some? ==> forall l :: Holds(Task(k.q, post.value), l) && !Holds(k, l) ==>
          l.ModeRead? || l.DetailsRead? || Wanted(x, k) == WantsLock(l))
  }

  lemma FlowWants(x: Queue, n: nat, k: Task, unused: Tid)
    ensures NeedsWanted(x, k, Flow(x, n, k.pc, unused).0, Flow(x, n, k.pc, unused).1, unused)
  {
    match k.pc
    case Run(r) => RunFlowWants(x, n, k, unused);
    case Get(g) => GetFlowWants(x, n, k, unused);
    case Direct(d) => DirectFlowWants(x, n, k, unused);
    case Ret(who, r) => RetFlowWants(x, n, k, unused);
    case _ =>
  }

  lemma RunFlowWants(x: Queue, n: nat, k: Task, unused: Tid)
    requires k.pc.Run?
    ensures NeedsWanted(x, k, Flow(x, n, k.pc, unused).0, Flow(x, n, k.pc, unused).1, unused)
  {
  }

  lemma GetFlowWants(x: Queue, n: nat, k: Task, unused: Tid)
    requires k.pc.Get?
    ensures NeedsWanted(x, k, Flow(x, n, k.pc, unused).0, Flow(x, n, k.pc, unused).1, unused)
  {
  }

  lemma DirectFlowWants(x: Queue, n: nat, k: Task, unused: Tid)
    requires k.pc.Direct?
    ensures NeedsWanted(x, k, Flow(x, n, k.pc, unused).0, Flow(x, n, k.pc, unused).1, unused)
  {
  }

  lemma RetFlowWants(x: Queue, n: nat, k: Task, unused: Tid)
    requires k.pc.Ret?
    ensures NeedsWanted(x, k, Flow(x, n, k.pc, unused).0, Flow(x, n, k.pc, unused).1, unused)
  {
  }

  lemma {:induction false} FreshTid(tasks: set<Tid>) returns (unused: Tid)
    ensures unused !in tasks && forall t :: t in tasks ==> t < unused
  {
    if tasks == {} {
      unused := 0;
    } else {
      var t := Pick(tasks);
      var f := FreshTid(tasks - {t});
      unused := if t < f then f else t + 1;
      forall u | u in tasks ensures u < unused { assert u == t || u in tasks - {t}; }
    }
  }

  lemma ReadyCanStep(s: State, t: Tid)
    requires Placed(s, t) && Ready(s, t)
    ensures CanStep(s, t)
  {
    var k := s.tasks[t];
    var x := s.queues[k.q];
    var unused := FreshTid(s.tasks.Keys);
    var (e, post) := Flow(x, s.permits, k.pc, unused);
    FlowFlows(x, s.permits, k.pc, unused);
    FlowWants(x, s.permits, k, unused);
    assert Permits(s, t, e, post);
  }

  // ------------------------------------------------------------------- no deadlock

  /** Nobody waits for a fetch loop that rests. */
  lemma NotResting(s: State, t: Tid, u: Tid)
    requires LifeInv(s) && Placed(s, t) && Placed(s, u) && WaitsFor(s, t, u)
    ensures !Resting(s, u)
  {
    assert LifeFacts(s.queues[s.tasks[t].q], s.tasks[t].pc);
    if s.tasks[u].pc == Run(Idle) { IdleBlocksNobody(s.queues[s.tasks[t].q], s.tasks[t], s.tasks[u]); }
  }

  /** Nobody wants the one lock that a resting loop holds. */
  lemma IdleBlocksNobody(x: Queue, k: Task, m: Task)
    requires m.pc == Run(Idle)
    ensures forall b :: Holds(m, b) ==> b == RunLock(m.q)
    ensures Wanted(x, k).WantsLock? ==> !Wanted(x, k).l.RunLock?
  {
  }

  /** A path of the wait-for graph. */
  ghost predicate WaitPath(s: State, path: seq<Tid>) {
    && path != [] && (forall i :: 0 <= i < |path| ==> Placed(s, path[i]))
    && (forall i :: 0 <= i < |path| - 1 ==> WaitsFor(s, path[i], path[i + 1]))
  }

  /** The path from `t` ends at a task that has what it wants and can step. */
  ghost predicate Unblocks(s: State, t: Tid, path: seq<Tid>) {
    && WaitPath(s, path) && path[0] == t
    && Ready(s, path[|path| - 1]) && CanStep(s, path[|path| - 1])
  }

  ghost predicate GoesOn(s: State, t: Tid) { exists path :: Unblocks(s, t, path) }

  lemma Blocker(s: State, t: Tid) returns (u: Tid)
    requires CoreInv(s) && Placed(s, t) && !Ready(s, t) && !Resting(s, t)
    ensures Placed(s, u) && WaitsFor(s, t, u) && !Resting(s, u) && Level(WantOf(s, t)) < Level(WantOf(s, u))
  {
    SomebodyBlocks(s, t);
    u :| Placed(s, u) && WaitsFor(s, t, u);
    EdgeGoesUp(s, t, u);
    NotResting(s, t, u);
  }

  lemma ReadyUnblocks(s: State, t: Tid)
    requires Placed(s, t) && Ready(s, t)
    ensures GoesOn(s, t)
  {
    ReadyCanStep(s, t);
    assert Unblocks(s, t, [t]);
  }

  lemma Prepend(s: State, t: Tid, u: Tid)
    requires Placed(s, t) && Placed(s, u) && WaitsFor(s, t, u) && GoesOn(s, u)
    ensures GoesOn(s, t)
  {
    var rest :| Unblocks(s, u, rest);
    var path := [t] + rest;
    forall i | 0 <= i < |path| ensures Placed(s, path[i]) { assert i > 0 ==> path[i] == rest[i - 1]; }
    forall i | 0 <= i < |path| - 1 ensures WaitsFor(s, path[i], path[i + 1]) {
      assert path[i + 1] == rest[i];
      if i > 0 { assert path[i] == rest[i - 1]; }
    }
    assert path[|path| - 1] == rest[|rest| - 1];
    assert Unblocks(s, t, path);
  }

  /** Every task that is not ready has a blocker further up. */
  ghost predicate Blocked(s: State) {
    forall t :: Placed(s, t) && !Ready(s, t) && !Resting(s, t) ==> exists u :: Blocks(s, t, u)
  }

  ghost predicate Blocks(s: State, t: Tid, u: Tid)
    requires Placed(s, t)
  {
    Placed(s, u) && WaitsFor(s, t, u) && !Resting(s, u) && Level(WantOf(s, t)) < Level(WantOf(s, u))
  }

  lemma AllBlocked(s: State)
    requires CoreInv(s)
    ensures Blocked(s)
  {
    forall t | Placed(s, t) && !Ready(s, t) && !Resting(s, t) ensures exists u :: Blocks(s, t, u) {
      var u := Blocker(s, t);
      assert Blocks(s, t, u);
    }
  }

  /** Following the wait-for graph from any task that is not resting ends at a task that
      can step. */
  lemma {:induction false} PathEnds(s: State, t: Tid)
    requires Blocked(s) && Placed(s, t) && !Resting(s, t)
    ensures GoesOn(s, t)
    decreases 9 - Level(WantOf(s, t))
  {
    if Ready(s, t) {
      ReadyUnblocks(s, t);
    } else {
      var u :| Blocks(s, t, u);
      PathEnds(s, u);
      Prepend(s, t, u);
    }
  }

  /** In every reachable state every edge of the wait-for graph goes up in one order. */
  lemma WaitsGoUp(states: seq<State>, steps: seq<Step>, i: nat, t: Tid, u: Tid)
    requires Execution(states, steps) && i < |states| && Placed(states[i], t) && Placed(states[i], u)
    requires WaitsFor(states[i], t, u)
    ensures Level(WantOf(states[i], t)) < Level(WantOf(states[i], u))
  {
    InvReachable(states, steps, i);
    EdgeGoesUp(states[i], t, u);
  }

  /** And a task that cannot go on waits for a task that exists. */
  lemma WaitsForSomebody(states: seq<State>, steps: seq<Step>, i: nat, t: Tid)
    requires Execution(states, steps) && i < |states| && Placed(states[i], t) && !Ready(states[i], t)
    requires !Resting(states[i], t)
    ensures exists u :: Placed(states[i], u) && WaitsFor(states[i], t, u)
  {
    InvReachable(states, steps, i);
    SomebodyBlocks(states[i], t);
  }

  /** Deadlock freedom: in every reachable state, from every call, timer or fetch loop
      under way, the chain of tasks it waits for ends at one that can go on, although
      every waiting writer stops new readers and nobody is dropped. */
  lemma NoDeadlock(states: seq<State>, steps: seq<Step>, i: nat, t: Tid)
    requires Execution(states, steps) && i < |states| && Placed(states[i], t) && !Resting(states[i], t)
    ensures exists path :: Unblocks(states[i], t, path)
  {
    InvReachable(states, steps, i);
    AllBlocked(states[i]);
    PathEnds(states[i], t);
  }
}
