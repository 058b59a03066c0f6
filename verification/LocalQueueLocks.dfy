/** Locks exclude each other, and the coordinator's count is the number of live
    return permits, none of which coexists with a claim guard. */
module LocalQueueLocks {
  import opened Wrappers
  import opened LocalQueue

  // --------------------------------------------------------------------- locks

  /** Two tasks hold no two locks that exclude each other. */
  ghost predicate Compatible(k: Task, m: Task) {
    forall a, b :: Holds(k, a) && Holds(m, b) ==> !Clash(a, b)
  }

  ghost predicate LocksInv(s: State) {
    forall t, u :: t in s.tasks && u in s.tasks && t != u ==> Compatible(s.tasks[t], s.tasks[u])
  }

  /** What compatibility says lock by lock. */
  lemma Exclusion(k: Task, m: Task)
    requires Compatible(k, m)
    ensures Compatible(m, k)
    ensures k.q == m.q ==> !(Releasing(k.pc) && Releasing(m.pc)) && !(k.pc.Run? && m.pc.Run?)
    ensures k.q == m.q ==> !(HoldsPending(k.pc) && HoldsPending(m.pc))
    ensures !(k.pc.Ret? && k.pc.ret.Writer? && Reads(m.pc))
  {
    var q := k.q;
    assert k.q == m.q && Releasing(k.pc) && Releasing(m.pc) ==> Holds(k, ReleaseLock(q)) && Holds(m, ReleaseLock(q));
    assert k.q == m.q && k.pc.Run? && m.pc.Run? ==> Holds(k, RunLock(q)) && Holds(m, RunLock(q));
    assert k.q == m.q && HoldsPending(k.pc) && HoldsPending(m.pc) ==>
      Holds(k, PendingLock(q)) && Holds(m, PendingLock(q));
    assert k.pc.Ret? && k.pc.ret.Writer? && Reads(m.pc) ==> Holds(k, ClaimWrite) && Holds(m, ClaimRead);
  }

  /** Between `s` and `s'` task `t` moved to `post` or ended, only its own queue
      changed, and at most a sleeping timer was added. */
  ghost predicate Advances(s: State, t: Tid, post: Option<Pc>, x': Queue, s': State) {
    && t in s.tasks && s.tasks[t].q in s.queues
    && s'.me == s.me
    && s'.queues == s.queues[s.tasks[t].q := x']
    && (t in s'.tasks <==> post.Some?)
    && (t in s'.tasks ==> s'.tasks[t] == Task(s.tasks[t].q, post.value))
    && (forall u :: u in s.tasks && u != t ==> u in s'.tasks && s'.tasks[u] == s.tasks[u])
    && (forall u :: u in s'.tasks && u !in s.tasks ==> s'.tasks[u] == Task(s.tasks[t].q, TtlSleep))
  }

  lemma ApplyAdvances(s: State, t: Tid, e: Effect, post: Option<Pc>)
    requires t in s.tasks && s.tasks[t].q in s.queues && (e.StartTimer? ==> e.timer !in s.tasks)
    ensures Advances(s, t, post, QueueAfter(s.queues[s.tasks[t].q], e), Apply(s, t, e, post))
  {
  }

  lemma LocksKept(s: State, t: Tid, e: Effect, post: Option<Pc>, x': Queue, s': State)
    requires LocksInv(s) && Advances(s, t, post, x', s') && Permits(s, t, e, post)
    ensures LocksInv(s')
  {
    forall u, v | u in s'.tasks && v in s'.tasks && u != v ensures Compatible(s'.tasks[u], s'.tasks[v]) {
      if u == t && v in s.tasks {
        PostCompatible(s, t, e, post, v);
      } else if v == t && u in s.tasks {
        PostCompatible(s, t, e, post, u);
        Exclusion(s'.tasks[t], s'.tasks[u]);
      }
    }
  }

  /** The stepping task stays compatible: it kept its locks or found them free. */
  lemma PostCompatible(s: State, t: Tid, e: Effect, post: Option<Pc>, u: Tid)
    requires LocksInv(s) && t in s.tasks && u in s.tasks && u != t && post.Some? && Permits(s, t, e, post)
    ensures Compatible(Task(s.tasks[t].q, post.value), s.tasks[u])
  {
    var k' := Task(s.tasks[t].q, post.value);
    assert Compatible(s.tasks[t], s.tasks[u]);
    forall a, b | Holds(k', a) && Holds(s.tasks[u], b) ensures !Clash(a, b) {
      if !Holds(s.tasks[t], a) { assert Free(s, t, a); }
    }
  }

  // ------------------------------------------------------------------- permits

  function PermitSet(s: State): set<Qid> { set q | q in s.queues && s.queues[q].permit }

  /** What a task at `pc` may rely on about its queue and the coordinator. */
  ghost predicate PermitFacts(x: Queue, permits: nat, pc: Pc) {
    && (Guarded(pc) ==> permits == 0)
    && (pc.Ret? && pc.ret.Writer? ==> !x.permit)
    && (Permitted(pc) ==> x.permit)
    && (Sending(pc) ==> x.pending != [])
  }

  ghost predicate PermitInv(s: State) {
    && s.permits == |PermitSet(s)|
    && (forall q :: q in s.queues && s.queues[q].pending != [] ==> s.queues[q].permit)
    && (forall t :: t in s.tasks ==>
          s.tasks[t].q in s.queues && PermitFacts(s.queues[s.tasks[t].q], s.permits, s.tasks[t].pc))
  }

  /** What the control flow says about permits: who changes them, how the count
      follows, and what the stepping task may rely on next. */
  ghost predicate PermitStep(x: Queue, n: nat, pc: Pc, post: Option<Pc>, x': Queue, n': nat) {
    && (x'.permit != x.permit || x'.pending != x.pending ==> HoldsPending(pc))
    && (if x.permit == x'.permit then n' == n else if x'.permit then n' == n + 1 else n == n' + 1)
    && (n < n' ==> pc.Ret? && pc.ret.Writer?)
    && (x'.pending != [] ==> x'.permit)
    && (post.Some? ==> PermitFacts(x', n', post.value))
  }

  lemma PermitTable(x: Queue, n: nat, pc: Pc, e: Effect, post: Option<Pc>)
    requires Moves(x, n, pc, e, post) && PermitFacts(x, n, pc)
    requires x.pending != [] ==> x.permit
    requires x.permit ==> 0 < n
    ensures PermitStep(x, n, pc, post, QueueAfter(x, e), ReturnsAfter(n, e))
  {
    if !Drops(x, pc, e, post) { PermitFlow(x, n, pc, e, post); }
  }

  lemma PermitFlow(x: Queue, n: nat, pc: Pc, e: Effect, post: Option<Pc>)
    requires Flows(x, n, pc, e, post) && PermitFacts(x, n, pc) && (x.pending != [] ==> x.permit) && (x.permit ==> 0 < n)
    ensures PermitStep(x, n, pc, post, QueueAfter(x, e), ReturnsAfter(n, e))
  {
    match pc
    case Run(r) => PermitTableRun(x, n, r, e, if post.Some? then Some(post.value.run) else None);
    case Get(g) => PermitTableGet(x, n, g, e, post);
    case Direct(d) => PermitTableDirect(x, n, d, e, if post.Some? then Some(post.value.direct) else None);
    case Ret(who, r) => PermitTableRet(x, n, who, r, e, if post.Some? then Some(post.value.ret) else None);
    case _ => PermitTableOther(x, n, pc, e, post);
  }

  lemma PermitTableGet(x: Queue, n: nat, g: GetPc, e: Effect, post: Option<Pc>)
    requires GetMoves(x, g, e, post) && (x.pending != [] ==> x.permit)
    ensures PermitStep(x, n, Get(g), post, QueueAfter(x, e), ReturnsAfter(n, e))
  {
  }

  lemma PermitTableOther(x: Queue, n: nat, pc: Pc, e: Effect, post: Option<Pc>)
    requires OtherMoves(x, pc, e, post) && (x.pending != [] ==> x.permit)
    ensures PermitStep(x, n, pc, post, QueueAfter(x, e), ReturnsAfter(n, e))
  {
  }

  lemma PermitTableDirect(x: Queue, n: nat, d: DirectPc, e: Effect, to: Option<DirectPc>)
    requires DirectMoves(x, n, d, e, to) && PermitFacts(x, n, Direct(d)) && (x.pending != [] ==> x.permit)
    ensures PermitStep(x, n, Direct(d), if to.Some? then Some(Direct(to.value)) else None,
                       QueueAfter(x, e), ReturnsAfter(n, e))
  {
  }

  lemma PermitTableRun(x: Queue, n: nat, r: RunPc, e: Effect, to: Option<RunPc>)
    requires RunMoves(x, n, r, e, to) && PermitFacts(x, n, Run(r)) && (x.pending != [] ==> x.permit)
    ensures PermitStep(x, n, Run(r), if to.Some? then Some(Run(to.value)) else None,
                       QueueAfter(x, e), ReturnsAfter(n, e))
  {
  }

  lemma PermitTableRet(x: Queue, n: nat, who: Who, r: RetPc, e: Effect, to: Option<RetPc>)
    requires RetMoves(x, who, r, e, to) && PermitFacts(x, n, Ret(who, r))
    requires (x.pending != [] ==> x.permit) && (x.permit ==> 0 < n)
    ensures PermitStep(x, n, Ret(who, r), if to.Some? then Some(Ret(who, to.value)) else None,
                       QueueAfter(x, e), ReturnsAfter(n, e))
  {
  }

  lemma PermitsCounted(s: State, q: Qid, x': Queue, s': State)
    requires q in s.queues && s'.queues == s.queues[q := x'] && s.permits == |PermitSet(s)|
    requires var x := s.queues[q];
             if x.permit == x'.permit then s'.permits == s.permits
             else if x'.permit then s'.permits == s.permits + 1 else s.permits == s'.permits + 1
    ensures s'.permits == |PermitSet(s')|
  {
    if s.queues[q].permit == x'.permit {
      assert PermitSet(s') == PermitSet(s);
    } else if x'.permit {
      assert PermitSet(s') == PermitSet(s) + {q};
    } else {
      assert q in PermitSet(s);
      assert PermitSet(s') == PermitSet(s) - {q};
    }
  }

  lemma PermitKept(s: State, t: Tid, post: Option<Pc>, x': Queue, s': State)
    requires LocksInv(s) && PermitInv(s) && Advances(s, t, post, x', s')
    requires PermitStep(s.queues[s.tasks[t].q], s.permits, s.tasks[t].pc, post, x', s'.permits)
    ensures PermitInv(s')
  {
    var k := s.tasks[t];
    PermitsCounted(s, k.q, x', s');
    forall u | u in s'.tasks
      ensures s'.tasks[u].q in s'.queues && PermitFacts(s'.queues[s'.tasks[u].q], s'.permits, s'.tasks[u].pc)
    {
      if u != t && u in s.tasks { Exclusion(k, s.tasks[u]); }
    }
  }
}
