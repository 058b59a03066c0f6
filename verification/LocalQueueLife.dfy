/** The life of a queue: Released is terminal, the fetch loop ends once, a release
    waits for it, and what a finished release emptied stays empty. */
module LocalQueueLife {
  import opened Wrappers
  import opened LocalQueue
  import opened LocalQueueLocks

  /** `return_cached_jobs` on behalf of `release`, after the drain. */
  predicate ReleaseDrained(pc: Pc) {
    pc.Ret? && pc.who == Release && (pc.ret.Drained? || Sending(pc) || pc.ret.Done?)
  }

  ghost predicate LifeFacts(x: Queue, pc: Pc) {
    && (pc.RelNotify? || pc.RelAwait? || (pc.Ret? && pc.who == Release) ==> x.mode == Released)
    && (pc.Ret? && pc.who == Release ==> x.runDone)
    && (ReleaseDrained(pc) ==> x.cache == [])
    && (pc == Ret(Release, Done) ==> x.pending == [])
    && (pc == Run(Stop) ==> x.mode == Released)
    && (Releasing(pc) ==> !x.releaseDone)
  }

  /** Cleanup is complete: terminal mode, no fetch loop, nothing cached or pending. */
  ghost predicate CleanedUp(x: Queue) {
    x.mode == Released && x.runDone && x.cache == [] && x.pending == []
  }

  /** The fetch loop cannot sleep through a release. */
  ghost predicate WillNotice(s: State, t: Tid)
    requires t in s.tasks && s.tasks[t].q in s.queues
  {
    var q := s.tasks[t].q;
    s.tasks[t].pc == Run(Idle) && s.queues[q].mode == Released ==>
      s.queues[q].notice || exists u :: u in s.tasks && s.tasks[u] == Task(q, RelNotify)
  }

  /** The fetch loop of `q` has not ended. */
  ghost predicate Looping(s: State, q: Qid) {
    exists t :: t in s.tasks && s.tasks[t].q == q && s.tasks[t].pc.Run?
  }

  ghost predicate LifeInv(s: State) {
    && (forall t :: t in s.tasks ==>
          s.tasks[t].q in s.queues && LifeFacts(s.queues[s.tasks[t].q], s.tasks[t].pc) && WillNotice(s, t))
    && (forall q :: q in s.queues ==> (s.queues[q].runDone <==> !Looping(s, q)))
    && (forall q :: q in s.queues && s.queues[q].releaseDone ==> CleanedUp(s.queues[q]))
  }

  /** What the control flow says about a queue's life. */
  ghost predicate LifeStep(x: Queue, pc: Pc, post: Option<Pc>, x': Queue) {
    && (x.mode == Released ==> x'.mode == Released)
    && (x.releaseDone ==> x'.releaseDone)
    && (if x.runDone then x'.runDone else x'.runDone <==> pc.Run? && post.None?)
    && (x.cache == [] && x'.cache != [] ==> pc.Run?)
    && (x.pending == [] && x'.pending != [] ==> x.cache != [])
    && (x'.releaseDone && !x.releaseDone ==> pc == Ret(Release, Done) && post.None? && x' == x.(releaseDone := true))
    && (post.Some? ==> LifeFacts(x', post.value) && (post.value.Run? <==> pc.Run?))
    && (x.notice && !x'.notice ==> pc.Run?)
    && (post == Some(Run(Idle)) ==> x'.mode != Released)
    && (x.mode != Released && x'.mode == Released ==> pc.Run? || post == Some(RelNotify))
    && (pc == RelNotify ==> x'.notice)
  }

  lemma LifeTable(x: Queue, n: nat, pc: Pc, e: Effect, post: Option<Pc>)
    requires Moves(x, n, pc, e, post) && LifeFacts(x, pc)
    requires x.runDone ==> !pc.Run?
    ensures LifeStep(x, pc, post, QueueAfter(x, e))
  {
    if Drops(x, pc, e, post) { assert QueueAfter(x, e) == x; } else { LifeFlow(x, n, pc, e, post); }
  }

  lemma LifeFlow(x: Queue, n: nat, pc: Pc, e: Effect, post: Option<Pc>)
    requires Flows(x, n, pc, e, post) && LifeFacts(x, pc) && (x.runDone ==> !pc.Run?)
    ensures LifeStep(x, pc, post, QueueAfter(x, e))
  {
    match pc
    case Run(r) => LifeTableRun(x, n, r, e, if post.Some? then Some(post.value.run) else None);
    case Get(g) => LifeTableGet(x, g, e, post);
    case Direct(d) => LifeTableDirect(x, n, d, e, if post.Some? then Some(post.value.direct) else None);
    case Ret(who, r) => LifeTableRet(x, who, r, e, if post.Some? then Some(post.value.ret) else None);
    case _ => LifeTableOther(x, pc, e, post);
  }

  lemma LifeTableDirect(x: Queue, n: nat, d: DirectPc, e: Effect, to: Option<DirectPc>)
    requires DirectMoves(x, n, d, e, to)
    ensures LifeStep(x, Direct(d), if to.Some? then Some(Direct(to.value)) else None, QueueAfter(x, e))
  {
  }

  lemma LifeTableOther(x: Queue, pc: Pc, e: Effect, post: Option<Pc>)
    requires OtherMoves(x, pc, e, post) && LifeFacts(x, pc)
    ensures LifeStep(x, pc, post, QueueAfter(x, e))
  {
  }

  lemma LifeTableRun(x: Queue, n: nat, r: RunPc, e: Effect, to: Option<RunPc>)
    requires RunMoves(x, n, r, e, to) && LifeFacts(x, Run(r)) && !x.runDone
    ensures LifeStep(x, Run(r), if to.Some? then Some(Run(to.value)) else None, QueueAfter(x, e))
  {
    if RunSettles(r) { LifeRunSettles(x, n, r, e, to); } else { LifeRunFetches(x, n, r, e, to); }
  }

  /** The loop is done with a fetch, or is not at one. */
  predicate RunSettles(r: RunPc) {
    r.Begin? || r.Top? || r.Idle? || r.Deliver? || r.Extended? || r.After? || r.Last? || r.Stop?
  }

  lemma LifeRunSettles(x: Queue, n: nat, r: RunPc, e: Effect, to: Option<RunPc>)
    requires RunMoves(x, n, r, e, to) && LifeFacts(x, Run(r)) && !x.runDone && RunSettles(r)
    ensures LifeStep(x, Run(r), if to.Some? then Some(Run(to.value)) else None, QueueAfter(x, e))
  {
  }

  lemma LifeRunFetches(x: Queue, n: nat, r: RunPc, e: Effect, to: Option<RunPc>)
    requires RunMoves(x, n, r, e, to) && !x.runDone && !RunSettles(r)
    ensures LifeStep(x, Run(r), if to.Some? then Some(Run(to.value)) else None, QueueAfter(x, e))
  {
    assert to.Some? && !to.value.Stop? && !to.value.Idle?;
    assert QueueAfter(x, e) == x || QueueAfter(x, e) == x.(notice := true);
  }

  lemma LifeTableGet(x: Queue, g: GetPc, e: Effect, post: Option<Pc>)
    requires GetMoves(x, g, e, post)
    ensures LifeStep(x, Get(g), post, QueueAfter(x, e))
  {
    GetChanges(x, g, e, post);
  }

  /** All that `get_job` changes of its queue are the mode and the front of the cache. */
  lemma GetChanges(x: Queue, g: GetPc, e: Effect, post: Option<Pc>)
    requires GetMoves(x, g, e, post)
    ensures var x' := QueueAfter(x, e);
            && x' == x.(mode := x'.mode, cache := x'.cache)
            && (x.mode == Released || x'.mode == Released ==> x'.mode == x.mode) && (x.cache == [] ==> x'.cache == [])
    ensures post.Some? ==> post.value.Get? || post.value.Direct?
  {
    assert e == Silent || e == SetMode(Polling) || e == PopFront || e.HandOut?;
    MildChange(x, e);
  }

  lemma MildChange(x: Queue, e: Effect)
    requires e == Silent || e == SetMode(Polling) || e == PopFront || e.HandOut?
    ensures var x' := QueueAfter(x, e);
            && x' == x.(mode := x'.mode, cache := x'.cache)
            && (x.mode == Released || x'.mode == Released ==> x'.mode == x.mode) && (x.cache == [] ==> x'.cache == [])
  {
  }

  lemma LifeTableRet(x: Queue, who: Who, r: RetPc, e: Effect, to: Option<RetPc>)
    requires RetMoves(x, who, r, e, to) && LifeFacts(x, Ret(who, r))
    ensures LifeStep(x, Ret(who, r), if to.Some? then Some(Ret(who, to.value)) else None, QueueAfter(x, e))
  {
    if r.Done? {
      LifeRetDone(x, who, e);
    } else if r.WantDrain? || r.Drained? || r.Acked? {
      LifeRetMoves(x, who, r, e, to);
    } else {
      LifeRetWaits(x, who, r, e, to);
    }
  }

  lemma LifeRetDone(x: Queue, who: Who, e: Effect)
    requires RetMoves(x, who, Done, e, None) && LifeFacts(x, Ret(who, Done))
    ensures LifeStep(x, Ret(who, Done), None, QueueAfter(x, e))
  {
  }

  /** The jobs move, or are known to have gone. */
  lemma LifeRetMoves(x: Queue, who: Who, r: RetPc, e: Effect, to: Option<RetPc>)
    requires RetMoves(x, who, r, e, to) && LifeFacts(x, Ret(who, r)) && (r.WantDrain? || r.Drained? || r.Acked?)
    ensures LifeStep(x, Ret(who, r), if to.Some? then Some(Ret(who, to.value)) else None, QueueAfter(x, e))
  {
  }

  lemma LifeRetWaits(x: Queue, who: Who, r: RetPc, e: Effect, to: Option<RetPc>)
    requires RetMoves(x, who, r, e, to) && LifeFacts(x, Ret(who, r))
    requires !r.WantDrain? && !r.Drained? && !r.Acked? && !r.Done?
    ensures LifeStep(x, Ret(who, r), if to.Some? then Some(Ret(who, to.value)) else None, QueueAfter(x, e))
  {
    assert QueueAfter(x, e) == x || QueueAfter(x, e) == x.(permit := true);
    assert to.Some? && ReleaseDrained(Ret(who, to.value)) ==> ReleaseDrained(Ret(who, r)) && !to.value.Done?;
  }

  lemma LifeKept(s: State, t: Tid, post: Option<Pc>, x': Queue, s': State)
    requires LocksInv(s) && LifeInv(s) && Advances(s, t, post, x', s')
    requires LifeStep(s.queues[s.tasks[t].q], s.tasks[t].pc, post, x')
    ensures LifeInv(s')
  {
    forall u | u in s'.tasks
      ensures s'.tasks[u].q in s'.queues && LifeFacts(s'.queues[s'.tasks[u].q], s'.tasks[u].pc) && WillNotice(s', u)
    {
      if u != t && u in s.tasks {
        FactsKept(s, t, post, x', s', u);
        NoticeKept(s, t, post, x', s', u);
      }
    }
    forall q | q in s'.queues ensures s'.queues[q].runDone <==> !Looping(s', q) {
      LoopingKept(s, t, post, x', s', q);
    }
    forall q | q in s'.queues && s'.queues[q].releaseDone ensures CleanedUp(s'.queues[q]) {
      CleanupKept(s, t, post, x', s', q);
    }
  }

  lemma FactsKept(s: State, t: Tid, post: Option<Pc>, x': Queue, s': State, u: Tid)
    requires LocksInv(s) && LifeInv(s) && Advances(s, t, post, x', s') && u in s.tasks && u != t
    requires LifeStep(s.queues[s.tasks[t].q], s.tasks[t].pc, post, x')
    ensures LifeFacts(s'.queues[s.tasks[u].q], s.tasks[u].pc)
  {
    assert s.tasks[t].pc.Run? ==> Looping(s, s.tasks[t].q);
    assert LifeFacts(s.queues[s.tasks[u].q], s.tasks[u].pc);
    Exclusion(s.tasks[t], s.tasks[u]);
  }

  lemma CleanupKept(s: State, t: Tid, post: Option<Pc>, x': Queue, s': State, q: Qid)
    requires LifeInv(s) && Advances(s, t, post, x', s') && q in s.queues && s'.queues[q].releaseDone
    requires LifeStep(s.queues[s.tasks[t].q], s.tasks[t].pc, post, x')
    ensures CleanedUp(s'.queues[q])
  {
    assert s.tasks[t].pc.Run? ==> Looping(s, s.tasks[t].q);
    assert LifeFacts(s.queues[s.tasks[t].q], s.tasks[t].pc);
  }

  lemma LoopingKept(s: State, t: Tid, post: Option<Pc>, x': Queue, s': State, q: Qid)
    requires LocksInv(s) && LifeInv(s) && Advances(s, t, post, x', s') && q in s.queues
    requires LifeStep(s.queues[s.tasks[t].q], s.tasks[t].pc, post, x')
    ensures s'.queues[q].runDone <==> !Looping(s', q)
  {
    var k := s.tasks[t];
    if Looping(s, q) {
      var u :| u in s.tasks && s.tasks[u].q == q && s.tasks[u].pc.Run?;
      if u != t {
        assert u in s'.tasks;
        Exclusion(k, s.tasks[u]);
      } else if post.Some? {
        assert t in s'.tasks && s'.tasks[t].pc.Run?;
      } else {
        forall v | v in s'.tasks && s'.tasks[v].q == q ensures !s'.tasks[v].pc.Run? {
          if v in s.tasks { Exclusion(k, s.tasks[v]); }
        }
      }
    } else {
      forall v | v in s'.tasks && s'.tasks[v].q == q ensures !s'.tasks[v].pc.Run? {
        if v in s.tasks { assert !s.tasks[v].pc.Run?; }
      }
    }
  }

  lemma NoticeKept(s: State, t: Tid, post: Option<Pc>, x': Queue, s': State, u: Tid)
    requires LocksInv(s) && LifeInv(s) && Advances(s, t, post, x', s') && u in s.tasks && u != t
    requires LifeStep(s.queues[s.tasks[t].q], s.tasks[t].pc, post, x')
    ensures WillNotice(s', u)
  {
    var q := s.tasks[u].q;
    Exclusion(s.tasks[t], s.tasks[u]);
    assert WillNotice(s, u);
    if s.tasks[u].pc == Run(Idle) && s'.queues[q].mode == Released && !s'.queues[q].notice {
      if s.queues[q].mode == Released {
        var v :| v in s.tasks && s.tasks[v] == Task(q, RelNotify);
        assert v in s'.tasks && s'.tasks[v] == Task(q, RelNotify);
      } else {
        assert t in s'.tasks && s'.tasks[t] == Task(q, RelNotify);
      }
    }
  }
}
