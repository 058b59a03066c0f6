/** Where every claim of the worker is: each in exactly one place, and locked in the
    database everywhere except among returns whose answer is outstanding. */
module LocalQueueClaims {
  import opened Wrappers
  import opened JobTable
  import opened LocalQueue
  import opened LocalQueueLocks

  ghost predicate Somewhere(s: State, j: JobId) { exists p :: At(s, j, p) }

  /** The job is not in two places. */
  ghost predicate OnePlace(s: State, j: JobId) { forall p, p' :: At(s, j, p) && At(s, j, p') ==> p == p' }

  /** Outside the pending returns the job is locked by the worker. */
  ghost predicate LockedThere(s: State, j: JobId) {
    forall p :: At(s, j, p) && !p.InPending? ==> LockedBy(s.db, s.me, j)
  }

  predicate Once(jobs: seq<JobId>, j: JobId) { forall a, b :: 0 <= a < b < |jobs| ==> !(jobs[a] == j && jobs[b] == j) }

  /** No cache and no pending list has the job twice, and no two handlers have it. */
  ghost predicate Single(s: State, j: JobId) {
    && s.held[j] <= 1
    && forall q :: q in s.queues ==> Once(s.queues[q].cache, j) && Once(s.queues[q].pending, j)
  }

  /** A return statement has committed and its permit still blocks new claims. */
  predicate Committed(pc: Pc) { pc.Ret? && (pc.ret.Sent? || pc.ret.Acked?) }

  /** A committed return has unlocked the job, unless a late claim has locked it again. */
  ghost predicate Unlocked(s: State, j: JobId) {
    forall t :: Returned(s, t, j) && LockedBy(s.db, s.me, j) ==> j in s.relocked
  }

  ghost predicate Returned(s: State, t: Tid, j: JobId) {
    && t in s.tasks && s.tasks[t].q in s.queues
    && Committed(s.tasks[t].pc) && j in s.queues[s.tasks[t].q].pending
  }

  /** All that is known of one job. */
  ghost predicate JobInv(s: State, j: JobId) {
    && OnePlace(s, j) && LockedThere(s, j) && Single(s, j) && Unlocked(s, j)
    && (LockedBy(s.db, s.me, j) ==> Somewhere(s, j))
  }

  ghost predicate CarryFacts(pc: Pc) {
    && NoDup(Carried(pc))
    && (pc.Run? && pc.run.Answered? && !pc.run.ok ==> pc.run.jobs == [])
    && (pc.Direct? && pc.direct.Answered? ==> |pc.direct.jobs| <= 1)
  }

  ghost predicate CarryInv(s: State) {
    forall t :: t in s.tasks ==> s.tasks[t].q in s.queues && CarryFacts(s.tasks[t].pc)
  }

  /** The worker has the job in a cache, in flight or in a handler. */
  ghost predicate Relied(s: State, j: JobId) { exists p :: At(s, j, p) && !p.InPending? && !p.Stranded? }

  /** The worker has no trace of the job, in memory or in the table. */
  ghost predicate Gone(s: State, j: JobId) { !Somewhere(s, j) && !LockedBy(s.db, s.me, j) }

  lemma GoneIsFine(s: State, j: JobId)
    requires Gone(s, j)
    ensures JobInv(s, j)
  {
    assert !At(s, j, InHands);
    forall q | q in s.queues ensures j !in s.queues[q].cache && j !in s.queues[q].pending {
      assert !At(s, j, InCache(q)) && !At(s, j, InPending(q));
    }
  }

  // -------------------------------------------------------- moves between places

  /** The job is now exactly at `to`. */
  ghost predicate NowAt(s': State, j: JobId, to: Place) { forall p :: At(s', j, p) <==> p == to }

  /** The job stayed where it was. */
  ghost predicate Stays(s: State, s': State, j: JobId) { forall p :: At(s', j, p) <==> At(s, j, p) }

  /** A job that stays, or moves out of the cache or a task, keeps its lock and its place. */
  lemma PlaceKept(s: State, s': State, j: JobId, to: Place)
    requires OnePlace(s, j) && LockedThere(s, j) && (LockedBy(s.db, s.me, j) ==> Somewhere(s, j))
    requires s'.me == s.me && (LockedBy(s'.db, s.me, j) <==> LockedBy(s.db, s.me, j))
    requires Stays(s, s', j) || (NowAt(s', j, to) && exists from :: At(s, j, from) && !from.InPending?)
    ensures OnePlace(s', j) && LockedThere(s', j) && (LockedBy(s'.db, s'.me, j) ==> Somewhere(s', j))
  {
    if Stays(s, s', j) {
      if LockedBy(s.db, s.me, j) { var p :| At(s, j, p); assert At(s', j, p); }
    } else {
      assert At(s', j, to);
    }
  }

  function CarriedBy(post: Option<Pc>): seq<JobId> { if post.Some? then Carried(post.value) else [] }

  /** What the control flow says about the jobs in local variables. */
  ghost predicate CarryStep(x: Queue, pc: Pc, e: Effect, post: Option<Pc>) {
    && (match e
        case Append(js) => Carried(pc) == js && CarriedBy(post) == []
        case PopFront => x.cache != [] && Carried(pc) == [] && CarriedBy(post) == [x.cache[0]]
        case HandOut(j) => Carried(pc) == [j] && CarriedBy(post) == []
        case Strand(js) => Carried(pc) == js && CarriedBy(post) == []
        case SqlClaim(_, _) => Carried(pc) == [] && Guarded(pc)
        case SqlClaimLost(_, _) => Carried(pc) == [] && CarriedBy(post) == [] && Guarded(pc)
        case Drain => Carried(pc) == [] && CarriedBy(post) == [] && pc.Ret? && pc.ret.WantDrain?
        case SqlReturn => Carried(pc) == [] && CarriedBy(post) == []
        case ClearPending => Carried(pc) == [] && CarriedBy(post) == [] && pc.Ret? && pc.ret.Acked?
        case _ => CarriedBy(post) == Carried(pc))
    && (post.Some? && post.value.Run? && post.value.run.Answered? && !post.value.run.ok ==> post.value.run.jobs == [])
    && (post.Some? && post.value.Direct? && post.value.direct.Answered? ==> e.SqlClaim? && e.request.limit == 1)
    && (post.Some? && Committed(post.value) ==> e.SqlReturn? || Committed(pc))
  }

  lemma CarryTable(x: Queue, n: nat, pc: Pc, e: Effect, post: Option<Pc>)
    requires Moves(x, n, pc, e, post) && CarryFacts(pc)
    ensures CarryStep(x, pc, e, post)
  {
    if !Drops(x, pc, e, post) { CarryFlow(x, n, pc, e, post); }
  }

  lemma CarryFlow(x: Queue, n: nat, pc: Pc, e: Effect, post: Option<Pc>)
    requires Flows(x, n, pc, e, post) && CarryFacts(pc)
    ensures CarryStep(x, pc, e, post)
  {
    match pc
    case Run(r) => CarryTableRun(x, n, r, e, if post.Some? then Some(post.value.run) else None);
    case Get(g) => CarryTableGet(x, g, e, post);
    case Direct(d) => CarryTableDirect(x, n, d, e, if post.Some? then Some(post.value.direct) else None);
    case Ret(who, r) => CarryTableRet(x, who, r, e, if post.Some? then Some(post.value.ret) else None);
    case _ =>
  }

  lemma CarryTableRun(x: Queue, n: nat, r: RunPc, e: Effect, to: Option<RunPc>)
    requires RunMoves(x, n, r, e, to) && CarryFacts(Run(r))
    ensures CarryStep(x, Run(r), e, if to.Some? then Some(Run(to.value)) else None)
  {
  }

  lemma CarryTableGet(x: Queue, g: GetPc, e: Effect, post: Option<Pc>)
    requires GetMoves(x, g, e, post)
    ensures CarryStep(x, Get(g), e, post)
  {
  }

  lemma CarryTableDirect(x: Queue, n: nat, d: DirectPc, e: Effect, to: Option<DirectPc>)
    requires DirectMoves(x, n, d, e, to) && CarryFacts(Direct(d))
    ensures CarryStep(x, Direct(d), e, if to.Some? then Some(Direct(to.value)) else None)
  {
  }

  lemma CarryTableRet(x: Queue, who: Who, r: RetPc, e: Effect, to: Option<RetPc>)
    requires RetMoves(x, who, r, e, to)
    ensures CarryStep(x, Ret(who, r), e, if to.Some? then Some(Ret(who, to.value)) else None)
  {
  }

  // ------------------------------------------------------ steps within the worker

  /** The places a step of task `t` can touch, and what it leaves alone. */
  ghost predicate AwayFrom(s: State, t: Tid, p: Place)
    requires t in s.tasks
  {
    p != InTask(t) && p != InCache(s.tasks[t].q) && p != InPending(s.tasks[t].q) && p != InHands && p != Stranded
  }

  lemma Untouched(s: State, t: Tid, post: Option<Pc>, x': Queue, s': State, j: JobId, p: Place)
    requires Advances(s, t, post, x', s') && AwayFrom(s, t, p)
    ensures At(s', j, p) <==> At(s, j, p)
  {
  }

  /** A step that hands jobs on without a statement. */
  ghost predicate Passes(e: Effect) {
    !e.SqlClaim? && !e.SqlClaimLost? && !e.SqlReturn? && !e.ClearPending?
  }

  function Passed(x: Queue, e: Effect): set<JobId> {
    match e
    case Append(js) => SetOf(js)
    case PopFront => if x.cache == [] then {} else {x.cache[0]}
    case Drain => SetOf(x.cache)
    case HandOut(j) => {j}
    case Strand(js) => SetOf(js)
    case _ => {}
  }

  function From(q: Qid, t: Tid, e: Effect): Place { if e.PopFront? || e.Drain? then InCache(q) else InTask(t) }

  function To(q: Qid, t: Tid, e: Effect): Place {
    match e
    case Append(_) => InCache(q)
    case PopFront => InTask(t)
    case Drain => InPending(q)
    case HandOut(_) => InHands
    case _ => Stranded
  }

  function HeldAfter(held: multiset<JobId>, e: Effect): multiset<JobId> {
    if e.HandOut? then held + multiset{e.job} else held
  }

  /** One job, seen from the five places a step can touch. */
  lemma PassOne(x: Queue, pc: Pc, e: Effect, post: Option<Pc>, held: multiset<JobId>, stranded: set<JobId>, j: JobId)
    requires CarryStep(x, pc, e, post) && Passes(e) && Once(x.cache, j)
    requires j in Passed(x, e) ==>
               && j !in x.pending && j !in held && j !in stranded
               && (if e.PopFront? || e.Drain? then j !in Carried(pc) else j !in x.cache)
    ensures var x' := QueueAfter(x, e);
            if j in Passed(x, e) then
              && (j in CarriedBy(post) <==> e.PopFront?) && (j in x'.cache <==> e.Append?)
              && (j in x'.pending <==> e.Drain?)
              && (j in HeldAfter(held, e) <==> e.HandOut?) && (j in StrandedWith(stranded, e) <==> e.Strand?)
            else
              && (j in CarriedBy(post) <==> j in Carried(pc)) && (j in x'.cache <==> j in x.cache)
              && (j in x'.pending <==> j in x.pending)
              && (j in HeldAfter(held, e) <==> j in held) && (j in StrandedWith(stranded, e) <==> j in stranded)
  {
    if e.PopFront? { assert x.cache == [x.cache[0]] + x.cache[1..]; }
  }

  function StrandedWith(stranded: set<JobId>, e: Effect): set<JobId> {
    if e.Strand? then stranded + SetOf(e.jobs) else stranded
  }

  /** `s'` is `s` after task `t` took effect `e`, as far as places are concerned. */
  ghost predicate Took(s: State, t: Tid, e: Effect, post: Option<Pc>, s': State) {
    && t in s.tasks && s.tasks[t].q in s.queues
    && Advances(s, t, post, QueueAfter(s.queues[s.tasks[t].q], e), s')
    && s'.held == HeldAfter(s.held, e) && s'.stranded == StrandedAfter(s, s.queues[s.tasks[t].q], e)
    && s'.relocked == s.relocked
    && CarryStep(s.queues[s.tasks[t].q], s.tasks[t].pc, e, post)
  }

  /** A step without a statement moves a job from one place to another or lets it stay. */
  lemma PassMoves(s: State, t: Tid, e: Effect, post: Option<Pc>, s': State, j: JobId)
    requires OnePlace(s, j) && LockedThere(s, j) && Single(s, j) && Took(s, t, e, post, s') && Passes(e)
    ensures var q := s.tasks[t].q;
            if j in Passed(s.queues[q], e) then At(s, j, From(q, t, e)) && NowAt(s', j, To(q, t, e))
            else Stays(s, s', j)
  {
    forall p ensures var q := s.tasks[t].q;
                     if j in Passed(s.queues[q], e) then At(s, j, From(q, t, e)) && (At(s', j, p) <==> p == To(q, t, e))
                     else At(s', j, p) <==> At(s, j, p) {
      PassAt(s, t, e, post, s', j, p);
    }
  }

  lemma PassAt(s: State, t: Tid, e: Effect, post: Option<Pc>, s': State, j: JobId, p: Place)
    requires OnePlace(s, j) && LockedThere(s, j) && Single(s, j) && Took(s, t, e, post, s') && Passes(e)
    ensures var q := s.tasks[t].q;
            if j in Passed(s.queues[q], e) then At(s, j, From(q, t, e)) && (At(s', j, p) <==> p == To(q, t, e))
            else At(s', j, p) <==> At(s, j, p)
  {
    PassedFrom(s, t, e, post, j);
    if AwayFrom(s, t, p) {
      Untouched(s, t, post, QueueAfter(s.queues[s.tasks[t].q], e), s', j, p);
    } else {
      PassNear(s, t, e, post, s', j);
    }
  }

  lemma PassNear(s: State, t: Tid, e: Effect, post: Option<Pc>, s': State, j: JobId)
    requires OnePlace(s, j) && LockedThere(s, j) && Single(s, j) && Took(s, t, e, post, s') && Passes(e)
    ensures forall p :: !AwayFrom(s, t, p) ==>
              var q := s.tasks[t].q;
              At(s', j, p) <==> if j in Passed(s.queues[q], e) then p == To(q, t, e) else At(s, j, p)
  {
    PassedFrom(s, t, e, post, j);
    PassOne(s.queues[s.tasks[t].q], s.tasks[t].pc, e, post, s.held, s.stranded, j);
    TouchedAt(s, t, e, post, s', j);
    NearPlaces(s, t, j);
  }

  /** The five places of a step, in the state before it. */
  lemma NearPlaces(s: State, t: Tid, j: JobId)
    requires t in s.tasks && s.tasks[t].q in s.queues
    ensures var q := s.tasks[t].q;
            && (At(s, j, InTask(t)) <==> j in Carried(s.tasks[t].pc))
            && (At(s, j, InCache(q)) <==> j in s.queues[q].cache)
            && (At(s, j, InPending(q)) <==> j in s.queues[q].pending)
  {
  }

  /** The five places of a step, in the state after it. */
  lemma TouchedAt(s: State, t: Tid, e: Effect, post: Option<Pc>, s': State, j: JobId)
    requires Took(s, t, e, post, s') && Passes(e) && (At(s, j, InTask(t)) ==> LockedBy(s.db, s.me, j))
    ensures var q := s.tasks[t].q;
            var x' := QueueAfter(s.queues[q], e);
            && (At(s', j, InTask(t)) <==> j in CarriedBy(post))
            && (At(s', j, InCache(q)) <==> j in x'.cache) && (At(s', j, InPending(q)) <==> j in x'.pending)
            && (At(s', j, InHands) <==> j in HeldAfter(s.held, e))
            && (At(s', j, Stranded) <==> j in StrandedWith(s.stranded, e))
  {
  }

  /** A job that is passed on was where the effect takes it from, and nowhere else. */
  lemma PassedFrom(s: State, t: Tid, e: Effect, post: Option<Pc>, j: JobId)
    requires OnePlace(s, j) && t in s.tasks && s.tasks[t].q in s.queues
    requires CarryStep(s.queues[s.tasks[t].q], s.tasks[t].pc, e, post) && Passes(e)
    ensures var q := s.tasks[t].q;
            j in Passed(s.queues[q], e) ==> At(s, j, From(q, t, e)) && forall p :: At(s, j, p) ==> p == From(q, t, e)
    ensures var q := s.tasks[t].q;
            var x := s.queues[q];
            j in Passed(x, e) ==>
               && j !in x.pending && j !in s.held && j !in s.stranded
               && (if e.PopFront? || e.Drain? then j !in Carried(s.tasks[t].pc) else j !in x.cache)
  {
    var q := s.tasks[t].q;
    if j in Passed(s.queues[q], e) {
      assert At(s, j, From(q, t, e));
      assert !At(s, j, InPending(q)) && !At(s, j, InHands) && !At(s, j, Stranded);
      assert if e.PopFront? || e.Drain? then !At(s, j, InTask(t)) else !At(s, j, InCache(q));
    }
  }

  // ------------------------------------------------------------------- no repeats

  lemma OnceConcat(a: seq<JobId>, b: seq<JobId>, j: JobId)
    requires Once(a, j) && Once(b, j) && !(j in a && j in b)
    ensures Once(a + b, j)
  {
    var c := a + b;
    forall i, k | 0 <= i < k < |c| ensures !(c[i] == j && c[k] == j) {
      if i < |a| <= k { assert c[i] == a[i] && c[k] == b[k - |a|]; }
    }
  }

  lemma ShortList(jobs: seq<JobId>, claimed: set<JobId>)
    requires Lists(jobs, claimed) && |claimed| <= 1
    ensures |jobs| <= 1
  {
    if |jobs| > 1 {
      assert jobs[0] in claimed && jobs[1] in claimed && jobs[0] != jobs[1];
      SubsetSize({jobs[0], jobs[1]}, claimed);
    }
  }

  /** The claim statement behind `e`, if any. */
  ghost predicate Answers(s: State, e: Effect, post: Option<Pc>) {
    && (e.SqlClaim? || e.SqlClaimLost? ==> Claims(s, e.request, e.claimed))
    && (e.SqlClaim? ==> post.Some? && Lists(Carried(post.value), e.claimed))
  }

  lemma SingleKept(s: State, t: Tid, e: Effect, post: Option<Pc>, s': State, j: JobId)
    requires OnePlace(s, j) && Single(s, j) && CarryInv(s) && Took(s, t, e, post, s')
    ensures Single(s', j)
  {
    var q := s.tasks[t].q;
    var x := s.queues[q];
    assert CarryFacts(s.tasks[t].pc);
    assert !(At(s, j, InCache(q)) && At(s, j, InTask(t))) && !(At(s, j, InPending(q)) && At(s, j, InCache(q)));
    assert !(At(s, j, InHands) && At(s, j, InTask(t)));
    OnceAfter(x, s.tasks[t].pc, e, post, j);
  }

  lemma OnceAfter(x: Queue, pc: Pc, e: Effect, post: Option<Pc>, j: JobId)
    requires CarryStep(x, pc, e, post) && CarryFacts(pc) && Once(x.cache, j) && Once(x.pending, j)
    requires !(j in x.cache && j in Carried(pc)) && !(j in x.pending && j in x.cache)
    ensures var x' := QueueAfter(x, e);
            Once(x'.cache, j) && Once(x'.pending, j)
  {
    if e.Append? {
      OnceConcat(x.cache, e.jobs, j);
    } else if e.Drain? {
      OnceConcat(x.pending, x.cache, j);
    }
  }

  lemma CarryInvKept(s: State, t: Tid, e: Effect, post: Option<Pc>, s': State)
    requires CarryInv(s) && Took(s, t, e, post, s') && Answers(s, e, post)
    ensures CarryInv(s')
  {
    if post.Some? { CarryKept(s, t, e, post, s'); }
  }

  lemma CarryKept(s: State, t: Tid, e: Effect, post: Option<Pc>, s': State)
    requires CarryInv(s) && Took(s, t, e, post, s') && Answers(s, e, post) && post.Some?
    ensures CarryFacts(post.value)
  {
    if post.value.Direct? && post.value.direct.Answered? {
      ClaimStepClaimable(s.db, e.request, e.claimed, Claim(s.db, e.claimed, Lock(e.request.worker, e.request.now)));
      ShortList(post.value.direct.jobs, e.claimed);
    }
  }

  // ------------------------------------------------------------------- statements

  /** While a claim guard is held no return is outstanding anywhere. */
  lemma GuardMeansNoPending(s: State, t: Tid)
    requires PermitInv(s) && t in s.tasks && Guarded(s.tasks[t].pc)
    ensures forall q :: q in s.queues ==> !s.queues[q].permit && s.queues[q].pending == []
    ensures forall u :: u in s.tasks ==> !Permitted(s.tasks[u].pc)
  {
    assert PermitFacts(s.queues[s.tasks[t].q], s.permits, s.tasks[t].pc);
    assert PermitSet(s) == {};
    forall q | q in s.queues ensures !s.queues[q].permit {
      assert q !in PermitSet(s);
    }
    forall u | u in s.tasks ensures !Permitted(s.tasks[u].pc) {
      assert PermitFacts(s.queues[s.tasks[u].q], s.permits, s.tasks[u].pc);
    }
  }

  function Landing(t: Tid, e: Effect): Place { if e.SqlClaim? then InTask(t) else Stranded }

  /** A claimed row was nowhere in this worker. */
  lemma ClaimedAreNew(s: State, t: Tid, r: Request, claimed: set<JobId>, j: JobId)
    requires PermitInv(s) && LockedThere(s, j) && t in s.tasks && Guarded(s.tasks[t].pc)
    requires Claims(s, r, claimed) && j in claimed
    ensures forall p :: !At(s, j, p)
  {
    GuardMeansNoPending(s, t);
    ClaimStepClaimable(s.db, r, claimed, Claim(s.db, claimed, Lock(r.worker, r.now)));
    ClaimLocks(s.db, claimed, Lock(r.worker, r.now));
    assert !LockedBy(s.db, s.me, j);
  }

  lemma ClaimAt(s: State, t: Tid, e: Effect, post: Option<Pc>, s': State, j: JobId, p: Place)
    requires Took(s, t, e, post, s') && Answers(s, e, post) && (e.SqlClaim? || e.SqlClaimLost?)
    requires j in e.claimed ==> !At(s, j, p)
    ensures At(s', j, p) <==> if j in e.claimed && p == Landing(t, e) then true else At(s, j, p)
  {
    if p == InTask(t) {
      assert At(s', j, p) <==> j in CarriedBy(post);
      assert e.SqlClaim? ==> SetOf(CarriedBy(post)) == e.claimed;
    }
  }

  lemma ClaimMoves(s: State, t: Tid, e: Effect, post: Option<Pc>, s': State, j: JobId)
    requires PermitInv(s) && LockedThere(s, j) && Took(s, t, e, post, s') && Answers(s, e, post)
    requires e.SqlClaim? || e.SqlClaimLost?
    ensures if j in e.claimed then NowAt(s', j, Landing(t, e)) else Stays(s, s', j)
  {
    if j in e.claimed { ClaimedAreNew(s, t, e.request, e.claimed, j); }
    forall p ensures if j in e.claimed then At(s', j, p) <==> p == Landing(t, e) else At(s', j, p) <==> At(s, j, p) {
      ClaimAt(s, t, e, post, s', j, p);
    }
  }

  lemma ClaimKeeps(s: State, t: Tid, e: Effect, post: Option<Pc>, s': State, j: JobId)
    requires PermitInv(s) && CarryInv(s) && JobInv(s, j) && Took(s, t, e, post, s') && Answers(s, e, post)
    requires e.SqlClaim? || e.SqlClaimLost?
    requires s'.db == Claim(s.db, e.claimed, Lock(e.request.worker, e.request.now))
    ensures JobInv(s', j)
  {
    ClaimMoves(s, t, e, post, s', j);
    ClaimStepClaimable(s.db, e.request, e.claimed, s'.db);
    ClaimLocks(s.db, e.claimed, Lock(e.request.worker, e.request.now));
    SingleKept(s, t, e, post, s', j);
    ClaimKeepsUnlocked(s, t, e, post, s', j);
    if j in e.claimed {
      assert At(s', j, Landing(t, e));
    } else {
      PlaceKept(s, s', j, Stranded);
    }
  }

  /** A claim disturbs no return: none is outstanding. */
  lemma ClaimKeepsUnlocked(s: State, t: Tid, e: Effect, post: Option<Pc>, s': State, j: JobId)
    requires PermitInv(s) && Took(s, t, e, post, s') && (e.SqlClaim? || e.SqlClaimLost?)
    ensures Unlocked(s', j)
  {
    GuardMeansNoPending(s, t);
    forall u | u in s'.tasks ensures !Committed(s'.tasks[u].pc) {
      assert u == t || u in s.tasks || s'.tasks[u].pc == TtlSleep;
    }
  }

  /** Returning the pending jobs leaves every other job of the worker locked. */
  lemma ReturnKeeps(s: State, t: Tid, e: Effect, post: Option<Pc>, s': State, j: JobId)
    requires JobInv(s, j) && CarryInv(s) && Took(s, t, e, post, s') && e.SqlReturn?
    requires s'.db == Return(s.db, SetOf(s.queues[s.tasks[t].q].pending), s.me)
    ensures JobInv(s', j)
  {
    var q := s.tasks[t].q;
    ReturnReleases(s.db, SetOf(s.queues[q].pending), s.me);
    SamePlaces(s, t, e, post, s', j);
    SingleKept(s, t, e, post, s', j);
    forall p | At(s', j, p) && !p.InPending? ensures LockedBy(s'.db, s'.me, j) {
      assert At(s, j, p) && !At(s, j, InPending(q));
    }
    if LockedBy(s'.db, s'.me, j) { var p :| At(s, j, p); assert At(s', j, p); }
    forall u | Returned(s', u, j) && LockedBy(s'.db, s'.me, j) ensures j in s'.relocked {
      assert Returned(s, u, j);
    }
  }

  lemma SamePlaces(s: State, t: Tid, e: Effect, post: Option<Pc>, s': State, j: JobId)
    requires OnePlace(s, j) && Took(s, t, e, post, s') && (e.SqlReturn? || e.ClearPending?)
    ensures forall p :: (e.ClearPending? ==> p != InPending(s.tasks[t].q) && p != Stranded) ==>
              (At(s', j, p) <==> At(s, j, p))
    ensures e.ClearPending? ==> !At(s', j, InPending(s.tasks[t].q))
    ensures e.ClearPending? ==>
              (At(s', j, Stranded) <==>
                  At(s, j, Stranded) || (At(s, j, InPending(s.tasks[t].q)) && LockedBy(s.db, s.me, j)))
  {
    assert !(At(s, j, Stranded) && At(s, j, InPending(s.tasks[t].q)));
  }

  /** An acknowledged return forgets the jobs that are unlocked, and strands any other. */
  lemma ClearKeeps(s: State, t: Tid, e: Effect, post: Option<Pc>, s': State, j: JobId)
    requires LocksInv(s) && CarryInv(s) && JobInv(s, j) && Took(s, t, e, post, s') && e.ClearPending? && s'.db == s.db
    ensures JobInv(s', j)
  {
    var q := s.tasks[t].q;
    SamePlaces(s, t, e, post, s', j);
    SingleKept(s, t, e, post, s', j);
    ClearKeepsUnlocked(s, t, e, post, s', j);
    ClearPlaced(s, q, s', j);
  }

  lemma ClearPlaced(s: State, q: Qid, s': State, j: JobId)
    requires OnePlace(s, j) && LockedThere(s, j) && (LockedBy(s.db, s.me, j) ==> Somewhere(s, j))
    requires s'.me == s.me && s'.db == s.db
    requires forall p :: p != InPending(q) && p != Stranded ==> (At(s', j, p) <==> At(s, j, p))
    requires !At(s', j, InPending(q))
    requires At(s', j, Stranded) <==> At(s, j, Stranded) || (At(s, j, InPending(q)) && LockedBy(s.db, s.me, j))
    ensures OnePlace(s', j) && LockedThere(s', j) && (LockedBy(s'.db, s'.me, j) ==> Somewhere(s', j))
  {
    if LockedBy(s.db, s.me, j) {
      var p :| At(s, j, p);
      assert At(s', j, p) || At(s', j, Stranded);
    }
  }

  lemma ClearKeepsUnlocked(s: State, t: Tid, e: Effect, post: Option<Pc>, s': State, j: JobId)
    requires Unlocked(s, j) && Took(s, t, e, post, s') && e.ClearPending? && s'.db == s.db
    ensures Unlocked(s', j)
  {
    forall u | Returned(s', u, j) && LockedBy(s'.db, s'.me, j) ensures j in s'.relocked {
      assert Returned(s, u, j);
    }
  }

  /** A step without a statement of its own. */
  lemma PassKeeps(s: State, t: Tid, e: Effect, post: Option<Pc>, s': State, j: JobId)
    requires LocksInv(s) && CarryInv(s) && JobInv(s, j) && Took(s, t, e, post, s') && Passes(e) && s'.db == s.db
    ensures JobInv(s', j)
  {
    var q := s.tasks[t].q;
    PassMoves(s, t, e, post, s', j);
    SingleKept(s, t, e, post, s', j);
    PassKeepsUnlocked(s, t, e, post, s', j);
    PassPlaced(s, t, e, post, s', j);
  }

  lemma PassPlaced(s: State, t: Tid, e: Effect, post: Option<Pc>, s': State, j: JobId)
    requires JobInv(s, j) && t in s.tasks && s.tasks[t].q in s.queues && s'.me == s.me && s'.db == s.db
    requires var q := s.tasks[t].q;
             if j in Passed(s.queues[q], e) then At(s, j, From(q, t, e)) && NowAt(s', j, To(q, t, e))
             else Stays(s, s', j)
    ensures OnePlace(s', j) && LockedThere(s', j) && (LockedBy(s'.db, s'.me, j) ==> Somewhere(s', j))
  {
    PlaceKept(s, s', j, To(s.tasks[t].q, t, e));
  }

  lemma PassKeepsUnlocked(s: State, t: Tid, e: Effect, post: Option<Pc>, s': State, j: JobId)
    requires LocksInv(s) && CarryInv(s) && Unlocked(s, j) && Took(s, t, e, post, s') && Passes(e) && s'.db == s.db
    ensures Unlocked(s', j)
  {
    forall u | Returned(s', u, j) && LockedBy(s'.db, s'.me, j) ensures j in s'.relocked {
      assert u in s.tasks && s'.tasks[u].q == s.tasks[u].q && Committed(s.tasks[u].pc);
      if e.Drain? { Exclusion(s.tasks[t], s.tasks[u]); }
      assert Returned(s, u, j);
    }
  }
}
