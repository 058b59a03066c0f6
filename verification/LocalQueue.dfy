/** The local queues of one worker, as a transition system.

    Any number of sibling queues share a claim coordinator and the database. Every
    future that touches them is a task with a program counter: the fetch loop, the
    TTL timers, `get_job` callers and `release` callers. A step runs one task up to
    its next lock, atomic, statement or await, so tasks interleave everywhere the
    code lets them. A statement commits and answers, rolls back, commits without
    answering, or commits late, after its caller has gone on or was dropped. Every await
    is a point where the future may be dropped, except in the fetch loop, which nothing
    aborts while its queue exists. */
module LocalQueue {
  import opened Wrappers
  import opened JobTable

  type Qid = nat
  type Tid = nat

  datatype Mode = Starting | Polling | Waiting | TtlExpired | Released

  /** On whose behalf cached jobs are returned. */
  datatype Who = Ttl | Release

  const MAX_ATTEMPTS := 20

  /** `run`, `schedule_fetch`, `fetch` and `received_jobs`. */
  datatype RunPc =
    | Begin                                  // about to set Polling
    | Top                                    // about to read the mode
    | Idle                                   // awaiting state_notify
    | TryRead                                // about to try the claim lock
    | Reader                                 // has the read guard, the count not loaded
    | Guard                                  // try_fetch succeeded, awaiting the task details
    | Querying                               // has the task details, statement under way
    | Answered(ok: bool, jobs: seq<JobId>)   // the claim statement is over
    | Deliver(jobs: seq<JobId>)              // guard dropped, jobs in a local vector
    | Extended                               // cache extended, about to set Waiting
    | TimerDue                               // about to start the TTL timer
    | After                                  // back in schedule_fetch
    | Last                                   // one-shot queue about to release itself
    | Stop                                   // loop left, run_complete not stored

  /** `get_job` and `get_job_from_cache`. */
  datatype GetPc =
    | Start(direct: bool)
    | CheckTtl
    | Repoll                                 // about to set Polling after a TTL return
    | WantCache                              // awaiting the cache lock
    | HasCache                               // has the cache lock, awaiting the mode
    | Popped(job: JobId, last: bool)         // locks dropped
    | InHook(job: JobId)                     // in the hooks of set_mode

  /** `get_job_direct`. */
  datatype DirectPc =
    | TryRead
    | Reader
    | Guard                                  // try_fetch succeeded, awaiting the mode
    | Reading                                // holds the mode for reading, awaiting the task details
    | Querying                               // has the task details, statement under way
    | Answered(jobs: seq<JobId>)

  /** `return_cached_jobs`. */
  datatype RetPc =
    | WantPending                            // awaiting the pending lock
    | WantPermit                             // begin_return, awaiting the claim lock
    | Writer                                 // has the claim lock for writing
    | WantDrain                              // awaiting the cache lock
    | Drained
    | Send(failures: nat)                    // about to send return_jobs
    | Sent(failures: nat)                    // committed, answer not seen
    | Failed(failures: nat)                  // an error was answered
    | Acked                                  // Ok was answered
    | Done                                   // pending lock dropped

  datatype Pc =
    | Run(run: RunPc)
    | Get(get: GetPc)
    | Direct(direct: DirectPc)
    | TtlSleep                               // the timer of start_ttl_timer
    | TtlExpire                              // set_mode_ttl_expired, awaiting the mode lock
    | Ret(who: Who, ret: RetPc)
    | RelLock                                // release, awaiting the release lock
    | RelMode                                // awaiting the mode lock for writing
    | RelNotify                              // mode is Released, loop not notified
    | RelAwait                               // awaiting run_complete
    | Consult                                // somebody else awaiting the task details
    | Consulting                             // and reading them
    | Refresh                                // somebody about to replace the task details

  /** A future and the queue it works for; those that only use the shared task details
      may name any queue. */
  datatype Task = Task(q: Qid, pc: Pc)

  datatype Queue = Queue(
    mode: Mode,
    cache: seq<JobId>,
    pending: seq<JobId>,     // PendingReturns::jobs
    permit: bool,            // PendingReturns::permit
    ttlDone: bool,           // ttl_return_complete
    releaseDone: bool,       // release_complete
    runDone: bool,           // run_complete
    notice: bool,            // a stored state_notify permit
    continuous: bool)

  /** A statement that nobody awaits any more and that may still take effect: the per-job
      fallback of a failure report, or a completion, return or claim whose caller was
      dropped or got an error. */
  datatype LateStatement =
    | LateFail(j: JobId)
    | LateDone(j: JobId, named: bool)
    | LateReturn(ids: set<JobId>)
    | LateClaim(request: Request)

  /** `held` are the jobs handed to handlers, once for each handler. The other sets are
      ledgers: `stranded` of locked jobs that no part of this worker remembers, `late` of
      statements still to take effect, `relocked` of jobs that a late claim locked while
      their return was pending, and `gone` of local queues that were dropped. */
  datatype State = State(
    me: string, db: Db, permits: nat,
    queues: map<Qid, Queue>, tasks: map<Tid, Task>,
    held: multiset<JobId>, stranded: set<JobId>,
    late: multiset<LateStatement>, relocked: set<JobId>, gone: set<Qid>)

  // ---------------------------------------------------------------------- locks

  datatype LockName =
    | ReleaseLock(q: Qid)
    | RunLock(q: Qid)        // released by storing run_complete
    | PendingLock(q: Qid)
    | ClaimRead
    | ClaimWrite
    | CacheLock(q: Qid)
    | ModeRead(q: Qid)
    | DetailsRead

  /** Past `try_fetch`, until the claim guard is dropped. */
  predicate Guarded(pc: Pc) {
    (pc.Run? && (pc.run.Guard? || pc.run.Querying? || pc.run.Answered?))
    || (pc.Direct? && (pc.direct.Guard? || pc.direct.Reading? || pc.direct.Querying? || pc.direct.Answered?))
  }

  predicate Reads(pc: Pc) { (pc.Run? && pc.run.Reader?) || (pc.Direct? && pc.direct.Reader?) || Guarded(pc) }

  /** Between the drain and the end of `return_cached_jobs` with jobs to return. */
  predicate Sending(pc: Pc) { pc.Ret? && (pc.ret.Send? || pc.ret.Sent? || pc.ret.Failed? || pc.ret.Acked?) }

  /** Inside `return_cached_jobs` with the permit in place. */
  predicate Permitted(pc: Pc) { (pc.Ret? && (pc.ret.WantDrain? || pc.ret.Drained?)) || Sending(pc) }

  predicate HoldsPending(pc: Pc) { pc.Ret? && !pc.ret.WantPending? && !pc.ret.Done? }

  /** Has the release lock. */
  predicate Releasing(pc: Pc) { pc.RelMode? || pc.RelNotify? || pc.RelAwait? || (pc.Ret? && pc.who == Release) }

  /** Holds the mode lock for reading across an await. */
  predicate ReadsMode(pc: Pc) { pc.Direct? && (pc.direct.Reading? || pc.direct.Querying? || pc.direct.Answered?) }

  predicate ReadsDetails(pc: Pc) {
    || (pc.Run? && (pc.run.Querying? || pc.run.Answered?))
    || (pc.Direct? && (pc.direct.Querying? || pc.direct.Answered?)) || pc.Consulting?
  }

  predicate Holds(k: Task, l: LockName) {
    match l
    case ReleaseLock(q) => k.q == q && Releasing(k.pc)
    case RunLock(q) => k.q == q && k.pc.Run?
    case PendingLock(q) => k.q == q && HoldsPending(k.pc)
    case ClaimRead => Reads(k.pc)
    case ClaimWrite => k.pc.Ret? && k.pc.ret.Writer?
    case CacheLock(q) => k.q == q && k.pc.Get? && k.pc.get.HasCache?
    case ModeRead(q) => k.q == q && ReadsMode(k.pc)
    case DetailsRead => ReadsDetails(k.pc)
  }

  predicate Clash(a: LockName, b: LockName) {
    (a == b && !a.ClaimRead? && !a.ModeRead? && !a.DetailsRead?)
    || (a.ClaimRead? && b.ClaimWrite?) || (a.ClaimWrite? && b.ClaimRead?)
  }

  /** No task but `t` holds a lock that excludes `l`. */
  ghost predicate Free(s: State, t: Tid, l: LockName) {
    forall u, b :: u in s.tasks && u != t && Holds(s.tasks[u], b) ==> !Clash(l, b)
  }

  /** The mode lock can be taken for writing: nobody reads it across an await. */
  ghost predicate ModeFree(s: State, q: Qid) {
    forall u :: u in s.tasks ==> !Holds(s.tasks[u], ModeRead(q))
  }

  /** The task details can be replaced: nobody reads them across an await. */
  ghost predicate DetailsFree(s: State) {
    forall u :: u in s.tasks ==> !Holds(s.tasks[u], DetailsRead)
  }

  // -------------------------------------------------------------------- effects

  /** What a step does besides moving its own program counter. */
  datatype Effect =
    | Silent
    | SetMode(mode: Mode)                       // LocalQueue::set_mode
    | ForceReleased                             // release sets the mode outright
    | Expire                                    // set_mode_ttl_expired
    | StoreTtlDone
    | Notify                                    // state_notify.notify_one
    | TakeNotice
    | Append(jobs: seq<JobId>)
    | PopFront
    | Drain
    | OpenPermit
    | ClosePermit
    | ClearPending
    | SqlClaim(request: Request, claimed: set<JobId>)
    | SqlClaimLost(request: Request, claimed: set<JobId>)
    | SqlReturn
    | HandOut(job: JobId)
    | Strand(jobs: seq<JobId>)                  // a dropped future still had these
    | Orphan(stmt: LateStatement)               // a statement in flight lost its caller
    | WriteDetails                              // the task details are replaced
    | StartTimer(timer: Tid)
    | FinishRun
    | FinishRelease

  /** The transitions `set_mode` refuses leave the mode alone. */
  function NextMode(x: Queue, m: Mode): Mode {
    if x.mode == Released || (x.mode == TtlExpired && m == Polling && !x.ttlDone) then x.mode else m
  }

  function SetOf(jobs: seq<JobId>): set<JobId> { set j | j in jobs }

  function QueueAfter(x: Queue, e: Effect): Queue {
    match e
    case SetMode(m) => x.(mode := NextMode(x, m))
    case ForceReleased => x.(mode := Released)
    case Expire => x.(mode := TtlExpired, ttlDone := false)
    case StoreTtlDone => x.(ttlDone := true)
    case Notify => x.(notice := true)
    case TakeNotice => x.(notice := false)
    case Append(jobs) => x.(cache := x.cache + jobs)
    case PopFront => if x.cache == [] then x else x.(cache := x.cache[1..])
    case Drain => x.(pending := x.pending + x.cache, cache := [])
    case OpenPermit => x.(permit := true)
    case ClosePermit => x.(permit := false)
    case ClearPending => x.(pending := [], permit := false)
    case FinishRun => x.(runDone := true)
    case FinishRelease => x.(releaseDone := true)
    case _ => x
  }

  function ReturnsAfter(n: nat, e: Effect): nat {
    match e
    case OpenPermit => n + 1
    case ClosePermit => if n == 0 then 0 else n - 1
    case ClearPending => if n == 0 then 0 else n - 1
    case _ => n
  }

  function DbAfter(s: State, x: Queue, e: Effect): Db {
    match e
    case SqlClaim(r, claimed) => Claim(s.db, claimed, Lock(r.worker, r.now))
    case SqlClaimLost(r, claimed) => Claim(s.db, claimed, Lock(r.worker, r.now))
    case SqlReturn => Return(s.db, SetOf(x.pending), s.me)
    case _ => s.db
  }

  function TasksAfter(s: State, t: Tid, e: Effect, post: Option<Pc>): map<Tid, Task>
    requires t in s.tasks
  {
    var k := s.tasks[t];
    var moved := if post.Some? then s.tasks[t := Task(k.q, post.value)] else s.tasks - {t};
    if e.StartTimer? then moved[e.timer := Task(k.q, TtlSleep)] else moved
  }

  /** Claims that nobody remembers after an effect: those of a dropped future, those of a
      claim without an answer, and pending ones that are locked although their return was
      acknowledged. */
  function StrandedBy(s: State, x: Queue, e: Effect): set<JobId> {
    match e
    case Strand(jobs) => HeldAmong(s.db, SetOf(jobs), s.me)
    case SqlClaimLost(_, claimed) => claimed
    case ClearPending => HeldAmong(s.db, SetOf(x.pending), s.me)
    case _ => {}
  }

  function StrandedAfter(s: State, x: Queue, e: Effect): set<JobId> {
    if e.SqlReturn? then s.stranded - SetOf(x.pending) else s.stranded + StrandedBy(s, x, e)
  }

  /** Task `t` takes effect `e` and moves to `post`, or ends. */
  function Apply(s: State, t: Tid, e: Effect, post: Option<Pc>): State
    requires t in s.tasks && s.tasks[t].q in s.queues
  {
    var q := s.tasks[t].q;
    var x := s.queues[q];
    State(s.me, DbAfter(s, x, e), ReturnsAfter(s.permits, e),
          s.queues[q := QueueAfter(x, e)],
          TasksAfter(s, t, e, post),
          if e.HandOut? then s.held + multiset{e.job} else s.held,
          StrandedAfter(s, x, e),
          if e.Orphan? then s.late + multiset{e.stmt} else s.late, s.relocked, s.gone)
  }

  // -------------------------------------------------------------------- programs

  /** `jobs` lists the claimed rows, each once. */
  ghost predicate Lists(jobs: seq<JobId>, claimed: set<JobId>) {
    NoDup(jobs) && SetOf(jobs) == claimed
  }

  ghost predicate NoDup(jobs: seq<JobId>) {
    forall a, b :: 0 <= a < b < |jobs| ==> jobs[a] != jobs[b]
  }

  /** The claim statement of this worker. */
  ghost predicate Claims(s: State, r: Request, claimed: set<JobId>) {
    r.worker == s.me && ClaimStep(s.db, r, claimed, Claim(s.db, claimed, Lock(r.worker, r.now)))
  }

  /** The fetch loop (fetch.rs, cache.rs and `run` in mod.rs). */
  predicate RunMoves(x: Queue, permits: nat, pc: RunPc, e: Effect, to: Option<RunPc>) {
    match pc
    case Begin => e == SetMode(Polling) && to == Some(RunPc.Top)
    case Top =>
      && e == Silent
      && ((x.mode == Released && to == Some(RunPc.Stop))
          || (x.mode == Polling && to == Some(RunPc.TryRead))
          || (x.mode != Released && to == Some(RunPc.Idle)))
    case Idle => e == TakeNotice && x.notice && to == Some(RunPc.Top)
    case TryRead => e == Silent && (to == Some(RunPc.Reader) || to == Some(RunPc.After))
    case Reader => e == Silent && to == Some(if permits == 0 then RunPc.Guard else RunPc.After)
    case Guard =>
      || (e == Notify && to == Some(RunPc.After))     // a refetch delay is active
      || (e == Silent && to == Some(RunPc.Querying))
    case Querying =>
      || ((e == Silent || e.SqlClaimLost? || (e.Orphan? && e.stmt.LateClaim?)) && to == Some(RunPc.Answered(false, [])))
      || (e.SqlClaim? && to.Some? && to.value.Answered? && to.value.ok)
    case Answered(ok, jobs) => e == Notify && to == Some(if ok then RunPc.Deliver(jobs) else RunPc.After)
    case Deliver(jobs) =>
      if jobs != [] then e == Append(jobs) && to == Some(RunPc.Extended)
      else e == (if x.continuous then Silent else SetMode(Released)) && to == Some(RunPc.After)
    case Extended => e == SetMode(Waiting) && to == Some(RunPc.TimerDue)
    case TimerDue => e.StartTimer? && to == Some(RunPc.After)
    case After =>
      if x.mode == Polling && !x.continuous then e == Silent && to == Some(RunPc.Last)
      else (e == Silent || e == TakeNotice) && to == Some(RunPc.Top)
    case Last => e == SetMode(Released) && to == Some(RunPc.Stop)
    case Stop => e == FinishRun && to == None
  }

  /** `get_job` through the cache (jobs.rs). */
  predicate GetMoves(x: Queue, pc: GetPc, e: Effect, post: Option<Pc>) {
    match pc
    case Start(direct) =>
      e == Silent && post == (if x.mode == Released then None
                              else if direct then Some(Direct(DirectPc.TryRead)) else Some(Get(CheckTtl)))
    case CheckTtl =>
      e == Silent && post == (if x.mode == TtlExpired && x.ttlDone then Some(Get(Repoll))
                              else if x.mode == Released then None else Some(Get(WantCache)))
    case Repoll => e == SetMode(Polling) && post == Some(Get(WantCache))
    case WantCache => e == Silent && post == Some(Get(HasCache))
    case HasCache =>
      if x.mode == Released || x.mode == TtlExpired || x.cache == [] then e == Silent && post == None
      else e == PopFront && post == Some(Get(Popped(x.cache[0], |x.cache| == 1)))
    case Popped(job, last) =>
      if last then e == SetMode(Polling) && post == Some(Get(InHook(job))) else e == HandOut(job) && post == None
    case InHook(job) => e == HandOut(job) && post == None
  }

  /** `get_job` straight from the database (jobs.rs). */
  predicate DirectMoves(x: Queue, permits: nat, pc: DirectPc, e: Effect, to: Option<DirectPc>) {
    match pc
    case TryRead => e == Silent && (to == Some(DirectPc.Reader) || to == None)
    case Reader => e == Silent && to == (if permits == 0 then Some(DirectPc.Guard) else None)
    case Guard => e == Silent && to == (if x.mode == Released then None else Some(DirectPc.Reading))
    case Reading => e == Silent && to == Some(DirectPc.Querying)
    case Querying =>
      || ((e == Silent || (e.SqlClaimLost? && e.request.limit == 1) || (e.Orphan? && e.stmt.LateClaim?)) && to == None)
      || (e.SqlClaim? && e.request.limit == 1 && to.Some? && to.value.Answered?)
    case Answered(jobs) => e == (if jobs == [] then Silent else HandOut(jobs[0])) && to == None
  }

  /** Returning cached jobs for the TTL timer and for `release` (release.rs, claims.rs). */
  predicate RetMoves(x: Queue, who: Who, pc: RetPc, e: Effect, to: Option<RetPc>) {
    match pc
    case WantPending => e == Silent && to == Some(WantPermit)
    case WantPermit => e == Silent && to == Some(if x.permit then WantDrain else Writer)
    case Writer => e == OpenPermit && to == Some(WantDrain)
    case WantDrain => e == Drain && to == Some(Drained)
    case Drained => if x.pending == [] then e == ClosePermit && to == Some(Done) else e == Silent && to == Some(Send(0))
    case Send(n) =>
      || (e == SqlReturn && to == Some(Sent(n)))
      || ((e == Silent || e == Orphan(LateReturn(SetOf(x.pending)))) && to == Some(Failed(n)))
    case Sent(n) => e == Silent && (to == Some(Acked) || to == Some(Failed(n)))
    case Failed(n) => e == Silent && to == (if n + 1 < MAX_ATTEMPTS then Some(Send(n + 1)) else None)
    case Acked => e == ClearPending && to == Some(Done)
    case Done => e == (if who == Ttl then StoreTtlDone else FinishRelease) && to == None
  }

  /** The TTL timer and `release` outside `return_cached_jobs`. */
  predicate OtherMoves(x: Queue, pc: Pc, e: Effect, post: Option<Pc>) {
    match pc
    case TtlSleep => e == Silent && post == (if x.mode == Waiting then Some(TtlExpire) else None)
    case TtlExpire =>
      if x.mode == Waiting then e == Expire && post == Some(Ret(Ttl, WantPending)) else e == Silent && post == None
    case RelLock => e == Silent && post == (if x.releaseDone then None else Some(RelMode))
    case RelMode => e == ForceReleased && post == Some(RelNotify)
    case RelNotify => e == Notify && post == Some(RelAwait)
    case RelAwait => e == Silent && x.runDone && post == Some(Ret(Release, WantPending))
    case Consult => e == Silent && post == Some(Consulting)
    case Consulting => e == Silent && post == None
    case Refresh => e == WriteDetails && post == None
    case _ => false
  }

  /** Jobs in the local variables of a task. */
  function Carried(pc: Pc): seq<JobId> {
    match pc
    case Run(Answered(_, jobs)) => jobs
    case Run(Deliver(jobs)) => jobs
    case Get(Popped(job, _)) => [job]
    case Get(InHook(job)) => [job]
    case Direct(Answered(jobs)) => jobs
    case _ => []
  }

  /** The future is suspended at an await and may be dropped there. */
  predicate Cancellable(pc: Pc) {
    match pc
    case Run(_) => false
    case Get(g) => !(g.Popped? && !g.last)
    case Direct(d) => !d.TryRead? && !d.Reader?
    case Ret(_, r) => !r.Writer? && !r.Drained? && !r.Acked?
    case RelNotify => false
    case _ => true
  }

  /** What the code does next at `pc`: effect `e`, then `post` or the end. */
  predicate Flows(x: Queue, permits: nat, pc: Pc, e: Effect, post: Option<Pc>) {
    match pc
    case Run(r) =>
      && (post.Some? ==> post.value.Run?)
      && RunMoves(x, permits, r, e, if post.Some? then Some(post.value.run) else None)
    case Get(g) => GetMoves(x, g, e, post)
    case Direct(d) =>
      && (post.Some? ==> post.value.Direct?)
      && DirectMoves(x, permits, d, e, if post.Some? then Some(post.value.direct) else None)
    case Ret(who, r) =>
      && (post.Some? ==> post.value.Ret? && post.value.who == who)
      && RetMoves(x, who, r, e, if post.Some? then Some(post.value.ret) else None)
    case _ => OtherMoves(x, pc, e, post)
  }

  /** A return statement is under way. */
  predicate InFlight(pc: Pc) { pc.Ret? && pc.ret.Send? }

  /** The future is dropped, perhaps with a statement in flight. */
  predicate Drops(x: Queue, pc: Pc, e: Effect, post: Option<Pc>) {
    && post == None
    && (|| (Cancellable(pc) && e == (if Carried(pc) == [] then Silent else Strand(Carried(pc))))
        || (InFlight(pc) && e == Orphan(LateReturn(SetOf(x.pending)))))
  }

  /** Control flow, or a drop. */
  predicate Moves(x: Queue, permits: nat, pc: Pc, e: Effect, post: Option<Pc>) {
    Drops(x, pc, e, post) || Flows(x, permits, pc, e, post)
  }

  /** Steps that take the mode lock for writing, and drop it again. */
  predicate WritesMode(e: Effect) { e.SetMode? || e.ForceReleased? || e.Expire? }

  /** The locks a step takes are free, and its statement may answer as it does. */
  ghost predicate Permits(s: State, t: Tid, e: Effect, post: Option<Pc>)
    requires t in s.tasks
  {
    var k := s.tasks[t];
    && (post.Some? ==> forall l :: Holds(Task(k.q, post.value), l) && !Holds(k, l) ==> Free(s, t, l))
    && (e.Append? || e.Drain? ==> Free(s, t, CacheLock(k.q)))
    && (WritesMode(e) ==> ModeFree(s, k.q))
    && (e.WriteDetails? ==> DetailsFree(s))
    && (e.Orphan? && e.stmt.LateClaim? ==> e.stmt.request.worker == s.me)
    && (e.StartTimer? ==> e.timer !in s.tasks)
    && (e.SqlClaim? || e.SqlClaimLost? ==> Claims(s, e.request, e.claimed))
    && (e.SqlClaim? ==> post.Some? && Lists(Carried(post.value), e.claimed))
  }

  ghost predicate Program(s: State, t: Tid, e: Effect, post: Option<Pc>)
    requires t in s.tasks && s.tasks[t].q in s.queues
  {
    Moves(s.queues[s.tasks[t].q], s.permits, s.tasks[t].pc, e, post) && Permits(s, t, e, post)
  }

  // ---------------------------------------------------------------------- places

  datatype Place =
    | InCache(q: Qid)
    | InPending(q: Qid)     // being returned, perhaps already unlocked
    | InTask(t: Tid)        // in flight: fetched or popped, held in a local variable
    | InHands               // running in a handler
    | Stranded              // locked in the database and known to nobody here

  ghost predicate At(s: State, j: JobId, p: Place) {
    match p
    case InCache(q) => q in s.queues && j in s.queues[q].cache
    case InPending(q) => q in s.queues && j in s.queues[q].pending
    case InTask(t) => t in s.tasks && j in Carried(s.tasks[t].pc)
    case InHands => j in s.held
    case Stranded => j in s.stranded
  }

  // ---------------------------------------------------------------------- steps

  datatype Step =
    | TaskStep(t: Tid, e: Effect, post: Option<Pc>)
    | CallGetJob(t: Tid, q: Qid, direct: bool)
    | CallRelease(t: Tid, q: Qid)
    | CallDetails(t: Tid, q: Qid, write: bool)  // somebody else uses the shared task details
    | Wake(q: Qid)                              // pulse, set_mode or a refetch delay notifies the loop
    | NewQueue(q: Qid, loop: Tid, continuous: bool)
    | DropQueue(q: Qid)                         // the last handle of a queue goes away
    | ReportDone(job: JobId, named: bool)       // a handler reports its job done
    | ReportFailed(job: JobId, runAt: int)      // or failed
    | FinishUnsaved(job: JobId)                 // that report did not reach the database
    | DoneLost(job: JobId, named: bool)         // or nobody knows whether it will
    | ReportLost(job: JobId, applied: bool, runAt: int)  // a failure batch without an answer
    | LateStep(stmt: LateStatement, claimed: set<JobId>, runAt: int)
    | Elsewhere(st: Statement)                  // a statement of another worker or of a client

  /** Jobs whose return is not acknowledged. */
  function PendingJobs(s: State): set<JobId> { set q, j | q in s.queues && j in s.queues[q].pending :: j }

  /** The worker's copy of the job is the handler's, and was made when it locked the job. */
  ghost predicate CurrentCopy(s: State, j: JobId) {
    LockedBy(s.db, s.me, j) && s.held[j] == 1 && forall p :: At(s, j, p) ==> p == InHands
  }

  /** A handler says whether its copy of the job names a queue. A copy from an earlier claim
      may be out of date. */
  ghost predicate Tells(s: State, j: JobId, named: bool) {
    j in s.held && (CurrentCopy(s, j) ==> named == s.db.jobs[j].queue.Some?)
  }

  /** A late statement lets go of those among `ids` that the worker has locked by now. */
  function LetGo(s: State, stmt: LateStatement, db': Db, ids: set<JobId>): State {
    s.(db := db', late := s.late - multiset{stmt}, stranded := s.stranded - ids)
  }

  /** A late claim locks jobs for nobody; those still being returned are known. */
  function LateClaimed(s: State, stmt: LateStatement, db': Db, claimed: set<JobId>): State {
    s.(db := db', late := s.late - multiset{stmt}, stranded := s.stranded + (claimed - PendingJobs(s)),
       relocked := s.relocked + claimed * PendingJobs(s))
  }

  ghost predicate TakesEffect(s: State, stmt: LateStatement, claimed: set<JobId>, runAt: int, s': State) {
    match stmt
    case LateFail(j) => s' == LetGo(s, stmt, Fail(s.db, j, s.me, runAt), {j})
    case LateDone(j, named) => s' == LetGo(s, stmt, Complete(s.db, j, named, s.me), {j})
    case LateReturn(ids) => s' == LetGo(s, stmt, Return(s.db, ids, s.me), ids)
    case LateClaim(r) =>
      Claims(s, r, claimed) && s' == LateClaimed(s, stmt, Claim(s.db, claimed, Lock(r.worker, r.now)), claimed)
  }

  const FRESH_QUEUE: Queue := Queue(Starting, [], [], false, false, false, false, false, true)

  /** Dropping a queue drops its permit and forgets its jobs. */
  function Without(s: State, q: Qid): State
    requires q in s.queues
  {
    var x := s.queues[q];
    s.(queues := s.queues - {q}, gone := s.gone + {q},
       permits := if x.permit && 0 < s.permits then s.permits - 1 else s.permits,
       stranded := s.stranded + HeldAmong(s.db, SetOf(x.cache) + SetOf(x.pending), s.me))
  }

  /** A handler lets go of its job by a statement that took effect. */
  function Settled(s: State, j: JobId, db': Db): State {
    s.(db := db', held := s.held - multiset{j}, stranded := s.stranded - {j})
  }

  /** Nobody remembers the handler's job; statements `stmts` on it may still take effect. */
  function Abandoned(s: State, j: JobId, stmts: multiset<LateStatement>): State {
    s.(held := s.held - multiset{j}, stranded := s.stranded + HeldAmong(s.db, {j}, s.me), late := s.late + stmts)
  }

  /** A failure batch without an answer: its fallback is still to come, and so may the
      batch be if it has not taken effect yet. */
  function Reported(s: State, j: JobId, applied: bool, runAt: int): State {
    if applied then Settled(s, j, Fail(s.db, j, s.me, runAt)).(late := s.late + multiset{LateFail(j)})
    else Abandoned(s, j, multiset{LateFail(j), LateFail(j)})
  }

  ghost predicate Opens(s: State, q: Qid, loop: Tid, continuous: bool, s': State) {
    && q !in s.queues && q !in s.gone && loop !in s.tasks
    && s' == s.(queues := s.queues[q := FRESH_QUEUE.(continuous := continuous)],
                tasks := s.tasks[loop := Task(q, Run(RunPc.Begin))])
  }

  ghost predicate Closes(s: State, q: Qid, s': State) {
    q in s.queues && (forall t :: t in s.tasks ==> s.tasks[t].q != q) && s' == Without(s, q)
  }

  ghost predicate Next(s: State, step: Step, s': State) {
    match step
    case TaskStep(t, e, post) =>
      t in s.tasks && s.tasks[t].q in s.queues && Program(s, t, e, post) && s' == Apply(s, t, e, post)
    case CallGetJob(t, q, direct) =>
      t !in s.tasks && q in s.queues && s' == s.(tasks := s.tasks[t := Task(q, Get(Start(direct)))])
    case CallRelease(t, q) => t !in s.tasks && q in s.queues && s' == s.(tasks := s.tasks[t := Task(q, RelLock)])
    case CallDetails(t, q, write) =>
      t !in s.tasks && q in s.queues && s' == s.(tasks := s.tasks[t := Task(q, if write then Refresh else Consult)])
    case Wake(q) => q in s.queues && s' == s.(queues := s.queues[q := s.queues[q].(notice := true)])
    case NewQueue(q, loop, continuous) => Opens(s, q, loop, continuous, s')
    case DropQueue(q) => Closes(s, q, s')
    case ReportDone(j, named) => Tells(s, j, named) && s' == Settled(s, j, Complete(s.db, j, named, s.me))
    case ReportFailed(j, runAt) => j in s.held && s' == Settled(s, j, Fail(s.db, j, s.me, runAt))
    case FinishUnsaved(j) => j in s.held && s' == Abandoned(s, j, multiset{})
    case DoneLost(j, named) => Tells(s, j, named) && s' == Abandoned(s, j, multiset{LateDone(j, named)})
    case ReportLost(j, applied, runAt) => j in s.held && s' == Reported(s, j, applied, runAt)
    case LateStep(stmt, claimed, runAt) => stmt in s.late && TakesEffect(s, stmt, claimed, runAt, s')
    case Elsewhere(st) =>
      && !SentBy(st, s.me) && Executes(s.db, st, s'.db)
      && s' == s.(db := s'.db, stranded := s.stranded - Deleted(st))
  }

  /** Queues start empty. A queue built by `new` has its fetch loop running; one built
      by conversion alone has none. Claims left over from before are stranded. */
  ghost predicate Init(s: State) {
    && Valid(s.db) && s.permits == 0 && s.held == multiset{} && s.late == multiset{}
    && s.relocked == {} && s.gone == {}
    && (forall j :: j in s.stranded <==> LockedBy(s.db, s.me, j))
    && (forall q :: q in s.queues ==>
          var x := s.queues[q];
          && x.mode == Starting && x.cache == [] && x.pending == []
          && !x.permit && !x.ttlDone && !x.releaseDone && !x.notice
          && (x.runDone <==> forall t :: t in s.tasks ==> s.tasks[t].q != q))
    && (forall t :: t in s.tasks ==> s.tasks[t].q in s.queues && s.tasks[t].pc == Run(RunPc.Begin))
    && (forall t, u :: t in s.tasks && u in s.tasks && s.tasks[t].q == s.tasks[u].q ==> t == u)
  }

  ghost predicate StepAt(states: seq<State>, steps: seq<Step>, i: nat)
    requires i < |steps| < |states|
  {
    Next(states[i], steps[i], states[i + 1])
  }

  ghost predicate Execution(states: seq<State>, steps: seq<Step>) {
    && |states| == |steps| + 1
    && Init(states[0])
    && forall i: nat :: i < |steps| ==> StepAt(states, steps, i)
  }
}
