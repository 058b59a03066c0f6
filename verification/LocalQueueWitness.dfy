/** Concrete executions of one local queue: a job that a dropped `get_job` call leaves
    locked and forgotten, a permit that a dropped TTL return leaves behind a finished
    release, a job claimed again that the fallback of its failure report unlocks, and a
    claimed job that another worker completes. */
module LocalQueueWitness {
  import opened Wrappers
  import opened FlagFilter
  import opened JobTable
  import opened LocalQueue
  import opened LocalQueueClaims
  import opened LocalQueueSafety
  import opened LocalQueueRelease

  const LOOP: Tid := 0
  const CALL: Tid := 1
  const TIMER: Tid := 2

  /** What does not change while tasks move: the worker, its tables and the ledgers. */
  datatype Base = Base(me: string, db: Db, held: multiset<JobId>, stranded: set<JobId>, late: multiset<LateStatement>)

  function Snap(b: Base, permits: nat, x: Queue, tasks: map<Tid, Task>): State {
    State(b.me, b.db, permits, map[0 := x], tasks, b.held, b.stranded, b.late, {}, {})
  }

  /** Some step leads from `s` to `s'`. */
  ghost predicate Leads(s: State, s': State) { exists step :: Next(s, step, s') }

  /** An execution that ends in `s` exists. */
  ghost predicate Reached(s: State) {
    exists states, steps :: Execution(states, steps) && states[|steps|] == s
  }

  lemma Extend(s: State, s': State)
    requires Reached(s) && Leads(s, s')
    ensures Reached(s')
  {
    var step :| Next(s, step, s');
    var states, steps :| Execution(states, steps) && states[|steps|] == s;
    ExtendBy(states, steps, step, s');
  }

  lemma ExtendBy(states: seq<State>, steps: seq<Step>, step: Step, s': State)
    requires Execution(states, steps) && Next(states[|steps|], step, s')
    ensures Execution(states + [s'], steps + [step])
    ensures Reached(s')
  {
    var states', steps' := states + [s'], steps + [step];
    forall i: nat | i < |steps'| ensures StepAt(states', steps', i) {
      assert i < |steps| ==> StepAt(states, steps, i);
    }
    assert states'[|steps'|] == s';
  }

  // ------------------------------------------------------------------ plain steps

  /** Effects on the queue alone. */
  predicate Simple(e: Effect) {
    && !e.SqlClaim? && !e.SqlClaimLost? && !e.SqlReturn? && !e.StartTimer? && !e.HandOut? && !e.Strand?
    && !e.ClearPending? && !e.Orphan? && !e.WriteDetails?
  }

  ghost predicate May(x: Queue, permits: nat, pc: Pc, e: Effect, post: Option<Pc>) {
    Simple(e) && exists n: nat :: n == permits && Moves(x, n, pc, e, post)
  }

  /** Other tasks hold at most the locks of a loop or a release, and none that `t` wants. */
  ghost predicate Unhindered(tasks: map<Tid, Task>, t: Tid, post: Option<Pc>) {
    && t in tasks && tasks[t].q == 0 && !tasks[t].pc.Direct?
    && (forall u, b :: u in tasks && u != t && Holds(tasks[u], b) ==> b.RunLock? || b.ReleaseLock?)
    && (post.Some? ==> forall l, u :: Holds(Task(0, post.value), l) && !Holds(tasks[t], l) && u in tasks && u != t ==>
          !Holds(tasks[u], l))
  }

  function AfterMove(tasks: map<Tid, Task>, t: Tid, post: Option<Pc>): map<Tid, Task> {
    if post.Some? then tasks[t := Task(0, post.value)] else tasks - {t}
  }

  lemma PlainPermits(s: State, t: Tid, e: Effect, post: Option<Pc>)
    requires Unhindered(s.tasks, t, post) && Simple(e)
    ensures Permits(s, t, e, post)
  {
  }

  lemma PlainLeads(b: Base, n: nat, x: Queue, tasks: map<Tid, Task>, t: Tid, e: Effect, post: Option<Pc>)
    requires Unhindered(tasks, t, post) && May(x, n, tasks[t].pc, e, post)
    ensures Leads(Snap(b, n, x, tasks), Snap(b, ReturnsAfter(n, e), QueueAfter(x, e), AfterMove(tasks, t, post)))
  {
    var s, s' := Snap(b, n, x, tasks), Snap(b, ReturnsAfter(n, e), QueueAfter(x, e), AfterMove(tasks, t, post));
    assert Apply(s, t, e, post).queues == s'.queues && Apply(s, t, e, post).stranded == s'.stranded;
    PlainPermits(s, t, e, post);
    assert Next(s, TaskStep(t, e, post), s');
  }

  /** What the code of task `t` may do next, it does. */
  lemma Plain(b: Base, n: nat, x: Queue, tasks: map<Tid, Task>, t: Tid, e: Effect, post: Option<Pc>, n': nat,
              x': Queue, tasks': map<Tid, Task>)
    requires Unhindered(tasks, t, post) && May(x, n, tasks[t].pc, e, post) && Reached(Snap(b, n, x, tasks))
    requires n' == ReturnsAfter(n, e) && x' == QueueAfter(x, e) && tasks' == AfterMove(tasks, t, post)
    ensures Reached(Snap(b, n', x', tasks'))
  {
    PlainLeads(b, n, x, tasks, t, e, post);
    Extend(Snap(b, n, x, tasks), Snap(b, n', x', tasks'));
  }

  lemma Goes(x: Queue, n: nat, pc: Pc, e: Effect, post: Option<Pc>)
    requires Flows(x, n, pc, e, post) && Simple(e)
    ensures May(x, n, pc, e, post)
  {
    assert Moves(x, n, pc, e, post);
  }

  // -------------------------------------------------------------- a job is cached

  /** A worker, its tables, and a claim that will select exactly one job. */
  datatype Setup = Setup(me: string, db: Db, r: Request, j: JobId)

  function Claimed(c: Setup): Db { Claim(c.db, {c.j}, Lock(c.me, c.r.now)) }

  function Unclaimed(c: Setup): Base { Base(c.me, c.db, multiset{}, {}, multiset{}) }

  function Holding(c: Setup): Base { Base(c.me, Claimed(c), multiset{}, {}, multiset{}) }

  function Lost(c: Setup): Base { Base(c.me, Claimed(c), multiset{}, {c.j}, multiset{}) }

  ghost predicate Good(c: Setup) {
    && Valid(c.db) && (forall j :: !LockedBy(c.db, c.me, j))
    && c.r.worker == c.me && ClaimStep(c.db, c.r, {c.j}, Claimed(c))
  }

  function Cached(mode: Mode, cache: seq<JobId>, notice: bool): Queue {
    Queue(mode, cache, [], false, false, false, false, notice, true)
  }

  function Alone(pc: RunPc): map<Tid, Task> { map[LOOP := Task(0, Run(pc))] }

  lemma LoopFree(pc: RunPc, pc': RunPc)
    ensures Unhindered(Alone(pc), LOOP, Some(Run(pc')))
    ensures AfterMove(Alone(pc), LOOP, Some(Run(pc'))) == Alone(pc')
  {
  }

  lemma LoopStep(b: Base, x: Queue, pc: RunPc, e: Effect, pc': RunPc, x': Queue)
    requires RunMoves(x, 0, pc, e, Some(pc')) && Simple(e) && ReturnsAfter(0, e) == 0 && x' == QueueAfter(x, e)
    requires Reached(Snap(b, 0, x, Alone(pc)))
    ensures Reached(Snap(b, 0, x', Alone(pc')))
  {
    Goes(x, 0, Run(pc), e, Some(Run(pc')));
    LoopFree(pc, pc');
    Plain(b, 0, x, Alone(pc), LOOP, e, Some(Run(pc')), 0, x', Alone(pc'));
  }

  /** The claim statement of the fetch loop. */
  ghost predicate Selects(b: Base, r: Request, j: JobId) {
    r.worker == b.me && ClaimStep(b.db, r, {j}, Claim(b.db, {j}, Lock(b.me, r.now)))
  }

  function Locking(b: Base, r: Request, j: JobId): Base { b.(db := Claim(b.db, {j}, Lock(b.me, r.now))) }

  lemma ClaimPermits(b: Base, x: Queue, r: Request, j: JobId)
    requires Selects(b, r, j)
    ensures Permits(Snap(b, 0, x, Alone(RunPc.Querying)), LOOP, SqlClaim(r, {j}), Some(Run(RunPc.Answered(true, [j]))))
  {
    var post := Run(RunPc.Answered(true, [j]));
    assert Carried(post) == [j] && SetOf([j]) == {j} && Lists(Carried(post), {j});
    assert Claims(Snap(b, 0, x, Alone(RunPc.Querying)), r, {j});
  }

  lemma ClaimingStep(b: Base, x: Queue, r: Request, j: JobId)
    requires Selects(b, r, j)
    ensures Leads(Snap(b, 0, x, Alone(RunPc.Querying)), Snap(Locking(b, r, j), 0, x, Alone(RunPc.Answered(true, [j]))))
  {
    var s, s' := Snap(b, 0, x, Alone(RunPc.Querying)), Snap(Locking(b, r, j), 0, x, Alone(RunPc.Answered(true, [j])));
    var e, post := SqlClaim(r, {j}), Some(Run(RunPc.Answered(true, [j])));
    ClaimPermits(b, x, r, j);
    ClaimApplies(b, x, r, j);
    assert Next(s, TaskStep(LOOP, e, post), s');
  }

  lemma ClaimApplies(b: Base, x: Queue, r: Request, j: JobId)
    requires r.worker == b.me
    ensures Apply(Snap(b, 0, x, Alone(RunPc.Querying)), LOOP, SqlClaim(r, {j}), Some(Run(RunPc.Answered(true, [j]))))
         == Snap(Locking(b, r, j), 0, x, Alone(RunPc.Answered(true, [j])))
  {
    var s, s' := Snap(b, 0, x, Alone(RunPc.Querying)), Snap(Locking(b, r, j), 0, x, Alone(RunPc.Answered(true, [j])));
    var t := Apply(s, LOOP, SqlClaim(r, {j}), Some(Run(RunPc.Answered(true, [j]))));
    assert t.queues == s'.queues && t.tasks == s'.tasks && t.stranded == s'.stranded;
  }

  function WithTimer(pc: Pc): map<Tid, Task> { map[LOOP := Task(0, Run(RunPc.After)), TIMER := Task(0, pc)] }

  lemma TimerStep(b: Base, x: Queue)
    ensures Leads(Snap(b, 0, x, Alone(RunPc.TimerDue)), Snap(b, 0, x, WithTimer(TtlSleep)))
  {
    var s, s' := Snap(b, 0, x, Alone(RunPc.TimerDue)), Snap(b, 0, x, WithTimer(TtlSleep));
    var t := Apply(s, LOOP, StartTimer(TIMER), Some(Run(RunPc.After)));
    assert t.queues == s'.queues && t.tasks == s'.tasks;
    assert Next(s, TaskStep(LOOP, StartTimer(TIMER), Some(Run(RunPc.After))), s');
  }

  lemma StartedAt(me: string, db: Db)
    requires Valid(db) && forall j :: !LockedBy(db, me, j)
    ensures Reached(Snap(Base(me, db, multiset{}, {}, multiset{}), 0, Cached(Starting, [], false), Alone(RunPc.Begin)))
  {
    var s := Snap(Base(me, db, multiset{}, {}, multiset{}), 0, Cached(Starting, [], false), Alone(RunPc.Begin));
    assert LOOP in s.tasks;
    assert Init(s);
    assert Execution([s], []);
  }

  lemma Started(c: Setup)
    requires Good(c)
    ensures Reached(Snap(Unclaimed(c), 0, Cached(Starting, [], false), Alone(RunPc.Begin)))
  {
    StartedAt(c.me, c.db);
  }

  /** The loop polls and claims the job. */
  lemma Fetched(c: Setup)
    requires Good(c)
    ensures Reached(Snap(Holding(c), 0, Cached(Polling, [], false), Alone(RunPc.Answered(true, [c.j]))))
  {
    Started(c);
    FetchedFrom(c);
  }

  lemma FetchedFrom(c: Setup)
    requires Selects(Unclaimed(c), c.r, c.j)
    requires Reached(Snap(Unclaimed(c), 0, Cached(Starting, [], false), Alone(RunPc.Begin)))
    ensures Reached(Snap(Holding(c), 0, Cached(Polling, [], false), Alone(RunPc.Answered(true, [c.j]))))
  {
    var b, x := Unclaimed(c), Cached(Polling, [], false);
    LoopStep(b, Cached(Starting, [], false), RunPc.Begin, SetMode(Polling), RunPc.Top, x);
    LoopStep(b, x, RunPc.Top, Silent, RunPc.TryRead, x);
    LoopStep(b, x, RunPc.TryRead, Silent, RunPc.Reader, x);
    LoopStep(b, x, RunPc.Reader, Silent, RunPc.Guard, x);
    LoopStep(b, x, RunPc.Guard, Silent, RunPc.Querying, x);
    ClaimingStep(b, x, c.r, c.j);
    Extend(Snap(b, 0, x, Alone(RunPc.Querying)), Snap(Holding(c), 0, x, Alone(RunPc.Answered(true, [c.j]))));
  }

  /** The job is cached. */
  lemma Delivered(c: Setup)
    requires Good(c)
    ensures Reached(Snap(Holding(c), 0, Cached(Polling, [c.j], true), Alone(RunPc.Extended)))
  {
    Fetched(c);
    var b, x := Holding(c), Cached(Polling, [], true);
    LoopStep(b, Cached(Polling, [], false), RunPc.Answered(true, [c.j]), Notify, RunPc.Deliver([c.j]), x);
    assert x.cache + [c.j] == [c.j];
    LoopStep(b, x, RunPc.Deliver([c.j]), Append([c.j]), RunPc.Extended, Cached(Polling, [c.j], true));
  }

  /** The queue waits and its timer runs. */
  lemma Settled(c: Setup)
    requires Good(c)
    ensures Reached(Snap(Holding(c), 0, Cached(Waiting, [c.j], true), WithTimer(TtlSleep)))
  {
    Delivered(c);
    var b, x := Holding(c), Cached(Waiting, [c.j], true);
    LoopStep(b, Cached(Polling, [c.j], true), RunPc.Extended, SetMode(Waiting), RunPc.TimerDue, x);
    TimerStep(b, x);
    Extend(Snap(b, 0, x, Alone(RunPc.TimerDue)), Snap(b, 0, x, WithTimer(TtlSleep)));
  }

  // --------------------------------------------------------------- the job is lost

  function WithCall(g: GetPc): map<Tid, Task> {
    map[LOOP := Task(0, Run(RunPc.After)), TIMER := Task(0, TtlSleep), CALL := Task(0, Get(g))]
  }

  lemma CallFree(g: GetPc, g': GetPc)
    ensures Unhindered(WithCall(g), CALL, Some(Get(g')))
    ensures AfterMove(WithCall(g), CALL, Some(Get(g'))) == WithCall(g')
  {
  }

  lemma CallStep(b: Base, x: Queue, g: GetPc, e: Effect, g': GetPc, x': Queue)
    requires GetMoves(x, g, e, Some(Get(g'))) && Simple(e) && ReturnsAfter(0, e) == 0 && x' == QueueAfter(x, e)
    requires Reached(Snap(b, 0, x, WithCall(g)))
    ensures Reached(Snap(b, 0, x', WithCall(g')))
  {
    Goes(x, 0, Get(g), e, Some(Get(g')));
    CallFree(g, g');
    Plain(b, 0, x, WithCall(g), CALL, e, Some(Get(g')), 0, x', WithCall(g'));
  }

  lemma Called(b: Base, x: Queue)
    ensures Leads(Snap(b, 0, x, WithTimer(TtlSleep)), Snap(b, 0, x, WithCall(Start(false))))
  {
    var s, s' := Snap(b, 0, x, WithTimer(TtlSleep)), Snap(b, 0, x, WithCall(Start(false)));
    assert s'.tasks == s.tasks[CALL := Task(0, Get(Start(false)))];
    assert Next(s, CallGetJob(CALL, 0, false), s');
  }

  /** A call has the cache lock. */
  lemma CallArrives(c: Setup)
    requires Good(c)
    ensures Reached(Snap(Holding(c), 0, Cached(Waiting, [c.j], true), WithCall(HasCache)))
  {
    var b, x := Holding(c), Cached(Waiting, [c.j], true);
    Settled(c);
    Called(b, x);
    Extend(Snap(b, 0, x, WithTimer(TtlSleep)), Snap(b, 0, x, WithCall(Start(false))));
    CallStep(b, x, Start(false), Silent, CheckTtl, x);
    CallStep(b, x, CheckTtl, Silent, WantCache, x);
    CallStep(b, x, WantCache, Silent, HasCache, x);
  }

  /** It pops the job and is about to set the mode. */
  lemma PopReached(c: Setup)
    requires Good(c)
    ensures Reached(Snap(Holding(c), 0, Cached(Waiting, [], true), WithCall(Popped(c.j, true))))
  {
    CallArrives(c);
    var x := Cached(Waiting, [c.j], true);
    assert x.cache[1..] == [];
    CallStep(Holding(c), x, HasCache, PopFront, Popped(c.j, true), Cached(Waiting, [], true));
  }

  lemma ClaimedIsHeld(c: Setup)
    requires Good(c)
    ensures HeldAmong(Claimed(c), SetOf([c.j]), c.me) == {c.j}
  {
    ClaimStepClaimable(c.db, c.r, {c.j}, Claimed(c));
  }

  lemma DropApplies(c: Setup, x: Queue)
    requires Good(c)
    ensures Apply(Snap(Holding(c), 0, x, WithCall(Popped(c.j, true))), CALL, Strand([c.j]), None)
         == Snap(Lost(c), 0, x, WithTimer(TtlSleep))
  {
    var before := Snap(Holding(c), 0, x, WithCall(Popped(c.j, true)));
    var s := Apply(before, CALL, Strand([c.j]), None);
    ClaimedIsHeld(c);
    assert s.tasks == WithTimer(TtlSleep) && s.queues == before.queues && s.stranded == {c.j};
  }

  lemma Dropped(c: Setup, x: Queue)
    requires Good(c)
    ensures Leads(Snap(Holding(c), 0, x, WithCall(Popped(c.j, true))), Snap(Lost(c), 0, x, WithTimer(TtlSleep)))
  {
    var before := Snap(Holding(c), 0, x, WithCall(Popped(c.j, true)));
    DropApplies(c, x);
    assert Next(before, TaskStep(CALL, Strand([c.j]), None), Snap(Lost(c), 0, x, WithTimer(TtlSleep)));
  }

  lemma DropReached(c: Setup)
    requires Good(c)
    ensures Reached(Snap(Lost(c), 0, Cached(Waiting, [], true), WithTimer(TtlSleep)))
  {
    var x := Cached(Waiting, [], true);
    PopReached(c);
    Dropped(c, x);
    Extend(Snap(Holding(c), 0, x, WithCall(Popped(c.j, true))), Snap(Lost(c), 0, x, WithTimer(TtlSleep)));
  }

  /** Nobody but the ledger has the job. */
  lemma Nowhere(c: Setup)
    ensures forall p :: At(Snap(Lost(c), 0, Cached(Waiting, [], true), WithTimer(TtlSleep)), c.j, p) <==> p == Stranded
  {
  }

  /** Conservation fails for a dropped `get_job`: wherever a claim selects one job, an
      execution claims it, caches it, pops it for a caller and drops that caller in
      `set_mode`. The job is then locked by the worker, and no cache, pending list, task
      or handler has it. */
  lemma PoppedJobIsLost(c: Setup) returns (s: State)
    requires Good(c)
    ensures Reached(s) && LockedBy(s.db, s.me, c.j)
    ensures forall p :: At(s, c.j, p) <==> p == Stranded
  {
    s := Snap(Lost(c), 0, Cached(Waiting, [], true), WithTimer(TtlSleep));
    DropReached(c);
    Nowhere(c);
    ClaimExact(c.db, c.r, {c.j}, Claimed(c));
  }

  /** There are such tables. */
  lemma OneJobTable() returns (c: Setup)
    ensures Good(c) && c.me == "w" && c.j == 7 && c.r.now == 5
    ensures c.db == Db(map[7 := Row(None, 1, 0, 0, 0, 25, false, None, None)], map[])
  {
    var row := Row(None, 1, 0, 0, 0, 25, false, None, None);
    c := Setup("w", Db(map[7 := row], map[]), Request("w", {1}, Filter([], [], None), 5, 10), 7);
    assert Eligible(c.db, c.r, c.j);
    assert CandidateSet(c.db, c.r, {}, {c.j});
    assert Winners(c.db, {c.j}) == {c.j};
  }

  // ------------------------------------------------- a permit outlives a release

  /** The queue of a release under way or done, with nothing cached or pending. */
  function Ending(notice: bool, permit: bool, runDone: bool, releaseDone: bool): Queue {
    Queue(Released, [], [], permit, false, releaseDone, runDone, notice, true)
  }

  /** The timer has expired and waits for the pending lock; a release call is at `pc`. */
  function WithRelease(loop: RunPc, pc: Pc): map<Tid, Task> {
    map[LOOP := Task(0, Run(loop)), TIMER := Task(0, Ret(Ttl, WantPending)), CALL := Task(0, pc)]
  }

  /** The same after the fetch loop has ended. */
  function Unlooped(pc: Pc): map<Tid, Task> { map[TIMER := Task(0, Ret(Ttl, WantPending)), CALL := Task(0, pc)] }

  function OnlyTimer(pc: Pc): map<Tid, Task> { map[TIMER := Task(0, pc)] }

  /** The timer expires the waiting queue. */
  lemma Expired(c: Setup)
    requires Good(c)
    ensures Reached(Snap(Lost(c), 0, Cached(TtlExpired, [], true), WithTimer(Ret(Ttl, WantPending))))
  {
    var b, x := Lost(c), Cached(Waiting, [], true);
    DropReached(c);
    TimerTurn(b, x, TtlSleep, Silent, TtlExpire, x);
    TimerTurn(b, x, TtlExpire, Expire, Ret(Ttl, WantPending), Cached(TtlExpired, [], true));
  }

  lemma TimerFree(pc: Pc, pc': Pc)
    requires !pc.Direct? && !pc.Run? && !pc'.Run? && !Releasing(pc')
    ensures Unhindered(WithTimer(pc), TIMER, Some(pc'))
    ensures AfterMove(WithTimer(pc), TIMER, Some(pc')) == WithTimer(pc')
  {
  }

  lemma TimerTurn(b: Base, x: Queue, pc: Pc, e: Effect, pc': Pc, x': Queue)
    requires Flows(x, 0, pc, e, Some(pc')) && (e == Silent || e == Expire) && x' == QueueAfter(x, e)
    requires !pc.Direct? && !pc.Run? && !pc'.Run? && !Releasing(pc') && Reached(Snap(b, 0, x, WithTimer(pc)))
    ensures Reached(Snap(b, 0, x', WithTimer(pc')))
  {
    Goes(x, 0, pc, e, Some(pc'));
    TimerFree(pc, pc');
    Plain(b, 0, x, WithTimer(pc), TIMER, e, Some(pc'), 0, x', WithTimer(pc'));
  }

  lemma ReleaseCalled(b: Base, x: Queue)
    ensures Leads(Snap(b, 0, x, WithTimer(Ret(Ttl, WantPending))), Snap(b, 0, x, WithRelease(RunPc.After, RelLock)))
  {
    var s, s' := Snap(b, 0, x, WithTimer(Ret(Ttl, WantPending))), Snap(b, 0, x, WithRelease(RunPc.After, RelLock));
    assert s'.tasks == s.tasks[CALL := Task(0, RelLock)];
    assert Next(s, CallRelease(CALL, 0), s');
  }

  lemma ReleaseFree(pc: Pc, pc': Pc)
    requires (pc.RelLock? && pc'.RelMode?) || (pc.RelMode? && pc'.RelNotify?) || (pc.RelNotify? && pc'.RelAwait?)
    ensures Unhindered(WithRelease(RunPc.After, pc), CALL, Some(pc'))
    ensures AfterMove(WithRelease(RunPc.After, pc), CALL, Some(pc')) == WithRelease(RunPc.After, pc')
  {
  }

  lemma ReleaseTurn(b: Base, x: Queue, pc: Pc, e: Effect, pc': Pc, x': Queue)
    requires OtherMoves(x, pc, e, Some(pc')) && Simple(e) && ReturnsAfter(0, e) == 0 && x' == QueueAfter(x, e)
    requires (pc.RelLock? && pc'.RelMode?) || (pc.RelMode? && pc'.RelNotify?) || (pc.RelNotify? && pc'.RelAwait?)
    requires Reached(Snap(b, 0, x, WithRelease(RunPc.After, pc)))
    ensures Reached(Snap(b, 0, x', WithRelease(RunPc.After, pc')))
  {
    Goes(x, 0, pc, e, Some(pc'));
    ReleaseFree(pc, pc');
    Plain(b, 0, x, WithRelease(RunPc.After, pc), CALL, e, Some(pc'), 0, x', WithRelease(RunPc.After, pc'));
  }

  /** A release call gets the release lock. */
  lemma ReleaseArrives(c: Setup)
    requires Good(c)
    ensures Reached(Snap(Lost(c), 0, Cached(TtlExpired, [], true), WithRelease(RunPc.After, RelMode)))
  {
    var b, x := Lost(c), Cached(TtlExpired, [], true);
    Expired(c);
    ReleaseCalled(b, x);
    Extend(Snap(b, 0, x, WithTimer(Ret(Ttl, WantPending))), Snap(b, 0, x, WithRelease(RunPc.After, RelLock)));
    ReleaseTurn(b, x, RelLock, Silent, RelMode, x);
  }

  /** It sets the mode and waits for the loop. */
  lemma ReleaseWaits(c: Setup)
    requires Good(c)
    ensures Reached(Snap(Lost(c), 0, Ending(true, false, false, false), WithRelease(RunPc.After, RelAwait)))
  {
    var b, x, y := Lost(c), Cached(TtlExpired, [], true), Ending(true, false, false, false);
    ReleaseArrives(c);
    ReleaseTurn(b, x, RelMode, ForceReleased, RelNotify, y);
    ReleaseTurn(b, y, RelNotify, Notify, RelAwait, y);
  }

  lemma LoopAmidRelease(pc: RunPc, pc': RunPc)
    ensures Unhindered(WithRelease(pc, RelAwait), LOOP, Some(Run(pc')))
    ensures AfterMove(WithRelease(pc, RelAwait), LOOP, Some(Run(pc'))) == WithRelease(pc', RelAwait)
  {
  }

  lemma LoopTurn(b: Base, x: Queue, pc: RunPc, pc': RunPc)
    requires RunMoves(x, 0, pc, Silent, Some(pc')) && Reached(Snap(b, 0, x, WithRelease(pc, RelAwait)))
    ensures Reached(Snap(b, 0, x, WithRelease(pc', RelAwait)))
  {
    assert ReturnsAfter(0, Silent) == 0 && QueueAfter(x, Silent) == x;
    Goes(x, 0, Run(pc), Silent, Some(Run(pc')));
    LoopAmidRelease(pc, pc');
    Plain(b, 0, x, WithRelease(pc, RelAwait), LOOP, Silent, Some(Run(pc')), 0, x, WithRelease(pc', RelAwait));
  }

  lemma LoopLeaves()
    ensures Unhindered(WithRelease(RunPc.Stop, RelAwait), LOOP, None)
    ensures AfterMove(WithRelease(RunPc.Stop, RelAwait), LOOP, None) == Unlooped(RelAwait)
  {
  }

  lemma LoopEnds(b: Base, x: Queue, x': Queue)
    requires Reached(Snap(b, 0, x, WithRelease(RunPc.Stop, RelAwait))) && x' == QueueAfter(x, FinishRun)
    ensures Reached(Snap(b, 0, x', Unlooped(RelAwait)))
  {
    Goes(x, 0, Run(RunPc.Stop), FinishRun, None);
    LoopLeaves();
    Plain(b, 0, x, WithRelease(RunPc.Stop, RelAwait), LOOP, FinishRun, None, 0, x', Unlooped(RelAwait));
  }

  /** The loop sees the mode. */
  lemma Stopping(c: Setup)
    requires Good(c)
    ensures Reached(Snap(Lost(c), 0, Ending(true, false, false, false), WithRelease(RunPc.Stop, RelAwait)))
  {
    var b, x := Lost(c), Ending(true, false, false, false);
    ReleaseWaits(c);
    LoopTurn(b, x, RunPc.After, RunPc.Top);
    LoopTurn(b, x, RunPc.Top, RunPc.Stop);
  }

  /** It ends. */
  lemma Stopped(c: Setup)
    requires Good(c)
    ensures Reached(Snap(Lost(c), 0, Ending(true, false, true, false), Unlooped(RelAwait)))
  {
    var b, x := Lost(c), Ending(true, false, false, false);
    Stopping(c);
    LoopEnds(b, x, Ending(true, false, true, false));
  }

  lemma FinalFree(pc: Pc, pc': Pc)
    requires (pc.RelAwait? || (pc.Ret? && pc.who == Release)) && pc'.Ret? && pc'.who == Release
    ensures Unhindered(Unlooped(pc), CALL, Some(pc'))
    ensures AfterMove(Unlooped(pc), CALL, Some(pc')) == Unlooped(pc')
  {
  }

  lemma FinalTurn(b: Base, n: nat, x: Queue, pc: Pc, e: Effect, pc': Pc, n': nat, x': Queue)
    requires Flows(x, n, pc, e, Some(pc')) && Simple(e) && n' == ReturnsAfter(n, e) && x' == QueueAfter(x, e)
    requires (pc.RelAwait? || (pc.Ret? && pc.who == Release)) && pc'.Ret? && pc'.who == Release
    requires Reached(Snap(b, n, x, Unlooped(pc)))
    ensures Reached(Snap(b, n', x', Unlooped(pc')))
  {
    Goes(x, n, pc, e, Some(pc'));
    FinalFree(pc, pc');
    Plain(b, n, x, Unlooped(pc), CALL, e, Some(pc'), n', x', Unlooped(pc'));
  }

  /** The release gets the pending lock and the claim lock. */
  lemma Writing(c: Setup)
    requires Good(c)
    ensures Reached(Snap(Lost(c), 0, Ending(true, false, true, false), Unlooped(Ret(Release, Writer))))
  {
    var b, x := Lost(c), Ending(true, false, true, false);
    Stopped(c);
    FinalTurn(b, 0, x, RelAwait, Silent, Ret(Release, WantPending), 0, x);
    FinalTurn(b, 0, x, Ret(Release, WantPending), Silent, Ret(Release, WantPermit), 0, x);
    FinalTurn(b, 0, x, Ret(Release, WantPermit), Silent, Ret(Release, Writer), 0, x);
  }

  lemma DrainsNothing(x: Queue)
    requires x.cache == [] && x.pending == []
    ensures QueueAfter(x, Drain) == x
  {
    assert x.pending + x.cache == [];
  }

  /** It opens its permit. */
  lemma Opened(c: Setup)
    requires Good(c)
    ensures Reached(Snap(Lost(c), 1, Ending(true, true, true, false), Unlooped(Ret(Release, WantDrain))))
  {
    Writing(c);
    FinalTurn(Lost(c), 0, Ending(true, false, true, false), Ret(Release, Writer), OpenPermit, Ret(Release, WantDrain),
              1, Ending(true, true, true, false));
  }

  /** It finds nothing to return. */
  lemma NothingFound(c: Setup)
    requires Good(c)
    ensures Reached(Snap(Lost(c), 1, Ending(true, true, true, false), Unlooped(Ret(Release, RetPc.Drained))))
  {
    var x := Ending(true, true, true, false);
    Opened(c);
    DrainsNothing(x);
    FinalTurn(Lost(c), 1, x, Ret(Release, WantDrain), Drain, Ret(Release, RetPc.Drained), 1, x);
  }

  /** It closes the permit. */
  lemma Closed(c: Setup)
    requires Good(c)
    ensures Reached(Snap(Lost(c), 0, Ending(true, false, true, false), Unlooped(Ret(Release, RetPc.Done))))
  {
    NothingFound(c);
    FinalTurn(Lost(c), 1, Ending(true, true, true, false), Ret(Release, RetPc.Drained), ClosePermit,
              Ret(Release, RetPc.Done), 0, Ending(true, false, true, false));
  }

  /** The release returns Ok while the timer still waits. */
  lemma ReleaseReturned(c: Setup)
    requires Good(c)
    ensures Reached(Snap(Lost(c), 0, Ending(true, false, true, true), OnlyTimer(Ret(Ttl, WantPending))))
  {
    var b, x, y := Lost(c), Ending(true, false, true, false), Ending(true, false, true, true);
    Closed(c);
    ReleaseLeaves(b, x);
    Extend(Snap(b, 0, x, Unlooped(Ret(Release, RetPc.Done))), Snap(b, 0, y, OnlyTimer(Ret(Ttl, WantPending))));
  }

  lemma ReleaseLeaves(b: Base, x: Queue)
    ensures Leads(Snap(b, 0, x, Unlooped(Ret(Release, RetPc.Done))),
                  Snap(b, 0, x.(releaseDone := true), OnlyTimer(Ret(Ttl, WantPending))))
  {
    var tasks := Unlooped(Ret(Release, RetPc.Done));
    Goes(x, 0, Ret(Release, RetPc.Done), FinishRelease, None);
    assert Unhindered(tasks, CALL, None);
    assert AfterMove(tasks, CALL, None) == OnlyTimer(Ret(Ttl, WantPending));
    PlainLeads(b, 0, x, tasks, CALL, FinishRelease, None);
  }

  lemma LateFree(r: RetPc, r': RetPc)
    ensures Unhindered(OnlyTimer(Ret(Ttl, r)), TIMER, Some(Ret(Ttl, r')))
    ensures AfterMove(OnlyTimer(Ret(Ttl, r)), TIMER, Some(Ret(Ttl, r'))) == OnlyTimer(Ret(Ttl, r'))
  {
  }

  lemma LateTurn(b: Base, n: nat, x: Queue, r: RetPc, e: Effect, r': RetPc, n': nat, x': Queue)
    requires RetMoves(x, Ttl, r, e, Some(r')) && Simple(e) && n' == ReturnsAfter(n, e) && x' == QueueAfter(x, e)
    requires Reached(Snap(b, n, x, OnlyTimer(Ret(Ttl, r))))
    ensures Reached(Snap(b, n', x', OnlyTimer(Ret(Ttl, r'))))
  {
    Goes(x, n, Ret(Ttl, r), e, Some(Ret(Ttl, r')));
    LateFree(r, r');
    Plain(b, n, x, OnlyTimer(Ret(Ttl, r)), TIMER, e, Some(Ret(Ttl, r')), n', x', OnlyTimer(Ret(Ttl, r')));
  }

  /** The timer goes on, opens a permit of its own and waits for the cache. */
  lemma StragglerReached(c: Setup)
    requires Good(c)
    ensures Reached(Snap(Lost(c), 1, Ending(true, true, true, true), OnlyTimer(Ret(Ttl, WantDrain))))
  {
    var b, x := Lost(c), Ending(true, false, true, true);
    ReleaseReturned(c);
    LateTurn(b, 0, x, WantPending, Silent, WantPermit, 0, x);
    LateTurn(b, 0, x, WantPermit, Silent, Writer, 0, x);
    LateTurn(b, 0, x, Writer, OpenPermit, WantDrain, 1, Ending(true, true, true, true));
  }

  /** The straggler of a finished release is reachable, and so is the permit it leaves
      when it is dropped: from then on no queue of the worker fetches. */
  lemma PermitOutlivesRelease(c: Setup) returns (s: State)
    requires Good(c)
    ensures Reached(s) && ReleaseDone(s, 0) && s.tasks == map[]
    ensures s.permits == 1 && s.queues[0].permit && s.queues[0].pending == []
  {
    var b, x := Lost(c), Ending(true, true, true, true);
    var tasks := OnlyTimer(Ret(Ttl, WantDrain));
    StragglerReached(c);
    assert Moves(x, 1, Ret(Ttl, WantDrain), Silent, None);
    assert May(x, 1, Ret(Ttl, WantDrain), Silent, None);
    assert Unhindered(tasks, TIMER, None);
    assert AfterMove(tasks, TIMER, None) == map[];
    Plain(b, 1, x, tasks, TIMER, Silent, None, 1, x, map[]);
    s := Snap(b, 1, x, map[]);
  }

  // ------------------------------------------- a fallback robs a job claimed again

  /** The job is with its handler. */
  function Handling(c: Setup): Base { Base(c.me, Claimed(c), multiset{c.j}, {}, multiset{}) }

  /** Its failure is saved, but the answer was lost and the fallback is still to come. */
  function FailureSaved(c: Setup, runAt: int): Base {
    Base(c.me, Fail(Claimed(c), c.j, c.me, runAt), multiset{}, {}, multiset{LateFail(c.j)})
  }

  lemma HandingOut(c: Setup, x: Queue)
    ensures Leads(Snap(Holding(c), 0, x, WithCall(InHook(c.j))), Snap(Handling(c), 0, x, WithTimer(TtlSleep)))
  {
    var s := Snap(Holding(c), 0, x, WithCall(InHook(c.j)));
    var t := Apply(s, CALL, HandOut(c.j), None);
    assert Next(s, TaskStep(CALL, HandOut(c.j), None), t);
    assert t.tasks == WithTimer(TtlSleep) && t.queues == s.queues && t.held == multiset{c.j} && t.stranded == {};
  }

  /** The call returns the job. */
  lemma HandedOut(c: Setup)
    requires Good(c)
    ensures Reached(Snap(Handling(c), 0, Cached(Polling, [], true), WithTimer(TtlSleep)))
  {
    var x := Cached(Polling, [], true);
    PopReached(c);
    CallStep(Holding(c), Cached(Waiting, [], true), Popped(c.j, true), SetMode(Polling), InHook(c.j), x);
    HandingOut(c, x);
    Extend(Snap(Holding(c), 0, x, WithCall(InHook(c.j))), Snap(Handling(c), 0, x, WithTimer(TtlSleep)));
  }

  lemma TimerLeaves(b: Base, x: Queue)
    requires x.mode == Polling
    ensures Leads(Snap(b, 0, x, WithTimer(TtlSleep)), Snap(b, 0, x, Alone(RunPc.After)))
  {
    Goes(x, 0, TtlSleep, Silent, None);
    assert Unhindered(WithTimer(TtlSleep), TIMER, None);
    assert AfterMove(WithTimer(TtlSleep), TIMER, None) == Alone(RunPc.After);
    PlainLeads(b, 0, x, WithTimer(TtlSleep), TIMER, Silent, None);
  }

  lemma ReportLeads(c: Setup, runAt: int, x: Queue)
    ensures Leads(Snap(Handling(c), 0, x, Alone(RunPc.After)), Snap(FailureSaved(c, runAt), 0, x, Alone(RunPc.After)))
  {
    var s, s' := Snap(Handling(c), 0, x, Alone(RunPc.After)), Snap(FailureSaved(c, runAt), 0, x, Alone(RunPc.After));
    assert Next(s, ReportLost(c.j, true, runAt), s');
  }

  lemma FailureReported(c: Setup, runAt: int)
    requires Good(c)
    ensures Reached(Snap(FailureSaved(c, runAt), 0, Cached(Polling, [], true), Alone(RunPc.After)))
  {
    var x := Cached(Polling, [], true);
    HandedOut(c);
    TimerLeaves(Handling(c), x);
    Extend(Snap(Handling(c), 0, x, WithTimer(TtlSleep)), Snap(Handling(c), 0, x, Alone(RunPc.After)));
    ReportLeads(c, runAt, x);
    Extend(Snap(Handling(c), 0, x, Alone(RunPc.After)), Snap(FailureSaved(c, runAt), 0, x, Alone(RunPc.After)));
  }

  /** The loop claims the job again. */
  lemma Reclaimed(c: Setup, runAt: int, r: Request)
    requires Good(c) && Selects(FailureSaved(c, runAt), r, c.j)
    ensures Reached(Snap(Locking(FailureSaved(c, runAt), r, c.j), 0, Cached(Polling, [], true),
                         Alone(RunPc.Answered(true, [c.j]))))
  {
    var b, x := FailureSaved(c, runAt), Cached(Polling, [], true);
    FailureReported(c, runAt);
    LoopStep(b, x, RunPc.After, Silent, RunPc.Top, x);
    LoopStep(b, x, RunPc.Top, Silent, RunPc.TryRead, x);
    LoopStep(b, x, RunPc.TryRead, Silent, RunPc.Reader, x);
    LoopStep(b, x, RunPc.Reader, Silent, RunPc.Guard, x);
    LoopStep(b, x, RunPc.Guard, Silent, RunPc.Querying, x);
    ClaimingStep(b, x, r, c.j);
    Extend(Snap(b, 0, x, Alone(RunPc.Querying)), Snap(Locking(b, r, c.j), 0, x, Alone(RunPc.Answered(true, [c.j]))));
  }

  /** Ownership fails for a job claimed again before its fallback: wherever the two claims
      are possible, an execution reaches a state in which the worker relies on the job and
      from which the fallback of its earlier failure report unlocks it. */
  lemma ReclaimedJobIsRobbed(c: Setup, runAt: int, r: Request) returns (s: State, s': State)
    requires Good(c) && Selects(FailureSaved(c, runAt), r, c.j)
    ensures Reached(s) && Relied(s, c.j) && LockedBy(s.db, s.me, c.j)
    ensures Next(s, LateStep(LateFail(c.j), {}, runAt), s') && Hits(s, LateStep(LateFail(c.j), {}, runAt), c.j)
    ensures Relied(s', c.j) && !LockedBy(s'.db, s'.me, c.j)
  {
    var b, x := Locking(FailureSaved(c, runAt), r, c.j), Cached(Polling, [], true);
    var tasks := Alone(RunPc.Answered(true, [c.j]));
    Reclaimed(c, runAt, r);
    s := Snap(b, 0, x, tasks);
    s' := LetGo(s, LateFail(c.j), Fail(s.db, c.j, s.me, runAt), {c.j});
    ClaimedIsLocked(c, runAt, r);
    Unlocks(s.db, c.j, s.me, runAt);
    assert At(s, c.j, InTask(LOOP)) && At(s', c.j, InTask(LOOP));
  }

  lemma ClaimedIsLocked(c: Setup, runAt: int, r: Request)
    requires Selects(FailureSaved(c, runAt), r, c.j)
    ensures LockedBy(Locking(FailureSaved(c, runAt), r, c.j).db, c.me, c.j)
  {
    ClaimStepClaimable(FailureSaved(c, runAt).db, r, {c.j}, Locking(FailureSaved(c, runAt), r, c.j).db);
  }

  lemma Unlocks(db: Db, j: JobId, w: string, runAt: int)
    ensures !LockedBy(Fail(db, j, w, runAt), w, j)
  {
  }

  /** There are such claims too. */
  lemma TwoClaims() returns (c: Setup, runAt: int, r: Request)
    ensures Good(c) && Selects(FailureSaved(c, runAt), r, c.j)
  {
    c := OneJobTable();
    runAt, r := 6, Request("w", {1}, Filter([], [], None), 7, 10);
    var db := FailureSaved(c, runAt).db;
    assert db.jobs.Keys == {7};
    assert Eligible(db, r, 7);
    assert CandidateSet(db, r, {}, {7});
    assert Winners(db, {7}) == {7};
  }

  // --------------------------------------- another worker completes a claimed job

  /** What happened to another worker `v` before this one claims the job: it claimed the job
      and failed it without an answer, claimed it again, and its fallback took the job from
      its handler, which still runs. */
  datatype Robbery = Robbery(
    v: string, db: Db, first: Request, failAt: int, second: Request, fallbackAt: int, c: Setup)

  function TakenFirst(x: Robbery): Db { Claim(x.db, {x.c.j}, Lock(x.v, x.first.now)) }

  function FailedFirst(x: Robbery): Db { Fail(TakenFirst(x), x.c.j, x.v, x.failAt) }

  function TakenAgain(x: Robbery): Db { Claim(FailedFirst(x), {x.c.j}, Lock(x.v, x.second.now)) }

  function FailedAgain(x: Robbery): Db { Fail(TakenAgain(x), x.c.j, x.v, x.fallbackAt) }

  ghost predicate Plausible(x: Robbery) {
    && x.v != x.c.me && Valid(x.db) && (forall j :: !LockedBy(x.db, x.c.me, j))
    && x.first.worker == x.v && ClaimStep(x.db, x.first, {x.c.j}, TakenFirst(x))
    && x.second.worker == x.v && ClaimStep(FailedFirst(x), x.second, {x.c.j}, TakenAgain(x))
    && x.c.db == FailedAgain(x) && Selects(Unclaimed(x.c), x.c.r, x.c.j)
  }

  lemma Others(b: Base, x: Queue, tasks: map<Tid, Task>, st: Statement, db': Db)
    requires !SentBy(st, b.me) && Executes(b.db, st, db') && !st.CompleteJob? && Reached(Snap(b, 0, x, tasks))
    ensures Reached(Snap(b.(db := db'), 0, x, tasks))
  {
    var s, s' := Snap(b, 0, x, tasks), Snap(b.(db := db'), 0, x, tasks);
    assert s.stranded - Deleted(st) == s.stranded;
    assert Next(s, Elsewhere(st), s');
    Extend(s, s');
  }

  /** The other worker's statements run before this one's loop does. */
  lemma OtherWorkerRobbed(x: Robbery)
    requires Plausible(x)
    ensures Reached(Snap(Unclaimed(x.c), 0, Cached(Starting, [], false), Alone(RunPc.Begin)))
  {
    var b, q, tasks := Base(x.c.me, x.db, multiset{}, {}, multiset{}), Cached(Starting, [], false), Alone(RunPc.Begin);
    StartedAt(x.c.me, x.db);
    Others(b, q, tasks, ClaimJobs(x.first, {x.c.j}), TakenFirst(x));
    Others(b.(db := TakenFirst(x)), q, tasks, FailJob(x.v, x.c.j, x.failAt), FailedFirst(x));
    Others(b.(db := FailedFirst(x)), q, tasks, ClaimJobs(x.second, {x.c.j}), TakenAgain(x));
    Others(b.(db := TakenAgain(x)), q, tasks, FailJob(x.v, x.c.j, x.fallbackAt), FailedAgain(x));
  }

  /** Ownership fails for a job that another worker was robbed of: wherever the claims are
      possible, an execution reaches a state in which this worker relies on the job, and
      from which the other worker's handler, completing the job it no longer holds, deletes
      the row and leaves the job's named queue locked by this worker without a job. */
  lemma StrayCompletionReached(x: Robbery, named: bool) returns (s: State, s': State)
    requires Plausible(x)
    ensures Reached(s) && Relied(s, x.c.j) && LockedBy(s.db, s.me, x.c.j)
    ensures var step := Elsewhere(CompleteJob(x.v, x.c.j, named));
            Next(s, step, s') && Hits(s, step, x.c.j)
    ensures Relied(s', x.c.j) && x.c.j !in s'.db.jobs
    ensures QueueOf(s.db, x.c.j).Some? ==>
              var q := QueueOf(s.db, x.c.j).value;
              q in s'.db.queues && s'.db.queues[q] == Some(Lock(s.me, x.c.r.now)) && !Busy(s', q)
  {
    var c := x.c;
    OtherWorkerRobbed(x);
    FetchedFrom(c);
    s := Snap(Holding(c), 0, Cached(Polling, [], false), Alone(RunPc.Answered(true, [c.j])));
    s' := StraySteps(s, c.j, x.v, named);
    OnlyClaim(x);
    StrayLeavesQueue(Claimed(c), c.j, c.me, x.v, named);
  }

  lemma StraySteps(s: State, j: JobId, v: string, named: bool) returns (s': State)
    requires v != s.me && LOOP in s.tasks && s.tasks[LOOP].pc == Run(RunPc.Answered(true, [j]))
    ensures var step := Elsewhere(CompleteJob(v, j, named));
            Next(s, step, s') && Relied(s, j) && Hits(s, step, j)
    ensures s'.db == Complete(s.db, j, named, v) && s'.me == s.me && Relied(s', j) && j !in s'.db.jobs
  {
    s' := s.(db := Complete(s.db, j, named, v), stranded := s.stranded - {j});
    assert At(s, j, InTask(LOOP)) && At(s', j, InTask(LOOP));
  }

  lemma StrayLeavesQueue(db: Db, j: JobId, w: string, v: string, named: bool)
    requires Owned(db, w, j) && v != w && forall k :: LockedBy(db, w, k) ==> k == j
    ensures var db' := Complete(db, j, named, v);
            QueueOf(db, j).Some? ==>
              var q := QueueOf(db, j).value;
              q in db'.queues && db'.queues[q] == db.jobs[j].lock && forall k :: !OccupiesFor(db', w, k, q)
  {
    CompleteLocks(db, j, named, v);
  }

  /** This worker's claim holds the job's named queue, and nothing else of it. */
  lemma OnlyClaim(x: Robbery)
    requires Plausible(x)
    ensures Owned(Claimed(x.c), x.c.me, x.c.j) && Claimed(x.c).jobs[x.c.j].lock == Some(Lock(x.c.me, x.c.r.now))
    ensures forall j :: LockedBy(Claimed(x.c), x.c.me, j) ==> j == x.c.j
  {
    var c := x.c;
    ExecutesLocks(x.db, ClaimJobs(x.first, {c.j}), TakenFirst(x), c.me);
    ExecutesLocks(TakenFirst(x), FailJob(x.v, c.j, x.failAt), FailedFirst(x), c.me);
    ExecutesLocks(FailedFirst(x), ClaimJobs(x.second, {c.j}), TakenAgain(x), c.me);
    ExecutesLocks(TakenAgain(x), FailJob(x.v, c.j, x.fallbackAt), FailedAgain(x), c.me);
    ClaimStepClaimable(c.db, c.r, {c.j}, Claimed(c));
    ClaimLocks(c.db, {c.j}, Lock(c.me, c.r.now));
    ClaimRows(c.db, {c.j}, Lock(c.me, c.r.now));
  }

  function OneRow(row: Row): Db { Db(map[7 := row], map[3 := None]) }

  const EVERYTHING: Filter := Filter([], [], None)

  /** A claim of the only row of a table, in a named queue. */
  lemma OneRowClaim(row: Row, w: string, now: int)
    requires Available(row) && row.queue == Some(3) && row.runAt <= now && row.task == 1 && row.flags == None
    ensures ClaimStep(OneRow(row), Request(w, {1}, EVERYTHING, now, 10), {7}, Claim(OneRow(row), {7}, Lock(w, now)))
  {
    var db, r := OneRow(row), Request(w, {1}, EVERYTHING, now, 10);
    assert Eligible(db, r, 7);
    assert CandidateSet(db, r, {}, {7});
    assert Winners(db, {7}) == {7};
  }

  /** A claim and a failure of that row by the same worker. */
  lemma OneRowRound(row: Row, w: string, now: int, runAt: int)
    requires row.queue == Some(3) && row.lock.None?
    ensures Fail(Claim(OneRow(row), {7}, Lock(w, now)), 7, w, runAt)
         == OneRow(Retried(row, runAt))
  {
    var db := OneRow(row);
    var db' := Claim(db, {7}, Lock(w, now));
    assert QueuesOf(db, {7}) == {3};
    assert HeldAmong(db', {7}, w) == {7};
    assert QueuesOf(db', {7}) == {3};
    assert Freed(db', {7}, w) == {3};
  }

  lemma OneRowValid(row: Row)
    requires row.lock.None? && !row.retired
    ensures Valid(OneRow(row)) && forall w, j :: !LockedBy(OneRow(row), w, j)
  {
    assert forall j, q :: !Occupies(OneRow(row), j, q);
  }

  /** The same row after one failure, to be run again at `runAt`. */
  function Retried(row: Row, runAt: int): Row { row.(attempts := row.attempts + 1, runAt := runAt) }

  lemma RobberyOf(row: Row, x: Robbery)
    requires row.lock.None? && !row.retired && row.attempts + 2 < row.maxAttempts
    requires row.queue == Some(3) && row.runAt == 0 && row.task == 1 && row.flags == None
    requires x.v == "v" && x.c.me == "w" && x.c.j == 7 && x.failAt == 6 && x.fallbackAt == 8
    requires x.first == Request("v", {1}, EVERYTHING, 5, 10) && x.second == Request("v", {1}, EVERYTHING, 7, 10)
    requires x.c.r == Request("w", {1}, EVERYTHING, 9, 10)
    requires x.db == OneRow(row) && x.c.db == OneRow(Retried(Retried(row, 6), 8))
    ensures Plausible(x)
  {
    OneRowValid(row);
    OneRowClaim(row, "v", 5);
    OneRowRound(row, "v", 5, 6);
    SecondRound(Retried(row, 6), x);
  }

  lemma SecondRound(row: Row, x: Robbery)
    requires row.lock.None? && row.attempts + 1 < row.maxAttempts
    requires row.queue == Some(3) && row.runAt == 6 && row.task == 1 && row.flags == None
    requires x.v == "v" && x.c.me == "w" && x.c.j == 7 && x.fallbackAt == 8
    requires x.second == Request("v", {1}, EVERYTHING, 7, 10) && x.c.r == Request("w", {1}, EVERYTHING, 9, 10)
    requires FailedFirst(x) == OneRow(row) && x.c.db == OneRow(Retried(row, 8))
    ensures ClaimStep(FailedFirst(x), x.second, {7}, TakenAgain(x)) && FailedAgain(x) == x.c.db
    ensures Selects(Unclaimed(x.c), x.c.r, 7)
  {
    OneRowClaim(row, "v", 7);
    OneRowRound(row, "v", 7, 8);
    OneRowClaim(Retried(row, 8), "w", 9);
  }

  /** There are such statements. */
  lemma RobberyTable() returns (x: Robbery)
    ensures Plausible(x) && QueueOf(x.c.db, x.c.j) == Some(3)
  {
    var row := Row(Some(3), 1, 0, 0, 0, 25, false, None, None);
    var c := Setup("w", OneRow(Retried(Retried(row, 6), 8)), Request("w", {1}, EVERYTHING, 9, 10), 7);
    x := Robbery("v", OneRow(row), Request("v", {1}, EVERYTHING, 5, 10), 6, Request("v", {1}, EVERYTHING, 7, 10), 8, c);
    RobberyOf(row, x);
  }
}
