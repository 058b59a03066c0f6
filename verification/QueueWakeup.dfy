/** Queue wakeups: release hints counted in one atomic and announced through a notifier
    that stores one permit or hands a notification to a registered waiter. One step is
    one atomic access, so wakers, waiters and dropped waiters interleave freely. */
module QueueWakeup {
  const USIZE_MAX: nat := 0xFFFF_FFFF_FFFF_FFFF

  /** The counter, the notifier's word unpacked, the wakers that have added but not yet
      notified, and the `next` calls that are registered or have been notified. The last
      three fields record history: hints added, hints delivered, hints lost to saturation. */
  datatype State = State(
    count: nat, permit: bool, waiters: nat, pending: nat,
    adding: set<nat>, registered: set<nat>, notified: set<nat>,
    added: nat, delivered: nat, overflow: nat)

  datatype Event =
    | Add(waker: nat, n: nat)   // the saturating add of `wake`
    | Notify(waker: nat)        // `notify_one`
    | Register(call: nat)       // first poll: takes the permit or becomes a waiter
    | Complete(call: nat)       // a later poll that takes a pending notification
    | Swap(call: nat)           // takes the whole count; `next` returns it unless zero
    | Drop(call: nat)           // a registered `next` is cancelled

  function Min(a: nat, b: nat): nat { if a < b then a else b }

  function Less(n: nat): nat { if n == 0 then 0 else n - 1 }

  predicate Enabled(s: State, e: Event) {
    match e
    case Add(w, n) => w !in s.adding && 0 < n
    case Notify(w) => w in s.adding
    case Register(c) => c !in s.registered && c !in s.notified
    case Complete(c) => c in s.registered && 0 < s.pending
    case Swap(c) => c in s.notified
    case Drop(c) => c in s.registered
  }

  function After(s: State, e: Event): State
    requires Enabled(s, e)
  {
    match e
    case Add(w, n) =>
      var count := Min(s.count + n, USIZE_MAX);
      s.(count := count, adding := s.adding + {w}, added := s.added + n, overflow := s.overflow + (s.count + n - count))
    case Notify(w) =>
      if s.waiters > s.pending then s.(pending := s.pending + 1, adding := s.adding - {w})
      else s.(permit := true, adding := s.adding - {w})
    case Register(c) =>
      if s.permit then s.(permit := false, notified := s.notified + {c})
      else s.(waiters := s.waiters + 1, registered := s.registered + {c})
    case Complete(c) =>
      s.(waiters := Less(s.waiters), pending := Min(Less(s.pending), Less(s.waiters)),
         registered := s.registered - {c}, notified := s.notified + {c})
    case Swap(c) => s.(count := 0, delivered := s.delivered + s.count, notified := s.notified - {c})
    case Drop(c) =>
      s.(waiters := Less(s.waiters), pending := Min(s.pending, Less(s.waiters)), registered := s.registered - {c})
  }

  predicate Inv(s: State) {
    && s.waiters == |s.registered|
    && s.pending <= s.waiters
    && (s.permit ==> s.pending == s.waiters)
    && s.registered !! s.notified
    && s.count <= USIZE_MAX
    && s.added == s.delivered + s.count + s.overflow
    && (s.added <= USIZE_MAX ==> s.overflow == 0)
  }

  lemma RegisteredCounted(s: State, c: nat)
    requires Inv(s) && c in s.registered
    ensures 0 < s.waiters && |s.registered - {c}| == s.waiters - 1
  {
  }

  const INITIAL: State := State(0, false, 0, 0, {}, {}, {}, 0, 0, 0)

  lemma StepKeeps(s: State, e: Event)
    requires Inv(s) && Enabled(s, e)
    ensures Inv(After(s, e))
  {
    if e.Complete? || e.Drop? { RegisteredCounted(s, e.call); }
  }

  ghost predicate StepAt(s: State, e: Event, s': State) { Enabled(s, e) && s' == After(s, e) }

  ghost predicate Run(states: seq<State>, events: seq<Event>) {
    && |states| == |events| + 1 && states[0] == INITIAL
    && forall i :: 0 <= i < |events| ==> StepAt(states[i], events[i], states[i + 1])
  }

  /** Something stands behind a positive count: a stored permit, a notification handed to
      a waiter, a waker about to notify or a call about to swap. */
  predicate Backed(s: State) {
    0 < s.count ==> s.permit || 0 < s.pending || s.adding != {} || s.notified != {}
  }

  /** Cancelling `c` would throw away the only notification behind the count. */
  predicate Losing(s: State, c: nat) {
    0 < s.count && s.registered == {c} && s.pending == 1 && !s.permit && s.adding == {} && s.notified == {}
  }

  lemma StepBacks(s: State, e: Event)
    requires Inv(s) && Enabled(s, e) && Backed(s)
    requires e.Drop? ==> !Losing(s, e.call)
    ensures Backed(After(s, e))
  {
    match e
    case Add(w, n) => assert w in After(s, e).adding;
    case Complete(c) => assert c in After(s, e).notified;
    case Register(c) => assert s.permit ==> c in After(s, e).notified;
    case Drop(c) =>
      RegisteredCounted(s, c);
      if s.waiters == 1 { assert s.registered == {c}; }
    case _ =>
  }

  /** A drop leaves the count unbacked exactly when it was the losing one. */
  lemma DropLosesExactly(s: State, c: nat)
    requires Inv(s) && Backed(s) && c in s.registered
    ensures Backed(After(s, Drop(c))) <==> !Losing(s, c)
  {
    if !Losing(s, c) { StepBacks(s, Drop(c)); }
  }

  ghost predicate NoLosingDrop(states: seq<State>, events: seq<Event>, n: nat)
    requires n <= |events| < |states|
  {
    forall k :: 0 <= k < n && events[k].Drop? ==> !Losing(states[k], events[k].call)
  }

  lemma {:induction false} RunKeeps(states: seq<State>, events: seq<Event>, i: nat)
    requires Run(states, events) && i < |states|
    ensures Inv(states[i])
  {
    if i > 0 {
      RunKeeps(states, events, i - 1);
      assert StepAt(states[i - 1], events[i - 1], states[i]);
      StepKeeps(states[i - 1], events[i - 1]);
    }
  }

  lemma {:induction false} RunBacks(states: seq<State>, events: seq<Event>, i: nat)
    requires Run(states, events) && i < |states| && NoLosingDrop(states, events, i)
    ensures Backed(states[i])
  {
    if i > 0 {
      RunBacks(states, events, i - 1);
      RunKeeps(states, events, i - 1);
      assert StepAt(states[i - 1], events[i - 1], states[i]);
      StepBacks(states[i - 1], events[i - 1]);
    }
  }

  /** The hints of all wakes since the previous take. */
  function SumSinceTake(events: seq<Event>): nat {
    if events == [] then 0
    else
      var last, before := events[|events| - 1], SumSinceTake(events[..|events| - 1]);
      if last.Swap? then 0 else if last.Add? then before + last.n else before
  }

  lemma SaturatesOnce(a: nat, n: nat)
    ensures Min(Min(a, USIZE_MAX) + n, USIZE_MAX) == Min(a + n, USIZE_MAX)
  {
  }

  /** In every state of every run the count is the saturating sum of the wakes since the
      previous take, and a take returns exactly that. */
  lemma {:induction false} TakeIsSaturatingSum(states: seq<State>, events: seq<Event>, i: nat)
    requires Run(states, events) && i < |states|
    ensures states[i].count == Min(SumSinceTake(events[..i]), USIZE_MAX)
    ensures i < |events| && events[i].Swap? ==>
              && states[i + 1].delivered - states[i].delivered == Min(SumSinceTake(events[..i]), USIZE_MAX)
              && states[i + 1].count == 0
  {
    if i > 0 {
      TakeIsSaturatingSum(states, events, i - 1);
      assert StepAt(states[i - 1], events[i - 1], states[i]);
      assert events[..i][..i - 1] == events[..i - 1];
      if events[i - 1].Add? { SaturatesOnce(SumSinceTake(events[..i - 1]), events[i - 1].n); }
    }
    if i < |events| { assert StepAt(states[i], events[i], states[i + 1]); }
  }

  /** Over every run of wakers and `next` calls: hints are conserved up to saturation,
      and none is saturated away while at most `usize::MAX` were added. Unless a losing
      drop happened, a positive count always has something behind it. */
  lemma HintsAreKept(states: seq<State>, events: seq<Event>, i: nat)
    requires Run(states, events) && i < |states|
    ensures states[i].added == states[i].delivered + states[i].count + states[i].overflow
    ensures states[i].added <= USIZE_MAX ==> states[i].added == states[i].delivered + states[i].count
    ensures NoLosingDrop(states, events, i) ==> Backed(states[i])
  {
    RunKeeps(states, events, i);
    if NoLosingDrop(states, events, i) { RunBacks(states, events, i); }
  }

  /** A backed count reaches `next`: once no waker is between its two accesses, some
      registered call can complete, some call is about to swap, or a new call goes
      straight through, and the swap then delivers the whole count. */
  lemma HintReachesNext(s: State, newcomer: nat) returns (c: nat, ready: State)
    requires Inv(s) && 0 < s.count && Backed(s) && s.adding == {}
    requires newcomer !in s.registered && newcomer !in s.notified
    ensures Inv(ready) && c in ready.notified && ready.count == s.count
    ensures ready == s || (Enabled(s, Complete(c)) && ready == After(s, Complete(c)))
            || (c == newcomer && ready == After(s, Register(c)))
    ensures Inv(ready) && Enabled(ready, Swap(c)) && After(ready, Swap(c)).delivered == s.delivered + s.count
  {
    if s.notified != {} {
      c :| c in s.notified;
      ready := s;
    } else if 0 < s.pending {
      assert s.registered != {};
      c :| c in s.registered;
      StepKeeps(s, Complete(c));
      ready := After(s, Complete(c));
    } else {
      c := newcomer;
      StepKeeps(s, Register(c));
      ready := After(s, Register(c));
    }
  }

  /** The losing drop is reachable for every hint size: a waiting call is notified, then
      cancelled before it looks. The count survives with nothing behind it, and whoever
      calls `next` then waits, although a hint is there. */
  lemma CancelledNextLosesTheWakeup(n: nat, c: nat) returns (states: seq<State>, events: seq<Event>)
    requires 0 < n <= USIZE_MAX
    ensures events == [Register(1), Add(0, n), Notify(0), Drop(1)] && Run(states, events)
    ensures Losing(states[3], 1) && !Backed(states[4]) && states[4].count == n
    ensures Enabled(states[4], Register(c)) && !Enabled(After(states[4], Register(c)), Complete(c))
  {
    events := [Register(1), Add(0, n), Notify(0), Drop(1)];
    var s1 := After(INITIAL, Register(1));
    var s2 := After(s1, Add(0, n));
    var s3 := After(s2, Notify(0));
    assert s3.adding == {} && s3.registered == {1};
    var s4 := After(s3, Drop(1));
    states := [INITIAL, s1, s2, s3, s4];
  }

  /** The hint is late, not gone: the next wake stands behind old and new hints alike. */
  lemma NextWakeBacksAll(s: State, w: nat, m: nat)
    requires Inv(s) && 0 < m && w !in s.adding
    ensures var s' := After(After(s, Add(w, m)), Notify(w));
            && Inv(s') && s'.count == Min(s.count + m, USIZE_MAX) && s'.adding == s.adding
            && (s'.permit || 0 < s'.pending)
  {
    StepKeeps(s, Add(w, m));
    StepKeeps(After(s, Add(w, m)), Notify(w));
  }
}
