/** The background batcher: senders, the bounded channel and the task that collects,
    flushes and, on shutdown, seals and drains. A sender whose request is handed back
    persists it directly. One step is one uninterrupted action. */
module Batcher {
  const CAPACITY: nat := 4096

  /** An outcome to be saved, and whether its job belongs to a named queue. */
  datatype Request = Request(job: int, named: bool)

  /** Where the task is: waiting for a first item, collecting until the delay ends,
      draining a sealed channel, or flushing (for the last time or not). */
  datatype Pc = Waiting | Collecting | Draining | Flushing(last: bool) | Done

  /** One direct statement of a sender and whether it was acknowledged. */
  datatype Direct = Direct(item: Request, ok: bool)

  /** `handedBack` are requests about to be saved directly, `announcing` those saved so
      whose hook is due. The other fields record the history: every request sent, how the
      channel took it, the batches handed to the processor, the direct statements, the
      wakeups and hooks of the direct path, and the requests answered or given up. */
  datatype State = State(
    buffer: seq<Request>, closed: bool, hungUp: bool, shutdown: bool, batch: seq<Request>, pc: Pc,
    handedBack: multiset<Request>, announcing: multiset<Request>,
    sent: seq<Request>, accepted: seq<Request>, rejected: seq<Request>, flushed: seq<seq<Request>>,
    direct: seq<Direct>, wakes: nat, hooks: seq<Request>, answered: seq<Request>,
    unsaved: multiset<Request>, unhooked: multiset<Request>)

  datatype Event =
    | Send(item: Request)   // an open channel with room buffers it, a closed one hands it back
    | Persist(item: Request, ok: bool)  // the direct statement of a handed-back request, and its wakeup
    | Announce(item: Request)           // the hook of a request saved directly; its sender returns
    | Abandon(item: Request, saved: bool)  // the sender's future is dropped
    | Signal                // the shutdown signal fires
    | HangUp                // the last sender is dropped
    | Receive               // the task takes the oldest item
    | TimeOut               // the batch delay ends
    | Seal                  // the task sees the shutdown and closes the channel
    | Drain                 // `try_recv` succeeds
    | Drained               // `try_recv` fails: sealed and empty
    | Orphaned              // `recv` fails: no item and no sender left
    | Flush

  predicate ByTask(e: Event) {
    !e.Send? && !e.Persist? && !e.Announce? && !e.Abandon? && !e.Signal? && !e.HangUp?
  }

  predicate Listening(pc: Pc) { pc.Waiting? || pc.Collecting? }

  predicate Enabled(s: State, e: Event) {
    match e
    case Send(_) => !s.hungUp && (s.closed || |s.buffer| < CAPACITY)
    case Persist(item, _) => item in s.handedBack
    case Announce(item) => item in s.announcing
    case Abandon(item, saved) => if saved then item in s.announcing else item in s.handedBack
    case Signal => true
    case HangUp => true
    // The shutdown branch is polled first, so the others run only without it.
    case Receive => Listening(s.pc) && !s.shutdown && s.buffer != []
    case TimeOut => s.pc.Collecting? && !s.shutdown
    case Seal => Listening(s.pc) && s.shutdown
    case Drain => s.pc.Draining? && s.buffer != []
    case Drained => s.pc.Draining? && s.buffer == []
    case Orphaned => Listening(s.pc) && !s.shutdown && s.buffer == [] && s.hungUp
    case Flush => s.pc.Flushing?
  }

  function After(s: State, e: Event): State
    requires Enabled(s, e)
  {
    match e
    case Send(item) =>
      if s.closed then
        s.(sent := s.sent + [item], rejected := s.rejected + [item], handedBack := s.handedBack + multiset{item})
      else
        s.(sent := s.sent + [item], accepted := s.accepted + [item], buffer := s.buffer + [item],
           answered := s.answered + [item])
    case Persist(item, ok) =>
      var t := s.(handedBack := s.handedBack - multiset{item}, direct := s.direct + [Direct(item, ok)]);
      if ok then t.(announcing := s.announcing + multiset{item}, wakes := s.wakes + if item.named then 1 else 0)
      else t.(answered := s.answered + [item])
    case Announce(item) =>
      s.(announcing := s.announcing - multiset{item}, hooks := s.hooks + [item], answered := s.answered + [item])
    case Abandon(item, saved) =>
      if saved then s.(announcing := s.announcing - multiset{item}, unhooked := s.unhooked + multiset{item})
      else s.(handedBack := s.handedBack - multiset{item}, unsaved := s.unsaved + multiset{item})
    case Signal => s.(shutdown := true)
    case HangUp => s.(hungUp := true)
    case Receive => s.(batch := s.batch + [s.buffer[0]], buffer := s.buffer[1..], pc := Collecting)
    case TimeOut => s.(pc := Flushing(false))
    case Seal => s.(closed := true, pc := Draining)
    case Drain => s.(batch := s.batch + [s.buffer[0]], buffer := s.buffer[1..])
    case Drained => s.(pc := Flushing(true))
    case Orphaned => s.(pc := Flushing(true))
    // The processors ignore an empty batch.
    case Flush => s.(flushed := if s.batch == [] then s.flushed else s.flushed + [s.batch],
                     batch := [], pc := if s.pc.last then Done else Waiting)
  }

  ghost predicate Fresh(s: State) {
    && s.buffer == s.batch == s.sent == s.accepted == s.rejected == s.hooks == s.answered == []
    && s.flushed == [] && s.direct == []
    && s.handedBack == s.announcing == s.unsaved == s.unhooked == multiset{} && s.wakes == 0
    && !s.closed && s.pc == Waiting
  }

  ghost predicate Run(states: seq<State>, events: seq<Event>) {
    && |states| == |events| + 1
    && forall i: nat :: i < |events| ==> StepAt(states, events, i)
  }

  function Flat(batches: seq<seq>): seq {
    if batches == [] then [] else Flat(batches[..|batches| - 1]) + batches[|batches| - 1]
  }

  /** Conservation in order: what the channel accepted is what was flushed, then what
      the task holds, then what is still buffered. */
  ghost predicate Conserved(s: State) { Flat(s.flushed) + s.batch + s.buffer == s.accepted }

  function Items(direct: seq<Direct>): seq<Request> {
    if direct == [] then [] else Items(direct[..|direct| - 1]) + [direct[|direct| - 1].item]
  }

  /** The direct statements that were acknowledged. */
  function Saved(direct: seq<Direct>): seq<Request> {
    if direct == [] then []
    else
      var last := direct[|direct| - 1];
      Saved(direct[..|direct| - 1]) + if last.ok then [last.item] else []
  }

  /** The acknowledged direct statements of named requests. */
  function NamedSaved(direct: seq<Direct>): set<nat> {
    set i: nat | i < |direct| && direct[i].ok && direct[i].item.named
  }

  function Count(s: seq<Request>, r: Request): nat { multiset(s)[r] }

  /** The books for request `r`: each time it was sent it was accepted or handed back; each
      time it was handed back it got one direct statement, unless its sender has not got to
      it or was dropped before; each time it was accepted or got its statement it was
      answered, unless its sender is announcing it or was dropped then; and the hooks are
      those of the acknowledged direct statements. */
  ghost predicate Balanced(s: State, r: Request) {
    && Count(s.sent, r) == Count(s.accepted, r) + Count(s.rejected, r)
    && Count(s.rejected, r) == s.handedBack[r] + s.unsaved[r] + Count(Items(s.direct), r)
    && Count(s.answered, r) + s.announcing[r] + s.unhooked[r] == Count(s.accepted, r) + Count(Items(s.direct), r)
    && Count(s.hooks, r) + s.announcing[r] + s.unhooked[r] == Count(Saved(s.direct), r)
  }

  ghost predicate Answered(s: State) {
    (forall r :: Balanced(s, r)) && s.wakes == |NamedSaved(s.direct)|
  }

  ghost predicate Facts(s: State) {
    && (forall i :: 0 <= i < |s.flushed| ==> s.flushed[i] != [])
    && |s.buffer| <= CAPACITY
    && (s.pc.Waiting? ==> s.batch == [])
    && (s.closed ==> s.pc.Draining? || s.pc == Flushing(true) || s.pc.Done?)
    && (s.rejected != [] ==> s.closed)
    && (s.pc.Draining? ==> s.closed)
    && (s.pc == Flushing(true) || s.pc.Done? ==> s.buffer == [] && (s.closed || s.hungUp))
    && (s.pc.Done? ==> s.batch == [])
  }

  ghost predicate Inv(s: State) { Conserved(s) && Answered(s) && Facts(s) }

  lemma MoveOne(done: seq, held: seq, rest: seq)
    requires rest != []
    ensures done + (held + [rest[0]]) + rest[1..] == done + held + rest
  {
    assert rest == [rest[0]] + rest[1..];
  }

  lemma FlatSnoc(batches: seq<seq>, batch: seq)
    ensures Flat(batches + [batch]) == Flat(batches) + batch
  {
    assert (batches + [batch])[..|batches|] == batches;
  }

  lemma SendConserves(s: State, item: Request)
    requires Conserved(s)
    ensures Flat(s.flushed) + s.batch + (s.buffer + [item]) == s.accepted + [item]
  {
    var done := Flat(s.flushed) + s.batch;
    assert done + (s.buffer + [item]) == (done + s.buffer) + [item];
  }

  lemma FlushConserves(s: State)
    requires Conserved(s)
    ensures Flat(if s.batch == [] then s.flushed else s.flushed + [s.batch]) + [] + s.buffer == s.accepted
  {
    FlatSnoc(s.flushed, s.batch);
    var done := Flat(s.flushed) + s.batch;
    assert done + [] == done;
  }

  lemma StepConserves(s: State, e: Event)
    requires Conserved(s) && Enabled(s, e)
    ensures Conserved(After(s, e))
  {
    if e.Send? {
      SendConserves(s, e.item);
    } else if e.Receive? || e.Drain? {
      MoveOne(Flat(s.flushed), s.batch, s.buffer);
    } else if e.Flush? {
      FlushConserves(s);
    }
  }

  lemma DirectSnoc(direct: seq<Direct>, d: Direct)
    ensures Items(direct + [d]) == Items(direct) + [d.item]
    ensures Saved(direct + [d]) == Saved(direct) + if d.ok then [d.item] else []
    ensures |NamedSaved(direct + [d])| == |NamedSaved(direct)| + if d.ok && d.item.named then 1 else 0
  {
    assert (direct + [d])[..|direct|] == direct;
    assert |direct| !in NamedSaved(direct);
    assert NamedSaved(direct + [d]) == NamedSaved(direct) + if d.ok && d.item.named then {|direct|} else {};
  }

  lemma CountSnoc(s: seq<Request>, x: Request, r: Request)
    ensures Count(s + [x], r) == Count(s, r) + if r == x then 1 else 0
  {
  }

  lemma SendBalances(s: State, item: Request, r: Request)
    requires Balanced(s, r) && Enabled(s, Send(item))
    ensures Balanced(After(s, Send(item)), r)
  {
    CountSnoc(s.sent, item, r);
    CountSnoc(s.accepted, item, r);
    CountSnoc(s.rejected, item, r);
    CountSnoc(s.answered, item, r);
  }

  lemma PersistBalances(s: State, item: Request, ok: bool, r: Request)
    requires Balanced(s, r) && item in s.handedBack
    ensures Balanced(After(s, Persist(item, ok)), r)
  {
    DirectSnoc(s.direct, Direct(item, ok));
    CountSnoc(Items(s.direct), item, r);
    CountSnoc(Saved(s.direct), item, r);
    CountSnoc(s.answered, item, r);
    assert Saved(s.direct) + [] == Saved(s.direct);
  }

  lemma AnnounceBalances(s: State, item: Request, r: Request)
    requires Balanced(s, r) && item in s.announcing
    ensures Balanced(After(s, Announce(item)), r)
  {
    CountSnoc(s.hooks, item, r);
    CountSnoc(s.answered, item, r);
  }

  lemma AbandonBalances(s: State, item: Request, saved: bool, r: Request)
    requires Balanced(s, r) && Enabled(s, Abandon(item, saved))
    ensures Balanced(After(s, Abandon(item, saved)), r)
  {
  }

  /** The books do not change otherwise. */
  ghost predicate SameBooks(s: State, t: State) {
    && t.sent == s.sent && t.accepted == s.accepted && t.rejected == s.rejected && t.answered == s.answered
    && t.handedBack == s.handedBack && t.unsaved == s.unsaved
    && t.announcing == s.announcing && t.unhooked == s.unhooked
    && t.direct == s.direct && t.hooks == s.hooks && t.wakes == s.wakes
  }

  lemma TaskKeepsBooks(s: State, e: Event)
    requires Enabled(s, e) && (ByTask(e) || e.Signal? || e.HangUp?)
    ensures SameBooks(s, After(s, e))
  {
  }

  lemma StepBalances(s: State, e: Event, r: Request)
    requires Balanced(s, r) && Enabled(s, e)
    ensures Balanced(After(s, e), r)
  {
    match e
    case Send(item) => SendBalances(s, item, r);
    case Persist(item, ok) => PersistBalances(s, item, ok, r);
    case Announce(item) => AnnounceBalances(s, item, r);
    case Abandon(item, saved) => AbandonBalances(s, item, saved, r);
    case _ => TaskKeepsBooks(s, e);
  }

  lemma StepAnswers(s: State, e: Event)
    requires Answered(s) && Enabled(s, e)
    ensures Answered(After(s, e))
  {
    forall r ensures Balanced(After(s, e), r) { StepBalances(s, e, r); }
    if e.Persist? { DirectSnoc(s.direct, Direct(e.item, e.ok)); }
  }

  lemma StepFacts(s: State, e: Event)
    requires Facts(s) && Enabled(s, e)
    ensures Facts(After(s, e))
  {
    if e.Flush? {
      FlushFacts(s);
    } else if !ByTask(e) && !e.Send? {
      OutsideFacts(s, e);
    }
  }

  lemma FlushFacts(s: State)
    requires Facts(s) && Enabled(s, Flush)
    ensures Facts(After(s, Flush))
  {
    var t := After(s, Flush);
    assert s.batch != [] ==> t.flushed == s.flushed + [s.batch];
  }

  lemma OutsideFacts(s: State, e: Event)
    requires Facts(s) && Enabled(s, e) && !ByTask(e) && !e.Send?
    ensures Facts(After(s, e))
  {
    var t := After(s, e);
    assert t.flushed == s.flushed && t.buffer == s.buffer && t.batch == s.batch && t.pc == s.pc && t.closed == s.closed;
  }

  lemma StepKeeps(s: State, e: Event)
    requires Inv(s) && Enabled(s, e)
    ensures Inv(After(s, e))
  {
    StepConserves(s, e);
    StepAnswers(s, e);
    StepFacts(s, e);
  }

  ghost predicate StepAt(states: seq<State>, events: seq<Event>, i: nat)
    requires i < |events| < |states|
  {
    Enabled(states[i], events[i]) && states[i + 1] == After(states[i], events[i])
  }

  lemma FreshInv(s: State)
    requires Fresh(s)
    ensures Inv(s)
  {
  }

  lemma {:induction false} RunKeeps(states: seq<State>, events: seq<Event>, i: nat)
    requires Run(states, events) && Inv(states[0]) && i < |states|
    ensures Inv(states[i])
  {
    if i > 0 {
      RunKeeps(states, events, i - 1);
      assert StepAt(states, events, i - 1);
      StepKeeps(states[i - 1], events[i - 1]);
    }
  }

  /** Exactly once, in every run: each request is accepted or handed back, never both;
      accepted ones are flushed in order, without loss or repetition, in non-empty batches;
      a handed-back one gets one direct statement and is answered after it; when the task has
      ended nothing accepted is missing; and the direct path woke exactly for the
      acknowledged named requests. */
  lemma AcceptedExactlyOnce(states: seq<State>, events: seq<Event>, i: nat)
    requires Run(states, events) && Fresh(states[0]) && i < |states|
    ensures var s := states[i];
            && Flat(s.flushed) + s.batch + s.buffer == s.accepted
            && (forall b :: 0 <= b < |s.flushed| ==> s.flushed[b] != [])
            && (forall r :: Balanced(s, r))
            && (s.rejected != [] ==> s.closed)
            && s.wakes == |NamedSaved(s.direct)|
            && (s.pc.Done? ==> Flat(s.flushed) == s.accepted)
  {
    FreshInv(states[0]);
    RunKeeps(states, events, i);
    var s := states[i];
    assert s.pc.Done? ==> Flat(s.flushed) + [] + [] == s.accepted;
  }

  /** A request that was sent once and answered is, once the task has ended, in exactly one
      flushed batch or in exactly one direct statement. */
  lemma AnsweredOnce(states: seq<State>, events: seq<Event>, i: nat, r: Request)
    requires Run(states, events) && Fresh(states[0]) && i < |states| && states[i].pc.Done?
    requires Count(states[i].sent, r) == 1 && r in states[i].answered
    ensures Count(Flat(states[i].flushed), r) + Count(Items(states[i].direct), r) == 1
  {
    AcceptedExactlyOnce(states, events, i);
    assert Balanced(states[i], r);
    assert Count(states[i].answered, r) >= 1;
  }

  lemma EndStep(s: State, e: Event)
    requires Facts(s) && s.pc.Done? && Enabled(s, e)
    ensures After(s, e).pc.Done? && After(s, e).accepted == s.accepted && After(s, e).flushed == s.flushed
  {
  }

  /** An ended task stays ended and nothing enters its dropped channel: every later
      request is handed back to its caller, who persists it directly. */
  lemma {:induction false} NothingAfterTheEnd(states: seq<State>, events: seq<Event>, i: nat, k: nat)
    requires Run(states, events) && Fresh(states[0]) && i <= k < |states| && states[i].pc.Done?
    ensures states[k].pc.Done? && states[k].accepted == states[i].accepted && states[k].flushed == states[i].flushed
  {
    if i < k {
      NothingAfterTheEnd(states, events, i, k - 1);
      FreshInv(states[0]);
      RunKeeps(states, events, k - 1);
      assert StepAt(states, events, k - 1);
      EndStep(states[k - 1], events[k - 1]);
    }
  }

  // -------------------------------------------------------------------- shutdown

  /** A bound on the task's remaining steps once the signal has fired. */
  function Remaining(s: State): nat {
    match s.pc
    case Flushing(last) => if last then 1 else CAPACITY + 4
    case Draining => |s.buffer| + 2
    case Done => 0
    case _ => CAPACITY + 3
  }

  function TaskSteps(events: seq<Event>): nat {
    if events == [] then 0
    else TaskSteps(events[..|events| - 1]) + if ByTask(events[|events| - 1]) then 1 else 0
  }

  lemma ShutdownStep(s: State, e: Event)
    requires Facts(s) && s.shutdown && Enabled(s, e)
    ensures After(s, e).shutdown
    ensures Remaining(After(s, e)) + (if ByTask(e) then 1 else 0) <= Remaining(s)
  {
    if ByTask(e) { TaskRuns(s, e); } else { OthersDoNotDelay(s, e); }
  }

  lemma TaskRuns(s: State, e: Event)
    requires Facts(s) && s.shutdown && Enabled(s, e) && ByTask(e)
    ensures After(s, e).shutdown && Remaining(After(s, e)) < Remaining(s)
  {
  }

  lemma OthersDoNotDelay(s: State, e: Event)
    requires Facts(s) && s.shutdown && Enabled(s, e) && !ByTask(e)
    ensures After(s, e).shutdown && Remaining(After(s, e)) <= Remaining(s)
  {
    if e.Send? {
      assert After(s, e).pc == s.pc && (s.closed ==> After(s, e).buffer == s.buffer);
    } else {
      SendersLeaveTask(s, e);
    }
  }

  lemma SendersLeaveTask(s: State, e: Event)
    requires Enabled(s, e) && !ByTask(e) && !e.Send?
    ensures After(s, e).pc == s.pc && After(s, e).buffer == s.buffer && (s.shutdown ==> After(s, e).shutdown)
  {
  }

  /** A live task can always move once the signal has fired, whatever the senders do. */
  lemma ShutdownNeverStuck(s: State) returns (e: Event)
    requires s.shutdown && !s.pc.Done?
    ensures ByTask(e) && Enabled(s, e)
  {
    e := match s.pc
      case Draining => if s.buffer == [] then Drained else Drain
      case Flushing(_) => Flush
      case _ => Seal;
  }

  /** Shutdown drains: senders cannot keep the task alive, for after the signal it takes
      at most 4100 more steps, and once it has taken its bound it has ended with every
      accepted request flushed. */
  lemma ShutdownDrains(states: seq<State>, events: seq<Event>, n: nat)
    requires Run(states, events) && Inv(states[0]) && states[0].shutdown && n <= |events|
    ensures TaskSteps(events[..n]) + Remaining(states[n]) <= Remaining(states[0]) <= 4100
    ensures TaskSteps(events[..n]) == Remaining(states[0]) ==>
              states[n].pc.Done? && Flat(states[n].flushed) == states[n].accepted
  {
    StepsAreBounded(states, events, n);
    RemainingBounded(states[0]);
    RunKeeps(states, events, n);
    var end := states[n];
    assert end.pc.Done? ==> Flat(end.flushed) + [] + [] == end.accepted;
  }

  lemma ShutdownAt(states: seq<State>, events: seq<Event>, k: nat)
    requires Run(states, events) && Inv(states[0]) && k < |events| && states[k].shutdown
    ensures states[k + 1].shutdown
    ensures Remaining(states[k + 1]) + (if ByTask(events[k]) then 1 else 0) <= Remaining(states[k])
  {
    RunKeeps(states, events, k);
    assert StepAt(states, events, k);
    ShutdownStep(states[k], events[k]);
  }

  lemma {:induction false} StepsAreBounded(states: seq<State>, events: seq<Event>, n: nat)
    requires Run(states, events) && Inv(states[0]) && states[0].shutdown && n <= |events|
    ensures states[n].shutdown && TaskSteps(events[..n]) + Remaining(states[n]) <= Remaining(states[0])
  {
    if n > 0 {
      StepsAreBounded(states, events, n - 1);
      ShutdownAt(states, events, n - 1);
      assert events[..n][..n - 1] == events[..n - 1];
    }
  }

  lemma RemainingBounded(s: State)
    requires Facts(s)
    ensures Remaining(s) <= 4100
  {
  }
}
