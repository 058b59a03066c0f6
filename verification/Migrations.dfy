/** Concurrent migration runners over one database. A migration's row and its script
    commit together; an insert of a row that another open transaction holds waits for
    that transaction to end. */
module Migrations {
  import opened Wrappers

  type RunnerId = nat

  /** `last` and `breaking` are what the runner read at its start: the newest recorded
      migration and the newest recorded breaking one. `at` counts list entries passed. */
  datatype Pc =
    | Starting
    | Looping(last: Option<nat>, breaking: Option<nat>, at: nat)
    | InTransaction(last: Option<nat>, breaking: Option<nat>, at: nat)
    | Finished(ok: bool, last: Option<nat>, breaking: Option<nat>)
    | Failed

  /** A runner whose validated list is 1..`size`. */
  datatype Runner = Runner(size: nat, pc: Pc)

  /** The migrations table, the scripts applied in commit order, and the runners. */
  datatype State = State(recorded: set<nat>, applied: seq<nat>, runners: map<RunnerId, Runner>)

  predicate IsNewest(ids: set<nat>, newest: Option<nat>) {
    match newest
    case None => ids == {}
    case Some(id) => id in ids && forall other <- ids :: other <= id
  }

  /** `is_before_number`. */
  predicate IsBefore(last: Option<nat>, number: nat) { last.None? || number > last.value }

  /** `check_compatible_revision`. */
  predicate Compatible(size: nat, breaking: Option<nat>) { breaking.Some? ==> breaking.value <= size }

  /** No open transaction holds the row `number`. */
  ghost predicate RowFree(s: State, number: nat) {
    forall r :: r in s.runners && s.runners[r].pc.InTransaction? ==> s.runners[r].pc.at + 1 != number
  }

  function Goes(s: State, r: RunnerId, pc: Pc): State
    requires r in s.runners
  {
    s.(runners := s.runners[r := s.runners[r].(pc := pc)])
  }

  /** One step of runner `r`. */
  ghost predicate RunnerStep(s: State, s': State, r: RunnerId, breaking: set<nat>) {
    && r in s.runners
    && var size := s.runners[r].size;
    match s.runners[r].pc
    case Starting =>
      // A runner that installs the schema takes it for empty, even when another runner
      // has filled the table meanwhile.
      s' == Goes(s, r, Failed) || s' == Goes(s, r, Looping(None, None, 0))
      || exists last, worst :: IsNewest(s.recorded, last) && IsNewest(s.recorded * breaking, worst)
                            && s' == Goes(s, r, Looping(last, worst, 0))
    case Looping(last, worst, at) =>
      if at == size then s' == Goes(s, r, Finished(Compatible(size, worst), last, worst))
      else if !IsBefore(last, at + 1) then s' == Goes(s, r, Looping(last, worst, at + 1))
      else
        || s' == Goes(s, r, Failed)
        || (at + 1 in s.recorded && s' == Goes(s, r, Looping(last, worst, at + 1)))
        || (at + 1 !in s.recorded && RowFree(s, at + 1) && s' == Goes(s, r, InTransaction(last, worst, at)))
    case InTransaction(last, worst, at) =>
      var committed := s.(recorded := s.recorded + {at + 1}, applied := s.applied + [at + 1]);
      || s' == Goes(s, r, Failed)                                // script or commit failed
      || s' == Goes(committed, r, Failed)                        // committed, answer lost
      || s' == Goes(committed, r, Looping(last, worst, at + 1))
    case _ => false
  }

  /** A new runner joins. */
  ghost predicate JoinStep(s: State, s': State, r: RunnerId, size: nat) {
    r !in s.runners && s' == s.(runners := s.runners[r := Runner(size, Starting)])
  }

  ghost predicate Next(s: State, s': State, breaking: set<nat>) {
    || (exists r: RunnerId :: RunnerStep(s, s', r, breaking))
    || (exists r: RunnerId, size: nat :: JoinStep(s, s', r, size))
  }

  /** Recorded migrations are 1..k and their scripts were applied in that order. */
  ghost predicate Contiguous(s: State) {
    && (forall i :: 0 <= i < |s.applied| ==> s.applied[i] == i + 1)
    && (forall id :: id in s.recorded <==> 1 <= id <= |s.applied|)
  }

  /** What a runner relies on: everything it has passed is recorded, and an open
      transaction is for the very next migration. */
  ghost predicate RunnerOk(x: Runner, k: nat, breaking: set<nat>) {
    match x.pc
    case Looping(last, worst, at) => at <= k && at <= x.size && ReadOk(last, worst, k, breaking)
    case InTransaction(last, worst, at) => at == k && at < x.size && ReadOk(last, worst, k, breaking)
    case Finished(ok, last, worst) => x.size <= k && ReadOk(last, worst, k, breaking) && ok == Compatible(x.size, worst)
    case _ => true
  }

  ghost predicate ReadOk(last: Option<nat>, worst: Option<nat>, k: nat, breaking: set<nat>) {
    && (last.Some? ==> last.value <= k)
    && (worst.Some? ==> 1 <= worst.value <= k && worst.value in breaking)
  }

  ghost predicate Inv(s: State, breaking: set<nat>) {
    && Contiguous(s)
    && (forall r :: r in s.runners ==> RunnerOk(s.runners[r], |s.applied|, breaking))
    && (forall q, r ::
          q in s.runners && r in s.runners && s.runners[q].pc.InTransaction? && s.runners[r].pc.InTransaction?
          ==> q == r)
  }

  /** A commit extends the recorded migrations by exactly the next one. */
  lemma CommitKeeps(s: State, s': State, r: RunnerId, pc: Pc, breaking: set<nat>)
    requires Inv(s, breaking) && r in s.runners && s.runners[r].pc.InTransaction? && !pc.InTransaction?
    requires RunnerOk(s.runners[r].(pc := pc), |s.applied| + 1, breaking)
    requires var at := s.runners[r].pc.at;
             s' == Goes(s.(recorded := s.recorded + {at + 1}, applied := s.applied + [at + 1]), r, pc)
    ensures Inv(s', breaking)
  {
    var k := |s.applied|;
    assert RunnerOk(s.runners[r], k, breaking);
    forall q | q in s'.runners ensures RunnerOk(s'.runners[q], k + 1, breaking) {
      assert q != r ==> RunnerOk(s.runners[q], k, breaking) && !s.runners[q].pc.InTransaction?;
    }
  }

  lemma MoveKeeps(s: State, s': State, r: RunnerId, pc: Pc, breaking: set<nat>)
    requires Inv(s, breaking) && r in s.runners && s' == Goes(s, r, pc)
    requires RunnerOk(s.runners[r].(pc := pc), |s.applied|, breaking)
    requires pc.InTransaction? ==> RowFree(s, |s.applied| + 1)
    ensures Inv(s', breaking)
  {
    forall q | q in s'.runners ensures RunnerOk(s'.runners[q], |s.applied|, breaking) {
      assert q != r ==> RunnerOk(s.runners[q], |s.applied|, breaking);
    }
    if pc.InTransaction? {
      forall q | q in s.runners ensures !s.runners[q].pc.InTransaction? {
        assert RunnerOk(s.runners[q], |s.applied|, breaking);
      }
    }
  }

  lemma RunnerKeeps(s: State, s': State, r: RunnerId, breaking: set<nat>)
    requires Inv(s, breaking) && RunnerStep(s, s', r, breaking)
    ensures Inv(s', breaking)
  {
    assert RunnerOk(s.runners[r], |s.applied|, breaking);
    var pc := s'.runners[r].pc;
    if s.runners[r].pc.InTransaction? && s'.applied != s.applied {
      CommitKeeps(s, s', r, pc, breaking);
    } else {
      MoveKeeps(s, s', r, pc, breaking);
    }
  }

  lemma JoinKeeps(s: State, s': State, r: RunnerId, size: nat, breaking: set<nat>)
    requires Inv(s, breaking) && JoinStep(s, s', r, size)
    ensures Inv(s', breaking)
  {
    forall q | q in s'.runners ensures RunnerOk(s'.runners[q], |s.applied|, breaking) {
      assert q != r ==> RunnerOk(s.runners[q], |s.applied|, breaking);
    }
  }

  lemma NextKeeps(s: State, s': State, breaking: set<nat>)
    requires Inv(s, breaking) && Next(s, s', breaking)
    ensures Inv(s', breaking)
  {
    if r: RunnerId :| RunnerStep(s, s', r, breaking) {
      RunnerKeeps(s, s', r, breaking);
    } else {
      var r: RunnerId, size: nat :| JoinStep(s, s', r, size);
      JoinKeeps(s, s', r, size, breaking);
    }
  }

  ghost predicate Execution(states: seq<State>, breaking: set<nat>) {
    && states != [] && Contiguous(states[0]) && states[0].runners == map[]
    && forall i :: 0 <= i < |states| - 1 ==> Next(states[i], states[i + 1], breaking)
  }

  lemma {:induction false} Reachable(states: seq<State>, breaking: set<nat>, i: nat)
    requires Execution(states, breaking) && i < |states|
    ensures Inv(states[i], breaking)
  {
    if i > 0 {
      Reachable(states, breaking, i - 1);
      NextKeeps(states[i - 1], states[i], breaking);
    }
  }

  /** Over every interleaving of runners with lists of any sizes, crashes and lost
      answers included: the recorded migrations are always 1..k, every script was applied
      exactly once and in order, no two runners migrate at once, a runner that finishes
      has its whole list applied, and one that refuses the database does so because of a
      recorded breaking migration beyond its list. */
  lemma MigrationsSerial(states: seq<State>, breaking: set<nat>, i: nat)
    requires Execution(states, breaking) && i < |states|
    ensures var s := states[i];
            && s.applied == seq(|s.applied|, n requires 0 <= n => n + 1)
            && (forall id :: id in s.recorded <==> id in s.applied)
            && (forall q, r ::
                  q in s.runners && r in s.runners && s.runners[q].pc.InTransaction? && s.runners[r].pc.InTransaction?
                  ==> q == r)
            && (forall r :: r in s.runners && s.runners[r].pc.Finished? ==>
                  && (forall id :: 1 <= id <= s.runners[r].size ==> id in s.recorded)
                  && (!s.runners[r].pc.ok ==>
                        exists id :: id in s.recorded && id in breaking && s.runners[r].size < id))
  {
    Reachable(states, breaking, i);
    var s := states[i];
    forall id ensures id in s.recorded <==> id in s.applied {
      if id in s.recorded { assert s.applied[id - 1] == id; }
    }
    forall r | r in s.runners && s.runners[r].pc.Finished?
      ensures s.runners[r].size <= |s.applied|
      ensures !s.runners[r].pc.ok ==> exists id :: id in s.recorded && id in breaking && s.runners[r].size < id
    {
      assert RunnerOk(s.runners[r], |s.applied|, breaking);
      if !s.runners[r].pc.ok { assert s.runners[r].pc.breaking.value in s.recorded; }
    }
  }

  /** The revision check, over what the status query reads, refuses exactly when some
      recorded breaking migration lies beyond the runner's list. */
  lemma CompatibleExact(recorded: set<nat>, breaking: set<nat>, size: nat, worst: Option<nat>)
    requires IsNewest(recorded * breaking, worst)
    ensures Compatible(size, worst) <==> forall id :: id in recorded && id in breaking ==> id <= size
  {
    forall id ensures id in recorded && id in breaking <==> id in recorded * breaking {}
  }

  // ------------------------------------------------------------ the embedded list

  datatype Migration = Migration(number: nat, name: string)

  datatype ListError = NoMigrations | Duplicate(number: nat) | NotContiguous(expected: nat, found: nat)

  datatype Validated = Accepted(list: seq<Migration>) | Rejected(error: ListError)

  ghost predicate Sorted(list: seq<Migration>) {
    forall i, k :: 0 <= i < k < |list| ==> list[i].number <= list[k].number
  }

  ghost predicate Numbered(list: seq<Migration>, number: nat) {
    exists i :: 0 <= i < |list| && list[i].number == number
  }

  /** Two migrations have the number. */
  ghost predicate Repeated(list: seq<Migration>, number: nat) {
    exists i, k :: 0 <= i < k < |list| && list[i].number == number && list[k].number == number
  }

  /** The numbers are a permutation of 1..n: n migrations, each of 1..n present. */
  ghost predicate IsComplete(list: seq<Migration>) {
    list != [] && forall number :: 1 <= number <= |list| ==> Numbered(list, number)
  }

  function Insert(sorted: seq<Migration>, k: nat, m: Migration): seq<Migration>
    requires k <= |sorted|
  {
    sorted[..k] + [m] + sorted[k..]
  }

  lemma InsertKeeps(sorted: seq<Migration>, k: nat, m: Migration)
    requires Sorted(sorted) && k <= |sorted|
    requires forall p :: 0 <= p < k ==> sorted[p].number <= m.number
    requires forall p :: k <= p < |sorted| ==> m.number <= sorted[p].number
    ensures Sorted(Insert(sorted, k, m)) && multiset(Insert(sorted, k, m)) == multiset(sorted) + multiset{m}
  {
    assert multiset(sorted) == multiset(sorted[..k]) + multiset(sorted[k..]) by {
      assert sorted == sorted[..k] + sorted[k..];
    }
  }

  /** `sort_by_key` on the number. */
  method SortByNumber(list: seq<Migration>) returns (sorted: seq<Migration>)
    ensures Sorted(sorted) && multiset(sorted) == multiset(list)
  {
    sorted := [];
    for i := 0 to |list|
      invariant Sorted(sorted) && multiset(sorted) == multiset(list[..i])
    {
      var m, k := list[i], |sorted|;
      while 0 < k && sorted[k - 1].number > m.number
        invariant 0 <= k <= |sorted|
        invariant forall p :: k <= p < |sorted| ==> m.number <= sorted[p].number
      {
        k := k - 1;
      }
      assert forall p :: 0 <= p < k ==> sorted[p].number <= sorted[k - 1].number;
      InsertKeeps(sorted, k, m);
      assert list[..i + 1] == list[..i] + [m];
      sorted := Insert(sorted, k, m);
    }
    assert list[..|list|] == list;
  }

  lemma {:induction false} NotTooEarly(list: seq<Migration>, number: nat)
    requires Sorted(list) && IsComplete(list) && 1 <= number <= |list|
    ensures forall i :: 0 <= i < |list| && list[i].number == number ==> number - 1 <= i
  {
    if number > 1 {
      NotTooEarly(list, number - 1);
      assert Numbered(list, number - 1);
    }
  }

  lemma {:induction false} NotTooLate(list: seq<Migration>, number: nat)
    requires Sorted(list) && IsComplete(list) && 1 <= number <= |list|
    ensures forall i :: 0 <= i < |list| && list[i].number == number ==> i <= number - 1
    decreases |list| - number
  {
    if number < |list| {
      NotTooLate(list, number + 1);
      assert Numbered(list, number + 1);
    }
  }

  /** In a sorted complete list every migration stands at its own number. */
  lemma CompleteInPlace(list: seq<Migration>, i: nat)
    requires Sorted(list) && IsComplete(list) && i < |list|
    ensures list[i].number == i + 1
  {
    assert Numbered(list, i + 1);
    NotTooEarly(list, i + 1);
    NotTooLate(list, i + 1);
  }

  lemma SameNumbers(a: seq<Migration>, b: seq<Migration>)
    requires multiset(a) == multiset(b)
    ensures |a| == |b| && IsComplete(a) == IsComplete(b)
    ensures forall number :: Numbered(a, number) <==> Numbered(b, number)
  {
    assert |multiset(a)| == |multiset(b)|;
    forall number ensures Numbered(a, number) <==> Numbered(b, number) {
      if Numbered(a, number) {
        var i :| 0 <= i < |a| && a[i].number == number;
        assert a[i] in multiset(b);
      }
      if Numbered(b, number) {
        var i :| 0 <= i < |b| && b[i].number == number;
        assert b[i] in multiset(a);
      }
    }
  }

  lemma TwoOf(list: seq<Migration>, m: Migration)
    requires multiset(list)[m] >= 2
    ensures Repeated(list, m.number)
  {
    var i :| 0 <= i < |list| && list[i] == m;
    var before, after := list[..i], list[i + 1..];
    assert list == before + [m] + after;
    assert multiset(list) == multiset(before) + multiset{m} + multiset(after);
    if m in multiset(before) {
      var k :| 0 <= k < |before| && before[k] == m;
      assert list[k] == m;
    } else {
      assert m in multiset(after);
      var k :| 0 <= k < |after| && after[k] == m;
      assert list[i + 1 + k] == m;
    }
  }

  lemma TwiceMeansTwo(list: seq<Migration>, i: nat, k: nat)
    requires i < k < |list| && list[i] == list[k]
    ensures multiset(list)[list[i]] >= 2
  {
    var before, after := list[..k], list[k + 1..];
    assert list == before + [list[k]] + after;
    assert before[i] in multiset(before);
    assert multiset(list) == multiset(before) + multiset{list[k]} + multiset(after);
  }

  lemma SameRepeats(a: seq<Migration>, b: seq<Migration>, i: nat, k: nat)
    requires multiset(a) == multiset(b) && i < k < |a| && a[i].number == a[k].number
    ensures Repeated(b, a[i].number)
  {
    if a[i] == a[k] {
      TwiceMeansTwo(a, i, k);
      TwoOf(b, a[i]);
    } else {
      assert a[i] in multiset(b) && a[k] in multiset(b);
      var p :| 0 <= p < |b| && b[p] == a[i];
      var q :| 0 <= q < |b| && b[q] == a[k];
      assert p < q || q < p;
    }
  }

  /** `sort_and_validate_migrations`: accepts exactly the permutations of 1..n, n > 0, and
      returns the same migrations with number i + 1 at index i. */
  method SortAndValidate(list: seq<Migration>) returns (r: Validated)
    ensures r.Accepted? <==> IsComplete(list)
    ensures r.Accepted? ==>
              multiset(r.list) == multiset(list) && forall i :: 0 <= i < |r.list| ==> r.list[i].number == i + 1
    ensures r == Rejected(NoMigrations) <==> list == []
    ensures r.Rejected? && r.error.Duplicate? ==> Repeated(list, r.error.number)
    ensures r.Rejected? && r.error.NotContiguous? ==>
              && Numbered(list, r.error.found) && r.error.found != r.error.expected
              && (forall number :: 1 <= number < r.error.expected ==> Numbered(list, number))
              && (if r.error.expected < r.error.found then !Numbered(list, r.error.expected)
                  else r.error == NotContiguous(1, 0))
  {
    if list == [] { return Rejected(NoMigrations); }
    var sorted := SortByNumber(list);
    SameNumbers(sorted, list);
    for index := 0 to |sorted|
      invariant forall i :: 0 <= i < index ==> sorted[i].number == i + 1
    {
      ghost var number := sorted[index].number;
      assert Numbered(sorted, number);
      if IsComplete(list) { CompleteInPlace(sorted, index); }
      if index > 0 && sorted[index - 1].number == sorted[index].number {
        SameRepeats(sorted, list, index - 1, index);
        return Rejected(Duplicate(sorted[index].number));
      }
      if sorted[index].number != index + 1 {
        forall n | 1 <= n < index + 1 ensures Numbered(list, n) { assert sorted[n - 1].number == n; }
        assert index > 0 ==> sorted[index - 1].number <= sorted[index].number;
        assert forall i :: index <= i < |sorted| ==> sorted[index].number <= sorted[i].number;
        return Rejected(NotContiguous(index + 1, sorted[index].number));
      }
    }
    forall n | 1 <= n <= |sorted| ensures Numbered(sorted, n) { assert sorted[n - 1].number == n; }
    return Accepted(sorted);
  }
}
