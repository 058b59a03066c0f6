/** One cron runner: registration, backfill and the live loop, failing and restarting at
    arbitrary points. */
module CronRunner {
  import opened Wrappers
  import opened Cron

  /** A crontab item; `fill` is its backfill period in seconds, if it has one. */
  datatype Item = Item(id: string, fill: Option<nat>)

  predicate UniqueIds(items: seq<Item>) { forall a, b :: 0 <= a < b < |items| ==> items[a].id != items[b].id }

  /** The identifiers of the items that satisfy `p`, in order. */
  function Select(items: seq<Item>, p: Item -> bool): seq<string> {
    if items == [] then [] else (if p(items[0]) then [items[0].id] else []) + Select(items[1..], p)
  }

  ghost predicate Selected(items: seq<Item>, p: Item -> bool, id: string) {
    exists k :: 0 <= k < |items| && items[k].id == id && p(items[k])
  }

  lemma {:induction false} SelectExact(items: seq<Item>, p: Item -> bool)
    ensures forall id :: id in Select(items, p) <==> Selected(items, p, id)
    ensures UniqueIds(items) ==> Distinct(Select(items, p))
  {
    if items != [] {
      var rest := items[1..];
      SelectExact(rest, p);
      forall id ensures Selected(items, p, id) <==> (items[0].id == id && p(items[0])) || Selected(rest, p, id) {
        if k :| 0 <= k < |rest| && rest[k].id == id && p(rest[k]) { assert items[k + 1] == rest[k]; }
        if k :| 0 < k < |items| && items[k].id == id && p(items[k]) { assert rest[k - 1] == items[k]; }
      }
      if UniqueIds(items) { assert !Selected(rest, p, items[0].id); }
    }
  }

  // -------------------------------------------------------------- backfill window

  /** `get_backfill_and_unknown_items`: for items already known, the instant before which
      nothing is backfilled. */
  function NotBefore(known: map<string, Known>): map<string, Instant> {
    map id | id in known :: if known[id].last.Some? then known[id].last.value else known[id].since
  }

  /** Whole seconds since `ts`, as `num_seconds` counts them for an earlier `ts`. */
  function SecondsAgo(start: Instant, ts: Instant): int { (start - ts) / SECOND }

  predicate Backfills(item: Item, nb: map<string, Instant>, due: (string, Instant) -> bool, start: Instant,
                      ts: Instant)
  {
    && item.id in nb && item.fill.Some? && SecondsAgo(start, ts) <= item.fill.value
    && nb[item.id] <= ts && due(item.id, ts)
  }

  function ToBackfill(items: seq<Item>, nb: map<string, Instant>, due: (string, Instant) -> bool, start: Instant,
                      ts: Instant): seq<string>
  {
    Select(items, (item: Item) => Backfills(item, nb, due, start, ts))
  }

  function LargestFill(items: seq<Item>, nb: map<string, Instant>): Option<nat> {
    if items == [] then None
    else
      var rest := LargestFill(items[1..], nb);
      if items[0].id in nb && items[0].fill.Some? && (rest.None? || rest.value < items[0].fill.value)
      then items[0].fill else rest
  }

  /** An item is in the backfill window of minute `m`. */
  ghost predicate InWindow(item: Item, nb: map<string, Instant>, largest: nat, start: Instant, m: Instant) {
    && item.id in nb && item.fill.Some? && Whole(m)
    && start - largest * SECOND < m < start
    && start - m < (item.fill.value + 1) * SECOND
    && nb[item.id] <= m
  }

  lemma ToBackfillExact(items: seq<Item>, nb: map<string, Instant>, due: (string, Instant) -> bool, start: Instant,
                        ts: Instant)
    ensures forall id :: id in ToBackfill(items, nb, due, start, ts) <==>
              exists k :: 0 <= k < |items| && items[k].id == id && Backfills(items[k], nb, due, start, ts)
    ensures UniqueIds(items) ==> Distinct(ToBackfill(items, nb, due, start, ts))
  {
    SelectExact(items, (item: Item) => Backfills(item, nb, due, start, ts));
  }

  lemma {:induction false} LargestFillExact(items: seq<Item>, nb: map<string, Instant>)
    ensures var l := LargestFill(items, nb);
            && (forall k :: 0 <= k < |items| && items[k].id in nb && items[k].fill.Some? ==>
                  l.Some? && items[k].fill.value <= l.value)
            && (l.Some? ==> exists k :: 0 <= k < |items| && items[k].id in nb && items[k].fill == l)
  {
    if items != [] {
      LargestFillExact(items[1..], nb);
      var rest := LargestFill(items[1..], nb);
      forall k | 0 < k < |items| ensures items[k] == items[1..][k - 1] {}
      if rest.Some? {
        var k :| 0 <= k < |items[1..]| && items[1..][k].id in nb && items[1..][k].fill == rest;
        assert items[k + 1].id in nb && items[k + 1].fill == rest;
      }
    }
  }

  /** Identifiers submitted at `m` by a list of ticks. */
  ghost predicate Submits(plan: seq<(Instant, seq<string>)>, id: string, m: Instant) {
    exists k :: 0 <= k < |plan| && plan[k].0 == m && id in plan[k].1
  }

  /** Some item with this identifier has `m` in its window and is due then. */
  ghost predicate Wanted(items: seq<Item>, nb: map<string, Instant>, due: (string, Instant) -> bool, start: Instant,
                         id: string, m: Instant)
  {
    var largest := LargestFill(items, nb);
    && largest.Some? && due(id, m)
    && exists k :: 0 <= k < |items| && items[k].id == id && InWindow(items[k], nb, largest.value, start, m)
  }

  /** At a minute the loop visits, the filter picks exactly the wanted identifiers. */
  lemma TickExact(items: seq<Item>, nb: map<string, Instant>, due: (string, Instant) -> bool, start: Instant,
                  ts: Instant, id: string)
    requires LargestFill(items, nb).Some? && Whole(ts) && start - LargestFill(items, nb).value * SECOND < ts < start
    ensures id in ToBackfill(items, nb, due, start, ts) <==> Wanted(items, nb, due, start, id, ts)
  {
    ToBackfillExact(items, nb, due, start, ts);
    forall k | 0 <= k < |items| && items[k].id == id
      ensures Backfills(items[k], nb, due, start, ts) <==>
                due(id, ts) && InWindow(items[k], nb, LargestFill(items, nb).value, start, ts)
    {
      if items[k].fill.Some? { SecondsBound(start - ts, items[k].fill.value); }
    }
  }

  lemma SecondsBound(span: int, fill: nat)
    ensures span / SECOND <= fill <==> span < (fill + 1) * SECOND
  {
  }

  lemma SubmitsOneMore(plan: seq<(Instant, seq<string>)>, ts: Instant, ids: seq<string>, id: string, m: Instant)
    ensures Submits(plan + [(ts, ids)], id, m) <==> Submits(plan, id, m) || (m == ts && id in ids)
  {
    var more := plan + [(ts, ids)];
    assert more[|plan|] == (ts, ids);
    if Submits(plan, id, m) {
      var k :| 0 <= k < |plan| && plan[k].0 == m && id in plan[k].1;
      assert more[k] == plan[k];
    }
  }

  /** The backfill loop of `register_and_backfill_items`, as the ticks it submits when
      every statement succeeds. It submits exactly the wanted identifiers, in
      ascending order of minutes. */
  method BackfillPlan(items: seq<Item>, nb: map<string, Instant>, due: (string, Instant) -> bool, start: Instant)
    returns (plan: seq<(Instant, seq<string>)>)
    ensures forall id, m :: Submits(plan, id, m) <==> Wanted(items, nb, due, start, id, m)
    ensures forall a, b :: 0 <= a < b < |plan| ==> plan[a].0 < plan[b].0
  {
    plan := [];
    var largest := LargestFill(items, nb);
    if largest.Some? {
      var first := RoundMinute(start - largest.value * SECOND, true);
      RoundUpIsNext(start - largest.value * SECOND);
      var ts := first;
      while ts < start
        invariant Whole(ts) && first <= ts
        invariant forall k :: 0 <= k < |plan| ==> plan[k].0 < ts
        invariant forall a, b :: 0 <= a < b < |plan| ==> plan[a].0 < plan[b].0
        invariant forall id, m :: Submits(plan, id, m) <==> m < ts && Wanted(items, nb, due, start, id, m)
      {
        var now := ToBackfill(items, nb, due, start, ts);
        ghost var before := plan;
        if now != [] { plan := plan + [(ts, now)]; }
        forall id, m ensures Submits(plan, id, m) <==> m < ts + MINUTE && Wanted(items, nb, due, start, id, m) {
          if now != [] { SubmitsOneMore(before, ts, now, id, m); }
          TickExact(items, nb, due, start, ts, id);
          if Wanted(items, nb, due, start, id, m) { WholeSteps(ts, m); }
        }
        ts := ts + MINUTE;
      }
    }
  }

  /** The window as an item's owner reads it: everything due within the fill period is
      submitted; nothing before `not_before` or older than the fill, to the second, is. */
  lemma WindowAsDocumented(items: seq<Item>, k: nat, nb: map<string, Instant>, start: Instant, m: Instant)
    requires k < |items| && items[k].id in nb && items[k].fill.Some? && Whole(m)
    ensures LargestFill(items, nb).Some?
    ensures start - items[k].fill.value * SECOND < m < start && nb[items[k].id] <= m ==>
              InWindow(items[k], nb, LargestFill(items, nb).value, start, m)
    ensures m < nb[items[k].id] || (items[k].fill.value + 1) * SECOND <= start - m || start <= m ==>
              !InWindow(items[k], nb, LargestFill(items, nb).value, start, m)
  {
    LargestFillExact(items, nb);
  }

  /** The live loop starts at the first whole minute after `start` and goes minute by
      minute, so a whole minute is before `start`, or live, or it is `start` itself,
      which neither covers. */
  lemma MinutesPartition(start: Instant, m: Instant)
    requires Whole(m)
    ensures m < start || RoundMinute(start, true) <= m || (m == start && Whole(start))
    ensures !(m < start && RoundMinute(start, true) <= m)
    ensures m == start ==> !(m < start) && !(RoundMinute(start, true) <= m)
  {
    RoundUpIsNext(start);
  }

  // ------------------------------------------------------------------- the runner

  datatype Config = Config(items: seq<Item>, due: (string, Instant) -> bool)

  datatype Phase =
    | Down
    | Backfilling(start: Instant, nb: map<string, Instant>, ts: Instant)
    | Live(ts: Instant)

  datatype Runner = Runner(db: CronDb, phase: Phase)

  /** How a statement ends: committed and answered, rolled back, or committed unanswered. */
  datatype Answer = Acked | RolledBack | Lost

  datatype RunnerStep =
    | Begin(start: Instant, answer: Answer)
    | BackfillTick(answer: Answer)
    | BackfillEnd
    | LiveTick(answer: Answer)
    | Fail

  function Unknown(items: seq<Item>, known: map<string, Known>): seq<string> {
    Select(items, (item: Item) => item.id !in known)
  }

  /** `collect_jobs_to_schedule`. */
  function DueNow(items: seq<Item>, due: (string, Instant) -> bool, ts: Instant): seq<string> {
    Select(items, (item: Item) => due(item.id, ts))
  }

  /** After registration: backfill if a known item has a fill period, else go live. */
  function Registered(items: seq<Item>, nb: map<string, Instant>, start: Instant): Phase {
    var largest := LargestFill(items, nb);
    if largest.None? then Live(RoundMinute(start, true))
    else Backfilling(start, nb, RoundMinute(start - largest.value * SECOND, true))
  }

  /** One tick's statement: only an acknowledged one lets the runner go on. */
  ghost predicate TickStep(s: Runner, ids: seq<string>, ts: Instant, next: Phase, answer: Answer, s': Runner) {
    if ids == [] then s' == Runner(s.db, next)
    else match Schedule(s.db, ids, ts)
         case None => s' == Runner(s.db, Down)
         case Some(db') =>
           match answer
           case Acked => s' == Runner(db', next)
           case RolledBack => s' == Runner(s.db, Down)
           case Lost => s' == Runner(db', Down)
  }

  /** `run_until_error` up to the backfill loop: read the known items, insert the others. */
  ghost predicate BeginStep(c: Config, s: Runner, start: Instant, answer: Answer, s': Runner) {
    var unknown := Unknown(c.items, s.db.known);
    var db' := InsertUnknown(s.db, unknown, start);
    var registered := Registered(c.items, NotBefore(s.db.known), start);
    if unknown == [] then s' == Runner(s.db, registered)
    else match answer
         case Acked => s' == Runner(db', registered)
         case RolledBack => s' == s
         case Lost => s' == Runner(db', Down)
  }

  ghost predicate RunnerNext(c: Config, s: Runner, step: RunnerStep, s': Runner) {
    match step
    case Begin(start, answer) => s.phase == Down && BeginStep(c, s, start, answer, s')
    case BackfillTick(answer) =>
      && s.phase.Backfilling? && s.phase.ts < s.phase.start
      && TickStep(s, ToBackfill(c.items, s.phase.nb, c.due, s.phase.start, s.phase.ts), s.phase.ts,
                  s.phase.(ts := s.phase.ts + MINUTE), answer, s')
    case BackfillEnd =>
      s.phase.Backfilling? && s.phase.start <= s.phase.ts && s' == Runner(s.db, Live(RoundMinute(s.phase.start, true)))
    case LiveTick(answer) =>
      && s.phase.Live?
      && TickStep(s, DueNow(c.items, c.due, s.phase.ts), s.phase.ts, Live(s.phase.ts + MINUTE), answer, s')
    case Fail => s' == Runner(s.db, Down)
  }

  /** A due minute of a registered item that has not been added. */
  ghost predicate Owes(c: Config, db: CronDb, k: nat, m: Instant) {
    && k < |c.items|
    && var id := c.items[k].id;
    id in db.known && db.known[id].since <= m && Whole(m) && c.due(id, m) && (id, m) !in db.added
  }

  /** The backfill of a start at `start` reaches item `k` at minute `m`. */
  ghost predicate CatchesUp(c: Config, db: CronDb, start: Instant, k: nat, m: Instant) {
    var nb := NotBefore(db.known);
    var largest := LargestFill(c.items, nb);
    k < |c.items| && largest.Some? && InWindow(c.items[k], nb, largest.value, start, m)
  }

  /** The starts that miss nothing: no item is due at the very instant of the start, and
      whatever is still owed from before lies within its item's backfill window. */
  ghost predicate TimelyStart(c: Config, db: CronDb, start: Instant) {
    && (forall k: nat :: k < |c.items| && Whole(start) && c.due(c.items[k].id, start) ==>
          (c.items[k].id, start) in db.added)
    && (forall k: nat, m :: Owes(c, db, k, m) && m < start ==> CatchesUp(c, db, start, k, m))
  }

  /** Nothing at or before an item's last execution is owed. */
  ghost predicate Covered(c: Config, db: CronDb) {
    forall k: nat, m :: Owes(c, db, k, m) ==>
      db.known[c.items[k].id].last.Some? ==> db.known[c.items[k].id].last.value < m
  }

  ghost predicate NothingOwedBefore(c: Config, db: CronDb, ts: Instant) {
    forall k: nat, m :: Owes(c, db, k, m) ==> ts <= m
  }

  ghost predicate AllRegistered(c: Config, db: CronDb) {
    forall k :: 0 <= k < |c.items| ==> c.items[k].id in db.known
  }

  ghost predicate OnlyDue(c: Config, db: CronDb) {
    forall k: nat, m :: k < |c.items| && (c.items[k].id, m) in db.added ==> Whole(m) && c.due(c.items[k].id, m)
  }

  /** Tables as a runner of this crontab leaves them; empty tables are. */
  ghost predicate Sound(c: Config, db: CronDb) { LogInv(db) && Covered(c, db) && OnlyDue(c, db) }

  ghost predicate RunnerInv(c: Config, s: Runner) {
    && UniqueIds(c.items) && Sound(c, s.db)
    && (match s.phase
        case Down => true
        case Live(ts) => Whole(ts) && AllRegistered(c, s.db) && NothingOwedBefore(c, s.db, ts)
        case Backfilling(start, nb, ts) => BackfillInv(c, s.db, start, nb, ts))
  }

  /** During the backfill of a timely start all that is owed from before the start is still
      to come, and nothing is owed at the start. */
  ghost predicate BackfillInv(c: Config, db: CronDb, start: Instant, nb: map<string, Instant>, ts: Instant) {
    && Whole(ts) && ts <= RoundMinute(start, true)
    && (forall k: nat :: !Owes(c, db, k, start))
    && AllRegistered(c, db) && NothingOwedBefore(c, db, ts)
    && forall k: nat, m :: Owes(c, db, k, m) && m < start ==> Backfills(c.items[k], nb, c.due, start, m)
  }

  // ---------------------------------------------------------------- the invariant

  /** Committing a tick pays what it submits and owes nothing new. */
  lemma TickPays(c: Config, db: CronDb, ids: seq<string>, ts: Instant, db': CronDb)
    requires Sound(c, db) && NothingOwedBefore(c, db, ts) && Whole(ts)
    requires Schedule(db, ids, ts) == Some(db')
    requires forall k :: 0 <= k < |c.items| ==> c.items[k].id in db.known
    requires forall id :: id in ids ==> c.due(id, ts)
    ensures Sound(c, db') && AllRegistered(c, db')
    ensures forall k: nat, m :: Owes(c, db', k, m) ==> Owes(c, db, k, m) && !(m == ts && c.items[k].id in ids)
  {
    ScheduleKeeps(db, ids, ts);
    ScheduleExact(db, ids, ts);
    forall k: nat, m | Owes(c, db', k, m) ensures Owes(c, db, k, m) && !(m == ts && c.items[k].id in ids) {
      assert (c.items[k].id, m) !in db.added;
      assert Owes(c, db, k, m);
    }
  }

  /** Every due minute at `ts` was submitted, so nothing before the next one is owed. */
  lemma TickAdvances(c: Config, db: CronDb, ids: seq<string>, ts: Instant, db': CronDb)
    requires NothingOwedBefore(c, db, ts) && Whole(ts)
    requires forall k: nat, m :: Owes(c, db', k, m) ==> Owes(c, db, k, m) && !(m == ts && c.items[k].id in ids)
    requires forall k: nat :: Owes(c, db, k, ts) ==> c.items[k].id in ids
    ensures NothingOwedBefore(c, db', ts + MINUTE)
  {
    forall k: nat, m | Owes(c, db', k, m) ensures ts + MINUTE <= m {
      WholeSteps(ts, m);
      assert m != ts;
    }
  }

  /** A tick that submits all that is owed at its minute, whatever its answer. */
  lemma TickKeeps(c: Config, s: Runner, ids: seq<string>, ts: Instant, next: Phase, answer: Answer, s': Runner)
    requires Sound(c, s.db) && AllRegistered(c, s.db) && NothingOwedBefore(c, s.db, ts) && Whole(ts)
    requires TickStep(s, ids, ts, next, answer, s') && next != Down
    requires forall id :: id in ids ==> c.due(id, ts)
    requires forall k: nat :: Owes(c, s.db, k, ts) ==> c.items[k].id in ids
    ensures Sound(c, s'.db) && AllRegistered(c, s'.db) && (s'.phase == next || s'.phase == Down)
    ensures forall k: nat, m :: Owes(c, s'.db, k, m) ==> Owes(c, s.db, k, m)
    ensures s'.phase == next ==> NothingOwedBefore(c, s'.db, ts + MINUTE)
  {
    if ids == [] {
      TickAdvances(c, s.db, ids, ts, s.db);
    } else if Schedule(s.db, ids, ts).Some? {
      var db' := Schedule(s.db, ids, ts).value;
      TickPays(c, s.db, ids, ts, db');
      TickAdvances(c, s.db, ids, ts, db');
    }
  }

  lemma BackfillMovesOn(c: Config, db: CronDb, start: Instant, nb: map<string, Instant>, ts: Instant, db': CronDb)
    requires BackfillInv(c, db, start, nb, ts) && ts < start
    requires AllRegistered(c, db') && NothingOwedBefore(c, db', ts + MINUTE)
    requires forall k: nat, m :: Owes(c, db', k, m) ==> Owes(c, db, k, m)
    ensures BackfillInv(c, db', start, nb, ts + MINUTE)
  {
    RoundUpIsNext(start);
    WholeSteps(ts, RoundMinute(start, true));
  }

  lemma BackfillSubmitsOwed(c: Config, db: CronDb, start: Instant, nb: map<string, Instant>, ts: Instant)
    requires BackfillInv(c, db, start, nb, ts) && ts < start
    ensures var ids := ToBackfill(c.items, nb, c.due, start, ts);
            && (forall id :: id in ids ==> c.due(id, ts))
            && (forall k: nat :: Owes(c, db, k, ts) ==> c.items[k].id in ids)
  {
    ToBackfillExact(c.items, nb, c.due, start, ts);
    var ids := ToBackfill(c.items, nb, c.due, start, ts);
    forall k: nat | Owes(c, db, k, ts) ensures c.items[k].id in ids {
      assert Backfills(c.items[k], nb, c.due, start, ts);
    }
  }

  lemma BackfillTickKeeps(c: Config, s: Runner, answer: Answer, s': Runner)
    requires RunnerInv(c, s) && RunnerNext(c, s, BackfillTick(answer), s')
    ensures RunnerInv(c, s')
  {
    var Backfilling(start, nb, ts) := s.phase;
    var ids := ToBackfill(c.items, nb, c.due, start, ts);
    BackfillSubmitsOwed(c, s.db, start, nb, ts);
    TickKeeps(c, s, ids, ts, s.phase.(ts := ts + MINUTE), answer, s');
    if s'.phase != Down { BackfillMovesOn(c, s.db, start, nb, ts, s'.db); }
  }

  lemma LiveTickKeeps(c: Config, s: Runner, answer: Answer, s': Runner)
    requires RunnerInv(c, s) && RunnerNext(c, s, LiveTick(answer), s')
    ensures RunnerInv(c, s')
  {
    var ts := s.phase.ts;
    var ids := DueNow(c.items, c.due, ts);
    SelectExact(c.items, (item: Item) => c.due(item.id, ts));
    forall k: nat | Owes(c, s.db, k, ts) ensures c.items[k].id in ids {}
    TickKeeps(c, s, ids, ts, Live(ts + MINUTE), answer, s');
    WholeSteps(ts, ts);
  }

  /** Registering items at `start` owes nothing before `start`. */
  lemma InsertKeeps(c: Config, db: CronDb, start: Instant)
    requires Sound(c, db)
    ensures var db' := InsertUnknown(db, Unknown(c.items, db.known), start);
            && Sound(c, db') && AllRegistered(c, db')
            && forall k: nat, m :: Owes(c, db', k, m) ==> start <= m || Owes(c, db, k, m)
  {
    SelectExact(c.items, (item: Item) => item.id !in db.known);
    var db' := InsertUnknown(db, Unknown(c.items, db.known), start);
    forall k: nat, m | Owes(c, db', k, m) ensures start <= m || Owes(c, db, k, m) {}
    forall k: nat, m | Owes(c, db', k, m) && db'.known[c.items[k].id].last.Some?
      ensures db'.known[c.items[k].id].last.value < m
    {
      assert Owes(c, db, k, m);
    }
  }

  /** A timely start catches up with everything owed. */
  lemma BeginCatchesUp(c: Config, db: CronDb, start: Instant, db': CronDb)
    requires UniqueIds(c.items) && TimelyStart(c, db, start) && Covered(c, db)
    requires Sound(c, db') && AllRegistered(c, db')
    requires forall k: nat, m :: Owes(c, db', k, m) ==> start <= m || Owes(c, db, k, m)
    requires db'.added == db.added
    ensures RunnerInv(c, Runner(db', Registered(c.items, NotBefore(db.known), start)))
  {
    var nb := NotBefore(db.known);
    var largest := LargestFill(c.items, nb);
    LargestFillExact(c.items, nb);
    RoundUpIsNext(start);
    if largest.Some? { RoundUpIsNext(start - largest.value * SECOND); }
    forall k: nat, m | Owes(c, db', k, m) && m < start
      ensures largest.Some? && Backfills(c.items[k], nb, c.due, start, m) && start - largest.value * SECOND < m
    {
      assert Owes(c, db, k, m);
      assert CatchesUp(c, db, start, k, m);
      SecondsBound(start - m, c.items[k].fill.value);
    }
    forall k: nat, m | Owes(c, db', k, m) && start <= m ensures RoundMinute(start, true) <= m {
      assert m != start;
      MinutesPartition(start, m);
    }
  }

  lemma BeginKeeps(c: Config, s: Runner, start: Instant, answer: Answer, s': Runner)
    requires RunnerInv(c, s) && s.phase == Down && BeginStep(c, s, start, answer, s') && TimelyStart(c, s.db, start)
    ensures RunnerInv(c, s')
  {
    InsertKeeps(c, s.db, start);
    if Unknown(c.items, s.db.known) == [] {
      SelectExact(c.items, (item: Item) => item.id !in s.db.known);
      BeginCatchesUp(c, s.db, start, s.db);
    } else if answer == Acked {
      BeginCatchesUp(c, s.db, start, s'.db);
    }
  }

  lemma BackfillEndKeeps(c: Config, s: Runner, s': Runner)
    requires RunnerInv(c, s) && RunnerNext(c, s, BackfillEnd, s')
    ensures RunnerInv(c, s')
  {
    var start := s.phase.start;
    RoundUpIsNext(start);
    forall k: nat, m | Owes(c, s.db, k, m) ensures RoundMinute(start, true) <= m {
      assert m != start;
      MinutesPartition(start, m);
    }
  }

  ghost predicate RunnerRun(c: Config, states: seq<Runner>, steps: seq<RunnerStep>) {
    && |states| == |steps| + 1 && UniqueIds(c.items)
    && (forall i :: 0 <= i < |steps| ==> RunnerNext(c, states[i], steps[i], states[i + 1]))
  }

  /** Starts are timely throughout the run. */
  ghost predicate TimelyRun(c: Config, states: seq<Runner>, steps: seq<RunnerStep>) {
    && RunnerRun(c, states, steps)
    && Sound(c, states[0].db) && states[0].phase == Down
    && (forall i :: 0 <= i < |steps| && steps[i].Begin? ==> TimelyStart(c, states[i].db, steps[i].start))
  }

  lemma {:induction false} RunnerReachable(c: Config, states: seq<Runner>, steps: seq<RunnerStep>, i: nat)
    requires TimelyRun(c, states, steps) && i < |states|
    ensures RunnerInv(c, states[i])
  {
    if i > 0 {
      RunnerReachable(c, states, steps, i - 1);
      var s, s' := states[i - 1], states[i];
      match steps[i - 1]
      case Begin(start, answer) => BeginKeeps(c, s, start, answer, s');
      case BackfillTick(answer) => BackfillTickKeeps(c, s, answer, s');
      case BackfillEnd => BackfillEndKeeps(c, s, s');
      case LiveTick(answer) => LiveTickKeeps(c, s, answer, s');
      case Fail =>
    }
  }

  /** Exactly once: over a run that fails and restarts at arbitrary points, whenever the
      runner is live at `ts`, every item has been added at exactly its due minutes from
      its registration up to `ts`, each once and in ascending order. */
  lemma ExactlyOnce(c: Config, states: seq<Runner>, steps: seq<RunnerStep>, i: nat, k: nat)
    requires TimelyRun(c, states, steps) && i < |states| && states[i].phase.Live? && k < |c.items|
    ensures var db, ts, id := states[i].db, states[i].phase.ts, c.items[k].id;
            && id in db.known
            && (forall m :: db.known[id].since <= m < ts ==> ((id, m) in db.added <==> Whole(m) && c.due(id, m)))
            && (forall a, b :: 0 <= a < b < |db.added| && db.added[a].0 == id && db.added[b].0 == id ==>
                  db.added[a].1 < db.added[b].1)
  {
    RunnerReachable(c, states, steps, i);
    var db, ts, id := states[i].db, states[i].phase.ts, c.items[k].id;
    forall m | db.known[id].since <= m < ts && Whole(m) && c.due(id, m) ensures (id, m) in db.added {
      assert !Owes(c, db, k, m);
    }
  }

  // ------------------------------------------------------------- untimely starts

  /** Item `k` was not added at `m`, and the runner will not come to it any more. */
  ghost predicate Skipped(c: Config, s: Runner, k: nat, m: Instant)
    requires k < |c.items|
  {
    && (c.items[k].id, m) !in s.db.added
    && match s.phase
       case Down => true
       case Backfilling(start, nb, ts) =>
         m <= start && (ts <= m < start ==> !Backfills(c.items[k], nb, c.due, start, m))
       case Live(ts) => m < ts
  }

  lemma TickSkips(c: Config, s: Runner, ids: seq<string>, ts: Instant, next: Phase, answer: Answer, s': Runner, k: nat,
                  m: Instant)
    requires k < |c.items| && (c.items[k].id, m) !in s.db.added && TickStep(s, ids, ts, next, answer, s')
    requires m == ts ==> c.items[k].id !in ids
    ensures (c.items[k].id, m) !in s'.db.added && (s'.phase == next || s'.phase == Down)
  {
    if ids != [] && Schedule(s.db, ids, ts).Some? { ScheduleExact(s.db, ids, ts); }
  }

  lemma StepSkips(c: Config, s: Runner, step: RunnerStep, s': Runner, k: nat, m: Instant)
    requires UniqueIds(c.items) && k < |c.items| && !step.Begin?
    requires RunnerNext(c, s, step, s') && Skipped(c, s, k, m)
    ensures Skipped(c, s', k, m)
  {
    match step
    case BackfillTick(answer) =>
      var Backfilling(start, nb, ts) := s.phase;
      var ids := ToBackfill(c.items, nb, c.due, start, ts);
      ToBackfillExact(c.items, nb, c.due, start, ts);
      TickSkips(c, s, ids, ts, s.phase.(ts := ts + MINUTE), answer, s', k, m);
    case BackfillEnd => RoundUpIsNext(s.phase.start);
    case LiveTick(answer) =>
      var ts := s.phase.ts;
      TickSkips(c, s, DueNow(c.items, c.due, ts), ts, Live(ts + MINUTE), answer, s', k, m);
    case Fail =>
  }

  lemma BeginSkips(c: Config, s: Runner, start: Instant, answer: Answer, s': Runner, k: nat, m: Instant)
    requires k < |c.items| && s.phase == Down && BeginStep(c, s, start, answer, s')
    requires Whole(m) && (c.items[k].id, m) !in s.db.added
    requires m == start || (m < start && !CatchesUp(c, s.db, start, k, m))
    ensures Skipped(c, s', k, m)
  {
    var nb := NotBefore(s.db.known);
    var largest := LargestFill(c.items, nb);
    RoundUpIsNext(start);
    if largest.Some? {
      RoundUpIsNext(start - largest.value * SECOND);
      if c.items[k].fill.Some? { SecondsBound(start - m, c.items[k].fill.value); }
    }
  }

  /** The conditions are needed: what a start leaves out of its window, and the minute of
      a start that falls on one, is not added by that incarnation of the runner, however
      long it runs; once a later minute of the item is added it never will be. */
  lemma {:induction false} UntimelyStartMisses(c: Config, states: seq<Runner>, steps: seq<RunnerStep>, i: nat, n: nat,
                                               k: nat, m: Instant)
    requires RunnerRun(c, states, steps) && i < n < |states| && k < |c.items|
    requires steps[i].Begin? && forall x :: i < x < n ==> !steps[x].Begin?
    requires Whole(m) && (c.items[k].id, m) !in states[i].db.added
    requires m == steps[i].start || (m < steps[i].start && !CatchesUp(c, states[i].db, steps[i].start, k, m))
    ensures Skipped(c, states[n], k, m)
  {
    if n == i + 1 {
      BeginSkips(c, states[i], steps[i].start, steps[i].answer, states[n], k, m);
    } else {
      UntimelyStartMisses(c, states, steps, i, n - 1, k, m);
      StepSkips(c, states[n - 1], steps[n - 1], states[n], k, m);
    }
  }
}
