/** The crontab tables and the statements of the cron runner, for any number of runners.

    Instants are integers counting nanoseconds from a whole minute; whether an item is
    due at a minute is an arbitrary predicate. */
module Cron {
  import opened Wrappers

  type Instant = int

  const SECOND: int := 1_000_000_000
  const MINUTE: int := 60 * SECOND

  predicate Whole(t: Instant) { t % MINUTE == 0 }

  /** `round_date_minute`: rounding up always adds a minute, also on a boundary. */
  function RoundMinute(t: Instant, up: bool): Instant { t - t % MINUTE + if up then MINUTE else 0 }

  /** Rounding up gives the first whole minute strictly after `t`. */
  lemma RoundUpIsNext(t: Instant)
    ensures Whole(RoundMinute(t, true)) && t < RoundMinute(t, true)
    ensures forall m :: Whole(m) && t < m ==> RoundMinute(t, true) <= m
    ensures Whole(RoundMinute(t, false)) && RoundMinute(t, false) <= t
  {
    forall m | Whole(m) && t < m ensures RoundMinute(t, true) <= m {
      WholeSteps(RoundMinute(t, true), m);
    }
  }

  /** Whole minutes are a minute apart. */
  lemma WholeSteps(a: Instant, b: Instant)
    requires Whole(a) && Whole(b)
    ensures a < b ==> a + MINUTE <= b
    ensures Whole(a + MINUTE)
  {
  }

  // ---------------------------------------------------------------------- tables

  datatype Known = Known(since: Instant, last: Option<Instant>)

  /** `added` lists the jobs that statements have added, as (identifier, minute). */
  datatype CronDb = CronDb(known: map<string, Known>, added: seq<(string, Instant)>)

  /** `insert ... on conflict do nothing`. */
  function InsertUnknown(db: CronDb, ids: seq<string>, start: Instant): CronDb {
    db.(known := map id | id in db.known.Keys + (set i | i in ids) ::
                   if id in db.known then db.known[id] else Known(start, None))
  }

  /** The upsert locks an identifier that is new or whose last execution is earlier. */
  predicate Grants(db: CronDb, id: string, ts: Instant) {
    id !in db.known || db.known[id].last.None? || db.known[id].last.value < ts
  }

  function Granted(db: CronDb, ids: seq<string>, ts: Instant): seq<string> {
    if ids == [] then []
    else (if Grants(db, ids[0], ts) then [ids[0]] else []) + Granted(db, ids[1..], ts)
  }

  predicate Distinct(ids: seq<string>) { forall a, b :: 0 <= a < b < |ids| ==> ids[a] != ids[b] }

  function Pairs(ids: seq<string>, ts: Instant): seq<(string, Instant)> {
    seq(|ids|, k requires 0 <= k < |ids| => (ids[k], ts))
  }

  /** `schedule_cron_jobs`. An upsert cannot write a row twice, so a statement that repeats
      an identifier is rejected when it would insert or update that identifier's row. */
  function Schedule(db: CronDb, ids: seq<string>, ts: Instant): Option<CronDb> {
    var granted := Granted(db, ids, ts);
    if !Distinct(granted) then None
    else
      Some(CronDb(
        map id | id in db.known.Keys + (set i | i in granted) ::
          if id !in granted then db.known[id]
          else if id in db.known then db.known[id].(last := Some(ts)) else Known(ts, Some(ts)),
        db.added + Pairs(granted, ts)))
  }

  // ----------------------------------------------------- any number of runners

  /** Jobs are added in ascending order per identifier, the last one at its
      `last_execution` or before. */
  ghost predicate LogInv(db: CronDb) {
    && (forall k :: 0 <= k < |db.added| ==>
          && db.added[k].0 in db.known && db.known[db.added[k].0].last.Some?
          && db.added[k].1 <= db.known[db.added[k].0].last.value)
    && (forall a, b :: 0 <= a < b < |db.added| && db.added[a].0 == db.added[b].0 ==> db.added[a].1 < db.added[b].1)
  }

  /** Executions only move forward, registrations never move. */
  ghost predicate Forward(db: CronDb, db': CronDb) {
    && db.added <= db'.added
    && forall id :: id in db.known ==>
         && id in db'.known && db'.known[id].since == db.known[id].since
         && (db.known[id].last.Some? ==>
               db'.known[id].last.Some? && db.known[id].last.value <= db'.known[id].last.value)
  }

  lemma {:induction false} GrantedExact(db: CronDb, ids: seq<string>, ts: Instant)
    ensures forall id :: id in Granted(db, ids, ts) <==> id in ids && Grants(db, id, ts)
    ensures Distinct(ids) ==> Distinct(Granted(db, ids, ts))
  {
    if ids != [] {
      GrantedExact(db, ids[1..], ts);
      assert ids == [ids[0]] + ids[1..];
    }
  }

  /** Some granted identifier occurs twice. */
  ghost predicate Repeats(db: CronDb, ids: seq<string>, ts: Instant) {
    exists a, b :: 0 <= a < b < |ids| && ids[a] == ids[b] && Grants(db, ids[a], ts)
  }

  /** A statement is rejected exactly when it repeats an identifier that is granted. */
  lemma RejectedExactly(db: CronDb, ids: seq<string>, ts: Instant)
    ensures Schedule(db, ids, ts).None? <==> Repeats(db, ids, ts)
  {
    GrantedDistinct(db, ids, ts);
  }

  lemma {:induction false} GrantedDistinct(db: CronDb, ids: seq<string>, ts: Instant)
    ensures Distinct(Granted(db, ids, ts)) <==> !Repeats(db, ids, ts)
  {
    if ids != [] {
      var rest := ids[1..];
      GrantedDistinct(db, rest, ts);
      GrantedExact(db, rest, ts);
      RepeatsCons(db, ids, ts);
      FirstAgain(db, ids, ts);
    }
  }

  /** It does so behind the first place, or the first identifier comes again. */
  lemma RepeatsCons(db: CronDb, ids: seq<string>, ts: Instant)
    requires ids != []
    ensures Repeats(db, ids, ts) <==> Repeats(db, ids[1..], ts) || (Grants(db, ids[0], ts) && ids[0] in ids[1..])
  {
    var rest := ids[1..];
    if Repeats(db, ids, ts) {
      var a, b :| 0 <= a < b < |ids| && ids[a] == ids[b] && Grants(db, ids[a], ts);
      assert ids[b] == rest[b - 1];
      if a > 0 { assert ids[a] == rest[a - 1]; }
    }
    if Repeats(db, rest, ts) {
      var a, b :| 0 <= a < b < |rest| && rest[a] == rest[b] && Grants(db, rest[a], ts);
      assert ids[a + 1] == rest[a] && ids[b + 1] == rest[b];
    }
    if Grants(db, ids[0], ts) && ids[0] in rest {
      var b :| 0 <= b < |rest| && rest[b] == ids[0];
      assert ids[b + 1] == ids[0];
    }
  }

  lemma FirstAgain(db: CronDb, ids: seq<string>, ts: Instant)
    requires ids != []
    ensures Distinct(Granted(db, ids, ts)) <==>
              Distinct(Granted(db, ids[1..], ts)) && !(Grants(db, ids[0], ts) && ids[0] in Granted(db, ids[1..], ts))
  {
    DistinctCons(ids[0], Granted(db, ids[1..], ts));
    assert !Grants(db, ids[0], ts) ==> Granted(db, ids, ts) == Granted(db, ids[1..], ts);
  }

  lemma DistinctCons(id: string, rest: seq<string>)
    ensures Distinct([id] + rest) <==> Distinct(rest) && id !in rest
  {
    var all := [id] + rest;
    if Distinct(all) {
      forall a, b | 0 <= a < b < |rest| ensures rest[a] != rest[b] { assert all[a + 1] != all[b + 1]; }
      forall b | 0 <= b < |rest| ensures rest[b] != id { assert all[0] != all[b + 1]; }
    }
  }

  /** What a committed statement adds and moves. */
  lemma ScheduleExact(db: CronDb, ids: seq<string>, ts: Instant)
    requires Schedule(db, ids, ts).Some?
    ensures var db' := Schedule(db, ids, ts).value;
            && (forall id, m :: (id, m) in db'.added <==>
                  (id, m) in db.added || (m == ts && id in ids && Grants(db, id, ts)))
            && (forall id :: id in db'.known <==> id in db.known || id in ids)
            && (forall id :: id in db'.known ==>
                  db'.known[id] == (if id !in ids || !Grants(db, id, ts) then db.known[id]
                                    else Known(if id in db.known then db.known[id].since else ts, Some(ts))))
  {
    GrantedExact(db, ids, ts);
    var granted := Granted(db, ids, ts);
    var db' := Schedule(db, ids, ts).value;
    forall id, m ensures (id, m) in Pairs(granted, ts) <==> m == ts && id in granted {
      if m == ts && id in granted {
        var k :| 0 <= k < |granted| && granted[k] == id;
        assert Pairs(granted, ts)[k] == (id, m);
      }
    }
    forall id | id in ids && id !in db.known ensures Grants(db, id, ts) {}
  }

  lemma ScheduleKeeps(db: CronDb, ids: seq<string>, ts: Instant)
    requires LogInv(db) && Schedule(db, ids, ts).Some?
    ensures LogInv(Schedule(db, ids, ts).value) && Forward(db, Schedule(db, ids, ts).value)
  {
    ScheduleExact(db, ids, ts);
    ScheduleLog(db, ids, ts);
  }

  lemma ScheduleLog(db: CronDb, ids: seq<string>, ts: Instant)
    requires LogInv(db) && Schedule(db, ids, ts).Some?
    ensures LogInv(Schedule(db, ids, ts).value)
  {
    GrantedExact(db, ids, ts);
    var granted := Granted(db, ids, ts);
    var db' := Schedule(db, ids, ts).value;
    assert db'.added == db.added + Pairs(granted, ts);
    assert forall c :: |db.added| <= c < |db'.added| ==> db'.added[c] == (granted[c - |db.added|], ts);
  }

  datatype CronStatement = Insert(ids: seq<string>, at: Instant) | Tick(ids: seq<string>, ts: Instant)

  /** A statement of any runner commits, or is rolled back. */
  ghost predicate CronStep(db: CronDb, st: CronStatement, db': CronDb) {
    || db' == db
    || (match st
        case Insert(ids, t) => db' == InsertUnknown(db, ids, t)
        case Tick(ids, ts) => Schedule(db, ids, ts) == Some(db'))
  }

  lemma CronStepKeeps(db: CronDb, st: CronStatement, db': CronDb)
    requires LogInv(db) && CronStep(db, st, db')
    ensures LogInv(db') && Forward(db, db')
  {
    if db' != db && st.Tick? { ScheduleKeeps(db, st.ids, st.ts); }
  }

  ghost predicate CronHistory(history: seq<CronDb>, statements: seq<CronStatement>) {
    && |history| == |statements| + 1
    && LogInv(history[0])
    && forall i :: 0 <= i < |statements| ==> CronStep(history[i], statements[i], history[i + 1])
  }

  /** Whatever runners do, every (identifier, minute) is added at most once, in
      ascending order, and `last_execution` never decreases. */
  lemma {:induction false} AddedAtMostOnce(history: seq<CronDb>, statements: seq<CronStatement>, i: nat, k: nat)
    requires CronHistory(history, statements) && i <= k < |history|
    ensures LogInv(history[k]) && Forward(history[i], history[k])
    ensures var added := history[k].added;
            forall a, b :: 0 <= a < |added| && 0 <= b < |added| && added[a] == added[b] ==> a == b
  {
    if k > i {
      AddedAtMostOnce(history, statements, i, k - 1);
      CronStepKeeps(history[k - 1], statements[k - 1], history[k]);
    } else if k > 0 {
      AddedAtMostOnce(history, statements, k - 1, k - 1);
      CronStepKeeps(history[k - 1], statements[k - 1], history[k]);
    }
  }

  /** A minute that was passed over by a later execution is never added. */
  lemma PassedOverForGood(history: seq<CronDb>, statements: seq<CronStatement>, i: nat, k: nat, id: string, m: Instant)
    requires CronHistory(history, statements) && i <= k < |history|
    requires id in history[i].known && history[i].known[id].last.Some? && m <= history[i].known[id].last.value
    requires (id, m) !in history[i].added
    ensures (id, m) !in history[k].added
  {
    if k > i {
      PassedOverForGood(history, statements, i, k - 1, id, m);
      AddedAtMostOnce(history, statements, i, k - 1);
      if history[k] != history[k - 1] && statements[k - 1].Tick? {
        ScheduleExact(history[k - 1], statements[k - 1].ids, statements[k - 1].ts);
      }
    }
  }

  // -------------------------------------------------------------- nothing left out

  /** A due minute of a registered item that has not been added. */
  ghost predicate Missing(db: CronDb, due: (string, Instant) -> bool, id: string, m: Instant) {
    id in db.known && db.known[id].since <= m && Whole(m) && due(id, m) && (id, m) !in db.added
  }

  /** From its registration to its last execution the item was added at all its due minutes. */
  ghost predicate Gapless(db: CronDb, due: (string, Instant) -> bool, id: string) {
    forall m :: Missing(db, due, id, m) && db.known[id].last.Some? ==> db.known[id].last.value < m
  }

  /** A committed tick adds the item at a minute although an earlier one is missing. */
  ghost predicate Overtakes(db: CronDb, st: CronStatement, db': CronDb, due: (string, Instant) -> bool, id: string) {
    && db' != db && st.Tick? && id in st.ids && Grants(db, id, st.ts)
    && exists m :: m < st.ts && Missing(db, due, id, m)
  }

  lemma GaplessStep(db: CronDb, st: CronStatement, db': CronDb, due: (string, Instant) -> bool, id: string)
    requires CronStep(db, st, db') && Gapless(db, due, id) && !Overtakes(db, st, db', due, id)
    ensures Gapless(db', due, id)
  {
    if db' != db && st.Tick? { ScheduleExact(db, st.ids, st.ts); }
    forall m | Missing(db', due, id, m) && db'.known[id].last.Some? ensures db'.known[id].last.value < m {
      assert id in db.known && db'.known[id] == db.known[id] ==> Missing(db, due, id, m);
      assert id in db.known && m < db'.known[id].last.value ==> Missing(db, due, id, m);
    }
  }

  lemma OvertakenForGood(history: seq<CronDb>, statements: seq<CronStatement>, i: nat, n: nat,
                         due: (string, Instant) -> bool, id: string)
    requires CronHistory(history, statements) && i < n < |history|
    requires Overtakes(history[i], statements[i], history[i + 1], due, id)
    ensures !Gapless(history[n], due, id)
  {
    var ts := statements[i].ts;
    var m :| m < ts && Missing(history[i], due, id, m);
    ScheduleExact(history[i], statements[i].ids, ts);
    PassedOverForGood(history, statements, i + 1, n, id, m);
    AddedAtMostOnce(history, statements, i + 1, n);
    assert Missing(history[n], due, id, m);
  }

  /** Any number of runners together add an item at every due minute up to its last
      execution if and only if none of their ticks overtakes a minute still missing. */
  lemma {:induction false} GaplessExactly(history: seq<CronDb>, statements: seq<CronStatement>, n: nat,
                                          due: (string, Instant) -> bool, id: string)
    requires CronHistory(history, statements) && n < |history| && Gapless(history[0], due, id)
    ensures Gapless(history[n], due, id) <==>
              forall i: nat :: i < n ==> !Overtakes(history[i], statements[i], history[i + 1], due, id)
  {
    if Gapless(history[n], due, id) {
      forall i: nat | i < n ensures !Overtakes(history[i], statements[i], history[i + 1], due, id) {
        if Overtakes(history[i], statements[i], history[i + 1], due, id) {
          OvertakenForGood(history, statements, i, n, due, id);
        }
      }
    }
    if n > 0 && forall i: nat :: i < n ==> !Overtakes(history[i], statements[i], history[i + 1], due, id) {
      GaplessExactly(history, statements, n - 1, due, id);
      assert !Overtakes(history[n - 1], statements[n - 1], history[n], due, id);
      GaplessStep(history[n - 1], statements[n - 1], history[n], due, id);
    }
  }
}
