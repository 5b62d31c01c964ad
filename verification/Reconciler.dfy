/** The schedule reconciler: one pass over the active schedules, and what a run of passes does to one schedule. */
module Reconciler {
  import opened Types
  import opened Sequences
  import opened StoreSpec
  import opened MemoryStore
  import opened Cron
  import opened Schedules

  type Table = map<string, Schedule>

  /** The instant after which the reconciler looks for occurrences; a schedule that never fired looks back one
      second. */
  function LookBack(last: Option<Time>, now: Time): Time {
    if last.Some? then last.value else now - ONE_SECOND
  }

  predicate Due(cron: Cron, last: Option<Time>, now: Time) {
    var next := cron(LookBack(last, now));
    next.Some? && next.value <= now
  }

  // ----- one pass -----

  /** `clock` tells when the workflow of each schedule is enqueued, which is up to a second after the pass began. */
  function Reconcile(env: Env, table: Table, rows: Rows, listed: seq<Schedule>, now: Time, clock: string -> Time): (Table, Rows, Option<DbosError>)
    decreases |listed|
  {
    if listed == [] then (table, rows, None)
    else
      var s := listed[0];
      var cron := env.parse(s.spec);
      if cron.None? || !Due(cron.value, s.lastFiredAt, now) then Reconcile(env, table, rows, listed[1..], now, clock)
      else
        var (rows1, r) := EnqueueScheduled(env, rows, s, now, clock(s.name));
        if r.Err? then (table, rows1, Some(r.error))
        else Reconcile(env, table[s.name := s.(lastFiredAt := Some(now))], rows1, listed[1..], now, clock)
  }

  /** `listed` are the active schedules of the table, in some order. */
  ghost predicate ListsActive(table: Table, listed: seq<Schedule>) {
    && (forall i, j :: 0 <= i < j < |listed| ==> listed[i].name != listed[j].name)
    && (forall s :: s in listed <==> s.name in table && table[s.name] == s && s.active)
  }

  /** The schedule has an occurrence after its last firing, or within the last second if it never fired, that has come. */
  predicate HasCome(env: Env, s: Schedule, now: Time) {
    && env.parse(s.spec).Some?
    && var next := env.parse(s.spec).value(if s.lastFiredAt.Some? then s.lastFiredAt.value else now - 1_000);
       next.Some? && next.value <= now
  }

  /** All that a pass adds are workflows of this instant, of active schedules whose time has come; no row changes. */
  ghost predicate FiresActive(env: Env, table: Table, rows: Rows, rows': Rows, now: Time, clock: string -> Time) {
    && (forall id :: id in rows ==> id in rows' && rows'[id] == rows[id])
    && (forall id :: id in rows' && id !in rows ==>
          exists name :: name in table && table[name].active && HasCome(env, table[name], now)
            && id == ScheduledId(env, table[name], now) && IsScheduledFor(env, table[name], now, clock(name), rows'[id]))
  }

  class ScheduleTable {
    var schedules: Table

    ghost predicate Valid()
      reads this
    {
      forall name :: name in schedules ==> schedules[name].name == name
    }

    method UpsertSchedule(s: Schedule)
      requires Valid()
      modifies this
      ensures Valid() && schedules == old(schedules)[s.name := s]
    {
      schedules := schedules[s.name := s];
    }

    method ListActive() returns (listed: seq<Schedule>)
      requires Valid()
      ensures ListsActive(schedules, listed)
    {
      var order := MapOrder(schedules);
      listed := [];
      for i := 0 to |order|
        invariant forall a, b :: 0 <= a < b < |listed| ==> listed[a].name != listed[b].name
        invariant forall s :: s in listed <==> s.name in order[..i] && schedules[s.name] == s && s.active
      {
        var s := schedules[order[i]];
        assert order[i] !in order[..i];
        if s.active {
          listed := listed + [s];
        }
      }
      assert order[..|order|] == order;
    }

    method ReconcileSchedules(env: Env, store: MemoryStore, now: Time, clock: string -> Time) returns (e: Option<DbosError>, ghost listed: seq<Schedule>)
      requires Valid() && store.Valid()
      modifies this, store
      ensures Valid() && store.Valid()
      ensures ListsActive(old(schedules), listed)
      ensures (schedules, store.workflows, e) == Reconcile(env, old(schedules), old(store.workflows), listed, now, clock)
      ensures store.Contents() == old(store.Contents()).(workflows := store.workflows)
      ensures FiresActive(env, old(schedules), old(store.workflows), store.workflows, now, clock)
    {
      var active := ListActive();
      PassFiresActive(env, schedules, store.workflows, active, now, clock);
      listed := active;
      for i := 0 to |active|
        invariant Valid() && store.Valid()
        invariant Reconcile(env, old(schedules), old(store.workflows), active, now, clock) == Reconcile(env, schedules, store.workflows, active[i..], now, clock)
        invariant store.Contents() == old(store.Contents()).(workflows := store.workflows)
      {
        assert active[i..][0] == active[i] && active[i..][1..] == active[i + 1..];
        var s := active[i];
        var cron := env.parse(s.spec);
        if cron.Some? {
          var last := if s.lastFiredAt.Some? then s.lastFiredAt.value else now - ONE_SECOND;
          var next := cron.value(last);
          if next.Some? && next.value <= now {
            var enqueued := EnqueueScheduledWorkflow(env, store, s, now, clock(s.name));
            if enqueued.Err? {
              return Some(enqueued.error), active;
            }
            UpsertSchedule(s.(lastFiredAt := Some(now)));
          }
        }
      }
      return None, active;
    }
  }

  // ----- one schedule over many passes -----

  /** One pass as one schedule sees it: `reached` when the schedule is active, the pass gets to it and can enqueue
      its workflow. */
  datatype Tick = Tick(now: Time, reached: bool)

  predicate Fires(cron: Cron, last: Option<Time>, tick: Tick) {
    tick.reached && Due(cron, last, tick.now)
  }

  function AfterTick(cron: Cron, last: Option<Time>, tick: Tick): Option<Time> {
    if Fires(cron, last, tick) then Some(tick.now) else last
  }

  lemma {:induction false} UnlistedStays(env: Env, table: Table, rows: Rows, listed: seq<Schedule>, now: Time, clock: string -> Time, name: string)
    requires forall i :: 0 <= i < |listed| ==> listed[i].name != name
    ensures var table' := Reconcile(env, table, rows, listed, now, clock).0;
            (name in table' <==> name in table) && (name in table ==> table'[name] == table[name])
    decreases |listed|
  {
    if listed != [] {
      var s := listed[0];
      assert forall i :: 0 <= i < |listed[1..]| ==> listed[1..][i] == listed[i + 1];
      var cron := env.parse(s.spec);
      if cron.None? || !Due(cron.value, s.lastFiredAt, now) {
        UnlistedStays(env, table, rows, listed[1..], now, clock, name);
      } else {
        var (rows1, r) := EnqueueScheduled(env, rows, s, now, clock(s.name));
        if r.Ok? {
          UnlistedStays(env, table[s.name := s.(lastFiredAt := Some(now))], rows1, listed[1..], now, clock, name);
        }
      }
    }
  }

  /** A pass keeps every row that is there. */
  lemma {:induction false} PassKeepsRows(env: Env, table: Table, rows: Rows, listed: seq<Schedule>, now: Time, clock: string -> Time)
    ensures var rows' := Reconcile(env, table, rows, listed, now, clock).1;
            forall id :: id in rows ==> id in rows' && rows'[id] == rows[id]
    decreases |listed|
  {
    if listed != [] {
      var s := listed[0];
      var cron := env.parse(s.spec);
      if cron.None? || !Due(cron.value, s.lastFiredAt, now) {
        PassKeepsRows(env, table, rows, listed[1..], now, clock);
      } else {
        EnqueueScheduledIsExact(env, rows, s, now, clock(s.name));
        var (rows1, r) := EnqueueScheduled(env, rows, s, now, clock(s.name));
        if r.Ok? {
          PassKeepsRows(env, table[s.name := s.(lastFiredAt := Some(now))], rows1, listed[1..], now, clock);
        }
      }
    }
  }

  ghost predicate IsFiredBy(env: Env, listed: seq<Schedule>, now: Time, clock: string -> Time, id: string, row: WorkflowStatus) {
    exists i :: 0 <= i < |listed| && HasCome(env, listed[i], now) && id == ScheduledId(env, listed[i], now)
      && IsScheduledFor(env, listed[i], now, clock(listed[i].name), row)
  }

  lemma FiredByRest(env: Env, listed: seq<Schedule>, now: Time, clock: string -> Time, id: string, row: WorkflowStatus)
    requires listed != [] && IsFiredBy(env, listed[1..], now, clock, id, row)
    ensures IsFiredBy(env, listed, now, clock, id, row)
  {
    var i :| 0 <= i < |listed[1..]| && HasCome(env, listed[1..][i], now) && id == ScheduledId(env, listed[1..][i], now)
      && IsScheduledFor(env, listed[1..][i], now, clock(listed[1..][i].name), row);
    assert listed[i + 1] == listed[1..][i];
  }

  lemma {:induction false} PassAddsScheduled(env: Env, table: Table, rows: Rows, listed: seq<Schedule>, now: Time, clock: string -> Time)
    ensures var rows' := Reconcile(env, table, rows, listed, now, clock).1;
            forall id :: id in rows' && id !in rows ==> IsFiredBy(env, listed, now, clock, id, rows'[id])
    decreases |listed|
  {
    if listed != [] {
      var s := listed[0];
      var rows' := Reconcile(env, table, rows, listed, now, clock).1;
      var rows1 := rows;
      var table1 := table;
      if HasCome(env, s, now) {
        EnqueueScheduledIsExact(env, rows, s, now, clock(s.name));
        var (added, r) := EnqueueScheduled(env, rows, s, now, clock(s.name));
        if r.Ok? {
          ScheduledRowIsOne(env, s, now, clock(s.name));
          rows1, table1 := added, table[s.name := s.(lastFiredAt := Some(now))];
        }
      }
      PassAddsScheduled(env, table1, rows1, listed[1..], now, clock);
      PassKeepsRows(env, table1, rows1, listed[1..], now, clock);
      forall id | id in rows' && id !in rows
        ensures IsFiredBy(env, listed, now, clock, id, rows'[id])
      {
        if id !in rows1 {
          FiredByRest(env, listed, now, clock, id, rows'[id]);
        } else {
          assert listed[0] == s;
        }
      }
    }
  }

  lemma PassFiresActive(env: Env, table: Table, rows: Rows, listed: seq<Schedule>, now: Time, clock: string -> Time)
    requires ListsActive(table, listed)
    ensures FiresActive(env, table, rows, Reconcile(env, table, rows, listed, now, clock).1, now, clock)
  {
    PassKeepsRows(env, table, rows, listed, now, clock);
    PassAddsScheduled(env, table, rows, listed, now, clock);
    var rows' := Reconcile(env, table, rows, listed, now, clock).1;
    forall id | id in rows' && id !in rows
      ensures exists name :: name in table && table[name].active && HasCome(env, table[name], now)
                && id == ScheduledId(env, table[name], now) && IsScheduledFor(env, table[name], now, clock(name), rows'[id])
    {
      var i :| 0 <= i < |listed| && HasCome(env, listed[i], now) && id == ScheduledId(env, listed[i], now)
        && IsScheduledFor(env, listed[i], now, clock(listed[i].name), rows'[id]);
      assert listed[i] in listed;
    }
  }

  /** What a pass does to the listed schedule at position `k`: it is one tick. When it fires, its workflow of that
      instant exists afterwards; a pass without an error reaches every listed schedule. */
  lemma {:induction false} ListedTicks(env: Env, table: Table, rows: Rows, listed: seq<Schedule>, now: Time, clock: string -> Time, k: nat) returns (reached: bool)
    requires k < |listed| && env.parse(listed[k].spec).Some?
    requires forall i, j :: 0 <= i < j < |listed| ==> listed[i].name != listed[j].name
    requires listed[k].name in table && table[listed[k].name] == listed[k]
    ensures var s, cron := listed[k], env.parse(listed[k].spec).value;
            var (table', rows', e) := Reconcile(env, table, rows, listed, now, clock);
            && s.name in table'
            && table'[s.name] == s.(lastFiredAt := AfterTick(cron, s.lastFiredAt, Tick(now, reached)))
            && (Fires(cron, s.lastFiredAt, Tick(now, reached)) ==> ScheduledId(env, s, now) in rows')
            && (e.None? ==> reached)
    decreases |listed|
  {
    var s := listed[0];
    var rest := listed[1..];
    assert forall i :: 0 <= i < |rest| ==> rest[i] == listed[i + 1];
    var parsed := env.parse(s.spec);
    if parsed.None? || !Due(parsed.value, s.lastFiredAt, now) {
      reached := true;
      if k == 0 {
        UnlistedStays(env, table, rows, rest, now, clock, s.name);
      } else {
        reached := ListedTicks(env, table, rows, rest, now, clock, k - 1);
      }
    } else {
      var (rows1, r) := EnqueueScheduled(env, rows, s, now, clock(s.name));
      EnqueueScheduledIsExact(env, rows, s, now, clock(s.name));
      reached := r.Ok?;
      if r.Ok? {
        var table1 := table[s.name := s.(lastFiredAt := Some(now))];
        PassKeepsRows(env, table1, rows1, rest, now, clock);
        if k == 0 {
          UnlistedStays(env, table1, rows1, rest, now, clock, s.name);
        } else {
          assert listed[k] == rest[k - 1];
          reached := ListedTicks(env, table1, rows1, rest, now, clock, k - 1);
        }
      }
    }
  }

  /** A pass over the table is one tick of every schedule whose cron expression parses: only its time of last firing
      can change, and it changes exactly when the schedule fires. */
  lemma PassIsATick(env: Env, table: Table, rows: Rows, listed: seq<Schedule>, now: Time, clock: string -> Time, name: string) returns (reached: bool)
    requires ListsActive(table, listed) && name in table && table[name].name == name && env.parse(table[name].spec).Some?
    ensures var s, cron := table[name], env.parse(table[name].spec).value;
            var (table', rows', e) := Reconcile(env, table, rows, listed, now, clock);
            && name in table'
            && table'[name] == s.(lastFiredAt := AfterTick(cron, s.lastFiredAt, Tick(now, reached)))
            && (Fires(cron, s.lastFiredAt, Tick(now, reached)) ==> ScheduledId(env, s, now) in rows')
            && (reached ==> s.active)
            && (e.None? && s.active ==> reached)
  {
    var s := table[name];
    if s.active {
      assert s in listed;
      var k :| 0 <= k < |listed| && listed[k] == s;
      reached := ListedTicks(env, table, rows, listed, now, clock, k);
    } else {
      reached := false;
      assert forall i :: 0 <= i < |listed| ==> listed[i] in listed;
      UnlistedStays(env, table, rows, listed, now, clock, name);
    }
  }

  /** The instants at which the schedule fires over a run of passes. */
  function Firings(cron: Cron, last: Option<Time>, ticks: seq<Tick>): seq<Time>
    decreases |ticks|
  {
    if ticks == [] then []
    else
      var rest := Firings(cron, AfterTick(cron, last, ticks[0]), ticks[1..]);
      if Fires(cron, last, ticks[0]) then [ticks[0].now] + rest else rest
  }

  /** Starting after `start`, occurrences and firings take turns, each firing no earlier than its occurrence. */
  ghost predicate TakeTurns(cron: Cron, start: Time, at: seq<Time>, firings: seq<Time>)
    decreases |firings|
  {
    && |at| == |firings|
    && (firings != [] ==> Occurs(cron, at[0]) && start < at[0] <= firings[0] && TakeTurns(cron, firings[0], at[1..], firings[1..]))
  }

  lemma {:induction false} TurnsAscend(cron: Cron, start: Time, at: seq<Time>, firings: seq<Time>)
    requires TakeTurns(cron, start, at, firings)
    ensures forall i :: 0 <= i < |at| ==> Occurs(cron, at[i]) && start < at[i] <= firings[i]
    ensures forall i, j :: 0 <= i < j < |at| ==> firings[i] < at[j]
    decreases |firings|
  {
    if firings != [] {
      TurnsAscend(cron, firings[0], at[1..], firings[1..]);
      assert forall i :: 0 < i < |at| ==> at[i] == at[1..][i - 1] && firings[i] == firings[1..][i - 1];
    }
  }

  lemma {:induction false} FiringsTakeTurns(cron: Cron, last: Option<Time>, ticks: seq<Tick>) returns (at: seq<Time>)
    requires Lawful(cron)
    ensures var firings := Firings(cron, last, ticks);
            TakeTurns(cron, if firings == [] then 0 else LookBack(last, firings[0]), at, firings)
    decreases |ticks|
  {
    at := [];
    if ticks != [] {
      var tick := ticks[0];
      at := FiringsTakeTurns(cron, AfterTick(cron, last, tick), ticks[1..]);
      if Fires(cron, last, tick) {
        var next := cron(LookBack(last, tick.now)).value;
        NextIsFirst(cron, LookBack(last, tick.now), next);
        var after := Firings(cron, Some(tick.now), ticks[1..]);
        assert ([tick.now] + after)[1..] == after && ([next] + at)[1..] == at;
        at := [next] + at;
      }
    }
  }

  /** Each firing has an occurrence of its own, later than the previous firing and no later than itself, whatever
      the clock does between passes. So firings and their occurrences both strictly ascend. */
  lemma FiringsHaveOccurrences(cron: Cron, last: Option<Time>, ticks: seq<Tick>) returns (at: seq<Time>)
    requires Lawful(cron)
    ensures var firings := Firings(cron, last, ticks);
            && |at| == |firings|
            && (forall i :: 0 <= i < |at| ==> Occurs(cron, at[i]) && LookBack(last, firings[0]) < at[i] <= firings[i])
            && (forall i, j :: 0 <= i < j < |at| ==> firings[i] < at[j])
  {
    at := FiringsTakeTurns(cron, last, ticks);
    var firings := Firings(cron, last, ticks);
    TurnsAscend(cron, if firings == [] then 0 else LookBack(last, firings[0]), at, firings);
  }

  /** So there are never more firings than occurrences. */
  lemma FiringsNeverExceedOccurrences(cron: Cron, last: Option<Time>, ticks: seq<Tick>, occurrences: set<Time>)
    requires Lawful(cron) && Firings(cron, last, ticks) != []
    requires var f := Firings(cron, last, ticks);
             forall t :: LookBack(last, f[0]) < t <= f[|f| - 1] && Occurs(cron, t) ==> t in occurrences
    ensures |Firings(cron, last, ticks)| <= |occurrences|
  {
    var firings := Firings(cron, last, ticks);
    var at := FiringsHaveOccurrences(cron, last, ticks);
    forall i | 0 <= i < |at|
      ensures at[i] in occurrences
    {
      assert LookBack(last, firings[0]) < at[i] <= firings[i];
      assert i < |at| - 1 ==> firings[i] < at[|at| - 1];
    }
    AscendingFit(at, occurrences);
  }

  lemma {:induction false} AscendingFit(l: seq<Time>, s: set<Time>)
    requires forall i, j :: 0 <= i < j < |l| ==> l[i] < l[j]
    requires forall i :: 0 <= i < |l| ==> l[i] in s
    ensures |l| <= |s|
  {
    if l != [] {
      AscendingFit(l[1..], s - {l[0]});
    }
  }

  function LastFiring(cron: Cron, last: Option<Time>, ticks: seq<Tick>): Option<Time>
    decreases |ticks|
  {
    if ticks == [] then last else LastFiring(cron, AfterTick(cron, last, ticks[0]), ticks[1..])
  }

  /** Once a schedule has fired, no later occurrence is lost: when a pass at or after the occurrence has reached the
      schedule, that pass or an earlier one has fired at or after the occurrence. */
  lemma OccurrenceIsCaught(cron: Cron, last: Time, ticks: seq<Tick>, k: nat, at: Time)
    requires Lawful(cron) && last < at && Occurs(cron, at)
    requires k < |ticks| && ticks[k].reached && at <= ticks[k].now
    ensures var firings := Firings(cron, Some(last), ticks[..k + 1]); exists i :: 0 <= i < |firings| && at <= firings[i]
  {
    CaughtByTheEnd(cron, last, ticks[..k + 1], k, at);
  }

  lemma {:induction false} CaughtByTheEnd(cron: Cron, last: Time, ticks: seq<Tick>, k: nat, at: Time)
    requires Lawful(cron) && last < at && Occurs(cron, at)
    requires k < |ticks| && ticks[k].reached && at <= ticks[k].now
    ensures exists i :: 0 <= i < |Firings(cron, Some(last), ticks)| && at <= Firings(cron, Some(last), ticks)[i]
    decreases |ticks|
  {
    var tick := ticks[0];
    var firings := Firings(cron, Some(last), ticks);
    NextIsFirst(cron, last, at);
    if Fires(cron, Some(last), tick) {
      if at <= tick.now {
        assert firings[0] == tick.now;
      } else {
        CaughtByTheEnd(cron, tick.now, ticks[1..], k - 1, at);
        var rest := Firings(cron, Some(tick.now), ticks[1..]);
        var i :| 0 <= i < |rest| && at <= rest[i];
        assert firings[i + 1] == rest[i];
      }
    } else {
      CaughtByTheEnd(cron, last, ticks[1..], k - 1, at);
    }
  }

  // ----- whole runs of passes -----

  /** A pass and the state it starts from. Between passes anything may happen to the rows and the other schedules;
      the schedule in question may be paused and resumed. */
  datatype Pass = Pass(table: Table, rows: Rows, listed: seq<Schedule>, now: Time, clock: string -> Time)

  function Outcome(env: Env, p: Pass): (Table, Rows, Option<DbosError>) {
    Reconcile(env, p.table, p.rows, p.listed, p.now, p.clock)
  }

  ghost predicate StartsFrom(table: Table, p: Pass, name: string) {
    && name in table && name in p.table && p.table[name].name == name
    && p.table[name] == table[name].(active := p.table[name].active)
    && ListsActive(p.table, p.listed)
  }

  ghost predicate IsPassRun(env: Env, table: Table, passes: seq<Pass>, name: string)
    decreases |passes|
  {
    passes == [] || (StartsFrom(table, passes[0], name) && IsPassRun(env, Outcome(env, passes[0]).0, passes[1..], name))
  }

  function FinalTable(env: Env, table: Table, passes: seq<Pass>): Table {
    if passes == [] then table else Outcome(env, passes[|passes| - 1]).0
  }

  /** The tick is what the pass means to the schedule: it is reached only when active, and always when active in a
      pass without an error. */
  predicate IsTickOf(env: Env, p: Pass, tick: Tick, name: string) {
    && tick.now == p.now && name in p.table
    && (tick.reached ==> p.table[name].active)
    && (p.table[name].active && Outcome(env, p).2.None? ==> tick.reached)
  }

  /** The schedule fires in the pass: afterwards its workflow of that instant exists. */
  predicate FiresIn(env: Env, p: Pass, name: string, at: Time) {
    p.now == at && name in p.table && ScheduledId(env, p.table[name], at) in Outcome(env, p).1
  }

  lemma FirstTickAndRest(env: Env, passes: seq<Pass>, tick: Tick, after: seq<Tick>, name: string)
    requires passes != [] && |after| == |passes| - 1 && IsTickOf(env, passes[0], tick, name)
    requires forall i :: 0 <= i < |after| ==> IsTickOf(env, passes[1..][i], after[i], name)
    ensures forall i :: 0 <= i < |passes| ==> IsTickOf(env, passes[i], ([tick] + after)[i], name)
  {
    forall i | 0 < i < |passes|
      ensures IsTickOf(env, passes[i], ([tick] + after)[i], name)
    {
      assert passes[i] == passes[1..][i - 1];
    }
  }

  /** A run of passes over the table is a run of ticks of the schedule: it ends with the schedule's last firing, and
      at each firing of the ticks some pass has left the workflow of that instant. */
  lemma {:induction false} PassesAreTicks(env: Env, table: Table, passes: seq<Pass>, name: string) returns (ticks: seq<Tick>)
    requires name in table && env.parse(table[name].spec).Some? && IsPassRun(env, table, passes, name)
    ensures var cron, last := env.parse(table[name].spec).value, table[name].lastFiredAt;
            && |ticks| == |passes|
            && (forall i :: 0 <= i < |ticks| ==> IsTickOf(env, passes[i], ticks[i], name))
            && name in FinalTable(env, table, passes)
            && FinalTable(env, table, passes)[name].lastFiredAt == LastFiring(cron, last, ticks)
            && (forall f :: f in Firings(cron, last, ticks) ==> exists i :: 0 <= i < |passes| && FiresIn(env, passes[i], name, f))
    decreases |passes|
  {
    ticks := [];
    if passes != [] {
      var p, rest := passes[0], passes[1..];
      var cron := env.parse(table[name].spec).value;
      var reached := PassIsATick(env, p.table, p.rows, p.listed, p.now, p.clock, name);
      var tick := Tick(p.now, reached);
      var after := PassesAreTicks(env, Outcome(env, p).0, rest, name);
      ticks := [tick] + after;
      assert ticks[1..] == after;
      FirstTickAndRest(env, passes, tick, after, name);
      assert FinalTable(env, table, passes) == FinalTable(env, Outcome(env, p).0, rest);
      FiringsOfPasses(env, table, passes, name, tick, after);
    }
  }

  lemma FiringsOfPasses(env: Env, table: Table, passes: seq<Pass>, name: string, tick: Tick, after: seq<Tick>)
    requires passes != [] && name in table && env.parse(table[name].spec).Some? && StartsFrom(table, passes[0], name)
    requires var cron, p := env.parse(table[name].spec).value, passes[0];
             && tick.now == p.now
             && (Fires(cron, table[name].lastFiredAt, tick) ==> ScheduledId(env, p.table[name], p.now) in Outcome(env, p).1)
             && forall f :: f in Firings(cron, AfterTick(cron, table[name].lastFiredAt, tick), after) ==>
                  exists i :: 0 <= i < |passes[1..]| && FiresIn(env, passes[1..][i], name, f)
    ensures forall f :: f in Firings(env.parse(table[name].spec).value, table[name].lastFiredAt, [tick] + after) ==>
              exists i :: 0 <= i < |passes| && FiresIn(env, passes[i], name, f)
  {
    var cron, last := env.parse(table[name].spec).value, table[name].lastFiredAt;
    assert ([tick] + after)[1..] == after;
    forall f | f in Firings(cron, last, [tick] + after)
      ensures exists i :: 0 <= i < |passes| && FiresIn(env, passes[i], name, f)
    {
      if f in Firings(cron, AfterTick(cron, last, tick), after) {
        var i :| 0 <= i < |passes[1..]| && FiresIn(env, passes[1..][i], name, f);
        assert passes[i + 1] == passes[1..][i];
      } else {
        assert Fires(cron, last, tick) && f == tick.now;
        assert FiresIn(env, passes[0], name, f);
      }
    }
  }

  lemma {:induction false} PassRunPrefix(env: Env, table: Table, passes: seq<Pass>, name: string, n: nat)
    requires IsPassRun(env, table, passes, name) && n <= |passes|
    ensures IsPassRun(env, table, passes[..n], name)
    decreases n
  {
    if n > 0 {
      PassRunPrefix(env, Outcome(env, passes[0]).0, passes[1..], name, n - 1);
      assert passes[..n][1..] == passes[1..][..n - 1];
    }
  }

  /** Over a run of passes: once the schedule has fired, when an error-free pass at or after a later occurrence finds
      it active, that pass or an earlier one has fired at or after the occurrence. */
  lemma OccurrenceIsServed(env: Env, table: Table, passes: seq<Pass>, name: string, k: nat, at: Time) returns (i: nat)
    requires LawfulEnv(env) && name in table && env.parse(table[name].spec).Some? && IsPassRun(env, table, passes, name)
    requires table[name].lastFiredAt.Some? && table[name].lastFiredAt.value < at && Occurs(env.parse(table[name].spec).value, at)
    requires k < |passes| && at <= passes[k].now && Outcome(env, passes[k]).2.None?
    requires name in passes[k].table && passes[k].table[name].active
    ensures i <= k && at <= passes[i].now && FiresIn(env, passes[i], name, passes[i].now)
  {
    var cron := env.parse(table[name].spec).value;
    var upTo := passes[..k + 1];
    PassRunPrefix(env, table, passes, name, k + 1);
    var ticks := PassesAreTicks(env, table, upTo, name);
    assert IsTickOf(env, upTo[k], ticks[k], name);
    OccurrenceIsCaught(cron, table[name].lastFiredAt.value, ticks, k, at);
    assert ticks[..k + 1] == ticks;
    var firings := Firings(cron, table[name].lastFiredAt, ticks);
    var j :| 0 <= j < |firings| && at <= firings[j];
    assert firings[j] in firings;
    i :| 0 <= i < |upTo| && FiresIn(env, upTo[i], name, firings[j]);
  }

  /** Over a run of passes the schedule's firings have occurrences of their own: there is a list of them, one after
      each previous firing and no later than its own, and every firing has its workflow. */
  lemma PassRunFirings(env: Env, table: Table, passes: seq<Pass>, name: string) returns (ticks: seq<Tick>, at: seq<Time>)
    requires LawfulEnv(env) && name in table && env.parse(table[name].spec).Some? && IsPassRun(env, table, passes, name)
    ensures var cron := env.parse(table[name].spec).value;
            var firings := Firings(cron, table[name].lastFiredAt, ticks);
            && |ticks| == |passes| && (forall i :: 0 <= i < |ticks| ==> IsTickOf(env, passes[i], ticks[i], name))
            && |at| == |firings| <= |passes|
            && (forall i :: 0 <= i < |at| ==> Occurs(cron, at[i]) && LookBack(table[name].lastFiredAt, firings[0]) < at[i] <= firings[i])
            && (forall i, j :: 0 <= i < j < |at| ==> firings[i] < at[j])
            && (forall i :: 0 <= i < |firings| ==> exists k :: 0 <= k < |passes| && FiresIn(env, passes[k], name, firings[i]))
  {
    var cron := env.parse(table[name].spec).value;
    ticks := PassesAreTicks(env, table, passes, name);
    at := FiringsHaveOccurrences(cron, table[name].lastFiredAt, ticks);
    AtMostOneFiringEach(cron, table[name].lastFiredAt, ticks);
    var firings := Firings(cron, table[name].lastFiredAt, ticks);
    assert forall i :: 0 <= i < |firings| ==> firings[i] in firings;
  }

  lemma {:induction false} AtMostOneFiringEach(cron: Cron, last: Option<Time>, ticks: seq<Tick>)
    ensures |Firings(cron, last, ticks)| <= |ticks|
    decreases |ticks|
  {
    if ticks != [] {
      AtMostOneFiringEach(cron, AfterTick(cron, last, ticks[0]), ticks[1..]);
    }
  }

  /** A schedule that never fired stays silent exactly as long as no pass that reaches it comes within one second
      after an occurrence. */
  lemma {:induction false} FreshScheduleSilentIff(cron: Cron, ticks: seq<Tick>)
    requires Lawful(cron)
    ensures Firings(cron, None, ticks) == [] <==>
            forall k :: 0 <= k < |ticks| && ticks[k].reached ==> !OccursBetween(cron, ticks[k].now - 1_000, ticks[k].now)
    decreases |ticks|
  {
    if ticks != [] {
      DueIffOccursBetween(cron, ticks[0].now - ONE_SECOND, ticks[0].now);
      FreshScheduleSilentIff(cron, ticks[1..]);
      assert forall k :: 0 < k < |ticks| ==> ticks[k] == ticks[1..][k - 1];
      assert forall k :: 0 <= k < |ticks| - 1 ==> ticks[1..][k] == ticks[k + 1];
    }
  }

  /** Every thirty seconds, at a quarter past the half minute. */
  function HalfMinutely(): Cron {
    (t: Time) => Some(t - (t - 15_000) % 30_000 + 30_000)
  }

  /** With the default polling interval of thirty seconds a schedule that is due every thirty seconds may never
      fire: when it has not fired before and no occurrence falls into the second before a poll. */
  lemma FreshScheduleCanStarve(ticks: seq<Tick>)
    requires forall k :: 0 <= k < |ticks| ==> ticks[k] == Tick(30_000 * k, true)
    ensures Lawful(HalfMinutely()) && forall n: nat :: Occurs(HalfMinutely(), 30_000 * n + 15_000)
    ensures Firings(HalfMinutely(), None, ticks) == []
  {
    HalfMinutelyIsLawful();
    forall n: nat
      ensures Occurs(HalfMinutely(), 30_000 * n + 15_000)
    {
      QuarterPast(n, 30_000 * n + 15_000);
    }
    forall k | 0 <= k < |ticks|
      ensures !OccursBetween(HalfMinutely(), ticks[k].now - ONE_SECOND, ticks[k].now)
    {
      QuarterPast(k - 1, 30_000 * k - ONE_SECOND);
      DueIffOccursBetween(HalfMinutely(), 30_000 * k - ONE_SECOND, 30_000 * k);
    }
    FreshScheduleSilentIff(HalfMinutely(), ticks);
  }

  /** The next occurrence after the one with number `n`, asked for up to thirty seconds later. */
  lemma QuarterPast(n: int, t: Time)
    requires 30_000 * n + 15_000 <= t < 30_000 * n + 45_000
    ensures HalfMinutely()(t) == Some(30_000 * n + 45_000)
    ensures t == 30_000 * n + 15_000 ==> HalfMinutely()(t - 1) == Some(t)
  {
    assert (t - 15_000) % 30_000 == t - 15_000 - 30_000 * n;
    assert t == 30_000 * n + 15_000 ==> (t - 1 - 15_000) % 30_000 == 29_999;
  }

  lemma HalfMinutelyIsLawful()
    ensures Lawful(HalfMinutely())
  {
    forall t, u | t < u && u < HalfMinutely()(t).value
      ensures HalfMinutely()(u) == HalfMinutely()(t)
    {
      SameGap(t, u);
    }
  }

  lemma SameGap(t: int, u: int)
    requires t < u < t - (t - 15_000) % 30_000 + 30_000
    ensures u - (u - 15_000) % 30_000 == t - (t - 15_000) % 30_000
  {
    var q := (t - 15_000) / 30_000;
    assert t - 15_000 == q * 30_000 + (t - 15_000) % 30_000;
    assert 0 <= u - 15_000 - q * 30_000 < 30_000;
    assert (u - 15_000) / 30_000 == q;
  }
}
