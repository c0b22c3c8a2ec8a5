/** The three records of an account's rolls: the daily counters, the roll log and the
    provider's grants. They agree whenever no run is, or was stopped, between two of them. */
module FleetLedger {

  import opened Mask
  import opened Storage
  import opened DailyCount
  import opened Roll
  import opened Fleet

  /** The counts of an account over all days up to d. */
  function SumDays(t: DailyTable, account: string, d: Day): nat {
    Stored(t, account, d) + if d == 0 then 0 else SumDays(t, account, d - 1)
  }

  function LogRows(log: seq<LogEntry>, account: string): nat {
    if log == [] then 0
    else LogRows(log[..|log| - 1], account) + if log[|log| - 1].account == account then 1 else 0
  }

  function Grants(grants: seq<Grant>, account: string): nat {
    if grants == [] then 0
    else Grants(grants[..|grants| - 1], account) + if grants[|grants| - 1].res.account == account then 1 else 0
  }

  lemma {:induction false} SumBumped(t: DailyTable, account: string, day: Day, a: string, d: Day)
    ensures SumDays(Bumped(t, account, day), a, d) == SumDays(t, a, d) + if a == account && day <= d then 1 else 0
  {
    BumpedAt(t, account, day, a, d);
    if d > 0 {
      SumBumped(t, account, day, a, d - 1);
    }
  }

  /** Days that have not come add nothing, so a sum up to today is the sum over all days. */
  lemma {:induction false} SumIsTotal(t: DailyTable, account: string, today: Day, d: Day)
    requires NoFuture(t, today) && today <= d
    ensures SumDays(t, account, d) == SumDays(t, account, today)
  {
    if d > today {
      SumIsTotal(t, account, today, d - 1);
    }
  }

  // ---- two numbers that no step changes ----

  function Total(s: Sys, account: string): nat {
    SumDays(s.counter.table, account, s.today)
  }

  /** The runs at a point, those that a restart stopped there included. */
  function Between(s: Sys, account: string, f: Pc -> bool): nat {
    CountRuns(s.runs, account, f) + CountRuns(s.dropped, account, f)
  }

  function LogGap(s: Sys, account: string): int {
    Total(s, account) - LogRows(s.log, account) - Between(s, account, IsCounted)
  }

  function GrantGap(s: Sys, account: string): int {
    Grants(s.grants, account) - Total(s, account) - Between(s, account, IsHolding)
  }

  ghost predicate Dated(s: Sys) {
    Agrees(s.counter) && NoFuture(s.counter.table, s.today)
  }

  ghost predicate SameGaps(s: Sys, t: Sys, account: string) {
    Dated(t) && s.today <= t.today && LogGap(t, account) == LogGap(s, account) && GrantGap(t, account) == GrantGap(s, account)
  }

  lemma MidnightGaps(s: Sys, day: Day, account: string)
    requires Dated(s) && s.today <= day
    ensures SameGaps(s, s.(today := day), account)
  {
    SumIsTotal(s.counter.table, account, s.today, day);
  }

  lemma RestartGaps(s: Sys, account: string)
    requires Dated(s)
    ensures SameGaps(s, AfterRestart(s), account)
  {
    CountConcat(s.dropped, s.runs, account, IsCounted);
    CountConcat(s.dropped, s.runs, account, IsHolding);
  }

  /** A step of run r that touches no record leaves the gaps, if the run is at neither point
      before or after. */
  lemma RunGaps(s: Sys, t: Sys, r: nat, account: string)
    requires Dated(s) && Dated(t) && Has(s, r) && |t.runs| == |s.runs| && t.runs == s.runs[r := t.runs[r]]
    requires t.today == s.today && t.counter.table == s.counter.table && t.dropped == s.dropped
    requires t.log == s.log && t.grants == s.grants
    requires !s.runs[r].pc.Counted? && !t.runs[r].pc.Counted? && !s.runs[r].pc.Holding? && !t.runs[r].pc.Holding?
    ensures SameGaps(s, t, account)
  {
    hide CountRuns, SumDays, Agrees;
    CountUpdate(s.runs, r, t.runs[r], account, IsCounted);
    CountUpdate(s.runs, r, t.runs[r], account, IsHolding);
  }

  lemma CheckGaps(s: Sys, r: nat, account: string)
    requires Dated(s) && Has(s, r) && s.runs[r].pc.Ready?
    ensures SameGaps(s, AfterCheck(s, r), account)
  {
    RunGaps(s, AfterCheck(s, r), r, account);
  }

  lemma AllocateGaps(s: Sys, r: nat, outcome: Outcome, slept: bool, account: string)
    requires Dated(s) && Has(s, r) && s.runs[r].pc.Cleared?
    ensures SameGaps(s, AfterAllocate(s, r, outcome, slept), account)
  {
    hide SumDays, Agrees, Retryable;
    var t := AfterAllocate(s, r, outcome, slept);
    CountUpdate(s.runs, r, t.runs[r], account, IsCounted);
    CountUpdate(s.runs, r, t.runs[r], account, IsHolding);
    assert outcome.Granted? ==> t.grants[..|s.grants|] == s.grants;
  }

  lemma TallyGaps(s: Sys, r: nat, account: string)
    requires Dated(s) && Has(s, r) && s.runs[r].pc.Holding?
    ensures SameGaps(s, AfterTally(s, r), account)
  {
    hide SumDays, Agrees, AfterInc;
    var t, a := AfterTally(s, r), s.runs[r].account;
    CountingAgrees(s.counter, a, s.today);
    SumBumped(s.counter.table, a, s.today, account, s.today);
    CountUpdate(s.runs, r, t.runs[r], account, IsCounted);
    CountUpdate(s.runs, r, t.runs[r], account, IsHolding);
  }

  lemma RecordGaps(s: Sys, r: nat, account: string)
    requires Dated(s) && Has(s, r) && s.runs[r].pc.Counted?
    ensures SameGaps(s, AfterRecord(s, r), account)
  {
    hide SumDays, Agrees, Accepts;
    var t := AfterRecord(s, r);
    CountUpdate(s.runs, r, t.runs[r], account, IsCounted);
    CountUpdate(s.runs, r, t.runs[r], account, IsHolding);
    assert t.log[..|s.log|] == s.log;
  }

  lemma LaunchGaps(s: Sys, run: Run, account: string)
    requires Dated(s) && run.pc.Ready?
    ensures SameGaps(s, s.(runs := s.runs + [run]), account)
  {
    CountLaunch(s.runs, run, account, IsCounted);
    CountLaunch(s.runs, run, account, IsHolding);
  }

  lemma StepBalances(setup: Setup, s: Sys, e: Event, account: string)
    requires Dated(s)
    ensures SameGaps(s, Step(setup, s, e), account)
  {
    hide Dated, SameGaps, CountRuns, MaskOf, Accepts, Issued, AfterCheck, AfterAllocate, AfterTally, AfterRecord, AfterRestart;
    var t := Step(setup, s, e);
    if !Enabled(setup, s, e) || e.Mark? {
      SameRecords(s, t, account);
    } else {
      match e
      case Midnight(day) => MidnightGaps(s, day, account);
      case Launch(_, _, _) => LaunchGaps(s, t.runs[|s.runs|], account);
      case Check(r) => CheckGaps(s, r, account);
      case Cancel(r) => SameDates(s, t); RunGaps(s, t, r, account);
      case Allocate(r, outcome, slept) => AllocateGaps(s, r, outcome, slept, account);
      case Tally(r) => TallyGaps(s, r, account);
      case Record(r) => RecordGaps(s, r, account);
      case Free(r, _) => SameDates(s, t); RunGaps(s, t, r, account);
      case Keep(r, _) => SameDates(s, t); RunGaps(s, t, r, account);
      case Restart => RestartGaps(s, account);
    }
  }

  lemma SameDates(s: Sys, t: Sys)
    requires Dated(s) && t.counter == s.counter && t.today == s.today
    ensures Dated(t)
  {
  }

  lemma SameRecords(s: Sys, t: Sys, account: string)
    requires Dated(s) && t.counter == s.counter && t.today == s.today
    requires t.runs == s.runs && t.dropped == s.dropped && t.log == s.log && t.grants == s.grants
    ensures SameGaps(s, t, account)
  {
  }

  /** The two gaps are the same in every reachable state, restarts included. */
  lemma {:induction false} LedgerInvariant(setup: Setup, s: Sys, es: seq<Event>, account: string)
    requires Initial(s)
    ensures SameGaps(s, Exec(setup, s, es), account)
  {
    hide Step, LogGap, GrantGap;
    if es != [] {
      LedgerInvariant(setup, s, es[..|es| - 1], account);
      StepBalances(setup, Exec(setup, s, es[..|es| - 1]), es[|es| - 1], account);
    }
  }

  /** At every point of every history, with no storage failures, whatever the bot started from: what
      an account's counters gained over all days is the log rows it gained plus the runs between
      counting and logging, and its new grants less the runs between allocating and counting. A
      run that a restart stopped there stays there. When there is none, the three numbers are equal. */
  lemma CounterAndLogAgree(setup: Setup, s: Sys, es: seq<Event>, account: string, horizon: Day)
    requires Initial(s) && Exec(setup, s, es).today <= horizon
    ensures var t := Exec(setup, s, es);
      var used := SumDays(t.counter.table, account, horizon) - SumDays(s.counter.table, account, horizon);
      && used == LogRows(t.log, account) - LogRows(s.log, account)
                 + Between(t, account, IsCounted) - Between(s, account, IsCounted)
      && used == Grants(t.grants, account) - Grants(s.grants, account)
                 - Between(t, account, IsHolding) + Between(s, account, IsHolding)
  {
    hide Exec, SumDays, Between;
    LedgerInvariant(setup, s, es, account);
    var t := Exec(setup, s, es);
    SumIsTotal(t.counter.table, account, t.today, horizon);
    SumIsTotal(s.counter.table, account, s.today, horizon);
  }
}
