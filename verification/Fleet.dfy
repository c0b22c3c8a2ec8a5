/** Any number of runs at once, as a step relation. Each critical section and each provider or
    storage call is one atomic step; between two steps of a run any other run may move, and
    midnight may pass. The shared counter is the one of module DailyCount. */
module Fleet {

  import opened Mask
  import opened Storage
  import opened DailyCount
  import opened Roll

  /** A provider resource: ids are per account. */
  datatype Res = Res(account: string, id: string)

  datatype Grant = Grant(res: Res, addr: Addr)

  /** Where a run is in its loop. */
  datatype Pc =
    | Ready                      // about to ask the counter
    | Cleared                    // the counter said yes
    | Holding(ip: AllocatedIP)   // allocated, not yet counted
    | Counted(ip: AllocatedIP)   // counted, not yet logged
    | Logged(ip: AllocatedIP)    // logged; to be kept or released
    | Finished

  datatype Run = Run(account: string, cap: int, text: string, matcher: Matcher, budget: int, i: nat, pc: Pc)

  /** Everything the program and the providers hold. `grants` and `releases` are the whole history of
      the provider calls, and `dropped` are the runs that were cut short when the process stopped, as
      they then were; the program itself keeps no record of these three. */
  datatype Sys = Sys(
    today: Day, counter: Counter, runs: seq<Run>, dropped: seq<Run>, log: seq<LogEntry>,
    grants: seq<Grant>, live: set<Res>, releases: seq<Res>, stuck: set<Res>,
    pool: map<nat, PoolRow>, poolNext: nat, unsaved: set<Res>)

  /** What stays fixed: how CIDR text is read, the cap of each account, and the most runs of
      one account that are ever active together. */
  datatype Setup = Setup(read: PrefixReader, caps: string -> int, width: nat)

  datatype Event =
    | Midnight(day: Day)
    | Launch(account: string, text: string, budget: int)
    | Check(r: nat)
    | Cancel(r: nat)
    | Allocate(r: nat, outcome: Outcome, slept: bool)
    | Tally(r: nat)
    | Record(r: nat)
    | Free(r: nat, works: bool)
    | Keep(r: nat, saved: bool)
    | Mark(row: nat, vm: string)
    | Restart

  function Weight(run: Run, account: string, f: Pc -> bool): nat {
    if run.account == account && f(run.pc) then 1 else 0
  }

  /** How many runs of an account are at a point described by f. */
  function CountRuns(runs: seq<Run>, account: string, f: Pc -> bool): nat {
    if runs == [] then 0
    else CountRuns(runs[..|runs| - 1], account, f) + Weight(runs[|runs| - 1], account, f)
  }

  predicate IsActive(pc: Pc) {
    !pc.Finished?
  }

  /** Past Allow, and neither counted nor given up. */
  predicate IsPending(pc: Pc) {
    pc.Cleared? || pc.Holding?
  }

  predicate IsHolding(pc: Pc) {
    pc.Holding?
  }

  predicate IsCounted(pc: Pc) {
    pc.Counted?
  }

  function Advance(run: Run): Run {
    if run.i < run.budget then run.(i := run.i + 1, pc := Ready) else run.(pc := Finished)
  }

  predicate Has(s: Sys, r: nat) {
    r < |s.runs|
  }

  function At(s: Sys, r: nat, pc: Pc): Sys
    requires Has(s, r)
  {
    s.(runs := s.runs[r := s.runs[r].(pc := pc)])
  }

  function ResOf(run: Run, ip: AllocatedIP): Res {
    Res(run.account, ip.id)
  }

  predicate Issued(s: Sys, x: Res) {
    exists k :: 0 <= k < |s.grants| && s.grants[k].res == x
  }

  /** When a step can be taken. A provider never hands out a resource id twice on one account,
      and the clock does not go back. */
  predicate Enabled(setup: Setup, s: Sys, e: Event) {
    match e
    case Midnight(day) => s.today <= day
    case Launch(account, text, budget) =>
      budget >= 1 && MaskOf(setup.read, text).Ok? && CountRuns(s.runs, account, IsActive) < setup.width
    case Check(r) => Has(s, r) && s.runs[r].pc.Ready?
    case Cancel(r) => Has(s, r) && s.runs[r].pc.Cleared?
    case Allocate(r, outcome, _) =>
      && Has(s, r) && s.runs[r].pc.Cleared?
      && (outcome.Granted? ==> !Issued(s, ResOf(s.runs[r], outcome.ip)))
    case Tally(r) => Has(s, r) && s.runs[r].pc.Holding?
    case Record(r) => Has(s, r) && s.runs[r].pc.Counted?
    case Free(r, _) => Has(s, r) && s.runs[r].pc.Logged? && !Accepts(s.runs[r].matcher, s.runs[r].pc.ip.addr)
    case Keep(r, _) => Has(s, r) && s.runs[r].pc.Logged? && Accepts(s.runs[r].matcher, s.runs[r].pc.ip.addr)
    case Mark(_, _) => true
    case Restart => true
  }

  function AfterCheck(s: Sys, r: nat): Sys
    requires Has(s, r)
  {
    var run := s.runs[r];
    At(s.(counter := AfterAllow(s.counter, run.account, run.cap, s.today, false)), r,
       if Allowed(s.counter, run.account, run.cap, s.today, false) then Cleared else Finished)
  }

  function AfterAllocate(s: Sys, r: nat, outcome: Outcome, slept: bool): Sys
    requires Has(s, r)
  {
    var run := s.runs[r];
    match outcome
    case Granted(ip) =>
      At(s, r, Holding(ip)).(grants := s.grants + [Grant(ResOf(run, ip), ip.addr)], live := s.live + {ResOf(run, ip)})
    case Refused(err) =>
      s.(runs := s.runs[r := if BacksOff(run.i, err) && slept then Advance(run) else run.(pc := Finished)])
  }

  function AfterFree(s: Sys, r: nat, works: bool): Sys
    requires Has(s, r) && s.runs[r].pc.Logged?
  {
    var x := ResOf(s.runs[r], s.runs[r].pc.ip);
    s.(runs := s.runs[r := Advance(s.runs[r])],
       releases := s.releases + [x],
       live := if works then s.live - {x} else s.live,
       stuck := if works then s.stuck else s.stuck + {x})
  }

  function AfterKeep(s: Sys, r: nat, saved: bool): Sys
    requires Has(s, r) && s.runs[r].pc.Logged?
  {
    var run, ip := s.runs[r], s.runs[r].pc.ip;
    var t := At(s, r, Finished);
    if saved then
      t.(pool := s.pool[s.poolNext := PoolRow(run.account, ip.id, ip.addr, run.text, "")], poolNext := s.poolNext + 1)
    else t.(unsaved := s.unsaved + {ResOf(run, ip)})
  }

  function AfterTally(s: Sys, r: nat): Sys
    requires Has(s, r) && s.runs[r].pc.Holding?
  {
    At(s.(counter := AfterInc(s.counter, s.runs[r].account, s.today, false, false)), r, Counted(s.runs[r].pc.ip))
  }

  function AfterRecord(s: Sys, r: nat): Sys
    requires Has(s, r) && s.runs[r].pc.Counted?
  {
    var run, ip := s.runs[r], s.runs[r].pc.ip;
    var matched := Accepts(run.matcher, ip.addr);
    At(s.(log := s.log + [LogEntry(run.account, ip.addr, matched, !matched)]), r, Logged(ip))
  }

  /** The process stops and starts again: its runs and its cache are gone, the database stays. */
  function AfterRestart(s: Sys): Sys {
    s.(runs := [], dropped := s.dropped + s.runs, counter := Counter(s.today, map[], s.counter.table))
  }

  /** An event that is not enabled changes nothing, so every sequence of events is a history. */
  function Step(setup: Setup, s: Sys, e: Event): Sys {
    if !Enabled(setup, s, e) then s
    else match e
      case Midnight(day) => s.(today := day)
      case Launch(account, text, budget) =>
        s.(runs := s.runs + [Run(account, setup.caps(account), text, MaskOf(setup.read, text).value, budget, 1, Ready)])
      case Check(r) => AfterCheck(s, r)
      case Cancel(r) => At(s, r, Finished)
      case Allocate(r, outcome, slept) => AfterAllocate(s, r, outcome, slept)
      case Tally(r) => AfterTally(s, r)
      case Record(r) => AfterRecord(s, r)
      case Free(r, works) => AfterFree(s, r, works)
      case Keep(r, saved) => AfterKeep(s, r, saved)
      case Mark(row, vm) => s.(pool := Attached(s.pool, row, vm))
      case Restart => AfterRestart(s)
  }

  function Exec(setup: Setup, s: Sys, es: seq<Event>): Sys {
    if es == [] then s else Step(setup, Exec(setup, s, es[..|es| - 1]), es[|es| - 1])
  }

  /** No count is stored for a day that has not come yet. */
  ghost predicate NoFuture(t: DailyTable, today: Day) {
    forall a, d :: d > today ==> Stored(t, a, d) == 0
  }

  /** The bot has just started, on whatever its database and the providers hold: nothing runs and
      nothing is cached. */
  ghost predicate Initial(s: Sys) {
    s.runs == [] && s.counter.cache == map[] && NoFuture(s.counter.table, s.today)
  }

  lemma NoSteps(setup: Setup, s: Sys)
    ensures Exec(setup, s, []) == s
  {
  }

  lemma ExecAppend(setup: Setup, s: Sys, es: seq<Event>, e: Event)
    ensures Exec(setup, s, es + [e]) == Step(setup, Exec(setup, s, es), e)
  {
    assert (es + [e])[..|es|] == es;
  }

  lemma {:induction false} CountUpdate(runs: seq<Run>, r: nat, run: Run, account: string, f: Pc -> bool)
    requires r < |runs|
    ensures CountRuns(runs[r := run], account, f) + Weight(runs[r], account, f) ==
            CountRuns(runs, account, f) + Weight(run, account, f)
  {
    var n := |runs| - 1;
    if r == n {
      assert runs[r := run][..n] == runs[..n];
    } else {
      assert runs[r := run][..n] == runs[..n][r := run];
      CountUpdate(runs[..n], r, run, account, f);
    }
  }

  lemma CountLaunch(runs: seq<Run>, run: Run, account: string, f: Pc -> bool)
    ensures CountRuns(runs + [run], account, f) == CountRuns(runs, account, f) + Weight(run, account, f)
  {
    assert (runs + [run])[..|runs|] == runs;
  }

  lemma {:induction false} CountMonotone(runs: seq<Run>, account: string, f: Pc -> bool, g: Pc -> bool)
    requires forall pc :: f(pc) ==> g(pc)
    ensures CountRuns(runs, account, f) <= CountRuns(runs, account, g)
  {
    if runs != [] {
      CountMonotone(runs[..|runs| - 1], account, f, g);
    }
  }

  /** How a step moves the number of runs at a point: only the run that steps matters. */
  lemma CountStep(setup: Setup, s: Sys, e: Event, account: string, f: Pc -> bool)
    ensures !e.Restart? ==> Step(setup, s, e).dropped == s.dropped
    ensures var t := Step(setup, s, e);
      if !Enabled(setup, s, e) || e.Midnight? || e.Mark? then t.runs == s.runs
      else if e.Restart? then t.runs == [] && CountRuns(t.runs, account, f) == 0 && t.dropped == s.dropped + s.runs
      else if e.Launch? then
        |t.runs| == |s.runs| + 1 &&
        CountRuns(t.runs, account, f) == CountRuns(s.runs, account, f) + Weight(t.runs[|s.runs|], account, f)
      else
        && |t.runs| == |s.runs| && e.r < |s.runs| && t.runs[e.r].account == s.runs[e.r].account
        && t.runs == s.runs[e.r := t.runs[e.r]]
        && CountRuns(t.runs, account, f) + Weight(s.runs[e.r], account, f) ==
           CountRuns(s.runs, account, f) + Weight(t.runs[e.r], account, f)
  {
    hide MaskOf, Accepts, Issued, AfterAllow, AfterInc, Allowed, BacksOff;
    var t := Step(setup, s, e);
    if Enabled(setup, s, e) && !e.Midnight? && !e.Mark? && !e.Restart? {
      if e.Launch? {
        CountLaunch(s.runs, t.runs[|s.runs|], account, f);
      } else {
        CountUpdate(s.runs, e.r, t.runs[e.r], account, f);
      }
    }
  }

  lemma {:induction false} CountConcat(runs: seq<Run>, more: seq<Run>, account: string, f: Pc -> bool)
    ensures CountRuns(runs + more, account, f) == CountRuns(runs, account, f) + CountRuns(more, account, f)
  {
    if more == [] {
      assert runs + more == runs;
    } else {
      var n := |more| - 1;
      assert runs + more == runs + more[..n] + [more[n]];
      CountLaunch(runs + more[..n], more[n], account, f);
      CountConcat(runs, more[..n], account, f);
    }
  }

  lemma {:induction false} ExecConcat(setup: Setup, s: Sys, es: seq<Event>, fs: seq<Event>)
    ensures Exec(setup, s, es + fs) == Exec(setup, Exec(setup, s, es), fs)
  {
    if fs == [] {
      assert es + fs == es;
    } else {
      var n := |fs| - 1;
      assert (es + fs)[..|es + fs| - 1] == es + fs[..n];
      ExecConcat(setup, s, es, fs[..n]);
    }
  }

  lemma ExecSix(setup: Setup, s: Sys, a: Event, b: Event, c: Event, d: Event, e: Event, f: Event)
    ensures Exec(setup, s, [a, b, c, d, e, f]) ==
            Step(setup, Step(setup, Step(setup, Step(setup, Step(setup, Step(setup, s, a), b), c), d), e), f)
  {
    hide Step;
    ExecAppend(setup, s, [], a);
    ExecAppend(setup, s, [a], b);
    ExecAppend(setup, s, [a, b], c);
    ExecAppend(setup, s, [a, b, c], d);
    ExecAppend(setup, s, [a, b, c, d], e);
    ExecAppend(setup, s, [a, b, c, d, e], f);
    assert [] + [a] == [a] && [a] + [b] == [a, b] && [a, b] + [c] == [a, b, c];
    assert [a, b, c] + [d] == [a, b, c, d] && [a, b, c, d] + [e] == [a, b, c, d, e];
    assert [a, b, c, d, e] + [f] == [a, b, c, d, e, f];
  }
}
