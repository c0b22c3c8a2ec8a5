/** Billing conservation: in every reachable state of any number of concurrent runs, across restarts,
    each resource the provider still bills for is accounted for in exactly one way, no resource is
    released twice, and a kept address is never released. Every pool row is justified by the
    allocation that produced it and by its own mask. */
module FleetBilling {

  import opened Wrappers
  import opened Mask
  import opened Storage
  import opened DailyCount
  import opened Roll
  import opened Fleet

  function HeldIp(pc: Pc): Option<AllocatedIP> {
    match pc
    case Holding(ip) => Some(ip)
    case Counted(ip) => Some(ip)
    case Logged(ip) => Some(ip)
    case _ => None
  }

  /** What a run has in hand: allocated, and neither released nor handed over. */
  function Held(run: Run): set<Res> {
    if HeldIp(run.pc).Some? then {ResOf(run, HeldIp(run.pc).value)} else {}
  }

  function InFlight(runs: seq<Run>): set<Res> {
    if runs == [] then {} else InFlight(runs[..|runs| - 1]) + Held(runs[|runs| - 1])
  }

  /** What runs had in hand when the process stopped. */
  function Lost(s: Sys): set<Res> {
    InFlight(s.dropped)
  }

  /** No two runs hold the same resource. */
  ghost predicate Apart(runs: seq<Run>) {
    forall q, r :: 0 <= q < r < |runs| ==> Held(runs[q]) !! Held(runs[r])
  }

  function RowRes(row: PoolRow): Res {
    Res(row.account, row.resourceId)
  }

  function Pooled(pool: map<nat, PoolRow>): set<Res> {
    set id | id in pool :: RowRes(pool[id])
  }

  function Granted(grants: seq<Grant>): set<Res> {
    set k | 0 <= k < |grants| :: grants[k].res
  }

  function Members(xs: seq<Res>): set<Res> {
    set x | x in xs
  }

  ghost predicate RowsDiffer(pool: map<nat, PoolRow>, next: nat) {
    && (forall id :: id in pool ==> id < next)
    && (forall i, j :: i in pool && j in pool && RowRes(pool[i]) == RowRes(pool[j]) ==> i == j)
  }

  /** The conservation law. A live resource is in the hands of exactly one run, or was lost in the
      hands of one when the process stopped, or its release failed, or it has exactly one pool row,
      or it matched and its row could not be saved.
      Every resource ever granted is live or was released; a release was tried once at most,
      and of the live ones exactly those whose release failed were tried. */
  ghost predicate Conserved(s: Sys) {
    && s.live == InFlight(s.runs) + Lost(s) + s.stuck + Pooled(s.pool) + s.unsaved
    && (InFlight(s.runs) !! Lost(s) !! s.stuck !! Pooled(s.pool) !! s.unsaved)
    && Apart(s.runs) && Apart(s.dropped)
    && RowsDiffer(s.pool, s.poolNext)
    && Granted(s.grants) == s.live + Members(s.releases)
    && s.live * Members(s.releases) == s.stuck
    && NoDuplicates(s.releases)
  }

  lemma {:induction false} HeldInFlight(runs: seq<Run>, r: nat)
    requires r < |runs|
    ensures Held(runs[r]) <= InFlight(runs)
  {
    if r < |runs| - 1 {
      HeldInFlight(runs[..|runs| - 1], r);
    }
  }

  lemma {:induction false} FlightHeld(runs: seq<Run>, x: Res)
    requires x in InFlight(runs)
    ensures exists r :: 0 <= r < |runs| && x in Held(runs[r])
  {
    var n := |runs| - 1;
    if x !in Held(runs[n]) {
      FlightHeld(runs[..n], x);
      var r :| 0 <= r < n && x in Held(runs[..n][r]);
      assert x in Held(runs[r]);
    }
  }

  /** When a run steps, what it held leaves the flight and what it holds now enters. */
  lemma FlightUpdate(runs: seq<Run>, r: nat, run: Run)
    requires r < |runs| && Apart(runs)
    requires Held(run) <= Held(runs[r]) || Held(run) !! InFlight(runs)
    ensures InFlight(runs[r := run]) == InFlight(runs) - Held(runs[r]) + Held(run)
    ensures Apart(runs[r := run])
  {
    var now := runs[r := run];
    forall q | 0 <= q < |runs|
      ensures Held(runs[q]) <= InFlight(runs) && Held(now[q]) <= InFlight(now)
    {
      HeldInFlight(runs, q);
      HeldInFlight(now, q);
    }
    forall x | x in InFlight(now)
      ensures x in InFlight(runs) - Held(runs[r]) + Held(run)
    {
      FlightHeld(now, x);
      var q :| 0 <= q < |now| && x in Held(now[q]);
      assert q != r ==> Held(runs[q]) !! Held(runs[r]);
    }
    forall x | x in InFlight(runs) && x !in Held(runs[r])
      ensures x in InFlight(now)
    {
      FlightHeld(runs, x);
      var q :| 0 <= q < |runs| && x in Held(runs[q]);
      assert x in Held(now[q]);
    }
  }

  lemma PoolAdd(pool: map<nat, PoolRow>, id: nat, row: PoolRow)
    requires id !in pool
    ensures Pooled(pool[id := row]) == Pooled(pool) + {RowRes(row)}
  {
    var now := pool[id := row];
    assert RowRes(now[id]) == RowRes(row);
    forall x | x in Pooled(pool) ensures x in Pooled(now) {
      var i :| i in pool && RowRes(pool[i]) == x;
      assert RowRes(now[i]) == x;
    }
  }

  lemma PoolMark(pool: map<nat, PoolRow>, id: nat, vm: string)
    ensures Pooled(Attached(pool, id, vm)) == Pooled(pool)
  {
    var now := Attached(pool, id, vm);
    assert forall i :: i in pool ==> i in now && RowRes(now[i]) == RowRes(pool[i]);
    forall x | x in Pooled(pool) ensures x in Pooled(now) {
      var i :| i in pool && RowRes(pool[i]) == x;
      assert RowRes(now[i]) == x;
    }
  }

  lemma GrantAdd(grants: seq<Grant>, g: Grant)
    ensures Granted(grants + [g]) == Granted(grants) + {g.res}
  {
    var now := grants + [g];
    assert now[|grants|] == g;
    forall x | x in Granted(grants) ensures x in Granted(now) {
      var k :| 0 <= k < |grants| && grants[k].res == x;
      assert now[k].res == x;
    }
  }

  /** A step that changes only what a run is doing, not what it holds. */
  lemma SameHoldings(s: Sys, t: Sys, r: nat)
    requires Conserved(s) && r < |s.runs| == |t.runs|
    requires t.runs == s.runs[r := t.runs[r]] && Held(t.runs[r]) == Held(s.runs[r])
    requires t.live == s.live && t.stuck == s.stuck && t.pool == s.pool && t.poolNext == s.poolNext
    requires t.unsaved == s.unsaved && t.releases == s.releases && t.grants == s.grants && t.dropped == s.dropped
    ensures Conserved(t)
  {
    FlightUpdate(s.runs, r, t.runs[r]);
    HeldInFlight(s.runs, r);
  }

  lemma LaunchConserves(s: Sys, run: Run)
    requires Conserved(s) && run.pc.Ready?
    ensures Conserved(s.(runs := s.runs + [run]))
  {
    assert (s.runs + [run])[..|s.runs|] == s.runs;
  }

  lemma GrantConserves(s: Sys, r: nat, ip: AllocatedIP)
    requires Conserved(s) && Has(s, r) && s.runs[r].pc.Cleared? && !Issued(s, ResOf(s.runs[r], ip))
    ensures Conserved(AfterAllocate(s, r, Outcome.Granted(ip), true))
  {
    var x, run := ResOf(s.runs[r], ip), s.runs[r].(pc := Holding(ip));
    assert x !in Granted(s.grants);
    FlightUpdate(s.runs, r, run);
    GrantAdd(s.grants, Grant(x, ip.addr));
  }

  lemma FreeConserves(s: Sys, r: nat, works: bool)
    requires Conserved(s) && Has(s, r) && s.runs[r].pc.Logged?
    ensures Conserved(AfterFree(s, r, works))
  {
    hide InFlight, Apart, Pooled, RowsDiffer, Granted, Members;
    var t := AfterFree(s, r, works);
    var x := ResOf(s.runs[r], s.runs[r].pc.ip);
    assert Held(s.runs[r]) == {x} && Held(t.runs[r]) == {};
    HeldInFlight(s.runs, r);
    FlightUpdate(s.runs, r, t.runs[r]);
    assert x in s.live && x !in s.stuck;
    assert x !in Members(s.releases);
    ReleaseAdd(s.releases, x);
  }

  lemma ReleaseAdd(xs: seq<Res>, x: Res)
    requires NoDuplicates(xs) && x !in Members(xs)
    ensures NoDuplicates(xs + [x]) && Members(xs + [x]) == Members(xs) + {x}
  {
    forall i, j | 0 <= i < j < |xs + [x]| ensures (xs + [x])[i] != (xs + [x])[j] {
      assert xs[i] in Members(xs);
    }
  }

  lemma RowAdd(pool: map<nat, PoolRow>, next: nat, row: PoolRow)
    requires RowsDiffer(pool, next) && RowRes(row) !in Pooled(pool)
    ensures RowsDiffer(pool[next := row], next + 1)
    ensures Pooled(pool[next := row]) == Pooled(pool) + {RowRes(row)}
  {
    assert next !in pool;
    PoolAdd(pool, next, row);
    assert forall i :: i in pool ==> RowRes(pool[i]) in Pooled(pool);
  }

  lemma KeepConserves(s: Sys, r: nat, saved: bool)
    requires Conserved(s) && Has(s, r) && s.runs[r].pc.Logged?
    ensures Conserved(AfterKeep(s, r, saved))
  {
    hide InFlight, Apart, Pooled, RowsDiffer, Granted, Members;
    var t := AfterKeep(s, r, saved);
    var x := ResOf(s.runs[r], s.runs[r].pc.ip);
    assert Held(s.runs[r]) == {x} && Held(t.runs[r]) == {};
    HeldInFlight(s.runs, r);
    FlightUpdate(s.runs, r, t.runs[r]);
    if saved {
      RowAdd(s.pool, s.poolNext, t.pool[s.poolNext]);
    }
  }

  lemma StepConserves(setup: Setup, s: Sys, e: Event)
    requires Conserved(s)
    ensures Conserved(Step(setup, s, e))
  {
    hide Conserved, CountRuns, Accepts, MaskOf, AfterFree, AfterKeep;
    var t := Step(setup, s, e);
    if Enabled(setup, s, e) {
      match e
      case Midnight(day) => MidnightConserves(s, day);
      case Launch(_, _, _) => LaunchConserves(s, t.runs[|s.runs|]);
      case Check(r) => SameHoldings(s, t, r);
      case Cancel(r) => SameHoldings(s, t, r);
      case Allocate(r, outcome, _) =>
        if outcome.Granted? {
          GrantConserves(s, r, outcome.ip);
        } else {
          SameHoldings(s, t, r);
        }
      case Tally(r) => SameHoldings(s, t, r);
      case Record(r) => SameHoldings(s, t, r);
      case Free(r, works) => FreeConserves(s, r, works);
      case Keep(r, saved) => KeepConserves(s, r, saved);
      case Mark(row, vm) => MarkConserves(s, row, vm);
      case Restart => RestartConserves(s);
    }
  }

  lemma {:induction false} FlightConcat(runs: seq<Run>, more: seq<Run>)
    ensures InFlight(runs + more) == InFlight(runs) + InFlight(more)
  {
    if more == [] {
      assert runs + more == runs;
    } else {
      var n := |more| - 1;
      assert (runs + more)[..|runs| + n] == runs + more[..n];
      FlightConcat(runs, more[..n]);
    }
  }

  lemma ApartConcat(runs: seq<Run>, more: seq<Run>)
    requires Apart(runs) && Apart(more) && InFlight(runs) !! InFlight(more)
    ensures Apart(runs + more)
  {
    forall q, r | 0 <= q < |runs| && 0 <= r < |more| ensures Held(runs[q]) !! Held(more[r]) {
      HeldInFlight(runs, q);
      HeldInFlight(more, r);
    }
  }

  lemma RestartConserves(s: Sys)
    requires Conserved(s)
    ensures Conserved(AfterRestart(s))
  {
    FlightConcat(s.dropped, s.runs);
    ApartConcat(s.dropped, s.runs);
  }

  lemma MidnightConserves(s: Sys, day: Day)
    requires Conserved(s)
    ensures Conserved(s.(today := day))
  {
  }

  lemma MarkConserves(s: Sys, row: nat, vm: string)
    requires Conserved(s)
    ensures Conserved(s.(pool := Attached(s.pool, row, vm)))
  {
    hide InFlight, Apart, Granted, Members;
    PoolMark(s.pool, row, vm);
    var t := s.(pool := Attached(s.pool, row, vm));
    assert forall i :: i in t.pool ==> RowRes(t.pool[i]) == RowRes(s.pool[i]);
  }

  /** Conservation in every state reachable from a conserving one, such as the empty one. */
  lemma {:induction false} BillingConservation(setup: Setup, s: Sys, es: seq<Event>)
    requires Conserved(s)
    ensures Conserved(Exec(setup, s, es))
  {
    if es != [] {
      BillingConservation(setup, s, es[..|es| - 1]);
      StepConserves(setup, Exec(setup, s, es[..|es| - 1]), es[|es| - 1]);
    }
  }

  function Kept(s: Sys): set<Res> {
    Pooled(s.pool) + s.unsaved
  }

  lemma StepKeeps(setup: Setup, s: Sys, e: Event)
    requires Conserved(s)
    ensures Kept(s) <= Kept(Step(setup, s, e))
  {
    hide CountRuns, MaskOf, Accepts, Issued, AfterAllow, AfterInc, Allowed, Attached, Pooled;
    if Enabled(setup, s, e) {
      match e
      case Keep(r, saved) =>
        if saved {
          PoolAdd(s.pool, s.poolNext, Step(setup, s, e).pool[s.poolNext]);
        }
      case Mark(row, vm) => PoolMark(s.pool, row, vm);
      case _ =>
    }
  }

  /** A kept address, saved or not, stays kept, and is never released: whatever happens after
      it was kept, it is still live and no release of it was ever tried. */
  lemma {:induction false} KeptForGood(setup: Setup, s: Sys, es: seq<Event>, later: seq<Event>, x: Res)
    requires Conserved(s) && x in Kept(Exec(setup, s, es))
    ensures var t := Exec(setup, s, es + later);
      x in Kept(t) && x in t.live && x !in t.releases
  {
    hide Step, Conserved;
    if later == [] {
      assert es + later == es;
    } else {
      var n := |later| - 1;
      KeptForGood(setup, s, es, later[..n], x);
      BillingConservation(setup, s, es + later[..n]);
      assert (es + later)[..|es + later| - 1] == es + later[..n];
      StepKeeps(setup, Exec(setup, s, es + later[..n]), later[n]);
    }
    BillingConservation(setup, s, es + later);
    KeptIsLive(Exec(setup, s, es + later), x);
  }

  lemma KeptIsLive(s: Sys, x: Res)
    requires Conserved(s) && x in Kept(s)
    ensures x in s.live && x !in s.releases
  {
    assert x in s.releases ==> x in Members(s.releases);
  }

  // ---- what a restart costs ----

  predicate EmptyHanded(runs: seq<Run>) {
    forall r :: 0 <= r < |runs| ==> HeldIp(runs[r].pc).None?
  }

  lemma {:induction false} NothingHeld(runs: seq<Run>)
    ensures InFlight(runs) == {} <==> EmptyHanded(runs)
  {
    if runs != [] {
      NothingHeld(runs[..|runs| - 1]);
    }
  }

  lemma StepLoses(setup: Setup, s: Sys, e: Event)
    requires Conserved(s)
    ensures Lost(s) <= Lost(Step(setup, s, e))
    ensures Lost(Step(setup, s, e)) == Lost(s) <==> e.Restart? ==> EmptyHanded(s.runs)
  {
    hide CountRuns, MaskOf, Accepts, Issued, AfterAllow, AfterInc, Allowed, Attached, InFlight, Pooled, EmptyHanded;
    if e.Restart? {
      FlightConcat(s.dropped, s.runs);
      NothingHeld(s.runs);
    }
  }

  /** No restart of the history comes while a run has an address in hand. */
  ghost predicate CleanRestarts(setup: Setup, s: Sys, es: seq<Event>) {
    forall i :: 0 <= i < |es| ==> es[i].Restart? ==> EmptyHanded(Exec(setup, s, es[..i]).runs)
  }

  lemma CleanLast(setup: Setup, s: Sys, es: seq<Event>)
    requires es != []
    ensures var n := |es| - 1;
      CleanRestarts(setup, s, es) <==>
        CleanRestarts(setup, s, es[..n]) && (es[n].Restart? ==> EmptyHanded(Exec(setup, s, es[..n]).runs))
  {
    hide Exec, EmptyHanded;
    var n := |es| - 1;
    assert forall i :: 0 <= i < n ==> es[..n][..i] == es[..i] && es[..n][i] == es[i];
  }

  lemma {:induction false} LostGrows(setup: Setup, s: Sys, es: seq<Event>)
    requires Conserved(s)
    ensures Lost(s) <= Lost(Exec(setup, s, es))
  {
    hide Step, Conserved, Lost;
    if es != [] {
      LostGrows(setup, s, es[..|es| - 1]);
      BillingConservation(setup, s, es[..|es| - 1]);
      StepLoses(setup, Exec(setup, s, es[..|es| - 1]), es[|es| - 1]);
    } else {
      assert Exec(setup, s, es) == s;
    }
  }

  /** A history loses no address exactly when its restarts are clean. */
  lemma {:induction false} LostExactly(setup: Setup, s: Sys, es: seq<Event>)
    requires Conserved(s)
    ensures Lost(Exec(setup, s, es)) == Lost(s) <==> CleanRestarts(setup, s, es)
  {
    hide Step, Conserved, Lost, CleanRestarts, EmptyHanded;
    if es != [] {
      var front := es[..|es| - 1];
      LostExactly(setup, s, front);
      LostGrows(setup, s, front);
      BillingConservation(setup, s, front);
      StepLoses(setup, Exec(setup, s, front), es[|es| - 1]);
      CleanLast(setup, s, es);
    } else {
      assert Exec(setup, s, es) == s;
      assert CleanRestarts(setup, s, es) by { NoRestarts(setup, s); }
    }
  }

  lemma NoRestarts(setup: Setup, s: Sys)
    ensures CleanRestarts(setup, s, [])
  {
  }

  /** A lost address is billed for good: it stays live, is never released, and has no pool row. */
  lemma LostForGood(setup: Setup, s: Sys, es: seq<Event>, x: Res)
    requires Conserved(s) && x in Lost(s)
    ensures var t := Exec(setup, s, es);
      x in Lost(t) && x in t.live && x !in t.releases && x !in Kept(t)
  {
    hide Exec;
    LostGrows(setup, s, es);
    BillingConservation(setup, s, es);
    var t := Exec(setup, s, es);
    assert x in t.releases ==> x in Members(t.releases);
  }

  /** When nothing is running, the provider bills for the kept addresses, the failed releases and
      the lost addresses only. */
  lemma QuietBill(setup: Setup, s: Sys, es: seq<Event>)
    requires Conserved(s)
    requires forall r :: 0 <= r < |Exec(setup, s, es).runs| ==> Exec(setup, s, es).runs[r].pc.Finished?
    ensures var t := Exec(setup, s, es); t.live == t.stuck + Kept(t) + Lost(t)
  {
    hide Exec;
    BillingConservation(setup, s, es);
    var t := Exec(setup, s, es);
    if x :| x in InFlight(t.runs) {
      FlightHeld(t.runs, x);
    }
  }

  // ---- pool rows ----

  /** A row is justified when the allocation it names gave that very address, and the mask
      written in the row parses and accepts it. */
  ghost predicate Justified(setup: Setup, s: Sys, row: PoolRow) {
    && Grant(RowRes(row), row.ip) in s.grants
    && MaskOf(setup.read, row.mask).Ok?
    && Accepts(MaskOf(setup.read, row.mask).value, row.ip)
  }

  ghost predicate RunsSound(setup: Setup, s: Sys) {
    forall r :: 0 <= r < |s.runs| ==>
      var run := s.runs[r];
      && MaskOf(setup.read, run.text) == Ok(run.matcher)
      && (HeldIp(run.pc).Some? ==> Grant(ResOf(run, HeldIp(run.pc).value), HeldIp(run.pc).value.addr) in s.grants)
  }

  lemma StepRunsSound(setup: Setup, s: Sys, e: Event)
    requires RunsSound(setup, s)
    ensures RunsSound(setup, Step(setup, s, e))
    ensures s.grants <= Step(setup, s, e).grants
  {
    hide CountRuns, MaskOf, Accepts, Issued, AfterAllow, AfterInc, Allowed;
    var t := Step(setup, s, e);
    assert forall g :: g in s.grants ==> g in t.grants;
    assert e.Allocate? && e.outcome.Granted? && Enabled(setup, s, e) ==> t.grants[|s.grants|] in t.grants;
  }

  /** Rows are only added by Keep and only their vm ever changes. */
  lemma StepRows(setup: Setup, s: Sys, e: Event, id: nat)
    requires RunsSound(setup, s) && id in Step(setup, s, e).pool
    ensures var row := Step(setup, s, e).pool[id];
      || (id in s.pool && row.(vm := s.pool[id].vm) == s.pool[id])
      || Justified(setup, s, row)
  {
    hide CountRuns, MaskOf, Accepts, Issued, AfterAllow, AfterInc, Allowed;
  }

  lemma StepJustifies(setup: Setup, s: Sys, e: Event)
    requires RunsSound(setup, s) && forall id :: id in s.pool ==> Justified(setup, s, s.pool[id])
    ensures var t := Step(setup, s, e);
      RunsSound(setup, t) && forall id :: id in t.pool ==> Justified(setup, t, t.pool[id])
  {
    hide Step, RunsSound, MaskOf, Accepts;
    var t := Step(setup, s, e);
    StepRunsSound(setup, s, e);
    assert forall g :: g in s.grants ==> g in t.grants;
    forall id | id in t.pool ensures Justified(setup, t, t.pool[id]) {
      StepRows(setup, s, e, id);
    }
  }

  /** Every pool row is justified in every reachable state, if those the bot starts with are. */
  lemma {:induction false} PoolJustified(setup: Setup, s: Sys, es: seq<Event>)
    requires Initial(s) && forall id :: id in s.pool ==> Justified(setup, s, s.pool[id])
    ensures var t := Exec(setup, s, es);
      RunsSound(setup, t) && forall id :: id in t.pool ==> Justified(setup, t, t.pool[id])
  {
    if es != [] {
      hide Step, RunsSound, Justified;
      PoolJustified(setup, s, es[..|es| - 1]);
      StepJustifies(setup, Exec(setup, s, es[..|es| - 1]), es[|es| - 1]);
    }
  }
}
