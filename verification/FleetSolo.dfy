/** The step relation is the loop: a run that nothing interrupts does, step by step, what the
    sequential loop does, from its first attempt to its exit. */
module FleetSolo {

  import opened Mask
  import opened Storage
  import opened DailyCount
  import opened Roll
  import opened Fleet

  /** The steps of one attempt of run r, midnights included. Those that do not apply change
      nothing. */
  function AttemptSteps(r: nat, a: Attempt): seq<Event> {
    [Midnight(a.allowDay), Check(r)] + if a.waited then LastSteps(r, a) else [Cancel(r)]
  }

  /** The attempt from Allocate on. */
  function LastSteps(r: nat, a: Attempt): seq<Event> {
    [Allocate(r, a.outcome, a.backoffCut.None?), Midnight(a.incDay), Tally(r), Record(r), Free(r, a.released), Keep(r, true)]
  }

  /** The steps of the attempts of a run, up to the one at which the loop is left. */
  function RunSteps(job: Job, w: World, i: nat, r: nat, env: nat -> Attempt): seq<Event>
    decreases job.budget + 1 - i
  {
    if i > job.budget then []
    else match Once(job, w, i, env(i))
      case Stop(_, _) => AttemptSteps(r, env(i))
      case Next(v) => AttemptSteps(r, env(i)) + RunSteps(job, v, i + 1, r, env)
  }

  function LiveIds(s: Sys, account: string): set<string> {
    set x | x in s.live && x.account == account :: x.id
  }

  /** The release calls an account got. */
  function ReleasedIds(xs: seq<Res>, account: string): seq<string> {
    if xs == [] then []
    else ReleasedIds(xs[..|xs| - 1], account) + if xs[|xs| - 1].account == account then [xs[|xs| - 1].id] else []
  }

  /** A fleet and a sequential world that show the same counter, log, live resources and release
      calls of an account. */
  ghost predicate Shows(s: Sys, account: string, w: World) {
    && s.counter == w.counter && s.log == w.log
    && LiveIds(s, account) == w.live && ReleasedIds(s.releases, account) == w.releases
  }

  /** The clock does not go back in the attempt, and storage works. */
  ghost predicate Calm(a: Attempt, today: Day) {
    today <= a.allowDay <= a.incDay && !a.allowFault && !a.incReadFault && !a.incWriteFault && !a.logFault
  }

  lemma LiveAdd(s: Sys, t: Sys, x: Res)
    requires t.live == s.live + {x}
    ensures LiveIds(t, x.account) == LiveIds(s, x.account) + {x.id}
  {
    assert x in t.live;
    forall y | y in s.live && y.account == x.account ensures y.id in LiveIds(t, x.account) {
      assert y in t.live;
    }
  }

  lemma LiveRemove(s: Sys, t: Sys, x: Res)
    requires t.live == s.live - {x}
    ensures LiveIds(t, x.account) == LiveIds(s, x.account) - {x.id}
  {
    forall y | y in s.live && y.account == x.account && y.id != x.id ensures y.id in LiveIds(t, x.account) {
      assert y in t.live;
    }
  }

  lemma ReleaseAdd(xs: seq<Res>, x: Res)
    ensures ReleasedIds(xs + [x], x.account) == ReleasedIds(xs, x.account) + [x.id]
  {
    assert (xs + [x])[..|xs|] == xs;
  }

  lemma SameShown(s: Sys, t: Sys, account: string, w: World)
    requires Shows(s, account, w) && t.live == s.live && t.releases == s.releases
    ensures Shows(t, account, w.(counter := t.counter, log := t.log))
  {
    assert LiveIds(t, account) == LiveIds(s, account);
  }

  /** The row of a caught address. */
  function RowOf(run: Run, ip: AllocatedIP): PoolRow {
    PoolRow(run.account, ip.id, ip.addr, run.text, "")
  }

  /** Counting and recording a grant. */
  lemma CountAlone(setup: Setup, s: Sys, r: nat, ip: AllocatedIP, w: World, a: Attempt)
    requires Has(s, r) && s.runs[r].pc == Holding(ip) && s.today == a.incDay
    requires !a.incReadFault && !a.incWriteFault && !a.logFault && Shows(s, s.runs[r].account, w)
    ensures var run := s.runs[r];
      var t := Step(setup, Step(setup, s, Tally(r)), Record(r));
      && Shows(t, run.account, AfterGrant(Job(run.account, run.cap, run.matcher, run.budget), w, ip, a))
      && t.runs == s.runs[r := run.(pc := Logged(ip))]
      && t.pool == s.pool && t.poolNext == s.poolNext && t.grants == s.grants && t.today == s.today
  {
    hide CountRuns, MaskOf, Accepts, AfterInc, Issued, Shows;
    var run := s.runs[r];
    var s1 := Step(setup, s, Tally(r));
    var t := Step(setup, s1, Record(r));
    assert s1.runs == s.runs[r := run.(pc := Counted(ip))];
    assert t.runs == s.runs[r := run.(pc := Logged(ip))];
    SameShown(s, t, run.account, w);
    assert s.counter == w.counter && s.log == w.log by { ShownRecords(s, run.account, w); }
  }

  lemma ShownRecords(s: Sys, account: string, w: World)
    requires Shows(s, account, w)
    ensures s.counter == w.counter && s.log == w.log
  {
  }

  lemma KeepAlone(setup: Setup, s: Sys, r: nat, ip: AllocatedIP, w: World, a: Attempt)
    requires Has(s, r) && s.runs[r].pc == Logged(ip) && Shows(s, s.runs[r].account, w) && Accepts(s.runs[r].matcher, ip.addr)
    ensures var run := s.runs[r];
      var t := Step(setup, Step(setup, s, Free(r, a.released)), Keep(r, true));
      && t.grants == s.grants && t.today == s.today && Has(t, r) && t.runs[r].pc.Finished?
      && Shows(t, run.account, w) && t.pool == s.pool[s.poolNext := RowOf(run, ip)]
  {
    hide CountRuns, MaskOf, Accepts, Shows;
    assert Step(setup, s, Free(r, a.released)) == s;
    var t := Step(setup, s, Keep(r, true));
    ShownRecords(s, s.runs[r].account, w);
    SameShown(s, t, s.runs[r].account, w);
    assert w.(counter := t.counter, log := t.log) == w;
  }

  lemma FreeAlone(setup: Setup, s: Sys, r: nat, ip: AllocatedIP, w: World, a: Attempt)
    requires Has(s, r) && s.runs[r].pc == Logged(ip) && Shows(s, s.runs[r].account, w) && !Accepts(s.runs[r].matcher, ip.addr)
    ensures var run := s.runs[r];
      var t := Step(setup, Step(setup, s, Free(r, a.released)), Keep(r, true));
      && t.grants == s.grants && t.today == s.today && Has(t, r) && t.runs[r] == Advance(run)
      && Shows(t, run.account, AfterRelease(w, ip, a)) && t.pool == s.pool && t.poolNext == s.poolNext
  {
    hide CountRuns, MaskOf, Accepts;
    var run := s.runs[r];
    var t := Step(setup, s, Free(r, a.released));
    assert Step(setup, t, Keep(r, true)) == t;
    ReleaseAdd(s.releases, ResOf(run, ip));
    if a.released {
      LiveRemove(s, t, ResOf(run, ip));
    } else {
      assert LiveIds(t, run.account) == LiveIds(s, run.account);
    }
  }

  /** The outcome of an attempt of a run, as the two models have it. */
  ghost predicate SameOutcome(s: Sys, t: Sys, r: nat, w: World, a: Attempt)
    requires Has(s, r)
  {
    var run := s.runs[r];
    var done := Once(Job(run.account, run.cap, run.matcher, run.budget), w, run.i, a);
    && Has(t, r)
    && Shows(t, run.account, done.w)
    && (done.Next? ==> t.runs[r] == Advance(run) && t.today == a.incDay)
    && (done.Stop? ==> t.runs[r].pc.Finished?)
    && (if done.Stop? && done.r.Caught? then t.pool == s.pool[s.poolNext := RowOf(run, done.r.ip)] else t.pool == s.pool && t.poolNext == s.poolNext)
    && (t.grants == s.grants || (a.outcome.Granted? && t.grants == s.grants + [Grant(ResOf(run, a.outcome.ip), a.outcome.ip.addr)]))
  }

  /** With nothing in hand, the steps after Allocate only let the time pass. */
  lemma NothingToSettle(setup: Setup, s: Sys, r: nat, a: Attempt)
    requires Has(s, r) && (s.runs[r].pc.Ready? || s.runs[r].pc.Finished?) && s.today <= a.incDay
    ensures Step(setup, Step(setup, Step(setup, Step(setup, Step(setup, s, Midnight(a.incDay)), Tally(r)), Record(r)),
                 Free(r, a.released)), Keep(r, true)) == s.(today := a.incDay)
  {
    hide CountRuns, MaskOf, Accepts;
  }

  lemma AllocateAlone(setup: Setup, s: Sys, r: nat, w: World, a: Attempt)
    requires Has(s, r) && s.runs[r].pc.Cleared? && s.today == a.allowDay && Calm(a, s.today) && a.waited
    requires a.outcome.Granted? && !Issued(s, ResOf(s.runs[r], a.outcome.ip)) && Shows(s, s.runs[r].account, w)
    ensures var run, ip := s.runs[r], a.outcome.ip;
      var t := Exec(setup, s, LastSteps(r, a));
      var v := AfterGrant(Job(run.account, run.cap, run.matcher, run.budget), w.(live := w.live + {ip.id}), ip, a);
      && Has(t, r) && t.today == a.incDay && t.grants == s.grants + [Grant(ResOf(run, ip), ip.addr)]
      && if Accepts(run.matcher, ip.addr) then
           Shows(t, run.account, v) && t.runs[r].pc.Finished? && t.pool == s.pool[s.poolNext := RowOf(run, ip)]
         else
           Shows(t, run.account, AfterRelease(v, ip, a)) && t.runs[r] == Advance(run) && t.pool == s.pool && t.poolNext == s.poolNext
  {
    hide CountRuns, MaskOf, Accepts, AfterInc, Issued, Exec, AfterGrant, AfterRelease;
    var run, ip := s.runs[r], a.outcome.ip;
    ExecSix(setup, s, Allocate(r, a.outcome, a.backoffCut.None?), Midnight(a.incDay), Tally(r), Record(r), Free(r, a.released), Keep(r, true));
    var s1 := Step(setup, s, Allocate(r, a.outcome, a.backoffCut.None?));
    LiveAdd(s, s1, ResOf(run, ip));
    var w1 := w.(live := w.live + {ip.id});
    assert Shows(s1, run.account, w1);
    var s2 := Step(setup, s1, Midnight(a.incDay));
    SameShown(s1, s2, run.account, w1);
    CountAlone(setup, s2, r, ip, w1, a);
    var s4 := Step(setup, Step(setup, s2, Tally(r)), Record(r));
    assert s4.runs[r] == run.(pc := Logged(ip));
    var v := AfterGrant(Job(run.account, run.cap, run.matcher, run.budget), w1, ip, a);
    if Accepts(run.matcher, ip.addr) {
      KeepAlone(setup, s4, r, ip, v, a);
    } else {
      FreeAlone(setup, s4, r, ip, v, a);
    }
  }

  /** Run r, let through, is refused. */
  lemma RefusedAlone(setup: Setup, s: Sys, r: nat, w: World, a: Attempt)
    requires Has(s, r) && s.runs[r].pc.Cleared? && s.today == a.allowDay && Calm(a, s.today)
    requires a.outcome.Refused? && Shows(s, s.runs[r].account, w)
    ensures var run, t := s.runs[r], Exec(setup, s, LastSteps(r, a));
      && Has(t, r) && t.today == a.incDay && t.grants == s.grants && t.pool == s.pool && t.poolNext == s.poolNext
      && (forall v: World :: v.counter == w.counter && v.log == w.log && v.live == w.live && v.releases == w.releases ==>
            Shows(t, run.account, v))
      && (if BacksOff(run.i, a.outcome.e) && a.backoffCut.None? then t.runs[r] == Advance(run) else t.runs[r].pc.Finished?)
  {
    hide CountRuns, MaskOf, Exec, BacksOff;
    var alloc := Allocate(r, a.outcome, a.backoffCut.None?);
    ExecSix(setup, s, alloc, Midnight(a.incDay), Tally(r), Record(r), Free(r, a.released), Keep(r, true));
    var s1 := Step(setup, s, alloc);
    NothingToSettle(setup, s1, r, a);
    SameShown(s, s1.(today := a.incDay), s.runs[r].account, w);
  }

  /** A run that the counter stopped takes no further step. */
  lemma StoppedAlone(setup: Setup, s: Sys, r: nat, w: World, a: Attempt)
    requires Has(s, r) && s.runs[r].pc.Finished? && s.today == a.allowDay && Calm(a, s.today)
    requires Shows(s, s.runs[r].account, w)
    ensures var t := Exec(setup, s, LastSteps(r, a));
      Has(t, r) && t.grants == s.grants && t.pool == s.pool && t.poolNext == s.poolNext && Shows(t, s.runs[r].account, w) && t.runs[r].pc.Finished?
  {
    hide CountRuns, MaskOf, Exec;
    var alloc := Allocate(r, a.outcome, a.backoffCut.None?);
    ExecSix(setup, s, alloc, Midnight(a.incDay), Tally(r), Record(r), Free(r, a.released), Keep(r, true));
    assert Step(setup, s, alloc) == s;
    NothingToSettle(setup, s, r, a);
    SameShown(s, s.(today := a.incDay), s.runs[r].account, w);
  }

  /** The check that opens an attempt. */
  lemma CheckAlone(setup: Setup, s: Sys, r: nat, w: World, a: Attempt)
    requires Has(s, r) && s.runs[r].pc.Ready? && Calm(a, s.today) && Shows(s, s.runs[r].account, w)
    ensures var run := s.runs[r];
      var t := Step(setup, Step(setup, s, Midnight(a.allowDay)), Check(r));
      && Has(t, r) && t.today == a.allowDay && t.grants == s.grants && t.pool == s.pool && t.poolNext == s.poolNext
      && t.runs[r] == run.(pc := if Allowed(w.counter, run.account, run.cap, a.allowDay, a.allowFault) then Cleared else Finished)
      && Shows(t, run.account, w.(counter := AfterAllow(w.counter, run.account, run.cap, a.allowDay, a.allowFault)))
  {
    hide CountRuns, MaskOf, AfterAllow, Allowed;
    var t := Step(setup, Step(setup, s, Midnight(a.allowDay)), Check(r));
    SameShown(s, t, s.runs[r].account, w);
  }

  /** Run r, ready for attempt i, takes the steps of an attempt with no other step of a run between:
      the counter, the log, the live resources and the release calls end as the loop body leaves
      them, and the run goes on, stops, or keeps its address just as the loop body says. */
  lemma AttemptAlone(setup: Setup, s: Sys, r: nat, w: World, a: Attempt)
    requires Has(s, r) && s.runs[r].pc.Ready? && Calm(a, s.today)
    requires Shows(s, s.runs[r].account, w)
    requires a.outcome.Granted? ==> !Issued(s, ResOf(s.runs[r], a.outcome.ip))
    ensures SameOutcome(s, Exec(setup, s, AttemptSteps(r, a)), r, w, a)
  {
    hide CountRuns, MaskOf, Accepts, AfterGrant, AfterRelease, AfterAllow, Allowed, Issued, Exec, Step, Shows, BacksOff;
    var run := s.runs[r];
    var s1 := Step(setup, Step(setup, s, Midnight(a.allowDay)), Check(r));
    CheckAlone(setup, s, r, w, a);
    ExecTwo(setup, s, Midnight(a.allowDay), Check(r));
    var w1 := w.(counter := AfterAllow(w.counter, run.account, run.cap, a.allowDay, a.allowFault));
    if !a.waited {
      ExecAppend(setup, s, [Midnight(a.allowDay), Check(r)], Cancel(r));
      CancelAlone(setup, s1, r, w1);
    } else {
      ExecConcat(setup, s, [Midnight(a.allowDay), Check(r)], LastSteps(r, a));
      if s1.runs[r].pc.Finished? {
        StoppedAlone(setup, s1, r, w1, a);
      } else if a.outcome.Refused? {
        RefusedAlone(setup, s1, r, w1, a);
      } else {
        SameIssued(s, s1);
        AllocateAlone(setup, s1, r, w1, a);
      }
    }
  }

  lemma CancelAlone(setup: Setup, s: Sys, r: nat, w: World)
    requires Has(s, r) && (s.runs[r].pc.Cleared? || s.runs[r].pc.Finished?) && Shows(s, s.runs[r].account, w)
    ensures var t := Step(setup, s, Cancel(r));
      Has(t, r) && t.grants == s.grants && t.pool == s.pool && t.poolNext == s.poolNext && Shows(t, s.runs[r].account, w) && t.runs[r].pc.Finished?
  {
    SameShown(s, Step(setup, s, Cancel(r)), s.runs[r].account, w);
  }

  lemma SameIssued(s: Sys, t: Sys)
    requires t.grants == s.grants
    ensures forall x :: Issued(t, x) <==> Issued(s, x)
  {
  }

  lemma ExecTwo(setup: Setup, s: Sys, a: Event, b: Event)
    ensures Exec(setup, s, [a, b]) == Step(setup, Step(setup, s, a), b)
  {
    hide Step;
    ExecAppend(setup, s, [], a);
    ExecAppend(setup, s, [a], b);
    assert [] + [a] == [a] && [a] + [b] == [a, b];
  }

  // ---- the whole run ----

  /** From attempt i on the clock does not go back and storage works. */
  ghost predicate CalmFrom(env: nat -> Attempt, i: nat, today: Day) {
    && today <= env(i).allowDay
    && forall k :: k >= i ==> Calm(env(k), env(k).allowDay) && env(k).incDay <= env(k + 1).allowDay
  }

  /** What the provider grants from attempt i on was never granted before, nor twice. */
  ghost predicate FreshFrom(s: Sys, account: string, env: nat -> Attempt, i: nat) {
    && (forall k :: k >= i && env(k).outcome.Granted? ==> !Issued(s, Res(account, env(k).outcome.ip.id)))
    && (forall k, l :: i <= k < l && env(k).outcome.Granted? && env(l).outcome.Granted? ==>
          env(k).outcome.ip.id != env(l).outcome.ip.id)
  }

  lemma StillFresh(s: Sys, t: Sys, run: Run, env: nat -> Attempt, i: nat)
    requires FreshFrom(s, run.account, env, i)
    requires var a := env(i);
      t.grants == s.grants || (a.outcome.Granted? && t.grants == s.grants + [Grant(ResOf(run, a.outcome.ip), a.outcome.ip.addr)])
    ensures FreshFrom(t, run.account, env, i + 1)
  {
    forall k | k >= i + 1 && env(k).outcome.Granted?
      ensures !Issued(t, Res(run.account, env(k).outcome.ip.id))
    {
      assert !Issued(s, Res(run.account, env(k).outcome.ip.id));
    }
  }

  /** A run that nothing interrupts, at any attempt and over any number of days, does what the
      sequential run does: same counter, log, live resources and release calls; it ends, and its
      pool row is there exactly when the sequential run returns an address, with that address. */
  lemma {:induction false} RunAlone(setup: Setup, s: Sys, r: nat, w: World, env: nat -> Attempt)
    requires Has(s, r) && s.runs[r].pc.Ready? && s.runs[r].i <= s.runs[r].budget
    requires Shows(s, s.runs[r].account, w)
    requires CalmFrom(env, s.runs[r].i, s.today) && FreshFrom(s, s.runs[r].account, env, s.runs[r].i)
    ensures var run := s.runs[r];
      var job := Job(run.account, run.cap, run.matcher, run.budget);
      var t, (v, res) := Exec(setup, s, RunSteps(job, w, run.i, r, env)), Roll.Run(job, w, run.i, env);
      && Shows(t, run.account, v)
      && Has(t, r) && t.runs[r].pc.Finished?
      && t.pool == if res.Caught? then s.pool[s.poolNext := RowOf(run, res.ip)] else s.pool
    decreases s.runs[r].budget - s.runs[r].i
  {
    hide Exec, Once, Shows, AttemptSteps, Issued;
    var run := s.runs[r];
    var job, i, a := Job(run.account, run.cap, run.matcher, run.budget), run.i, env(run.i);
    AttemptAlone(setup, s, r, w, a);
    var t := Exec(setup, s, AttemptSteps(r, a));
    match Once(job, w, i, a)
    case Stop(_, _) =>
    case Next(v) =>
      ExecConcat(setup, s, AttemptSteps(r, a), RunSteps(job, v, i + 1, r, env));
      if i < run.budget {
        StillFresh(s, t, run, env, i);
        RunAlone(setup, t, r, v, env);
      } else {
        NoSteps(setup, t);
      }
  }

  lemma LaunchShows(setup: Setup, s: Sys, account: string, text: string, budget: int, w: World)
    requires Enabled(setup, s, Launch(account, text, budget)) && Shows(s, account, w)
    ensures var t := Step(setup, s, Launch(account, text, budget));
      && t.runs == s.runs + [Run(account, setup.caps(account), text, MaskOf(setup.read, text).value, budget, 1, Ready)]
      && Shows(t, account, w)
      && t.pool == s.pool && t.poolNext == s.poolNext && t.grants == s.grants && t.today == s.today
  {
    hide CountRuns, MaskOf;
    SameShown(s, Step(setup, s, Launch(account, text, budget)), account, w);
  }

  /** A run that is launched and then not interrupted does the sequential run of its account, the cap of
      that account, the mask it was given and the budget it was given, from the first attempt. */
  lemma LaunchAlone(setup: Setup, s: Sys, account: string, text: string, budget: int, w: World, env: nat -> Attempt)
    requires Enabled(setup, s, Launch(account, text, budget)) && Shows(s, account, w)
    requires CalmFrom(env, 1, s.today) && FreshFrom(s, account, env, 1)
    ensures var job := Job(account, setup.caps(account), MaskOf(setup.read, text).value, budget);
      var t := Exec(setup, s, [Launch(account, text, budget)] + RunSteps(job, w, 1, |s.runs|, env));
      var (v, res) := Roll.Run(job, w, 1, env);
      && Shows(t, account, v)
      && t.pool == if res.Caught? then s.pool[s.poolNext := PoolRow(account, res.ip.id, res.ip.addr, text, "")] else s.pool
  {
    hide Exec, Shows, MaskOf, Step, RunSteps, Roll.Run, Issued;
    var launch := Launch(account, text, budget);
    var job := Job(account, setup.caps(account), MaskOf(setup.read, text).value, budget);
    NoSteps(setup, s);
    ExecAppend(setup, s, [], launch);
    assert [] + [launch] == [launch];
    LaunchShows(setup, s, account, text, budget, w);
    var u := Step(setup, s, launch);
    ExecConcat(setup, s, [launch], RunSteps(job, w, 1, |s.runs|, env));
    BudgetAtLeastOne(setup, s, launch);
    SameFresh(s, u, account, env);
    RunAlone(setup, u, |s.runs|, w, env);
  }

  lemma BudgetAtLeastOne(setup: Setup, s: Sys, e: Event)
    requires e.Launch? && Enabled(setup, s, e)
    ensures e.budget >= 1
  {
  }

  lemma SameFresh(s: Sys, t: Sys, account: string, env: nat -> Attempt)
    requires t.grants == s.grants && FreshFrom(s, account, env, 1)
    ensures FreshFrom(t, account, env, 1)
  {
  }
}
