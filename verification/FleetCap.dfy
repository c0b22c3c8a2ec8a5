/** The daily cap under concurrency. Checking the counter and counting are separate critical
    sections, so the cap can be overrun, by one less than the number of runs at once. */
module FleetCap {

  import opened Wrappers
  import opened Mask
  import opened Storage
  import opened DailyCount
  import opened Roll
  import opened Fleet

  function Today(s: Sys, account: string): nat {
    Stored(s.counter.table, account, s.today)
  }

  function Pending(s: Sys, account: string): nat {
    CountRuns(s.runs, account, IsPending)
  }

  ghost predicate CounterSound(setup: Setup, s: Sys) {
    && Agrees(s.counter)
    && NoFuture(s.counter.table, s.today)
    && (forall r :: 0 <= r < |s.runs| ==> s.runs[r].cap == setup.caps(s.runs[r].account))
  }

  ghost predicate CapHolds(setup: Setup, s: Sys, account: string) {
    && CountRuns(s.runs, account, IsActive) <= setup.width
    && Today(s, account) + Pending(s, account) <= setup.caps(account) - 1 + setup.width
  }

  lemma StepSound(setup: Setup, s: Sys, e: Event)
    requires CounterSound(setup, s)
    ensures CounterSound(setup, Step(setup, s, e))
  {
    hide CountRuns, Accepts, MaskOf, AfterInc;
    if Enabled(setup, s, e) && e.Tally? {
      CountingAgrees(s.counter, s.runs[e.r].account, s.today);
    }
  }

  lemma StepCap(setup: Setup, s: Sys, e: Event, account: string)
    requires CounterSound(setup, s) && CapHolds(setup, s, account) && setup.caps(account) > 0
    ensures CapHolds(setup, Step(setup, s, e), account)
  {
    hide CountRuns, Accepts, MaskOf, AfterInc;
    CountStep(setup, s, e, account, IsActive);
    CountStep(setup, s, e, account, IsPending);
    CountMonotone(Step(setup, s, e).runs, account, IsPending, IsActive);
    if Enabled(setup, s, e) && e.Tally? {
      CountingAgrees(s.counter, s.runs[e.r].account, s.today);
    }
  }

  /** For every interleaving of any number of runs, across midnights and restarts: while at most `width`
      runs of an account are active at once, today's count plus the runs that were let through
      and have not counted yet stays within the cap plus width - 1. So the count itself never
      passes cap + width - 1, and with one run at a time never passes the cap. */
  lemma {:induction false} CapUnderConcurrency(setup: Setup, s: Sys, es: seq<Event>, account: string)
    requires Initial(s) && setup.caps(account) > 0 && setup.width >= 1
    requires Today(s, account) <= setup.caps(account) - 1 + setup.width
    ensures var t := Exec(setup, s, es);
      && CounterSound(setup, t)
      && Today(t, account) + Pending(t, account) <= setup.caps(account) - 1 + setup.width
      && (setup.width == 1 ==> Today(t, account) <= setup.caps(account))
      && CapHolds(setup, t, account)
  {
    if es != [] {
      CapUnderConcurrency(setup, s, es[..|es| - 1], account);
      StepSound(setup, Exec(setup, s, es[..|es| - 1]), es[|es| - 1]);
      StepCap(setup, Exec(setup, s, es[..|es| - 1]), es[|es| - 1], account);
    }
  }

  // ---- the bound is reached ----

  /** Every address matches *.*.*.*, which is read the same by every reader of CIDR text. */
  const EVERY: Rules := [OctetRule(true, 0, 0), OctetRule(true, 0, 0), OctetRule(true, 0, 0), OctetRule(true, 0, 0)]

  lemma EveryParses(read: PrefixReader)
    ensures MaskOf(read, Print(EVERY)) == Ok(Octets(EVERY))
  {
    ParsePrint(read, EVERY, "", "");
    assert "" + Print(EVERY) + "" == Print(EVERY);
  }

  /** An id of a given length: fresh while the ids handed out are all shorter. */
  function LongId(n: nat): (id: string)
    ensures |id| == n
  {
    seq(n, _ => '0')
  }

  ghost predicate ShortIds(s: Sys, n: nat) {
    forall k :: 0 <= k < |s.grants| ==> |s.grants[k].res.id| < n
  }

  lemma {:induction false} SomeLength(grants: seq<Grant>) returns (n: nat)
    ensures forall k :: 0 <= k < |grants| ==> |grants[k].res.id| < n
  {
    n := 0;
    if grants != [] {
      var last := |grants| - 1;
      n := SomeLength(grants[..last]);
      assert forall k :: 0 <= k < last ==> grants[..last][k] == grants[k];
      if n <= |grants[last].res.id| {
        n := |grants[last].res.id| + 1;
      }
    }
  }

  function Address(n: nat): AllocatedIP {
    AllocatedIP(V4([0, 0, 0, 0]), LongId(n))
  }

  /** Run r, let through, is granted a new address and counts it. */
  lemma GrantAndCount(setup: Setup, s: Sys, account: string, r: nat, n: nat)
    requires Agrees(s.counter) && ShortIds(s, n)
    requires Has(s, r) && s.runs[r].account == account && s.runs[r].pc.Cleared?
    ensures var t := Step(setup, Step(setup, s, Allocate(r, Granted(Address(n)), true)), Tally(r));
      && Agrees(t.counter) && ShortIds(t, n + 1) && t.today == s.today
      && Today(t, account) == Today(s, account) + 1
      && t.runs == s.runs[r := s.runs[r].(pc := Counted(Address(n)))]
  {
    hide Accepts, MaskOf, AfterInc;
    var u := Step(setup, s, Allocate(r, Granted(Address(n)), true));
    assert !Issued(s, ResOf(s.runs[r], Address(n)));
    assert u.runs[r].pc == Holding(Address(n));
    assert u.runs == s.runs[r := u.runs[r]];
    CountingAgrees(u.counter, account, s.today);
  }

  /** The account has no active run, and t rolls counted today. */
  ghost predicate Resting(setup: Setup, s: Sys, account: string, t: int, n: nat) {
    CountRuns(s.runs, account, IsActive) == 0 && Agrees(s.counter) && ShortIds(s, n) && Today(s, account) == t
  }

  /** One run, alone, from launch to end: it counts one roll and keeps the address. */
  function OneRoll(account: string, r: nat, n: nat): seq<Event> {
    [Launch(account, Print(EVERY), 1), Check(r), Allocate(r, Granted(Address(n)), true), Tally(r), Record(r), Keep(r, true)]
  }

  lemma LaunchAndCheck(setup: Setup, s: Sys, account: string)
    requires Agrees(s.counter) && CountRuns(s.runs, account, IsActive) < setup.width
    requires Today(s, account) < setup.caps(account)
    ensures var run := Run(account, setup.caps(account), Print(EVERY), Octets(EVERY), 1, 1, Cleared);
      var t := Step(setup, Step(setup, s, Launch(account, Print(EVERY), 1)), Check(|s.runs|));
      && t.runs == s.runs + [run] && t.grants == s.grants && t.today == s.today
      && Agrees(t.counter) && Today(t, account) == Today(s, account)
  {
    hide CountRuns, Accepts, MaskOf, Print;
    EveryParses(setup.read);
    var u := Step(setup, s, Launch(account, Print(EVERY), 1));
    var run := u.runs[|s.runs|];
    assert u.runs == s.runs + [run];
    assert u.runs[|s.runs| := run.(pc := Cleared)] == s.runs + [run.(pc := Cleared)];
  }

  lemma RecordAndKeep(setup: Setup, s: Sys, r: nat)
    requires Has(s, r) && s.runs[r].pc.Counted? && s.runs[r].matcher == Octets(EVERY) && s.runs[r].pc.ip.addr.V4?
    ensures var t := Step(setup, Step(setup, s, Record(r)), Keep(r, true));
      && t.runs == s.runs[r := s.runs[r].(pc := Finished)] && t.grants == s.grants
      && t.counter == s.counter && t.today == s.today
  {
    hide CountRuns, MaskOf;
    var u := Step(setup, s, Record(r));
    assert OctetsAccept(EVERY, s.runs[r].pc.ip.addr);
    assert u.runs == s.runs[r := s.runs[r].(pc := Logged(s.runs[r].pc.ip))];
    assert Accepts(u.runs[r].matcher, u.runs[r].pc.ip.addr);
  }

  lemma RollsOnce(setup: Setup, s: Sys, account: string, c: int, n: nat)
    requires Resting(setup, s, account, c, n) && c < setup.caps(account) && setup.width >= 1
    ensures var t := Exec(setup, s, OneRoll(account, |s.runs|, n));
      Resting(setup, t, account, c + 1, n + 1) && t.today == s.today
  {
    hide Step, Exec, Print, Address;
    var r := |s.runs|;
    ExecSix(setup, s, Launch(account, Print(EVERY), 1), Check(r), Allocate(r, Granted(Address(n)), true), Tally(r), Record(r), Keep(r, true));
    LaunchAndCheck(setup, s, account);
    var s2 := Step(setup, Step(setup, s, Launch(account, Print(EVERY), 1)), Check(r));
    GrantAndCount(setup, s2, account, r, n);
    var s4 := Step(setup, Step(setup, s2, Allocate(r, Granted(Address(n)), true)), Tally(r));
    AddressIsV4(n);
    RecordAndKeep(setup, s4, r);
    var s6 := Step(setup, Step(setup, s4, Record(r)), Keep(r, true));
    assert s6.runs == s.runs + [s2.runs[r].(pc := Finished)];
    CountLaunch(s.runs, s2.runs[r].(pc := Finished), account, IsActive);
  }

  lemma AddressIsV4(n: nat)
    ensures Address(n).addr.V4?
  {
  }

  /** Runs one after another bring the day's count as far as the cap. */
  lemma {:induction false} Serial(setup: Setup, s: Sys, account: string, c: int, n: nat, k: nat) returns (es: seq<Event>)
    requires Resting(setup, s, account, c, n) && c + k <= setup.caps(account) && setup.width >= 1
    ensures Resting(setup, Exec(setup, s, es), account, c + k, n + k) && Exec(setup, s, es).today == s.today
  {
    hide Resting, OneRoll, Step;
    es := [];
    if k > 0 {
      es := Serial(setup, s, account, c, n, k - 1);
      var t := Exec(setup, s, es);
      RollsOnce(setup, t, account, c + k - 1, n + k - 1);
      ExecConcat(setup, s, es, OneRoll(account, |t.runs|, n + k - 1));
      es := es + OneRoll(account, |t.runs|, n + k - 1);
    }
  }

  /** From run number `first` on, j runs of the account have been let through on a count of c,
      and no other of its runs is active. */
  ghost predicate LetThrough(setup: Setup, s: Sys, account: string, c: int, n: nat, first: nat, j: nat) {
    && |s.runs| == first + j
    && (forall r :: first <= r < first + j ==> s.runs[r].account == account && s.runs[r].pc.Cleared?)
    && CountRuns(s.runs, account, IsActive) == j
    && Agrees(s.counter) && ShortIds(s, n)
    && Today(s, account) == c
  }

  lemma LetOneThrough(setup: Setup, s: Sys, account: string, c: int, n: nat, first: nat, j: nat)
    requires LetThrough(setup, s, account, c, n, first, j) && j < setup.width && c < setup.caps(account)
    ensures var t := Step(setup, Step(setup, s, Launch(account, Print(EVERY), 1)), Check(first + j));
      LetThrough(setup, t, account, c, n, first, j + 1) && t.today == s.today
  {
    hide Step, Print;
    LaunchAndCheck(setup, s, account);
    var t := Step(setup, Step(setup, s, Launch(account, Print(EVERY), 1)), Check(first + j));
    CountLaunch(s.runs, t.runs[first + j], account, IsActive);
  }

  lemma {:induction false} LetAllThrough(setup: Setup, s: Sys, account: string, c: int, n: nat, j: nat) returns (es: seq<Event>)
    requires LetThrough(setup, s, account, c, n, |s.runs|, 0) && j <= setup.width && c < setup.caps(account)
    ensures LetThrough(setup, Exec(setup, s, es), account, c, n, |s.runs|, j) && Exec(setup, s, es).today == s.today
  {
    hide LetThrough, Step, Print;
    es := [];
    if j > 0 {
      es := LetAllThrough(setup, s, account, c, n, j - 1);
      var r := |s.runs| + j - 1;
      LetOneThrough(setup, Exec(setup, s, es), account, c, n, |s.runs|, j - 1);
      ExecAppend(setup, s, es, Launch(account, Print(EVERY), 1));
      ExecAppend(setup, s, es + [Launch(account, Print(EVERY), 1)], Check(r));
      es := es + [Launch(account, Print(EVERY), 1)] + [Check(r)];
    }
  }

  /** Of the runs let through, those numbered from next to end have not moved on yet. */
  ghost predicate CountedSome(s: Sys, account: string, c: int, n: nat, next: nat, end: nat) {
    && |s.runs| == end
    && (forall r :: next <= r < end ==> s.runs[r].account == account && s.runs[r].pc.Cleared?)
    && Agrees(s.counter) && ShortIds(s, n)
    && Today(s, account) == c
  }

  lemma CountOne(setup: Setup, s: Sys, account: string, c: int, n: nat, next: nat, end: nat)
    requires CountedSome(s, account, c, n, next, end) && next < end
    ensures var t := Step(setup, Step(setup, s, Allocate(next, Granted(Address(n)), true)), Tally(next));
      CountedSome(t, account, c + 1, n + 1, next + 1, end) && t.today == s.today
  {
    hide Step;
    GrantAndCount(setup, s, account, next, n);
  }

  lemma {:induction false} CountAll(setup: Setup, s: Sys, account: string, c: int, n: nat, next: nat, j: nat) returns (es: seq<Event>)
    requires CountedSome(s, account, c, n, next, |s.runs|) && next + j <= |s.runs|
    ensures CountedSome(Exec(setup, s, es), account, c + j, n + j, next + j, |s.runs|)
    ensures Exec(setup, s, es).today == s.today
  {
    hide CountedSome, Step;
    es := [];
    if j > 0 {
      es := CountAll(setup, s, account, c, n, next, j - 1);
      var r, grab := next + j - 1, Allocate(next + j - 1, Granted(Address(n + j - 1)), true);
      CountOne(setup, Exec(setup, s, es), account, c + j - 1, n + j - 1, r, |s.runs|);
      ExecAppend(setup, s, es, grab);
      ExecAppend(setup, s, es + [grab], Tally(r));
      es := es + [grab] + [Tally(r)];
    }
  }

  /** The bound is exact: for every cap and every width, and from every count below the cap, there
      is a history in which the count of the day ends at cap + width - 1. First, runs one after
      another count up to cap - 1; then as many as may overlap are all let through. */
  lemma CapBoundReached(setup: Setup, s: Sys, account: string) returns (es: seq<Event>)
    requires Initial(s) && setup.width >= 1 && Today(s, account) < setup.caps(account)
    ensures Exec(setup, s, es).today == s.today
    ensures Today(Exec(setup, s, es), account) == setup.caps(account) - 1 + setup.width
  {
    hide Step, Exec;
    var cap, c := setup.caps(account), Today(s, account);
    var n := SomeLength(s.grants);
    var fs := Serial(setup, s, account, c, n, cap - 1 - c);
    var t := Exec(setup, s, fs);
    n := n + cap - 1 - c;
    var gs := LetAllThrough(setup, t, account, cap - 1, n, setup.width);
    var u := Exec(setup, t, gs);
    var hs := CountAll(setup, u, account, cap - 1, n, |t.runs|, setup.width);
    ExecConcat(setup, s, fs, gs);
    ExecConcat(setup, s, fs + gs, hs);
    es := fs + gs + hs;
  }

  /** When the cap is used up already, the same happens on the next day. */
  lemma CapOverrun(setup: Setup, s: Sys, account: string) returns (es: seq<Event>)
    requires Initial(s) && setup.width >= 2 && setup.caps(account) > 0
    ensures Today(Exec(setup, s, es), account) > setup.caps(account)
  {
    hide Step, Exec;
    if Today(s, account) < setup.caps(account) {
      es := CapBoundReached(setup, s, account);
    } else {
      var night := Midnight(s.today + 1);
      NextDay(setup, s, account);
      es := CapBoundReached(setup, Step(setup, s, night), account);
      ExecOne(setup, s, night);
      ExecConcat(setup, s, [night], es);
      es := [night] + es;
    }
  }

  lemma NextDay(setup: Setup, s: Sys, account: string)
    requires Initial(s)
    ensures Initial(Step(setup, s, Midnight(s.today + 1))) && Today(Step(setup, s, Midnight(s.today + 1)), account) == 0
  {
  }

  lemma ExecOne(setup: Setup, s: Sys, e: Event)
    ensures Exec(setup, s, [e]) == Step(setup, s, e)
  {
    ExecAppend(setup, s, [], e);
    assert [] + [e] == [e];
  }

  /** So the cap is respected in every history exactly when it is at the start and the runs of the
      account never overlap. */
  lemma CapRespectedExactly(setup: Setup, s: Sys, account: string)
    requires Initial(s) && setup.caps(account) > 0 && setup.width >= 1
    ensures (forall es :: Today(Exec(setup, s, es), account) <= setup.caps(account)) <==>
            setup.width == 1 && Today(s, account) <= setup.caps(account)
  {
    hide Step, Exec, Today;
    NoSteps(setup, s);
    if setup.width > 1 {
      var over := CapOverrun(setup, s, account);
      assert Today(Exec(setup, s, over), account) > setup.caps(account);
    } else if Today(s, account) <= setup.caps(account) {
      forall es ensures Today(Exec(setup, s, es), account) <= setup.caps(account) {
        CapUnderConcurrency(setup, s, es, account);
      }
    } else {
      assert Today(Exec(setup, s, []), account) > setup.caps(account);
    }
  }
}
