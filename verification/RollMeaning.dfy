/** What a run of the rolling loop means, said of the whole stream of attempts and not step
    by step: which exit it takes, how long it can wait, and what it leaves behind. */
module RollMeaning {

  import opened Wrappers
  import opened Mask
  import opened Storage
  import opened DailyCount
  import opened Roll

  type Env = nat -> Attempt

  /** The counter never failed to read or write. */
  ghost predicate CounterWorks(env: Env) {
    forall k :: !env(k).allowFault && !env(k).incReadFault && !env(k).incWriteFault
  }

  /** How many attempts before n were granted an address and counted on day d. */
  function GrantsBefore(env: Env, n: nat, d: Day): nat {
    if n <= 1 then 0
    else GrantsBefore(env, n - 1, d) + if env(n - 1).outcome.Granted? && env(n - 1).incDay == d then 1 else 0
  }

  /** The cap holds at attempt n: what was stored for that day before the run, plus what
      the run itself has used of it, is below the cap. */
  predicate Permitted(job: Job, base: DailyTable, env: Env, n: nat) {
    job.cap <= 0 || Stored(base, job.account, env(n).allowDay) + GrantsBefore(env, n, env(n).allowDay) < job.cap
  }

  /** An error after which the loop goes on: an answer of the provider that it is asked too often or has
      failed, at one of the first five attempts, with the backoff slept to the end. */
  predicate Forgiven(env: Env, n: nat) {
    && env(n).outcome.Refused? && env(n).outcome.e.Api?
    && (env(n).outcome.e.status == 429 || env(n).outcome.e.status >= 500)
    && n <= 5 && env(n).backoffCut.None?
  }

  predicate Missed(job: Job, env: Env, n: nat) {
    env(n).outcome.Granted? && !Accepts(job.mask, env(n).outcome.ip.addr)
  }

  predicate Survives(job: Job, base: DailyTable, env: Env, n: nat) {
    Permitted(job, base, env, n) && env(n).waited && (Missed(job, env, n) || Forgiven(env, n))
  }

  /** The run comes to attempt n. */
  ghost predicate Reaches(job: Job, base: DailyTable, env: Env, n: nat) {
    1 <= n <= job.budget && forall j :: 1 <= j < n ==> Survives(job, base, env, j)
  }

  function ExitAt(job: Job, base: DailyTable, env: Env, n: nat): RollResult {
    if !Permitted(job, base, env, n) then CapReached
    else if !env(n).waited then WaitFailed
    else match env(n).outcome
      case Granted(ip) => Caught(ip, n)
      case Refused(e) => AllocateFailed(e)
  }

  /** The counter after the first i - 1 attempts of a run. */
  ghost predicate CountedUpTo(job: Job, base: DailyTable, w: World, i: nat, env: Env) {
    && Agrees(w.counter)
    && forall d :: Stored(w.counter.table, job.account, d) == Stored(base, job.account, d) + GrantsBefore(env, i, d)
  }

  /** A check leaves the table alone and answers by it. */
  lemma CheckMeaning(c: Counter, account: string, cap: int, today: Day)
    requires Agrees(c)
    ensures var d := AfterAllow(c, account, cap, today, false); Agrees(d) && d.table == c.table
    ensures Allowed(c, account, cap, today, false) <==> cap <= 0 || Stored(c.table, account, today) < cap
  {
  }

  lemma OnceMeaning(job: Job, base: DailyTable, w: World, i: nat, env: Env)
    requires CounterWorks(env) && CountedUpTo(job, base, w, i, env) && 1 <= i
    ensures Survives(job, base, env, i) ==>
      Once(job, w, i, env(i)).Next? && CountedUpTo(job, base, Once(job, w, i, env(i)).w, i + 1, env)
    ensures !Survives(job, base, env, i) ==>
      Once(job, w, i, env(i)).Stop? && Once(job, w, i, env(i)).r == ExitAt(job, base, env, i)
  {
    hide AfterAllow, AfterInc, Allowed, Agrees, Accepts, Stored;
    var a := env(i);
    CheckMeaning(w.counter, job.account, job.cap, a.allowDay);
    CountingAgrees(AfterAllow(w.counter, job.account, job.cap, a.allowDay, false), job.account, a.incDay);
  }

  /** The attempt at which the loop is left; one past the budget if it runs out. */
  function ExitIndex(job: Job, w: World, i: nat, env: Env): (n: nat)
    ensures i <= n
    decreases job.budget + 1 - i
  {
    if i > job.budget then i
    else match Once(job, w, i, env(i))
      case Stop(_, _) => i
      case Next(v) => ExitIndex(job, v, i + 1, env)
  }

  /** The run stops at the first attempt that does not survive, or after the last one. */
  lemma {:induction false} FirstExit(job: Job, base: DailyTable, w: World, i: nat, env: Env) returns (n: nat)
    requires CounterWorks(env) && CountedUpTo(job, base, w, i, env) && 1 <= i
    ensures n == ExitIndex(job, w, i, env) && forall j :: i <= j < n ==> Survives(job, base, env, j)
    ensures n > job.budget ==> Run(job, w, i, env).1 == BudgetExhausted
    ensures n <= job.budget ==> !Survives(job, base, env, n) && Run(job, w, i, env).1 == ExitAt(job, base, env, n)
    decreases job.budget + 1 - i
  {
    hide Once, Permitted, Survives, ExitAt, CountedUpTo;
    n := i;
    if i <= job.budget {
      OnceMeaning(job, base, w, i, env);
      if Survives(job, base, env, i) {
        n := FirstExit(job, base, Once(job, w, i, env(i)).w, i + 1, env);
      }
    }
  }

  ghost predicate Starts(w: World, env: Env) {
    CounterWorks(env) && Agrees(w.counter)
  }

  lemma NothingGranted(job: Job, w: World, env: Env)
    requires Agrees(w.counter)
    ensures CountedUpTo(job, w.counter.table, w, 1, env)
  {
  }

  /** A run that comes to an attempt it does not survive ends there. */
  lemma StopsThere(job: Job, w: World, env: Env, n: nat)
    requires Starts(w, env) && Reaches(job, w.counter.table, env, n) && !Survives(job, w.counter.table, env, n)
    ensures Run(job, w, 1, env).1 == ExitAt(job, w.counter.table, env, n)
  {
    hide Run, Survives, ExitAt, CountedUpTo;
    NothingGranted(job, w, env);
    var m := FirstExit(job, w.counter.table, w, 1, env);
    assert n < m ==> Survives(job, w.counter.table, env, n);
  }

  /** Every run survives its whole budget or ends at an attempt it comes to. */
  lemma StopsSomewhere(job: Job, w: World, env: Env) returns (n: nat)
    requires Starts(w, env)
    ensures
      || (Run(job, w, 1, env).1 == BudgetExhausted &&
          forall j :: 1 <= j <= job.budget ==> Survives(job, w.counter.table, env, j))
      || (Run(job, w, 1, env).1 == ExitAt(job, w.counter.table, env, n) &&
          Reaches(job, w.counter.table, env, n) && !Survives(job, w.counter.table, env, n))
  {
    hide Run, Survives, ExitAt, CountedUpTo;
    NothingGranted(job, w, env);
    n := FirstExit(job, w.counter.table, w, 1, env);
  }

  /** The address returned by a run, and when: exactly the first matching one, if no earlier
      attempt was refused for good, cancelled, or over the cap. */
  lemma CaughtExactly(job: Job, w: World, env: Env, ip: AllocatedIP, n: nat)
    requires Starts(w, env)
    ensures Run(job, w, 1, env).1 == Caught(ip, n) <==>
            && Reaches(job, w.counter.table, env, n)
            && Permitted(job, w.counter.table, env, n)
            && env(n).waited
            && env(n).outcome == Granted(ip)
            && Accepts(job.mask, ip.addr)
  {
    hide Run, Permitted, Reaches;
    var m := StopsSomewhere(job, w, env);
    if Reaches(job, w.counter.table, env, n) && !Survives(job, w.counter.table, env, n) {
      StopsThere(job, w, env, n);
    }
  }

  /** The daily cap stops a run exactly when some attempt it comes to finds the cap used up. */
  lemma CapExactly(job: Job, w: World, env: Env)
    requires Starts(w, env)
    ensures Run(job, w, 1, env).1 == CapReached <==>
            exists n :: Reaches(job, w.counter.table, env, n) && !Permitted(job, w.counter.table, env, n)
  {
    hide Run, Permitted, Reaches;
    var base := w.counter.table;
    var m := StopsSomewhere(job, w, env);
    if n :| Reaches(job, base, env, n) && !Permitted(job, base, env, n) {
      StopsThere(job, w, env, n);
    }
  }

  lemma WaitExactly(job: Job, w: World, env: Env)
    requires Starts(w, env)
    ensures Run(job, w, 1, env).1 == WaitFailed <==>
            exists n :: Reaches(job, w.counter.table, env, n) && Permitted(job, w.counter.table, env, n) && !env(n).waited
  {
    hide Run, Permitted, Reaches;
    var base := w.counter.table;
    var m := StopsSomewhere(job, w, env);
    if n :| Reaches(job, base, env, n) && Permitted(job, base, env, n) && !env(n).waited {
      StopsThere(job, w, env, n);
    }
  }

  /** Attempt n is refused for good: by an error that is no answer of the provider, or whose status is
      neither 429 nor 500 or above, or at attempt six or later (however few errors came before), or
      its backoff is cancelled. */
  predicate RefusedForGood(env: Env, n: nat, e: ProviderError) {
    && env(n).outcome == Refused(e)
    && (e.Other? || (e.status != 429 && e.status < 500) || n > 5 || env(n).backoffCut.Some?)
  }

  lemma AllocateFailedExactly(job: Job, w: World, env: Env, e: ProviderError)
    requires Starts(w, env)
    ensures Run(job, w, 1, env).1 == AllocateFailed(e) <==>
            exists n ::
              && Reaches(job, w.counter.table, env, n)
              && Permitted(job, w.counter.table, env, n)
              && env(n).waited
              && RefusedForGood(env, n, e)
  {
    hide Run, Permitted, Reaches;
    var base := w.counter.table;
    var m := StopsSomewhere(job, w, env);
    if n :| Reaches(job, base, env, n) && Permitted(job, base, env, n) && env(n).waited && RefusedForGood(env, n, e) {
      StopsThere(job, w, env, n);
    }
  }

  /** Attempt after attempt is granted the given addresses, five in all; then the provider answers
      that there are too many requests. */
  function FiveThen429(ips: nat -> AllocatedIP, today: Day): Env {
    (k: nat) => Attempt(today, false, true, if k <= 5 then Granted(ips(k)) else Refused(Api(429)),
                        0, None, today, false, false, false, true, 0, None)
  }

  lemma OnceNoBackoff(job: Job, w: World, i: nat, a: Attempt)
    requires a.outcome.Refused? ==> i > MAX_BACKOFF_ATTEMPTS
    ensures Once(job, w, i, a).w.backoffs == w.backoffs
  {
  }

  lemma {:induction false} NoBackoffs(job: Job, w: World, i: nat, env: Env)
    requires forall k :: k >= i && env(k).outcome.Refused? ==> k > MAX_BACKOFF_ATTEMPTS
    ensures Run(job, w, i, env).0.backoffs == w.backoffs
    decreases job.budget + 1 - i
  {
    hide Run, Once;
    RunStep(job, w, i, env);
    OnceNoBackoff(job, w, i, env(i));
    if i <= job.budget && Once(job, w, i, env(i)).Next? {
      NoBackoffs(job, Once(job, w, i, env(i)).w, i + 1, env);
    }
  }

  lemma {:induction false} GrantsAtMost(env: Env, n: nat, d: Day)
    ensures GrantsBefore(env, n, d) <= if n <= 1 then 0 else n - 1
  {
    if n > 1 {
      GrantsAtMost(env, n - 1, d);
    }
  }

  /** What is compared with the limit is the attempt, not the number of failures: after five misses
      the first error of a run, a retryable one, ends it, with no backoff at all. */
  lemma FirstErrorEnds(job: Job, w: World, ips: nat -> AllocatedIP, today: Day)
    requires Agrees(w.counter) && job.budget >= 6
    requires job.cap <= 0 || Stored(w.counter.table, job.account, today) + 5 < job.cap
    requires forall k :: !Accepts(job.mask, ips(k).addr)
    ensures var env := FiveThen429(ips, today);
      && (forall k :: 1 <= k <= 5 ==> env(k).outcome.Granted?)
      && env(6).outcome == Refused(Api(429))
      && Run(job, w, 1, env).1 == AllocateFailed(Api(429))
      && Run(job, w, 1, env).0.backoffs == w.backoffs
  {
    hide Run, Accepts;
    var env := FiveThen429(ips, today);
    NoBackoffs(job, w, 1, env);
    forall n | 1 <= n <= 6 ensures Permitted(job, w.counter.table, env, n) {
      GrantsAtMost(env, n, today);
    }
    assert Reaches(job, w.counter.table, env, 6);
    AllocateFailedExactly(job, w, env, Api(429));
  }

  /** The budget runs out exactly when every attempt within it is survived. */
  lemma BudgetExactly(job: Job, w: World, env: Env)
    requires Starts(w, env)
    ensures Run(job, w, 1, env).1 == BudgetExhausted <==>
            forall n :: 1 <= n <= job.budget ==> Survives(job, w.counter.table, env, n)
  {
    hide Run, Survives;
    var m := StopsSomewhere(job, w, env);
  }

  // ---- waiting ----

  /** The most that backing off at attempts i..5 can take. */
  function BackoffBound(i: nat): nat
    decreases 6 - i
  {
    if i > MAX_BACKOFF_ATTEMPTS then 0 else BackoffBase(i) + 299 + BackoffBound(i + 1)
  }

  /** The ten-second ceiling never applies to an attempt that backs off. */
  lemma CeilingNeverApplies(i: nat)
    requires i <= MAX_BACKOFF_ATTEMPTS
    ensures BackoffBase(i) == Pow2(i) * 200 <= 6400
  {
    assert Pow2(5) == 32 && Pow2(4) == 16 && Pow2(3) == 8;
  }

  lemma TotalBackoff()
    ensures BackoffBound(1) == 13_895
  {
    assert Pow2(5) == 32 && Pow2(4) == 16 && Pow2(3) == 8;
    assert BackoffBase(1) == 400 && BackoffBase(2) == 800 && BackoffBase(3) == 1600;
    assert BackoffBase(4) == 3200 && BackoffBase(5) == 6400;
    assert BackoffBound(5) == 6699;
    assert BackoffBound(3) == 6699 + 3499 + 1899;
  }

  lemma BackoffBoundStep(i: nat)
    ensures BackoffBound(i) == if i > MAX_BACKOFF_ATTEMPTS then 0 else BackoffBase(i) + 299 + BackoffBound(i + 1)
    ensures BackoffBound(i + 1) <= BackoffBound(i)
  {
  }

  /** Distinct attempts in growing order, from i to 5. */
  ghost predicate EarlyAndDistinct(i: nat, s: seq<nat>) {
    && (forall k :: 0 <= k < |s| ==> i <= s[k] <= MAX_BACKOFF_ATTEMPTS)
    && (forall k, l :: 0 <= k < l < |s| ==> s[k] < s[l])
  }

  lemma EarlierFirst(i: nat, rest: seq<nat>)
    requires EarlyAndDistinct(i + 1, rest)
    ensures EarlyAndDistinct(i, rest)
    ensures i <= MAX_BACKOFF_ATTEMPTS ==> EarlyAndDistinct(i, [i] + rest)
  {
  }

  /** One attempt either backs off, at one of the first five, or sleeps a jitter at most. */
  lemma OnceWaits(job: Job, w: World, i: nat, a: Attempt)
    ensures var v := Once(job, w, i, a).w;
      || (v.backoffs == w.backoffs && v.slept <= w.slept + 599)
      || (v.backoffs == w.backoffs + [i] && i <= MAX_BACKOFF_ATTEMPTS && v.slept <= w.slept + BackoffBase(i) + 299)
  {
  }

  lemma {:induction false} WaitingFrom(job: Job, w: World, i: nat, env: Env) returns (s: seq<nat>)
    ensures var v := Run(job, w, i, env).0;
      && v.backoffs == w.backoffs + s
      && EarlyAndDistinct(i, s)
      && |s| <= (if i <= MAX_BACKOFF_ATTEMPTS then 6 - i else 0)
      && v.slept <= w.slept + BackoffBound(i) + 599 * (if job.budget >= i then job.budget + 1 - i else 0)
    decreases job.budget + 1 - i
  {
    hide Once, Run, BackoffBase, BackoffBound, EarlyAndDistinct;
    s := [];
    BackoffBoundStep(i);
    RunStep(job, w, i, env);
    assert EarlyAndDistinct(i, []) && EarlyAndDistinct(i + 1, []) by { NoneEarly(i); NoneEarly(i + 1); }
    if i <= job.budget {
      var step := Once(job, w, i, env(i));
      OnceWaits(job, w, i, env(i));
      var rest := [];
      if step.Next? {
        rest := WaitingFrom(job, step.w, i + 1, env);
      }
      EarlierFirst(i, rest);
      if step.w.backoffs == w.backoffs {
        s := rest;
      } else {
        assert w.backoffs + ([i] + rest) == w.backoffs + [i] + rest;
        s := [i] + rest;
      }
    }
  }

  lemma NoneEarly(i: nat)
    ensures EarlyAndDistinct(i, [])
  {
  }

  /** Whatever the provider does: a run backs off at most five times, at distinct attempts,
      and sleeps at most 13,895 ms plus 599 ms per attempt of its budget. */
  lemma WaitingBound(job: Job, w: World, env: Env)
    ensures var v := Run(job, w, 1, env).0;
      && w.backoffs <= v.backoffs
      && EarlyAndDistinct(1, v.backoffs[|w.backoffs|..])
      && |v.backoffs| - |w.backoffs| <= 5
      && v.slept - w.slept <= 13_895 + 599 * (if job.budget > 0 then job.budget else 0)
  {
    var s := WaitingFrom(job, w, 1, env);
    TotalBackoff();
    assert Run(job, w, 1, env).0.backoffs[|w.backoffs|..] == s;
  }

  // ---- what a run leaves at the provider ----

  /** Every granted resource is new to the provider, and no two grants share one. */
  ghost predicate FreshIds(env: Env, i: nat, live: set<string>) {
    && (forall k :: k >= i && env(k).outcome.Granted? ==> env(k).outcome.ip.id !in live)
    && (forall k, l :: i <= k < l && env(k).outcome.Granted? && env(l).outcome.Granted? ==>
          env(k).outcome.ip.id != env(l).outcome.ip.id)
  }

  /** The resources of attempts i..n-1 whose release failed. */
  function Stuck(env: Env, i: nat, n: nat): set<string>
    decreases n - i
  {
    if i >= n then {}
    else (if env(i).outcome.Granted? && !env(i).released then {env(i).outcome.ip.id} else {}) + Stuck(env, i + 1, n)
  }

  /** The resources of attempts i..n-1, in order: each was released once. */
  function Handed(env: Env, i: nat, n: nat): seq<string>
    decreases n - i
  {
    if i >= n then []
    else (if env(i).outcome.Granted? then [env(i).outcome.ip.id] else []) + Handed(env, i + 1, n)
  }

  lemma {:induction false} LeavesFrom(job: Job, w: World, i: nat, env: Env)
    requires FreshIds(env, i, w.live)
    ensures var (v, r) := Run(job, w, i, env);
      var n := ExitIndex(job, w, i, env);
      && v.live == w.live + Stuck(env, i, n) + (if r.Caught? then {r.ip.id} else {})
      && v.releases == w.releases + Handed(env, i, n)
      && (r.Caught? ==> r.attempts == n && env(n).outcome == Granted(r.ip))
    decreases job.budget + 1 - i
  {
    hide Once, FreshIds, Stuck, Handed;
    NoneBetween(env, i);
    if i <= job.budget {
      OnceLeaves(job, w, i, env);
      var v := Once(job, w, i, env(i)).w;
      if Once(job, w, i, env(i)).Next? {
        var n := ExitIndex(job, v, i + 1, env);
        LeavesFrom(job, v, i + 1, env);
        OneThenRest(env, i, n);
        assert w.releases + Handed(env, i, n) == v.releases + Handed(env, i + 1, n);
      }
    }
  }

  lemma NoneBetween(env: Env, i: nat)
    ensures Stuck(env, i, i) == {} && Handed(env, i, i) == []
  {
  }

  lemma OneThenRest(env: Env, i: nat, n: nat)
    requires i < n
    ensures Stuck(env, i, n) == Stuck(env, i, i + 1) + Stuck(env, i + 1, n)
    ensures Handed(env, i, n) == Handed(env, i, i + 1) + Handed(env, i + 1, n)
  {
    NoneBetween(env, i + 1);
  }

  lemma OnceLeaves(job: Job, w: World, i: nat, env: Env)
    requires FreshIds(env, i, w.live)
    ensures match Once(job, w, i, env(i))
      case Next(v) =>
        && v.live == w.live + Stuck(env, i, i + 1)
        && v.releases == w.releases + Handed(env, i, i + 1)
        && FreshIds(env, i + 1, v.live)
      case Stop(v, r) =>
        && v.live == w.live + (if r.Caught? then {r.ip.id} else {})
        && v.releases == w.releases
        && (r.Caught? ==> r.attempts == i && env(i).outcome == Granted(r.ip))
  {
    if env(i).outcome.Granted? {
      var id := env(i).outcome.ip.id;
      assert w.live + {id} - {id} == w.live;
    }
  }

  lemma {:induction false} HandedIds(env: Env, i: nat, n: nat, id: string)
    requires id in Handed(env, i, n)
    ensures exists k :: i <= k < n && env(k).outcome.Granted? && env(k).outcome.ip.id == id
    decreases n - i
  {
    if !(env(i).outcome.Granted? && env(i).outcome.ip.id == id) {
      HandedIds(env, i + 1, n, id);
    }
  }

  /** A run ends owning the caught address and the addresses whose release failed, and
      nothing else; every other address it was granted was released, once and in order, after
      whatever was released before the run, and the caught one was not. */
  lemma RunSettles(job: Job, w: World, env: Env)
    requires FreshIds(env, 1, w.live)
    ensures var (v, r) := Run(job, w, 1, env);
      var n := ExitIndex(job, w, 1, env);
      && v.live == w.live + Stuck(env, 1, n) + (if r.Caught? then {r.ip.id} else {})
      && v.releases == w.releases + Handed(env, 1, n)
      && (r.Caught? ==> r.attempts == n && r.ip.id !in v.releases[|w.releases|..])
  {
    hide Run;
    LeavesFrom(job, w, 1, env);
    var (v, r) := Run(job, w, 1, env);
    var n := ExitIndex(job, w, 1, env);
    assert v.releases[|w.releases|..] == Handed(env, 1, n);
    if r.Caught? && r.ip.id in Handed(env, 1, n) {
      HandedIds(env, 1, n, r.ip.id);
    }
  }

  // ---- what a run writes to the log ----

  /** One row for each address of attempts i..n-1, in order, marked by whether the mask accepts
      it; `released` is written before the release is tried. */
  ghost predicate RowsFor(job: Job, env: Env, i: nat, n: nat, rows: seq<LogEntry>)
    decreases n - i
  {
    if i >= n then rows == []
    else match env(i).outcome
      case Refused(_) => RowsFor(job, env, i + 1, n, rows)
      case Granted(ip) =>
        && rows != []
        && rows[0].account == job.account && rows[0].ip == ip.addr
        && rows[0].matched == Accepts(job.mask, ip.addr) && rows[0].released == !rows[0].matched
        && RowsFor(job, env, i + 1, n, rows[1..])
  }

  /** The attempt after the last one that was allocated in a run. */
  function PastLast(job: Job, w: World, env: Env, i: nat): nat {
    ExitIndex(job, w, i, env) + if Run(job, w, i, env).1.Caught? then 1 else 0
  }

  lemma {:induction false} LogsFrom(job: Job, w: World, i: nat, env: Env) returns (rows: seq<LogEntry>)
    requires forall k :: !env(k).logFault
    ensures Run(job, w, i, env).0.log == w.log + rows
    ensures RowsFor(job, env, i, PastLast(job, w, env, i), rows)
    decreases job.budget + 1 - i
  {
    hide Once, RowsFor;
    NoRows(job, env, i);
    rows := [];
    if i <= job.budget {
      OnceLogs(job, w, i, env);
      var v := Once(job, w, i, env(i)).w;
      rows := v.log[|w.log|..];
      assert v.log == w.log + rows;
      if Once(job, w, i, env(i)).Next? {
        var rest := LogsFrom(job, v, i + 1, env);
        MoreRows(job, env, i, PastLast(job, w, env, i), rows, rest);
        assert w.log + (rows + rest) == w.log + rows + rest;
        rows := rows + rest;
      }
    }
  }

  lemma NoRows(job: Job, env: Env, i: nat)
    ensures RowsFor(job, env, i, i, [])
  {
  }

  lemma MoreRows(job: Job, env: Env, i: nat, n: nat, rows: seq<LogEntry>, rest: seq<LogEntry>)
    requires i < n && RowsFor(job, env, i, i + 1, rows) && RowsFor(job, env, i + 1, n, rest)
    ensures RowsFor(job, env, i, n, rows + rest)
  {
    if env(i).outcome.Granted? {
      assert rows[1..] == [];
      assert (rows + rest)[1..] == rest;
    } else {
      assert rows + rest == rest;
    }
  }

  lemma OnceLogs(job: Job, w: World, i: nat, env: Env)
    requires !env(i).logFault
    ensures match Once(job, w, i, env(i))
      case Next(v) => w.log <= v.log && RowsFor(job, env, i, i + 1, v.log[|w.log|..])
      case Stop(v, r) => w.log <= v.log && RowsFor(job, env, i, if r.Caught? then i + 1 else i, v.log[|w.log|..])
  {
    var v := Once(job, w, i, env(i)).w;
    assert v.log == w.log || v.log[|w.log|..] == [v.log[|w.log|]];
  }

  /** When the log works, a run appends exactly one row per address it was granted, in order,
      and the caught address has the last one. */
  lemma RunLogs(job: Job, w: World, env: Env) returns (rows: seq<LogEntry>)
    requires forall k :: !env(k).logFault
    ensures Run(job, w, 1, env).0.log == w.log + rows
    ensures RowsFor(job, env, 1, PastLast(job, w, env, 1), rows)
  {
    rows := LogsFrom(job, w, 1, env);
  }

  // ---- what the log says of releases ----

  /** The row of attempt k comes after those of the earlier grants. */
  lemma {:induction false} RowAt(job: Job, env: Env, i: nat, n: nat, rows: seq<LogEntry>, k: nat)
    requires RowsFor(job, env, i, n, rows) && i <= k < n && env(k).outcome.Granted?
    ensures var at := |Handed(env, i, k)|;
      && at < |rows|
      && rows[at].ip == env(k).outcome.ip.addr
      && rows[at].matched == Accepts(job.mask, env(k).outcome.ip.addr) && rows[at].released == !rows[at].matched
    decreases n - i
  {
    if i < k {
      RowAt(job, env, i + 1, n, if env(i).outcome.Granted? then rows[1..] else rows, k);
    }
  }

  /** What is granted before the exit is a miss. */
  lemma {:induction false} EarlierMiss(job: Job, w: World, i: nat, env: Env, k: nat)
    requires i <= k < ExitIndex(job, w, i, env) && env(k).outcome.Granted?
    ensures !Accepts(job.mask, env(k).outcome.ip.addr)
    decreases k - i
  {
    if i < k {
      EarlierMiss(job, Once(job, w, i, env(i)).w, i + 1, env, k);
    }
  }

  lemma {:induction false} CaughtMatches(job: Job, w: World, i: nat, env: Env)
    requires Run(job, w, i, env).1.Caught?
    ensures Accepts(job.mask, Run(job, w, i, env).1.ip.addr)
    decreases job.budget + 1 - i
  {
    if Once(job, w, i, env(i)).Next? {
      CaughtMatches(job, Once(job, w, i, env(i)).w, i + 1, env);
    }
  }

  lemma {:induction false} StuckExactly(env: Env, i: nat, n: nat, id: string)
    ensures id in Stuck(env, i, n) <==>
            exists k :: i <= k < n && env(k).outcome.Granted? && env(k).outcome.ip.id == id && !env(k).released
    decreases n - i
  {
    if i < n {
      StuckExactly(env, i + 1, n, id);
      assert id in Stuck(env, i, n) ==>
        (env(i).outcome.Granted? && env(i).outcome.ip.id == id && !env(i).released) || id in Stuck(env, i + 1, n);
    }
  }

  /** The `released` mark of a log row is written before the release is tried. At the end of the run it
      agrees with the provider, for every logged attempt, exactly if the address matched or its
      release worked. */
  lemma LogMarksExactly(job: Job, w: World, env: Env, k: nat)
    requires FreshIds(env, 1, w.live) && forall j :: !env(j).logFault
    requires 1 <= k < PastLast(job, w, env, 1) && env(k).outcome.Granted?
    ensures var v, at := Run(job, w, 1, env).0, |w.log| + |Handed(env, 1, k)|;
      && at < |v.log|
      && v.log[at].ip == env(k).outcome.ip.addr && v.log[at].matched == Accepts(job.mask, env(k).outcome.ip.addr)
      && (v.log[at].released == (env(k).outcome.ip.id !in v.live) <==> v.log[at].matched || env(k).released)
  {
    hide Run, Once, ExitIndex, RowsFor;
    var rows := RunLogs(job, w, env);
    RowAt(job, env, 1, PastLast(job, w, env, 1), rows, k);
    LeavesFrom(job, w, 1, env);
    var n, id := ExitIndex(job, w, 1, env), env(k).outcome.ip.id;
    StuckExactly(env, 1, n, id);
    if k < n {
      EarlierMiss(job, w, 1, env, k);
    } else {
      CaughtMatches(job, w, 1, env);
    }
  }

  /** Such a row: one miss whose release fails. */
  lemma LogCanBeWrong(job: Job, w: World, ip: AllocatedIP, today: Day) returns (env: Env)
    requires job.budget >= 1 && Allowed(w.counter, job.account, job.cap, today, false)
    requires !Accepts(job.mask, ip.addr) && ip.id !in w.live
    ensures var v := Run(job, w, 1, env).0;
      && v.log == w.log + [LogEntry(job.account, ip.addr, false, true)]
      && v.live == w.live + {ip.id}
  {
    env := (k: nat) => Attempt(today, false, k == 1, Granted(ip), 0, None, today, false, false, false, false, 0, None);
    hide Accepts, Allowed, AfterInc, AfterAllow;
    var u := Once(job, w, 1, env(1)).w;
    assert Once(job, w, 1, env(1)).Next?;
    assert Run(job, w, 1, env) == Run(job, u, 2, env);
    assert !env(2).waited;
  }

  // ---- going on after an error ----

  /** An attempt that the counter and the limiter let through and that is refused with 429, or with any
      status from 500, at one of the first five places, is followed by the next one, or by the end of
      the budget. */
  lemma ServerErrorGoesOn(job: Job, w: World, env: Env, n: nat)
    requires Starts(w, env) && Reaches(job, w.counter.table, env, n) && Permitted(job, w.counter.table, env, n)
    requires env(n).waited && n <= 5 && env(n).backoffCut.None?
    requires env(n).outcome.Refused? && env(n).outcome.e.Api?
    requires env(n).outcome.e.status == 429 || env(n).outcome.e.status >= 500
    ensures n < job.budget ==> Reaches(job, w.counter.table, env, n + 1)
    ensures n == job.budget ==> Run(job, w, 1, env).1 == BudgetExhausted
  {
    hide Run, Permitted;
    assert Survives(job, w.counter.table, env, n);
    if n == job.budget {
      BudgetExactly(job, w, env);
    }
  }

  // ---- the time a run takes ----

  /** What attempts i..n-1 sleep when no sleep is cut: 200 milliseconds doubled with every attempt, and a
      jitter, after an error; 200 and a jitter after a miss. */
  function NapSum(env: Env, i: nat, n: nat): nat
    decreases n - i
  {
    if i >= n then 0
    else
      (if env(i).outcome.Refused? then 200 * Pow2(i) + env(i).backoffJitter else 200 + env(i).napJitter)
      + NapSum(env, i + 1, n)
  }

  lemma OnceNaps(job: Job, w: World, i: nat, a: Attempt)
    requires a.backoffCut.None? && a.napCut.None?
    ensures match Once(job, w, i, a)
      case Stop(v, _) => v.slept == w.slept
      case Next(v) =>
        v.slept == w.slept + if a.outcome.Refused? then 200 * Pow2(i) + a.backoffJitter else 200 + a.napJitter
  {
    if i <= 5 {
      CeilingNeverApplies(i);
    }
  }

  lemma {:induction false} NapsFrom(job: Job, w: World, i: nat, env: Env)
    requires forall k :: env(k).backoffCut.None? && env(k).napCut.None?
    ensures Run(job, w, i, env).0.slept == w.slept + NapSum(env, i, ExitIndex(job, w, i, env))
    decreases job.budget + 1 - i
  {
    hide Once, Run, Pow2;
    RunStep(job, w, i, env);
    if i <= job.budget {
      OnceNaps(job, w, i, env(i));
      if Once(job, w, i, env(i)).Next? {
        NapsFrom(job, Once(job, w, i, env(i)).w, i + 1, env);
      }
    }
  }

  /** With no sleep cut short, a run sleeps exactly its backoffs and the naps after its misses. */
  lemma SleepExactly(job: Job, w: World, env: Env)
    requires forall k :: env(k).backoffCut.None? && env(k).napCut.None?
    ensures Run(job, w, 1, env).0.slept == w.slept + NapSum(env, 1, ExitIndex(job, w, 1, env))
  {
    NapsFrom(job, w, 1, env);
  }

  /** A sleep that is cut takes until it is cut. */
  lemma CutSleep(ms: nat, cut: nat)
    ensures cut <= ms ==> Slept(ms, Some(cut)) == cut
    ensures Slept(ms, None) == ms
  {
  }

  /** The budget of a run is what was asked for, and at most the account's limit if it has one. */
  lemma ClampExactly(budget: int, limit: int)
    ensures limit <= 0 ==> Clamp(budget, limit) == budget
    ensures limit > 0 ==> Clamp(budget, limit) <= limit && Clamp(budget, limit) <= budget
    ensures Clamp(budget, limit) == budget || Clamp(budget, limit) == limit
  {
  }
}
