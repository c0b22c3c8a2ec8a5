/** The rolling loop: allocate an address, keep it when it matches the mask, release it and
    try again when it does not, within a budget and a daily cap. */
module Roll {

  import opened Wrappers
  import opened Mask
  import opened Storage
  import opened DailyCount

  const MAX_BACKOFF_ATTEMPTS := 5

  datatype AllocatedIP = AllocatedIP(addr: Addr, id: string)

  /** A non-2xx API response, or any other error. */
  datatype ProviderError = Api(status: int) | Other(text: string)

  predicate Retryable(e: ProviderError) {
    e.Api? && (e.status == 429 || e.status >= 500)
  }

  datatype Outcome = Granted(ip: AllocatedIP) | Refused(e: ProviderError)

  type Below300 = n: nat | n < 300
  type Below400 = n: nat | n < 400

  /** Everything one attempt takes from outside the loop: clock readings, storage failures,
      the rate limiter's answer, the provider's answers, the random jitters, and for each
      sleep None if it ran its full length or the milliseconds after which it was cancelled. */
  datatype Attempt = Attempt(
    allowDay: Day, allowFault: bool, waited: bool, outcome: Outcome,
    backoffJitter: Below300, backoffCut: Option<nat>,
    incDay: Day, incReadFault: bool, incWriteFault: bool, logFault: bool,
    released: bool, napJitter: Below400, napCut: Option<nat>)

  datatype RollResult =
    | Caught(ip: AllocatedIP, attempts: nat)
    | CapReached
    | WaitFailed
    | AllocateFailed(e: ProviderError)
    | BudgetExhausted

  /** The account being rolled, its daily cap, the mask, and the clamped budget. */
  datatype Job = Job(account: string, cap: int, mask: Matcher, budget: int)

  /** All that a run reads and writes: the counter, the log, the provider's live resources and
      the release calls it got, the attempts that backed off, and the time slept. */
  datatype World = World(counter: Counter, log: seq<LogEntry>, live: set<string>,
                         releases: seq<string>, backoffs: seq<nat>, slept: nat)

  function Clamp(budget: int, maxRollsPerRun: int): int {
    if maxRollsPerRun > 0 && budget > maxRollsPerRun then maxRollsPerRun else budget
  }

  function Slept(ms: nat, cut: Option<nat>): (r: nat)
    ensures r <= ms
  {
    if cut.Some? && cut.value < ms then cut.value else ms
  }

  function BackoffBase(attempt: nat): nat {
    var wait := Pow2(attempt) * 200;
    if wait > 10_000 then 10_000 else wait
  }

  /** Whether the loop goes on after an error: the attempt number, not the number of failures,
      is what is compared with the limit. */
  predicate BacksOff(attempt: nat, e: ProviderError) {
    Retryable(e) && attempt <= MAX_BACKOFF_ATTEMPTS
  }

  // ---- the loop as a function ----

  datatype Progress = Next(w: World) | Stop(w: World, r: RollResult)

  function AfterGrant(job: Job, w: World, ip: AllocatedIP, a: Attempt): World {
    var matched := Accepts(job.mask, ip.addr);
    w.(counter := AfterInc(w.counter, job.account, a.incDay, a.incReadFault, a.incWriteFault),
       log := if a.logFault then w.log else w.log + [LogEntry(job.account, ip.addr, matched, !matched)])
  }

  function AfterRelease(w: World, ip: AllocatedIP, a: Attempt): World {
    w.(live := if a.released then w.live - {ip.id} else w.live,
       releases := w.releases + [ip.id],
       slept := w.slept + Slept(200 + a.napJitter, a.napCut))
  }

  function AfterBackoff(w: World, i: nat, a: Attempt): World {
    w.(backoffs := w.backoffs + [i],
       slept := w.slept + Slept(BackoffBase(i) + a.backoffJitter, a.backoffCut))
  }

  function Once(job: Job, w: World, i: nat, a: Attempt): Progress {
    var w1 := w.(counter := AfterAllow(w.counter, job.account, job.cap, a.allowDay, a.allowFault));
    if !Allowed(w.counter, job.account, job.cap, a.allowDay, a.allowFault) then Stop(w1, CapReached)
    else if !a.waited then Stop(w1, WaitFailed)
    else match a.outcome
      case Refused(e) =>
        if !BacksOff(i, e) then Stop(w1, AllocateFailed(e))
        else if a.backoffCut.Some? then Stop(AfterBackoff(w1, i, a), AllocateFailed(e))
        else Next(AfterBackoff(w1, i, a))
      case Granted(ip) =>
        var w2 := AfterGrant(job, w1.(live := w1.live + {ip.id}), ip, a);
        if Accepts(job.mask, ip.addr) then Stop(w2, Caught(ip, i))
        else Next(AfterRelease(w2, ip, a))
  }

  /** Attempts i, i + 1, ... up to the budget. */
  function Run(job: Job, w: World, i: nat, env: nat -> Attempt): (World, RollResult)
    decreases job.budget + 1 - i
  {
    if i > job.budget then (w, BudgetExhausted)
    else match Once(job, w, i, env(i))
      case Stop(v, r) => (v, r)
      case Next(v) => Run(job, v, i + 1, env)
  }

  /** The run from attempt i on, one attempt unfolded. */
  lemma RunStep(job: Job, w: World, i: nat, env: nat -> Attempt)
    ensures Run(job, w, i, env) ==
      if i > job.budget then (w, BudgetExhausted)
      else match Once(job, w, i, env(i))
        case Stop(v, r) => (v, r)
        case Next(v) => Run(job, v, i + 1, env)
  {
  }

  // ---- the loop as the program has it ----

  /** A provider account. The environment decides whether an allocation or a release works. */
  class Provider {
    const name: string
    const maxRollsPerRun: int
    const dailyCap: int
    const rateLimit: real
    var live: set<string>
    var releases: seq<string>

    constructor (name: string, maxRollsPerRun: int, dailyCap: int, rateLimit: real)
      ensures this.name == name && this.maxRollsPerRun == maxRollsPerRun
      ensures this.dailyCap == dailyCap && this.rateLimit == rateLimit
      ensures live == {} && releases == []
    {
      this.name, this.maxRollsPerRun, this.dailyCap, this.rateLimit := name, maxRollsPerRun, dailyCap, rateLimit;
      live, releases := {}, [];
    }

    method Allocate(o: Outcome) returns (r: Result<AllocatedIP, ProviderError>)
      modifies this`live
      ensures o.Granted? ==> r == Ok(o.ip) && live == old(live) + {o.ip.id}
      ensures o.Refused? ==> r == Err(o.e) && live == old(live)
    {
      match o
      case Granted(ip) =>
        live := live + {ip.id};
        r := Ok(ip);
      case Refused(e) =>
        r := Err(e);
    }

    method Release(ip: AllocatedIP, works: bool) returns (ok: bool)
      modifies this
      ensures ok == works && releases == old(releases) + [ip.id]
      ensures live == if works then old(live) - {ip.id} else old(live)
    {
      releases := releases + [ip.id];
      if works {
        live := live - {ip.id};
      }
      ok := works;
    }
  }

  class Engine {
    var limiters: map<string, real>
    const daily: DailyCounter
    const store: SQLite
    ghost var backoffs: seq<nat>
    ghost var slept: nat

    ghost predicate Valid()
      reads this
    {
      daily.store == store
    }

    constructor (store: SQLite, today: Day)
      ensures Valid() && this.store == store && fresh(daily) && limiters == map[]
      ensures daily.View() == Counter(today, map[], store.daily)
      ensures backoffs == [] && slept == 0
    {
      this.store := store;
      daily := new DailyCounter(store, today);
      limiters, backoffs, slept := map[], [], 0;
    }

    ghost function View(p: Provider): World
      requires Valid()
      reads this, daily, store, p
    {
      World(daily.View(), store.rollLog, p.live, p.releases, backoffs, slept)
    }

    /** One limiter per account; the rate of its first use stays, and a rate that is not
        positive means five per second. */
    method Limiter(name: string, rps: real) returns (l: real)
      modifies this`limiters
      ensures name in limiters && l == limiters[name]
      ensures l == if name in old(limiters) then old(limiters)[name] else if rps <= 0.0 then 5.0 else rps
      ensures limiters == if name in old(limiters) then old(limiters) else old(limiters)[name := l]
    {
      if name in limiters {
        return limiters[name];
      }
      l := if rps <= 0.0 then 5.0 else rps;
      limiters := limiters[name := l];
    }

    method Sleep(ms: nat, cut: Option<nat>) returns (full: bool)
      modifies this`slept
      ensures full == cut.None?
      ensures slept == old(slept) + Slept(ms, cut)
    {
      slept := slept + Slept(ms, cut);
      full := cut.None?;
    }

    method Backoff(attempt: nat, e: ProviderError, a: Attempt) returns (goOn: bool)
      modifies this`backoffs, this`slept
      ensures goOn == (BacksOff(attempt, e) && a.backoffCut.None?)
      ensures backoffs == if BacksOff(attempt, e) then old(backoffs) + [attempt] else old(backoffs)
      ensures slept == old(slept) +
        if BacksOff(attempt, e) then Slept(BackoffBase(attempt) + a.backoffJitter, a.backoffCut) else 0
    {
      if !Retryable(e) {
        return false;
      }
      if attempt > MAX_BACKOFF_ATTEMPTS {
        return false;
      }
      var wait := Pow2(attempt) * 200;
      if wait > 10_000 {
        wait := 10_000;
      }
      wait := wait + a.backoffJitter;
      backoffs := backoffs + [attempt];
      goOn := Sleep(wait, a.backoffCut);
    }

    /** Attempt i: the body of the loop. */
    method TryOnce(p: Provider, mask: Matcher, i: nat, a: Attempt) returns (stop: bool, res: RollResult)
      requires Valid()
      modifies this`backoffs, this`slept, daily, store`daily, store`rollLog, p
      ensures Once(Job(p.name, p.dailyCap, mask, 0), old(View(p)), i, a) ==
              if stop then Stop(View(p), res) else Next(View(p))
    {
      var allowed := daily.Allow(p.name, p.dailyCap, a.allowDay, a.allowFault);
      if !allowed {
        return true, CapReached;
      }
      if !a.waited {
        return true, WaitFailed;
      }
      var got := p.Allocate(a.outcome);
      if got.Err? {
        var goOn := Backoff(i, got.error, a);
        return !goOn, AllocateFailed(got.error);
      }
      var matched := Settle(p, mask, got.value, a);
      return matched, Caught(got.value, i);
    }

    /** An allocated address is counted, checked and logged, and released unless it matches. */
    method Settle(p: Provider, mask: Matcher, ip: AllocatedIP, a: Attempt) returns (matched: bool)
      requires Valid()
      modifies this`slept, daily, store`daily, store`rollLog, p
      ensures matched == Accepts(mask, ip.addr)
      ensures var w := AfterGrant(Job(p.name, p.dailyCap, mask, 0), old(View(p)), ip, a);
              View(p) == if matched then w else AfterRelease(w, ip, a)
    {
      daily.Inc(p.name, a.incDay, a.incReadFault, a.incWriteFault);
      matched := Match(mask, ip.addr);
      var logged := store.LogRoll(LogEntry(p.name, ip.addr, matched, !matched), a.logFault);
      if !matched {
        var released := p.Release(ip, a.released);
        var full := Sleep(200 + a.napJitter, a.napCut);
      }
    }

    /** The program's loop does what the function Run says, from attempt 1 and with the
        clamped budget, to everything it touches. */
    method Roll(p: Provider, mask: Matcher, budget: int, env: nat -> Attempt) returns (res: RollResult)
      requires Valid()
      modifies this, daily, store`daily, store`rollLog, p
      ensures Valid()
      ensures (View(p), res) ==
              Run(Job(p.name, p.dailyCap, mask, Clamp(budget, p.maxRollsPerRun)), old(View(p)), 1, env)
    {
      hide Run, Once;
      var limit := budget;
      if p.maxRollsPerRun > 0 && budget > p.maxRollsPerRun {
        limit := p.maxRollsPerRun;
      }
      ghost var job := Job(p.name, p.dailyCap, mask, limit);
      ghost var start := View(p);
      var lim := Limiter(p.name, p.rateLimit);
      var i := 1;
      while i <= limit
        invariant Valid() && 1 <= i
        invariant Run(job, View(p), i, env) == Run(job, start, 1, env)
        decreases limit + 1 - i
      {
        OnceIgnoresBudget(job, View(p), i, env(i));
        RunStep(job, View(p), i, env);
        var stop, r := TryOnce(p, mask, i, env(i));
        if stop {
          return r;
        }
        i := i + 1;
      }
      RunStep(job, View(p), i, env);
      return BudgetExhausted;
    }
  }

  lemma OnceIgnoresBudget(job: Job, w: World, i: nat, a: Attempt)
    ensures Once(job, w, i, a) == Once(job.(budget := 0), w, i, a)
  {
  }
}
