/** The daily cap: a per-day cache of counts, written through to the daily_counters table. */
module DailyCount {

  import opened Storage

  /** The counter as one value: the cached day, its cached counts, and the table. */
  datatype Counter = Counter(day: Day, cache: map<string, nat>, table: DailyTable)

  // ---- what each critical section does; `today` is its clock reading ----

  function EnsureDay(c: Counter, today: Day): Counter {
    if c.day == today then c else Counter(today, map[], c.table)
  }

  /** The counter after a lookup, which leaves the count in the cache. A failed read counts
      as zero, and that zero is cached. */
  function Load(c: Counter, account: string, today: Day, readFault: bool): (r: Counter)
    ensures account in r.cache && r.day == today && r.table == c.table
  {
    var d := EnsureDay(c, today);
    if account in d.cache then d
    else d.(cache := d.cache[account := if readFault then 0 else Stored(d.table, account, today)])
  }

  function Count(c: Counter, account: string, today: Day, readFault: bool): nat {
    Load(c, account, today, readFault).cache[account]
  }

  /** Only a positive cap looks at the counter. */
  function AfterAllow(c: Counter, account: string, cap: int, today: Day, readFault: bool): Counter {
    if cap <= 0 then c else Load(c, account, today, readFault)
  }

  predicate Allowed(c: Counter, account: string, cap: int, today: Day, readFault: bool) {
    cap <= 0 || Count(c, account, today, readFault) < cap
  }

  function AfterInc(c: Counter, account: string, today: Day, readFault: bool, writeFault: bool): Counter {
    var d := Load(c, account, today, readFault);
    Counter(today, d.cache[account := d.cache[account] + 1],
            if writeFault then d.table else Bumped(d.table, account, today))
  }

  function Left(cap: int, count: nat): int {
    if cap <= 0 then -1 else if cap < count then 0 else cap - count
  }

  // ---- the object ----

  class DailyCounter {
    const store: SQLite
    var day: Day
    var counts: map<string, nat>

    ghost function View(): Counter
      reads this, store
    {
      Counter(day, counts, store.daily)
    }

    constructor (store: SQLite, today: Day)
      ensures this.store == store && View() == Counter(today, map[], store.daily)
    {
      this.store := store;
      day := today;
      counts := map[];
    }

    method EnsureToday(today: Day)
      modifies this
      ensures View() == EnsureDay(old(View()), today)
    {
      if day != today {
        day := today;
        counts := map[];
      }
    }

    method Get(account: string, today: Day, readFault: bool) returns (n: nat)
      modifies this
      ensures View() == Load(old(View()), account, today, readFault)
      ensures n == Count(old(View()), account, today, readFault)
    {
      EnsureToday(today);
      if account in counts {
        return counts[account];
      }
      var r := store.DailyCount(account, day, readFault);
      n := if r.Ok? then r.value else 0;
      counts := counts[account := n];
    }

    method Allow(account: string, cap: int, today: Day, readFault: bool) returns (ok: bool)
      modifies this
      ensures View() == AfterAllow(old(View()), account, cap, today, readFault)
      ensures ok == Allowed(old(View()), account, cap, today, readFault)
    {
      if cap <= 0 {
        return true;
      }
      var n := Get(account, today, readFault);
      return n < cap;
    }

    method Inc(account: string, today: Day, readFault: bool, writeFault: bool)
      modifies this, store`daily
      ensures View() == AfterInc(old(View()), account, today, readFault, writeFault)
    {
      EnsureToday(today);
      var n := Get(account, today, readFault);
      counts := counts[account := n + 1];
      var ok := store.IncDaily(account, day, writeFault);
    }

    method Used(account: string, today: Day, readFault: bool) returns (n: nat)
      modifies this
      ensures View() == Load(old(View()), account, today, readFault)
      ensures n == Count(old(View()), account, today, readFault)
    {
      n := Get(account, today, readFault);
    }

    method Remaining(account: string, cap: int, today: Day, readFault: bool) returns (r: int)
      modifies this
      ensures View() == AfterAllow(old(View()), account, cap, today, readFault)
      ensures r == if cap <= 0 then -1 else Left(cap, Count(old(View()), account, today, readFault))
      ensures cap > 0 ==> var n := Count(old(View()), account, today, readFault); r == if n < cap then cap - n else 0
    {
      if cap <= 0 {
        return -1;
      }
      var n := Get(account, today, readFault);
      r := cap - n;
      if r < 0 {
        r := 0;
      }
    }
  }

  // ---- histories ----

  datatype Op =
    | Allow(account: string, cap: int, today: Day, readFault: bool)
    | Inc(account: string, today: Day, readFault: bool, writeFault: bool)
    | Used(account: string, today: Day, readFault: bool)
    | Remaining(account: string, cap: int, today: Day, readFault: bool)
    | Restart(today: Day)

  datatype Answer = Verdict(ok: bool) | Number(n: int) | Silent

  /** A restart loses the cache and keeps the table. */
  function Apply(c: Counter, op: Op): Counter {
    match op
    case Allow(a, cap, today, rf) => AfterAllow(c, a, cap, today, rf)
    case Inc(a, today, rf, wf) => AfterInc(c, a, today, rf, wf)
    case Used(a, today, rf) => Load(c, a, today, rf)
    case Remaining(a, cap, today, rf) => AfterAllow(c, a, cap, today, rf)
    case Restart(today) => Counter(today, map[], c.table)
  }

  function AnswerOf(c: Counter, op: Op): Answer {
    match op
    case Allow(a, cap, today, rf) => Verdict(Allowed(c, a, cap, today, rf))
    case Inc(_, _, _, _) => Silent
    case Used(a, today, rf) => Number(Count(c, a, today, rf))
    case Remaining(a, cap, today, rf) => Number(if cap <= 0 then -1 else Left(cap, Count(c, a, today, rf)))
    case Restart(_) => Silent
  }

  function Replay(c: Counter, ops: seq<Op>): Counter {
    if ops == [] then c else Apply(Replay(c, ops[..|ops| - 1]), ops[|ops| - 1])
  }

  /** The plain map the counter stands for: how many rolls a history recorded for an
      account on a day. */
  function Incs(ops: seq<Op>, account: string, day: Day): nat {
    if ops == [] then 0
    else
      var op := ops[|ops| - 1];
      Incs(ops[..|ops| - 1], account, day) + if op.Inc? && op.account == account && op.today == day then 1 else 0
  }

  /** The answer the plain map gives. */
  function PlainAnswer(op: Op, count: nat): Answer {
    match op
    case Allow(_, cap, _, _) => Verdict(cap <= 0 || count < cap)
    case Inc(_, _, _, _) => Silent
    case Used(_, _, _) => Number(count)
    case Remaining(_, cap, _, _) => Number(if cap <= 0 then -1 else if count < cap then cap - count else 0)
    case Restart(_) => Silent
  }

  predicate ReadsWork(op: Op) {
    op.Restart? || !op.readFault
  }

  predicate WritesWork(op: Op) {
    op.Inc? ==> !op.writeFault
  }

  /** Every cached count is the stored one. */
  ghost predicate Agrees(c: Counter) {
    forall a :: a in c.cache ==> c.cache[a] == Stored(c.table, a, c.day)
  }

  lemma ApplyAgrees(c: Counter, op: Op)
    requires Agrees(c) && ReadsWork(op) && WritesWork(op)
    ensures Agrees(Apply(c, op))
    ensures forall a, d :: Stored(Apply(c, op).table, a, d) == Stored(c.table, a, d) + Incs([op], a, d)
  {
    forall a, d
      ensures Stored(Apply(c, op).table, a, d) == Stored(c.table, a, d) + Incs([op], a, d)
    {
      assert Incs([op][..0], a, d) == 0;
      if op.Inc? {
        BumpedAt(c.table, op.account, op.today, a, d);
      }
    }
  }

  /** A recorded roll with working storage. */
  lemma CountingAgrees(c: Counter, account: string, today: Day)
    requires Agrees(c)
    ensures var d := AfterInc(c, account, today, false, false);
      && Agrees(d) && d.table == Bumped(c.table, account, today)
      && forall a, e :: Stored(d.table, a, e) == Stored(c.table, a, e) + if a == account && e == today then 1 else 0
  {
    ApplyAgrees(c, Inc(account, today, false, false));
    forall a, e
      ensures Stored(Bumped(c.table, account, today), a, e) ==
              Stored(c.table, a, e) + if a == account && e == today then 1 else 0
    {
      BumpedAt(c.table, account, today, a, e);
    }
  }

  lemma IncsLast(ops: seq<Op>, a: string, d: Day)
    requires ops != []
    ensures Incs(ops, a, d) == Incs(ops[..|ops| - 1], a, d) + Incs([ops[|ops| - 1]], a, d)
  {
    assert Incs([ops[|ops| - 1]][..0], a, d) == 0;
  }

  /** Over every history of calls, day changes in either direction and restarts without
      storage failures: the table holds, for every account and day, the initial count plus
      the recorded rolls of that pair, and every cached value is the stored one. */
  lemma {:induction false} WriteThrough(c: Counter, ops: seq<Op>)
    requires Agrees(c)
    requires forall op :: op in ops ==> ReadsWork(op) && WritesWork(op)
    ensures Agrees(Replay(c, ops))
    ensures forall a, d :: Stored(Replay(c, ops).table, a, d) == Stored(c.table, a, d) + Incs(ops, a, d)
  {
    if ops != [] {
      var front, last := ops[..|ops| - 1], ops[|ops| - 1];
      assert last in ops && forall op :: op in front ==> op in ops;
      WriteThrough(c, front);
      ApplyAgrees(Replay(c, front), last);
      forall a, d
        ensures Stored(Replay(c, ops).table, a, d) == Stored(c.table, a, d) + Incs(ops, a, d)
      {
        IncsLast(ops, a, d);
      }
    }
  }

  /** And so every answer along the history is the one the plain map would give. */
  lemma AnswersAreExact(c: Counter, ops: seq<Op>, op: Op)
    requires Agrees(c) && ReadsWork(op)
    requires forall o :: o in ops ==> ReadsWork(o) && WritesWork(o)
    ensures AnswerOf(Replay(c, ops), op) ==
            if op.Restart? || op.Inc? then Silent
            else PlainAnswer(op, Stored(c.table, op.account, op.today) + Incs(ops, op.account, op.today))
  {
    hide Replay, Incs;
    WriteThrough(c, ops);
  }

  // ---- when writes can fail ----

  /** The failed writes for an account since the cache was last emptied, which is by a
      restart or by the first call of another day. */
  function LostWrites(start: Day, ops: seq<Op>, account: string): nat {
    if ops == [] then 0
    else
      var front, op := ops[..|ops| - 1], ops[|ops| - 1];
      var kept := if Empties(CachedDay(start, front), op) then 0 else LostWrites(start, front, account);
      kept + if op.Inc? && op.account == account && op.writeFault then 1 else 0
  }

  /** A call with no cap to check leaves the counter alone, whatever the day. */
  predicate Touches(op: Op) {
    (op.Allow? || op.Remaining?) ==> op.cap > 0
  }

  predicate Empties(day: Day, op: Op) {
    op.Restart? || (Touches(op) && op.today != day)
  }

  function CachedDay(start: Day, ops: seq<Op>): Day {
    if ops == [] then start
    else if Touches(ops[|ops| - 1]) then ops[|ops| - 1].today
    else CachedDay(start, ops[..|ops| - 1])
  }

  /** When only the write of a roll can fail, a cached count exceeds the stored one by exactly
      the failed writes since the cache was last emptied. Until then the cap goes on counting
      rolls that the table has lost; after that it does not. */
  lemma {:induction false} CacheMinusStore(start: Day, table: DailyTable, ops: seq<Op>)
    requires forall op :: op in ops ==> ReadsWork(op)
    ensures Ahead(start, ops, Replay(Counter(start, map[], table), ops))
  {
    if ops != [] {
      var front, last := ops[..|ops| - 1], ops[|ops| - 1];
      assert last in ops && forall op :: op in front ==> op in ops;
      CacheMinusStore(start, table, front);
      hide Ahead;
      StaysAhead(start, ops, Replay(Counter(start, map[], table), front));
    }
  }

  /** How far the cache is ahead of the table after a history. */
  ghost predicate Ahead(start: Day, ops: seq<Op>, c: Counter) {
    && c.day == CachedDay(start, ops)
    && (forall a :: a in c.cache ==> c.cache[a] == Stored(c.table, a, c.day) + LostWrites(start, ops, a))
    && (forall a :: a !in c.cache ==> LostWrites(start, ops, a) == 0)
  }

  lemma StaysAhead(start: Day, ops: seq<Op>, b: Counter)
    requires ops != [] && Ahead(start, ops[..|ops| - 1], b) && ReadsWork(ops[|ops| - 1])
    ensures Ahead(start, ops, Apply(b, ops[|ops| - 1]))
  {
    var last := ops[|ops| - 1];
    var c := Apply(b, last);
    forall a
      ensures a in c.cache ==> c.cache[a] == Stored(c.table, a, c.day) + LostWrites(start, ops, a)
      ensures a !in c.cache ==> LostWrites(start, ops, a) == 0
    {
      if last.Inc? {
        BumpedAt(b.table, last.account, last.today, a, c.day);
      }
    }
  }
}
