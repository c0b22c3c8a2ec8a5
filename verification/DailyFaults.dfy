/** The daily cap when reads of the table can fail: a failed read counts as zero, so a run, even one
    alone, is let through again. */
module DailyFaults {

  import opened Storage
  import opened DailyCount

  /** One attempt of an account, whose check and count nothing interrupts, or a restart. */
  datatype Turn = Attempt(account: string, today: Day, readFault: bool) | Reboot(today: Day)

  function Play(caps: string -> int, c: Counter, t: Turn): Counter {
    match t
    case Attempt(a, today, fault) =>
      var d := AfterAllow(c, a, caps(a), today, fault);
      if Allowed(c, a, caps(a), today, fault) then AfterInc(d, a, today, fault, false) else d
    case Reboot(today) => Counter(today, map[], c.table)
  }

  function PlayAll(caps: string -> int, c: Counter, ts: seq<Turn>): Counter {
    if ts == [] then c else Play(caps, PlayAll(caps, c, ts[..|ts| - 1]), ts[|ts| - 1])
  }

  /** The turn looks the account's count of day d up in the table, and fails to read it. */
  predicate LoadFails(c: Counter, t: Turn, account: string, d: Day) {
    t.Attempt? && t.account == account && t.today == d && t.readFault && !(c.day == d && account in c.cache)
  }

  function FailedLoads(caps: string -> int, c: Counter, ts: seq<Turn>, account: string, d: Day): nat {
    if ts == [] then 0
    else
      var front, t := ts[..|ts| - 1], ts[|ts| - 1];
      FailedLoads(caps, c, front, account, d) + if LoadFails(PlayAll(caps, c, front), t, account, d) then 1 else 0
  }

  /** A count of day d within the bound, and a cached one that cannot be counted beyond it. */
  ghost predicate Within(c: Counter, account: string, d: Day, cap: int, bound: int) {
    && Stored(c.table, account, d) <= bound
    && (c.day == d && account in c.cache ==> Stored(c.table, account, d) - c.cache[account] + cap <= bound)
  }

  lemma PlayWithin(caps: string -> int, c: Counter, t: Turn, account: string, d: Day, bound: int)
    requires caps(account) > 0 && caps(account) <= bound && Within(c, account, d, caps(account), bound)
    ensures Within(Play(caps, c, t), account, d, caps(account),
                   bound + if LoadFails(c, t, account, d) then caps(account) else 0)
  {
    if t.Attempt? {
      BumpedAt(c.table, t.account, t.today, account, d);
    }
  }

  /** With one attempt at a time, the count of a day stays within the cap, or what it was before, plus
      the cap for every failed load of that day. */
  lemma {:induction false} CapWithFailedLoads(caps: string -> int, c: Counter, ts: seq<Turn>, account: string, d: Day, bound: int)
    requires caps(account) > 0 && c.cache == map[]
    requires caps(account) <= bound && Stored(c.table, account, d) <= bound
    ensures Within(PlayAll(caps, c, ts), account, d, caps(account),
                   bound + caps(account) * FailedLoads(caps, c, ts, account, d))
  {
    hide Play, Within, LoadFails;
    if ts == [] {
      assert Within(c, account, d, caps(account), bound) by { StartsWithin(c, account, d, caps(account), bound); }
    } else {
      var front, t := ts[..|ts| - 1], ts[|ts| - 1];
      var n := FailedLoads(caps, c, front, account, d);
      CapWithFailedLoads(caps, c, front, account, d, bound);
      assert caps(account) * (n + 1) == caps(account) * n + caps(account);
      assert caps(account) * n >= 0;
      PlayWithin(caps, PlayAll(caps, c, front), t, account, d, bound + caps(account) * n);
    }
  }

  lemma StartsWithin(c: Counter, account: string, d: Day, cap: int, bound: int)
    requires c.cache == map[] && Stored(c.table, account, d) <= bound
    ensures Within(c, account, d, cap, bound)
  {
  }

  // ---- the bound is reached ----

  lemma PlayLast(caps: string -> int, c: Counter, ts: seq<Turn>, t: Turn)
    ensures PlayAll(caps, c, ts + [t]) == Play(caps, PlayAll(caps, c, ts), t)
    ensures forall a, d :: FailedLoads(caps, c, ts + [t], a, d) ==
              FailedLoads(caps, c, ts, a, d) + if LoadFails(PlayAll(caps, c, ts), t, a, d) then 1 else 0
  {
    assert (ts + [t])[..|ts|] == ts;
  }

  /** The count of a day after some turns: so much is stored, so much cached, so many loads failed. */
  ghost predicate Stands(caps: string -> int, c: Counter, ts: seq<Turn>, account: string, d: Day, stored: int, cached: int, failed: nat) {
    var e := PlayAll(caps, c, ts);
    && e.day == d && account in e.cache && e.cache[account] == cached && Stored(e.table, account, d) == stored
    && FailedLoads(caps, c, ts, account, d) == failed
  }

  lemma CountsOne(caps: string -> int, c: Counter, ts: seq<Turn>, account: string, d: Day, stored: int, cached: int, failed: nat)
    requires Stands(caps, c, ts, account, d, stored, cached, failed) && cached < caps(account)
    ensures Stands(caps, c, ts + [Attempt(account, d, false)], account, d, stored + 1, cached + 1, failed)
  {
    PlayLast(caps, c, ts, Attempt(account, d, false));
    BumpedAt(PlayAll(caps, c, ts).table, account, d, account, d);
  }

  /** Attempts one after another use up what the cached count leaves of the cap. */
  lemma {:induction false} Fills(caps: string -> int, c: Counter, ts: seq<Turn>, account: string, d: Day, stored: int, cached: int, failed: nat)
    returns (us: seq<Turn>)
    requires Stands(caps, c, ts, account, d, stored, cached, failed) && cached <= caps(account)
    ensures Stands(caps, c, us, account, d, stored + caps(account) - cached, caps(account), failed)
    decreases caps(account) - cached
  {
    hide Stands;
    us := ts;
    if cached < caps(account) {
      CountsOne(caps, c, ts, account, d, stored, cached, failed);
      us := Fills(caps, c, ts + [Attempt(account, d, false)], account, d, stored + 1, cached + 1, failed);
    }
  }

  /** A restart, and then a failed load that counts from zero again. */
  lemma LoadsAgain(caps: string -> int, c: Counter, ts: seq<Turn>, account: string, d: Day, stored: int, cached: int, failed: nat)
    requires Stands(caps, c, ts, account, d, stored, cached, failed) && caps(account) > 0
    ensures Stands(caps, c, ts + [Reboot(d)] + [Attempt(account, d, true)], account, d, stored + 1, 1, failed + 1)
  {
    PlayLast(caps, c, ts, Reboot(d));
    PlayLast(caps, c, ts + [Reboot(d)], Attempt(account, d, true));
    BumpedAt(PlayAll(caps, c, ts + [Reboot(d)]).table, account, d, account, d);
  }

  /** For every cap and every number of failed loads there are turns that reach the bound. */
  lemma {:induction false} FailedLoadsReached(caps: string -> int, c: Counter, account: string, d: Day, n: nat) returns (ts: seq<Turn>)
    requires caps(account) > 0 && c.cache == map[] && c.day == d && Stored(c.table, account, d) == 0
    ensures Stands(caps, c, ts, account, d, caps(account) + caps(account) * n, caps(account), n)
  {
    hide Stands;
    if n == 0 {
      FirstOne(caps, c, account, d);
      ts := Fills(caps, c, [Attempt(account, d, false)], account, d, 1, 1, 0);
    } else {
      var us := FailedLoadsReached(caps, c, account, d, n - 1);
      var before := caps(account) + caps(account) * (n - 1);
      assert caps(account) * n == caps(account) * (n - 1) + caps(account);
      LoadsAgain(caps, c, us, account, d, before, caps(account), n - 1);
      ts := Fills(caps, c, us + [Reboot(d)] + [Attempt(account, d, true)], account, d, before + 1, 1, n);
    }
  }

  lemma FirstOne(caps: string -> int, c: Counter, account: string, d: Day)
    requires caps(account) > 0 && c.cache == map[] && c.day == d && Stored(c.table, account, d) == 0
    ensures Stands(caps, c, [Attempt(account, d, false)], account, d, 1, 1, 0)
  {
    PlayLast(caps, c, [], Attempt(account, d, false));
    assert [] + [Attempt(account, d, false)] == [Attempt(account, d, false)];
    BumpedAt(c.table, account, d, account, d);
  }
}
