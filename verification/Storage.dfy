/** The persistent tables. A storage failure is an input of each operation (`fault`); a
    failed operation changes nothing. */
module Storage {

  import opened Wrappers
  import opened Mask

  /** A calendar day, numbered in date order. */
  type Day = nat

  /** daily_counters, keyed by (account, day). */
  type DailyTable = map<(string, Day), nat>

  datatype LogEntry = LogEntry(account: string, ip: Addr, matched: bool, released: bool)

  datatype PoolRow = PoolRow(account: string, resourceId: string, ip: Addr, mask: string, vm: string)

  datatype AccountRow = AccountRow(typ: string, name: string, enabled: bool, creds: map<string, string>)

  datatype StoreError = NotFound | Failure

  /** The number of rolls stored for an account and a day; no row means none. */
  function Stored(t: DailyTable, account: string, day: Day): nat {
    if (account, day) in t then t[(account, day)] else 0
  }

  function Bumped(t: DailyTable, account: string, day: Day): DailyTable {
    t[(account, day) := Stored(t, account, day) + 1]
  }

  lemma BumpedAt(t: DailyTable, account: string, day: Day, a: string, d: Day)
    ensures Stored(Bumped(t, account, day), a, d) ==
            Stored(t, a, d) + if a == account && d == day then 1 else 0
  {
    assert (a, d) == (account, day) <==> a == account && d == day;
  }

  function Attached(pool: map<nat, PoolRow>, id: nat, vm: string): map<nat, PoolRow> {
    if id in pool then pool[id := pool[id].(vm := vm)] else pool
  }

  /** The accounts table and the id sequence behind it. Ids are handed out in growing order
      and a deleted id is not handed out again (AUTOINCREMENT). */
  datatype Accounts = Accounts(rows: map<nat, AccountRow>, next: nat)
  {
    ghost predicate Valid() {
      && 0 < next
      && (forall id :: id in rows ==> 0 < id < next)
      && (forall i, j :: i in rows && j in rows && rows[i].typ == rows[j].typ && rows[i].name == rows[j].name ==> i == j)
    }

    predicate Has(typ: string, name: string) {
      exists id :: id in rows && rows[id].typ == typ && rows[id].name == name
    }

    ghost predicate IsIdOf(typ: string, name: string, id: nat) {
      id in rows && rows[id].typ == typ && rows[id].name == name
    }
  }

  /** What an upsert, an enabling or disabling, and a deletion do to the accounts table. An
      upsert keeps the id of an existing (type, label) and otherwise takes a new id; either way
      it may skip some of the sequence. */
  ghost predicate Upserted(t: Accounts, t': Accounts, row: AccountRow, id: nat) {
    && t'.rows == t.rows[id := row]
    && if t.Has(row.typ, row.name) then t.IsIdOf(row.typ, row.name, id) && t.next <= t'.next
       else t.next <= id && t'.next == id + 1
  }

  ghost predicate Switched(t: Accounts, t': Accounts, id: nat, enabled: bool) {
    id in t.rows && t' == t.(rows := t.rows[id := t.rows[id].(enabled := enabled)])
  }

  ghost predicate Deleted(t: Accounts, t': Accounts, id: nat) {
    t' == t.(rows := t.rows - {id})
  }

  class SQLite {
    var daily: DailyTable
    var rollLog: seq<LogEntry>
    var pool: map<nat, PoolRow>
    var poolNext: nat
    var accounts: Accounts

    constructor ()
      ensures daily == map[] && rollLog == [] && pool == map[] && poolNext == 1
      ensures accounts == Accounts(map[], 1) && accounts.Valid()
    {
      daily := map[];
      rollLog := [];
      pool := map[];
      poolNext := 1;
      accounts := Accounts(map[], 1);
    }

    method DailyCount(account: string, day: Day, fault: bool) returns (r: Result<nat, StoreError>)
      ensures r == if fault then Err(Failure) else Ok(Stored(daily, account, day))
      ensures !fault ==> r == Ok(if (account, day) in daily then daily[(account, day)] else 0)
    {
      if fault {
        return Err(Failure);
      }
      if (account, day) !in daily {
        return Ok(0);
      }
      return Ok(daily[(account, day)]);
    }

    method IncDaily(account: string, day: Day, fault: bool) returns (ok: bool)
      modifies this`daily
      ensures ok == !fault
      ensures daily == if fault then old(daily) else Bumped(old(daily), account, day)
      ensures !fault ==>
        daily == old(daily)[(account, day) := if (account, day) in old(daily) then old(daily)[(account, day)] + 1 else 1]
    {
      if fault {
        return false;
      }
      if (account, day) in daily {
        daily := daily[(account, day) := daily[(account, day)] + 1];
      } else {
        daily := daily[(account, day) := 1];
      }
      return true;
    }

    method LogRoll(e: LogEntry, fault: bool) returns (ok: bool)
      modifies this`rollLog
      ensures ok == !fault
      ensures rollLog == if fault then old(rollLog) else old(rollLog) + [e]
    {
      if fault {
        return false;
      }
      rollLog := rollLog + [e];
      return true;
    }

    method AddPoolIP(row: PoolRow, fault: bool) returns (r: Result<nat, StoreError>)
      modifies this`pool, this`poolNext
      ensures fault ==> r == Err(Failure) && pool == old(pool) && poolNext == old(poolNext)
      ensures !fault ==> r == Ok(old(poolNext)) && poolNext == old(poolNext) + 1
      ensures !fault ==> pool == old(pool)[old(poolNext) := row]
    {
      if fault {
        return Err(Failure);
      }
      pool := pool[poolNext := row];
      r := Ok(poolNext);
      poolNext := poolNext + 1;
    }

    /** Some row of the address: the latest by creation time, which the rows of the model do not have. */
    method GetPoolIPByIP(ip: Addr, fault: bool) returns (r: Result<nat, StoreError>)
      ensures fault ==> r == Err(Failure)
      ensures !fault ==> r.Ok? || r == Err(NotFound)
      ensures !fault ==> (r.Ok? <==> exists id :: id in pool && pool[id].ip == ip)
      ensures r.Ok? ==> r.value in pool && pool[r.value].ip == ip
    {
      if fault {
        return Err(Failure);
      }
      if id :| id in pool && pool[id].ip == ip {
        return Ok(id);
      }
      return Err(NotFound);
    }

    /** Updating a missing row is not an error. */
    method MarkAttached(id: nat, vm: string, fault: bool) returns (ok: bool)
      modifies this`pool
      ensures ok == !fault
      ensures pool == if fault then old(pool) else Attached(old(pool), id, vm)
      ensures !fault && id in old(pool) ==> pool == old(pool)[id := old(pool)[id].(vm := vm)]
      ensures fault || id !in old(pool) ==> pool == old(pool)
    {
      if fault {
        return false;
      }
      if id in pool {
        pool := pool[id := pool[id].(vm := vm)];
      }
      return true;
    }

    method UpsertAccount(row: AccountRow, gap: nat, fault: bool) returns (r: Result<nat, StoreError>)
      requires accounts.Valid()
      modifies this`accounts
      ensures accounts.Valid()
      ensures fault ==> r == Err(Failure) && accounts == old(accounts)
      ensures !fault ==> r.Ok? && Upserted(old(accounts), accounts, row, r.value)
      ensures !fault ==> accounts.rows == old(accounts).rows[r.value := row]
      ensures !fault && r.value in old(accounts).rows ==>
        old(accounts).rows[r.value].typ == row.typ && old(accounts).rows[r.value].name == row.name
    {
      if fault {
        return Err(Failure);
      }
      if accounts.Has(row.typ, row.name) {
        var id :| id in accounts.rows && accounts.rows[id].typ == row.typ && accounts.rows[id].name == row.name;
        accounts := Accounts(accounts.rows[id := row], accounts.next + gap);
        return Ok(id);
      }
      var id := accounts.next + gap;
      accounts := Accounts(accounts.rows[id := row], id + 1);
      return Ok(id);
    }

    method SetAccountEnabled(id: nat, enabled: bool, fault: bool) returns (r: Result<(), StoreError>)
      requires accounts.Valid()
      modifies this`accounts
      ensures accounts.Valid()
      ensures r == if fault then Err(Failure) else if id in old(accounts).rows then Ok(()) else Err(NotFound)
      ensures r.Err? ==> accounts == old(accounts)
      ensures r.Ok? ==> Switched(old(accounts), accounts, id, enabled)
      ensures r.Ok? ==> accounts.rows == old(accounts).rows[id := old(accounts).rows[id].(enabled := enabled)]
    {
      if fault {
        return Err(Failure);
      }
      if id !in accounts.rows {
        return Err(NotFound);
      }
      accounts := accounts.(rows := accounts.rows[id := accounts.rows[id].(enabled := enabled)]);
      return Ok(());
    }

    method DeleteAccount(id: nat, fault: bool) returns (r: Result<(), StoreError>)
      requires accounts.Valid()
      modifies this`accounts
      ensures accounts.Valid()
      ensures r == if fault then Err(Failure) else if id in old(accounts).rows then Ok(()) else Err(NotFound)
      ensures r.Err? ==> accounts == old(accounts)
      ensures r.Ok? ==> id in old(accounts).rows && Deleted(old(accounts), accounts, id)
      ensures r.Ok? ==> accounts.rows == old(accounts).rows - {id}
    {
      if fault {
        return Err(Failure);
      }
      if id !in accounts.rows {
        return Err(NotFound);
      }
      accounts := accounts.(rows := accounts.rows - {id});
      return Ok(());
    }

    /** Every enabled row, each once. The order is that of the query and is not modelled. */
    method ListEnabledAccounts(fault: bool) returns (r: Result<seq<(nat, AccountRow)>, StoreError>)
      ensures fault ==> r == Err(Failure)
      ensures !fault ==> r.Ok?
      ensures r.Ok? ==> forall i :: 0 <= i < |r.value| ==>
        r.value[i].0 in accounts.rows && accounts.rows[r.value[i].0] == r.value[i].1 && r.value[i].1.enabled
      ensures r.Ok? ==> forall i, j :: 0 <= i < j < |r.value| ==> r.value[i].0 != r.value[j].0
      ensures r.Ok? ==> forall id :: id in accounts.rows && accounts.rows[id].enabled ==> (id, accounts.rows[id]) in r.value
    {
      if fault {
        return Err(Failure);
      }
      var todo: set<nat> := set id | id in accounts.rows && accounts.rows[id].enabled;
      var out: seq<(nat, AccountRow)> := [];
      while todo != {}
        invariant forall id :: id in todo ==> id in accounts.rows && accounts.rows[id].enabled
        invariant forall i :: 0 <= i < |out| ==>
          out[i].0 in accounts.rows && accounts.rows[out[i].0] == out[i].1 && out[i].1.enabled && out[i].0 !in todo
        invariant forall i, j :: 0 <= i < j < |out| ==> out[i].0 != out[j].0
        invariant forall id :: id in accounts.rows && accounts.rows[id].enabled ==> id in todo || (id, accounts.rows[id]) in out
        decreases |todo|
      {
        var id: nat :| id in todo;
        todo := todo - {id};
        out := out + [(id, accounts.rows[id])];
      }
      return Ok(out);
    }
  }
}
