/** Account keys: `typ#id`. Caps, limiters, counters and pool rows are filed under them. */
module Keys {

  import opened Decimal
  import opened Storage

  function Key(typ: string, id: nat): string {
    typ + "#" + Itoa(id)
  }

  lemma NoHash(id: nat)
    ensures '#' !in Itoa(id)
  {
    if '#' in Itoa(id) {
      ItoaChars(id, '#');
    }
  }

  /** The separator before the id is the last one of a key. */
  lemma LastHash(typ: string, id: nat, k: nat)
    requires k < |Key(typ, id)| && Key(typ, id)[k] == '#'
    ensures k <= |typ|
  {
    NoHash(id);
  }

  /** Different (type, id) pairs have different keys, even if a type contained the separator. */
  lemma KeyInjective(typ: string, id: nat, typ': string, id': nat)
    requires Key(typ, id) == Key(typ', id')
    ensures typ == typ' && id == id'
  {
    var s := Key(typ, id);
    assert s[|typ|] == '#' && s[|typ'|] == '#';
    LastHash(typ, id, |typ'|);
    LastHash(typ', id', |typ|);
    assert typ == s[..|typ|] == typ';
    assert Itoa(id) == s[|typ| + 1..] == Itoa(id');
    ItoaInjective(id, id');
  }

  // ---- the accounts table over its whole history ----

  ghost predicate Next(t: Accounts, t': Accounts) {
    || t' == t
    || (exists row, id :: Upserted(t, t', row, id))
    || (exists id, enabled :: Switched(t, t', id, enabled))
    || (exists id :: Deleted(t, t', id))
  }

  /** A table and what it became, change by change. */
  ghost predicate History(ts: seq<Accounts>) {
    && ts != [] && ts[0].Valid()
    && forall i :: 0 <= i < |ts| - 1 ==> Next(ts[i], ts[i + 1])
  }

  predicate SameAccount(a: AccountRow, b: AccountRow) {
    a.typ == b.typ && a.name == b.name
  }

  lemma UpsertKeeps(t: Accounts, t': Accounts, row: AccountRow, k: nat, id: nat)
    requires t.Valid() && Upserted(t, t', row, k) && id < t.next
    ensures t'.Valid() && t.next <= t'.next
    ensures id in t'.rows ==> id in t.rows && SameAccount(t'.rows[id], t.rows[id])
  {
    assert t.Has(row.typ, row.name) ==> SameAccount(t.rows[k], row);
    assert !t.Has(row.typ, row.name) ==> forall l :: l in t.rows ==> !t.IsIdOf(row.typ, row.name, l);
  }

  lemma NextValid(t: Accounts, t': Accounts, id: nat)
    requires t.Valid() && Next(t, t') && id < t.next
    ensures t'.Valid() && t.next <= t'.next
    ensures id in t'.rows ==> id in t.rows && SameAccount(t'.rows[id], t.rows[id])
  {
    if row, k :| Upserted(t, t', row, k) {
      UpsertKeeps(t, t', row, k, id);
    } else {
      hide Upserted;
    }
  }

  /** Once an id has been handed out, it either keeps naming its (type, label) pair or is gone
      for good. */
  lemma {:induction false} IdStable(ts: seq<Accounts>, i: nat, j: nat, id: nat)
    requires History(ts) && i <= j < |ts| && id < ts[i].next
    ensures ts[j].Valid() && id < ts[j].next
    ensures id in ts[j].rows ==> id in ts[i].rows && SameAccount(ts[j].rows[id], ts[i].rows[id])
  {
    if i < j {
      IdStable(ts, i, j - 1, id);
      NextValid(ts[j - 1], ts[j], id);
    } else {
      HistoryValid(ts, i);
    }
  }

  lemma {:induction false} HistoryValid(ts: seq<Accounts>, i: nat)
    requires History(ts) && i < |ts|
    ensures ts[i].Valid()
  {
    if i > 0 {
      HistoryValid(ts, i - 1);
      NextValid(ts[i - 1], ts[i], 0);
    }
  }

  /** Over every history of the table, a key never comes to name another account: wherever the
      keys of two rows are equal, at any two moments, the rows are the same id and the same
      (type, label). What is filed under a deleted account's key is never inherited. */
  lemma KeysNeverAliased(ts: seq<Accounts>, i: nat, j: nat, a: nat, b: nat)
    requires History(ts) && i <= j < |ts| && a in ts[i].rows && b in ts[j].rows
    requires Key(ts[i].rows[a].typ, a) == Key(ts[j].rows[b].typ, b)
    ensures a == b && SameAccount(ts[i].rows[a], ts[j].rows[b])
  {
    KeyInjective(ts[i].rows[a].typ, a, ts[j].rows[b].typ, b);
    HistoryValid(ts, i);
    IdStable(ts, i, j, a);
  }

  /** A deleted id does not come back. */
  lemma DeletedForGood(ts: seq<Accounts>, i: nat, j: nat, k: nat, id: nat)
    requires History(ts) && i <= j <= k < |ts| && id in ts[i].rows && id !in ts[j].rows
    ensures id !in ts[k].rows
  {
    HistoryValid(ts, i);
    IdStable(ts, i, j, id);
    IdStable(ts, j, k, id);
  }
}
