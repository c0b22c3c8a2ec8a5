/** The live accounts: adapters built from the enabled rows of the accounts table, with
    defaults from the configuration block of their type. */
module Registry {

  import opened Wrappers
  import opened Decimal
  import opened Storage
  import opened Keys

  type Int64 = n: int | MIN_INT <= n <= MAX_INT

  // ---- configuration ----

  datatype RollCaps = RollCaps(maxRollsPerRun: int, dailyCap: int, rateLimit: real, costPerRoll: string, strategy: string)

  /** One block of the configuration; each type reads only the fields it needs. */
  datatype Block = Block(
    enabled: bool, strategy: string, maxRollsPerRun: int, dailyCap: int, rateLimit: real, costPerRoll: string,
    token: string, availabilityZone: string,
    authUrl: string, region: string, appCredentialId: string, appCredentialSecret: string, floatingNetworkId: string,
    accountId: string, serviceUser: string, servicePassword: string, projectId: string,
    networkId: string, subnetworkId: string,
    apiUrl: string, apiToken: string, regionId: Int64, serverId: string)

  const NO_BLOCK := Block(false, "", 0, 0, 0.0, "", "", "", "", "", "", "", "", "", "", "", "", "", "", "", "", 0, "")

  type Config = map<string, Block>

  const TYPES: seq<string> := ["timeweb", "vkcloud", "selectel", "gcore", "mws", "ruvds", "beget"]

  function BlockOf(cfg: Config, typ: string): Option<Block> {
    if typ in TYPES && typ in cfg then Some(cfg[typ]) else None
  }

  /** A missing block, or one without a rate, gets five requests per second. */
  function CapsOf(b: Option<Block>): (caps: RollCaps)
    ensures caps.rateLimit > 0.0
  {
    match b
    case None => RollCaps(0, 0, 5.0, "", "")
    case Some(c) =>
      RollCaps(c.maxRollsPerRun, c.dailyCap, if c.rateLimit <= 0.0 then 5.0 else c.rateLimit, c.costPerRoll, c.strategy)
  }

  // ---- credentials ----

  type Creds = map<string, string>

  datatype Field = Field(name: string, required: bool, secret: bool)

  function Fields(typ: string): seq<Field> {
    if typ == "timeweb" then [Field("token", true, true), Field("availability_zone", false, false)]
    else if typ == "vkcloud" then
      [Field("app_credential_id", true, true), Field("app_credential_secret", true, true),
       Field("floating_network_id", true, false), Field("auth_url", false, false), Field("region", false, false)]
    else if typ == "selectel" then
      [Field("account_id", true, false), Field("service_user", true, false), Field("service_password", true, true),
       Field("project_id", true, false), Field("floating_network_id", true, false),
       Field("auth_url", false, false), Field("region", false, false)]
    else if typ == "gcore" then
      [Field("api_token", true, true), Field("project_id", true, false), Field("region_id", true, false),
       Field("api_url", false, false)]
    else if typ == "mws" then
      [Field("token", true, true), Field("project_id", true, false),
       Field("network_id", true, false), Field("subnetwork_id", true, false)]
    else if typ == "ruvds" then [Field("token", true, true), Field("server_id", true, false)]
    else if typ == "beget" then
      [Field("token", true, true), Field("server_id", true, false), Field("api_url", false, false)]
    else []
  }

  /** A missing credential reads as the empty text. */
  function Cred(creds: Creds, name: string): string {
    if name in creds then creds[name] else ""
  }

  predicate Known(typ: string, name: string) {
    exists i :: 0 <= i < |Fields(typ)| && Fields(typ)[i].name == name
  }

  predicate HasRequired(typ: string, creds: Creds) {
    forall i :: 0 <= i < |Fields(typ)| ==> Fields(typ)[i].required ==> Cred(creds, Fields(typ)[i].name) != ""
  }

  predicate RegionReads(typ: string, creds: Creds) {
    typ == "gcore" && Cred(creds, "region_id") != "" ==> Atoi(Cred(creds, "region_id")).Some?
  }

  predicate ValidCreds(typ: string, creds: Creds) {
    && HasRequired(typ, creds)
    && (forall k :: k in creds ==> Known(typ, k))
    && RegionReads(typ, creds)
  }

  datatype CredError = Missing(name: string) | Unknown(name: string) | BadRegion

  /** Accepts exactly the valid credentials, and otherwise names a true fault: the first
      missing required field, or some unknown field, or the region. */
  method ValidateCreds(typ: string, creds: Creds) returns (err: Option<CredError>)
    ensures err.None? <==> ValidCreds(typ, creds)
    ensures err.Some? && err.value.Missing? ==>
      exists i :: 0 <= i < |Fields(typ)| && Fields(typ)[i].required && Fields(typ)[i].name == err.value.name
        && Cred(creds, err.value.name) == ""
        && forall j :: 0 <= j < i ==> Fields(typ)[j].required ==> Cred(creds, Fields(typ)[j].name) != ""
    ensures err.Some? && err.value.Unknown? ==>
      HasRequired(typ, creds) && err.value.name in creds && !Known(typ, err.value.name)
    ensures err.Some? && err.value.BadRegion? ==>
      HasRequired(typ, creds) && (forall k :: k in creds ==> Known(typ, k)) && !RegionReads(typ, creds)
  {
    hide Fields;
    var fields := Fields(typ);
    var known: set<string> := {};
    for i := 0 to |fields|
      invariant known == set j | 0 <= j < i :: fields[j].name
      invariant forall j :: 0 <= j < i ==> fields[j].required ==> Cred(creds, fields[j].name) != ""
    {
      known := known + {fields[i].name};
      if fields[i].required && Cred(creds, fields[i].name) == "" {
        return Some(Missing(fields[i].name));
      }
    }
    assert forall k :: k in known <==> Known(typ, k);
    var todo := creds.Keys;
    while todo != {}
      invariant todo <= creds.Keys
      invariant forall k :: k in creds && k !in todo ==> Known(typ, k)
    {
      var k :| k in todo;
      if k !in known {
        return Some(Unknown(k));
      }
      todo := todo - {k};
    }
    if typ == "gcore" {
      var v := Cred(creds, "region_id");
      if v != "" && Atoi(v).None? {
        return Some(BadRegion);
      }
    }
    return None;
  }

  // ---- adapters ----

  /** The connection settings of each type, as its adapter is built with. */
  datatype Adapter =
    | Timeweb(token: string, zone: string, caps: RollCaps)
    | VkCloud(authUrl: string, region: string, credId: string, credSecret: string, networkId: string, caps: RollCaps)
    | Selectel(authUrl: string, region: string, accountId: string, user: string, password: string,
               projectId: string, networkId: string, caps: RollCaps)
    | Gcore(apiUrl: string, apiToken: string, projectId: string, regionId: int, caps: RollCaps)
    | Mws(token: string, projectId: string, networkId: string, subnetworkId: string, caps: RollCaps)
    | RuVds(token: string, strategy: string, serverId: string, caps: RollCaps)
    | Beget(apiUrl: string, token: string, strategy: string, serverId: string, caps: RollCaps)

  datatype BuildError = EmptyToken | BadRegionId | UnknownType

  function Or(v: string, fallback: string): string {
    if v != "" then v else fallback
  }

  function BuildAdapter(typ: string, creds: Creds, block: Option<Block>, caps: RollCaps): Result<Adapter, BuildError> {
    var b := if block.Some? then block.value else NO_BLOCK;
    if typ == "timeweb" then
      if Cred(creds, "token") == "" then Err(EmptyToken)
      else Ok(Timeweb(Cred(creds, "token"), Or(Cred(creds, "availability_zone"), b.availabilityZone), caps))
    else if typ == "vkcloud" then
      Ok(VkCloud(Or(Cred(creds, "auth_url"), b.authUrl), Or(Cred(creds, "region"), b.region),
                 Cred(creds, "app_credential_id"), Cred(creds, "app_credential_secret"),
                 Or(Cred(creds, "floating_network_id"), b.floatingNetworkId), caps))
    else if typ == "selectel" then
      Ok(Selectel(Or(Cred(creds, "auth_url"), b.authUrl), Or(Cred(creds, "region"), b.region),
                  Cred(creds, "account_id"), Cred(creds, "service_user"), Cred(creds, "service_password"),
                  Cred(creds, "project_id"), Or(Cred(creds, "floating_network_id"), b.floatingNetworkId), caps))
    else if typ == "gcore" then
      var v := Cred(creds, "region_id");
      if v != "" && Atoi(v).None? then Err(BadRegionId)
      else Ok(Gcore(Or(Cred(creds, "api_url"), b.apiUrl), Cred(creds, "api_token"), Cred(creds, "project_id"),
                    if v != "" then Atoi(v).value else b.regionId, caps))
    else if typ == "mws" then
      Ok(Mws(Cred(creds, "token"), Cred(creds, "project_id"), Cred(creds, "network_id"), Cred(creds, "subnetwork_id"), caps))
    else if typ == "ruvds" then
      Ok(RuVds(Cred(creds, "token"), b.strategy, Cred(creds, "server_id"), caps))
    else if typ == "beget" then
      Ok(Beget(Or(Cred(creds, "api_url"), b.apiUrl), Cred(creds, "token"), b.strategy, Cred(creds, "server_id"), caps))
    else Err(UnknownType)
  }

  /** For every type, credentials that pass validation build an adapter, whatever the block. */
  lemma ValidatedBuilds(typ: string, creds: Creds, block: Option<Block>, caps: RollCaps)
    requires typ in TYPES && ValidCreds(typ, creds)
    ensures BuildAdapter(typ, creds, block, caps).Ok?
  {
    if typ == "timeweb" {
      assert Fields(typ)[0].required && Fields(typ)[0].name == "token";
    }
  }

  // ---- the registry ----

  datatype Account = Account(adapter: Adapter, key: string, typ: string, name: string)

  function Built(cfg: Config, row: AccountRow): Result<Adapter, BuildError> {
    BuildAdapter(row.typ, row.creds, BlockOf(cfg, row.typ), CapsOf(BlockOf(cfg, row.typ)))
  }

  predicate Live(cfg: Config, row: AccountRow) {
    row.enabled && Built(cfg, row).Ok?
  }

  function AccountOf(cfg: Config, id: nat, row: AccountRow): Account
    requires Built(cfg, row).Ok?
  {
    Account(Built(cfg, row).value, Key(row.typ, id), row.typ, row.name)
  }

  /** Byte order of texts, which for valid text is the order of the characters. */
  predicate Leq(a: string, b: string) {
    a == "" || (b != "" && (a[0] < b[0] || (a[0] == b[0] && Leq(a[1..], b[1..]))))
  }

  lemma {:induction false} LeqTotal(a: string, b: string)
    ensures Leq(a, b) || Leq(b, a)
  {
    if a != "" && b != "" {
      LeqTotal(a[1..], b[1..]);
    }
  }

  lemma {:induction false} LeqTransitive(a: string, b: string, c: string)
    requires Leq(a, b) && Leq(b, c)
    ensures Leq(a, c)
  {
    if a != "" && a[0] == b[0] == c[0] {
      LeqTransitive(a[1..], b[1..], c[1..]);
    }
  }

  lemma {:induction false} LeqAntisymmetric(a: string, b: string)
    requires Leq(a, b) && Leq(b, a)
    ensures a == b
  {
    if a != "" {
      LeqAntisymmetric(a[1..], b[1..]);
      assert a == [a[0]] + a[1..] && b == [b[0]] + b[1..];
    }
  }

  ghost predicate Sorted(s: seq<string>) {
    forall i, j :: 0 <= i < j < |s| ==> Leq(s[i], s[j])
  }

  function Insert(x: string, s: seq<string>): (r: seq<string>)
    ensures multiset(r) == multiset(s) + multiset{x}
  {
    if s == [] || Leq(x, s[0]) then [x] + s
    else
      assert s == [s[0]] + s[1..];
      [s[0]] + Insert(x, s[1..])
  }

  function SortStrings(s: seq<string>): (r: seq<string>)
    ensures multiset(r) == multiset(s)
  {
    if s == [] then []
    else
      assert s == [s[0]] + s[1..];
      Insert(s[0], SortStrings(s[1..]))
  }

  lemma {:induction false} InsertSorted(x: string, s: seq<string>)
    requires Sorted(s)
    ensures Sorted(Insert(x, s))
  {
    if s == [] {
    } else if Leq(x, s[0]) {
      forall j | 0 <= j < |s| ensures Leq(x, s[j]) {
        if j > 0 {
          LeqTransitive(x, s[0], s[j]);
        }
      }
    } else {
      var rest := Insert(x, s[1..]);
      LeqTotal(x, s[0]);
      InsertSorted(x, s[1..]);
      forall j | 0 <= j < |rest| ensures Leq(s[0], rest[j]) {
        assert rest[j] in multiset(rest);
        assert rest[j] == x || rest[j] in s[1..];
      }
    }
  }

  lemma {:induction false} SortSorts(s: seq<string>)
    ensures Sorted(SortStrings(s))
  {
    if s != [] {
      SortSorts(s[1..]);
      InsertSorted(s[0], SortStrings(s[1..]));
    }
  }

  lemma {:induction false} OnceEach(s: seq<string>, x: string)
    requires NoDuplicates(s)
    ensures multiset(s)[x] <= 1
  {
    if s != [] {
      var n := |s| - 1;
      assert s == s[..n] + [s[n]];
      OnceEach(s[..n], x);
      assert s[n] !in s[..n];
    }
  }

  lemma TwiceAtLeast(s: seq<string>, i: nat, j: nat)
    requires i < j < |s| && s[i] == s[j]
    ensures multiset(s)[s[i]] >= 2
  {
    assert s == s[..j] + s[j..];
    assert s[i] in s[..j] && s[j] in s[j..];
  }

  /** Whether a list has duplicates can be told from its counts. */
  lemma CountsDecide(s: seq<string>)
    ensures NoDuplicates(s) <==> forall x :: multiset(s)[x] <= 1
  {
    if NoDuplicates(s) {
      forall x ensures multiset(s)[x] <= 1 {
        OnceEach(s, x);
      }
    } else {
      var i, j :| 0 <= i < j < |s| && s[i] == s[j];
      TwiceAtLeast(s, i, j);
    }
  }

  lemma SortKeepsKeys(s: seq<string>)
    ensures forall x :: x in SortStrings(s) <==> x in s
    ensures NoDuplicates(s) ==> NoDuplicates(SortStrings(s))
  {
    var r := SortStrings(s);
    assert forall x :: x in r <==> x in multiset(r);
    CountsDecide(s);
    CountsDecide(r);
  }

  /** The registry shows exactly the live rows: each under its own key, listed once, in
      sorted order. */
  ghost predicate Mirrors(cfg: Config, rows: map<nat, AccountRow>, byKey: map<string, Account>, order: seq<string>) {
    && (forall id :: id in rows && Live(cfg, rows[id]) ==>
          Key(rows[id].typ, id) in byKey && byKey[Key(rows[id].typ, id)] == AccountOf(cfg, id, rows[id]))
    && (forall k :: k in byKey ==> exists id :: id in rows && Live(cfg, rows[id]) && k == Key(rows[id].typ, id))
    && (forall k :: k in byKey <==> k in order)
    && Sorted(order) && NoDuplicates(order)
  }

  predicate IsLiveKey(cfg: Config, rows: map<nat, AccountRow>, id: nat, key: string) {
    id in rows && Live(cfg, rows[id]) && key == Key(rows[id].typ, id)
  }

  lemma KeyOfLiveRow(cfg: Config, rows: map<nat, AccountRow>, byKey: map<string, Account>, order: seq<string>, key: string)
    requires Mirrors(cfg, rows, byKey, order)
    ensures key in byKey <==> exists id :: IsLiveKey(cfg, rows, id, key)
    ensures forall id :: IsLiveKey(cfg, rows, id, key) ==> key in byKey && byKey[key] == AccountOf(cfg, id, rows[id])
  {
    hide Built, Key, Leq;
    if key in byKey {
      var id :| id in rows && Live(cfg, rows[id]) && key == Key(rows[id].typ, id);
      assert IsLiveKey(cfg, rows, id, key);
    }
  }

  class Registry {
    const cfg: Config
    const store: SQLite
    var byKey: map<string, Account>
    var order: seq<string>

    constructor (cfg: Config, store: SQLite)
      ensures this.cfg == cfg && this.store == store && byKey == map[] && order == []
    {
      this.cfg, this.store := cfg, store;
      byKey, order := map[], [];
    }

    /** The live set as the table has it now, in display order. A row whose adapter cannot be built
        is skipped. */
    method Collect(fault: bool) returns (ok: bool, found: map<string, Account>, sorted: seq<string>)
      ensures ok == !fault
      ensures ok ==> Mirrors(cfg, store.accounts.rows, found, sorted)
    {
      hide BuildAdapter, BlockOf, CapsOf, Key, Leq, Collected, Mirrors;
      found, sorted := map[], [];
      var listed := store.ListEnabledAccounts(fault);
      if listed.Err? {
        return false, found, sorted;
      }
      var accs := listed.value;
      ghost var rows := store.accounts.rows;
      var keys: seq<string> := [];
      CollectNone(cfg, accs);
      for i := 0 to |accs|
        invariant Collected(cfg, accs, i, found, keys)
      {
        var (id, row) := accs[i];
        var built := BuildAdapter(row.typ, row.creds, BlockOf(cfg, row.typ), CapsOf(BlockOf(cfg, row.typ)));
        CollectOne(cfg, accs, i, found, keys);
        if built.Err? {
          continue;
        }
        var acc := Account(built.value, Key(row.typ, id), row.typ, row.name);
        found := found[acc.key := acc];
        keys := keys + [acc.key];
      }
      ListedMirrors(cfg, rows, accs, found, keys);
      return true, found, SortStrings(keys);
    }

    /** Puts a collected set in place, which may be long after it was collected. */
    method Install(found: map<string, Account>, sorted: seq<string>)
      modifies this
      ensures byKey == found && order == sorted
    {
      byKey, order := found, sorted;
    }

    /** A reload that nothing interrupts. */
    method Reload(fault: bool) returns (ok: bool)
      modifies this
      ensures ok == !fault
      ensures fault ==> byKey == old(byKey) && order == old(order)
      ensures ok ==> Mirrors(cfg, store.accounts.rows, byKey, order)
    {
      hide Mirrors;
      var found, sorted;
      ok, found, sorted := Collect(fault);
      if ok {
        Install(found, sorted);
      }
    }

    /** After a reload, a key finds an account exactly if it is the key of a live row, and then the
        account of that row. */
    method Get(key: string) returns (r: Option<Account>)
      ensures r == if key in byKey then Some(byKey[key]) else None
      ensures Mirrors(cfg, store.accounts.rows, byKey, order) ==>
        && (r.Some? <==> exists id :: IsLiveKey(cfg, store.accounts.rows, id, key))
        && (forall id :: IsLiveKey(cfg, store.accounts.rows, id, key) ==>
              r == Some(AccountOf(cfg, id, store.accounts.rows[id])))
    {
      if Mirrors(cfg, store.accounts.rows, byKey, order) {
        KeyOfLiveRow(cfg, store.accounts.rows, byKey, order, key);
      }
      r := if key in byKey then Some(byKey[key]) else None;
    }

    /** The accounts in display order. */
    method Accounts() returns (out: seq<Account>)
      requires forall k :: k in order ==> k in byKey
      ensures |out| == |order| && forall i :: 0 <= i < |order| ==> out[i] == byKey[order[i]]
    {
      out := [];
      for i := 0 to |order|
        invariant |out| == i && forall j :: 0 <= j < i ==> out[j] == byKey[order[j]]
      {
        out := out + [byKey[order[i]]];
      }
    }
  }

  /** Two tables with the same live rows, as far as an account shows them. */
  ghost predicate SameLive(cfg: Config, rows: map<nat, AccountRow>, rows': map<nat, AccountRow>) {
    && (forall id :: id in rows && Live(cfg, rows[id]) ==>
          id in rows' && Live(cfg, rows'[id]) && AccountOf(cfg, id, rows'[id]) == AccountOf(cfg, id, rows[id]))
    && (forall id :: id in rows' && Live(cfg, rows'[id]) ==> id in rows && Live(cfg, rows[id]))
  }

  /** A set collected from one table agrees with another, such as the table as it is when the set is
      put in place, exactly if the two have the same live rows. So of reloads that overlap, the
      last to install decides, and the registry agrees with the table exactly if the live rows
      have not changed since that one collected. */
  lemma StaleExactly(cfg: Config, rows: map<nat, AccountRow>, rows': map<nat, AccountRow>,
                     byKey: map<string, Account>, order: seq<string>)
    requires Mirrors(cfg, rows, byKey, order)
    ensures Mirrors(cfg, rows', byKey, order) <==> SameLive(cfg, rows, rows')
  {
    hide Built, Leq, Key;
    if Mirrors(cfg, rows', byKey, order) {
      ShowsAll(cfg, rows, rows', byKey, order);
      ShowsAll(cfg, rows', rows, byKey, order);
    } else if SameLive(cfg, rows, rows') {
      forall k | k in byKey ensures exists id :: id in rows' && Live(cfg, rows'[id]) && k == Key(rows'[id].typ, id) {
        var id :| id in rows && Live(cfg, rows[id]) && k == Key(rows[id].typ, id);
        assert AccountOf(cfg, id, rows'[id]).typ == rows[id].typ;
      }
      forall id | id in rows' && Live(cfg, rows'[id])
        ensures Key(rows'[id].typ, id) in byKey && byKey[Key(rows'[id].typ, id)] == AccountOf(cfg, id, rows'[id])
      {
        assert AccountOf(cfg, id, rows'[id]).typ == rows[id].typ;
      }
      assert false;
    }
  }

  lemma ShowsAll(cfg: Config, rows: map<nat, AccountRow>, rows': map<nat, AccountRow>,
                 byKey: map<string, Account>, order: seq<string>)
    requires Mirrors(cfg, rows, byKey, order) && Mirrors(cfg, rows', byKey, order)
    ensures forall id :: id in rows && Live(cfg, rows[id]) ==>
      id in rows' && Live(cfg, rows'[id]) && AccountOf(cfg, id, rows'[id]) == AccountOf(cfg, id, rows[id])
  {
    hide Built, Leq, Key;
    forall id | id in rows && Live(cfg, rows[id])
      ensures id in rows' && Live(cfg, rows'[id]) && AccountOf(cfg, id, rows'[id]) == AccountOf(cfg, id, rows[id])
    {
      var k := Key(rows[id].typ, id);
      var id' :| id' in rows' && Live(cfg, rows'[id']) && k == Key(rows'[id'].typ, id');
      KeyInjective(rows[id].typ, id, rows'[id'].typ, id');
    }
  }

  /** What the loop of Collect has gathered from the first n listed rows. */
  ghost predicate Collected(cfg: Config, accs: seq<(nat, AccountRow)>, n: nat, found: map<string, Account>, keys: seq<string>)
    requires n <= |accs|
  {
    && (forall j :: 0 <= j < n && Live(cfg, accs[j].1) ==>
          Key(accs[j].1.typ, accs[j].0) in found
          && found[Key(accs[j].1.typ, accs[j].0)] == AccountOf(cfg, accs[j].0, accs[j].1))
    && (forall k :: k in found ==> exists j :: 0 <= j < n && Live(cfg, accs[j].1) && k == Key(accs[j].1.typ, accs[j].0))
    && (forall k :: k in found <==> k in keys)
    && NoDuplicates(keys)
  }

  lemma CollectNone(cfg: Config, accs: seq<(nat, AccountRow)>)
    ensures Collected(cfg, accs, 0, map[], [])
  {
  }

  lemma CollectOne(cfg: Config, accs: seq<(nat, AccountRow)>, i: nat, found: map<string, Account>, keys: seq<string>)
    requires i < |accs| && Collected(cfg, accs, i, found, keys) && accs[i].1.enabled
    requires forall j, k :: 0 <= j < k < |accs| ==> accs[j].0 != accs[k].0
    ensures Built(cfg, accs[i].1).Err? ==> Collected(cfg, accs, i + 1, found, keys)
    ensures Built(cfg, accs[i].1).Ok? ==>
      var acc := AccountOf(cfg, accs[i].0, accs[i].1);
      Collected(cfg, accs, i + 1, found[acc.key := acc], keys + [acc.key])
  {
    hide Built, Key;
    var key := Key(accs[i].1.typ, accs[i].0);
    forall j | 0 <= j < i ensures Key(accs[j].1.typ, accs[j].0) != key {
      if Key(accs[j].1.typ, accs[j].0) == key {
        KeyInjective(accs[j].1.typ, accs[j].0, accs[i].1.typ, accs[i].0);
      }
    }
    assert key !in found && key !in keys;
    forall k | k in found
      ensures exists j :: 0 <= j < i + 1 && Live(cfg, accs[j].1) && k == Key(accs[j].1.typ, accs[j].0)
    {
      var j :| 0 <= j < i && Live(cfg, accs[j].1) && k == Key(accs[j].1.typ, accs[j].0);
    }
  }

  lemma ListedMirrors(cfg: Config, rows: map<nat, AccountRow>, accs: seq<(nat, AccountRow)>,
                      byKey: map<string, Account>, keys: seq<string>)
    requires forall i :: 0 <= i < |accs| ==> accs[i].0 in rows && rows[accs[i].0] == accs[i].1 && accs[i].1.enabled
    requires forall id :: id in rows && rows[id].enabled ==> (id, rows[id]) in accs
    requires Collected(cfg, accs, |accs|, byKey, keys)
    ensures Mirrors(cfg, rows, byKey, SortStrings(keys))
  {
    hide Built, Key, Leq, SortStrings;
    SortSorts(keys);
    SortKeepsKeys(keys);
    forall id | id in rows && Live(cfg, rows[id])
      ensures Key(rows[id].typ, id) in byKey && byKey[Key(rows[id].typ, id)] == AccountOf(cfg, id, rows[id])
    {
      var j :| 0 <= j < |accs| && accs[j] == (id, rows[id]);
    }
  }

  // ---- what an account is ----

  /** The order of texts is that of the first character in which they differ; a beginning comes first. */
  lemma {:induction false} LeqMeaning(p: string, u: string, v: string)
    ensures Leq(p, p + u)
    ensures u != "" && v != "" && u[0] != v[0] ==> (Leq(p + u, p + v) <==> u[0] < v[0])
  {
    if p == "" {
      assert p + u == u && p + v == v;
    } else {
      assert (p + u)[1..] == p[1..] + u && (p + v)[1..] == p[1..] + v;
      LeqMeaning(p[1..], u, v);
    }
  }

  /** The account under the key of a row, if there is one, bears the row's type and label; it is limited as
      the configuration block of its type says, with five requests per second where that gives no rate,
      and not at all without a block; and its adapter is built from the row's credentials and that
      block. */
  lemma AccountsOfBlocks(cfg: Config, rows: map<nat, AccountRow>, byKey: map<string, Account>, order: seq<string>, id: nat)
    requires Mirrors(cfg, rows, byKey, order) && id in rows && rows[id].typ + "#" + Itoa(id) in byKey
    ensures var row, acc := rows[id], byKey[rows[id].typ + "#" + Itoa(id)];
      var caps := acc.adapter.caps;
      && row.enabled && row.typ in TYPES
      && acc.key == row.typ + "#" + Itoa(id) && acc.typ == row.typ && acc.name == row.name
      && (row.typ in cfg ==>
            var b := cfg[row.typ];
            && caps.maxRollsPerRun == b.maxRollsPerRun && caps.dailyCap == b.dailyCap
            && caps.costPerRoll == b.costPerRoll && caps.strategy == b.strategy
            && caps.rateLimit == (if b.rateLimit > 0.0 then b.rateLimit else 5.0)
            && BuildAdapter(row.typ, row.creds, Some(b), caps) == Ok(acc.adapter))
      && (row.typ !in cfg ==>
            && caps.maxRollsPerRun == 0 && caps.dailyCap == 0 && caps.rateLimit == 5.0
            && BuildAdapter(row.typ, row.creds, None, caps) == Ok(acc.adapter))
  {
    hide Leq;
    var key := Key(rows[id].typ, id);
    var i :| i in rows && Live(cfg, rows[i]) && key == Key(rows[i].typ, i);
    KeyInjective(rows[i].typ, i, rows[id].typ, id);
    hide Key, BuildAdapter;
    BuiltIsKnown(rows[id].typ, rows[id].creds, BlockOf(cfg, rows[id].typ), CapsOf(BlockOf(cfg, rows[id].typ)));
  }

  lemma BuiltIsKnown(typ: string, creds: Creds, block: Option<Block>, caps: RollCaps)
    requires BuildAdapter(typ, creds, block, caps).Ok?
    ensures typ in TYPES && BuildAdapter(typ, creds, block, caps).value.caps == caps
  {
  }

  /** The fields that an account of each type must have, and those it may have. */
  function Must(typ: string): seq<string> {
    if typ == "timeweb" then ["token"]
    else if typ == "vkcloud" then ["app_credential_id", "app_credential_secret", "floating_network_id"]
    else if typ == "selectel" then ["account_id", "service_user", "service_password", "project_id", "floating_network_id"]
    else if typ == "gcore" then ["api_token", "project_id", "region_id"]
    else if typ == "mws" then ["token", "project_id", "network_id", "subnetwork_id"]
    else if typ == "ruvds" then ["token", "server_id"]
    else if typ == "beget" then ["token", "server_id"]
    else []
  }

  function May(typ: string): seq<string> {
    if typ == "timeweb" then ["availability_zone"]
    else if typ == "vkcloud" then ["auth_url", "region"]
    else if typ == "selectel" then ["auth_url", "region"]
    else if typ == "gcore" then ["api_url"]
    else if typ == "beget" then ["api_url"]
    else []
  }

  /** The fields of a type are those it must have, and then those it may have. */
  ghost predicate Listed(typ: string) {
    var fs, n := Fields(typ), |Must(typ)|;
    && |fs| == n + |May(typ)|
    && (forall i :: 0 <= i < n ==> fs[i].name == Must(typ)[i] && fs[i].required)
    && (forall i :: n <= i < |fs| ==> fs[i].name == May(typ)[i - n] && !fs[i].required)
  }

  lemma TimewebFields()
    ensures Listed("timeweb")
  {
  }

  lemma VkcloudFields()
    ensures Listed("vkcloud")
  {
  }

  lemma SelectelFields()
    ensures Listed("selectel")
  {
  }

  lemma GcoreFields()
    ensures Listed("gcore")
  {
  }

  lemma MwsFields()
    ensures Listed("mws")
  {
  }

  lemma RuvdsFields()
    ensures Listed("ruvds")
  {
  }

  lemma BegetFields()
    ensures Listed("beget")
  {
  }

  lemma FieldsByName(typ: string)
    ensures Listed(typ)
  {
    hide Listed;
    if typ == "timeweb" {
      TimewebFields();
    } else if typ == "vkcloud" {
      VkcloudFields();
    } else if typ == "selectel" {
      SelectelFields();
    } else if typ == "gcore" {
      GcoreFields();
    } else if typ == "mws" {
      MwsFields();
    } else if typ == "ruvds" {
      RuvdsFields();
    } else if typ == "beget" {
      BegetFields();
    } else {
      OtherFields(typ);
    }
  }

  lemma OtherFields(typ: string)
    requires typ !in TYPES
    ensures Listed(typ)
  {
  }

  lemma KnownByName(typ: string, k: string)
    ensures Known(typ, k) <==> k in Must(typ) || k in May(typ)
  {
    FieldsByName(typ);
    hide Fields, Must, May;
    var n := |Must(typ)|;
    if i :| 0 <= i < |Must(typ)| && Must(typ)[i] == k {
      assert Fields(typ)[i].name == k;
    }
    if i :| 0 <= i < |May(typ)| && May(typ)[i] == k {
      assert Fields(typ)[n + i].name == k;
    }
    if i :| 0 <= i < |Fields(typ)| && Fields(typ)[i].name == k && i >= n {
      assert May(typ)[i - n] == k;
    }
  }

  /** Credentials are valid exactly if every field their type must have is there and not empty, no field is
      there that it neither must nor may have, and a gcore region is a number. */
  lemma ValidExactly(typ: string, creds: Creds)
    ensures ValidCreds(typ, creds) <==>
            && (forall k :: k in Must(typ) ==> k in creds && creds[k] != "")
            && (forall k :: k in creds ==> k in Must(typ) || k in May(typ))
            && (typ == "gcore" ==> "region_id" in creds ==> creds["region_id"] != "" ==> Atoi(creds["region_id"]).Some?)
  {
    FieldsByName(typ);
    hide Fields, Atoi, Must, May, Known;
    forall k ensures Known(typ, k) <==> k in Must(typ) || k in May(typ) {
      KnownByName(typ, k);
    }
    forall i | 0 <= i < |Fields(typ)| && Fields(typ)[i].required ensures Fields(typ)[i].name in Must(typ) {
      assert Fields(typ)[i].name == Must(typ)[i];
    }
    forall k | k in Must(typ) ensures HasRequired(typ, creds) ==> Cred(creds, k) != "" {
      var i :| 0 <= i < |Must(typ)| && Must(typ)[i] == k;
      assert Fields(typ)[i].name == k && Fields(typ)[i].required;
    }
  }
}
