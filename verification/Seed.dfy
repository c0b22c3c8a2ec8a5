/** First-run seeding of the accounts table from the configuration, and the commands that
    change accounts afterwards. */
module Seed {

  import opened Wrappers
  import opened Decimal
  import opened Storage
  import opened Keys
  import opened Registry

  // ---- credentials from a block ----

  function Put(m: Creds, key: string, v: string): Creds {
    if v != "" then m[key := v] else m
  }

  /** The connection fields of a block that are set. */
  function CredsOf(typ: string, b: Block): Creds {
    if typ == "timeweb" then
      Put(Put(map[], "token", b.token), "availability_zone", b.availabilityZone)
    else if typ == "vkcloud" then
      Put(Put(Put(Put(Put(map[], "app_credential_id", b.appCredentialId), "app_credential_secret", b.appCredentialSecret),
              "floating_network_id", b.floatingNetworkId), "auth_url", b.authUrl), "region", b.region)
    else if typ == "selectel" then
      Put(Put(Put(Put(Put(Put(Put(map[], "account_id", b.accountId), "service_user", b.serviceUser),
              "service_password", b.servicePassword), "project_id", b.projectId),
              "floating_network_id", b.floatingNetworkId), "auth_url", b.authUrl), "region", b.region)
    else if typ == "gcore" then
      Put(Put(Put(Put(map[], "api_token", b.apiToken), "project_id", b.projectId),
              "region_id", if b.regionId != 0 then Itoa(b.regionId) else ""), "api_url", b.apiUrl)
    else if typ == "mws" then
      Put(Put(Put(Put(map[], "token", b.token), "project_id", b.projectId), "network_id", b.networkId),
          "subnetwork_id", b.subnetworkId)
    else if typ == "ruvds" then
      Put(Put(map[], "token", b.token), "server_id", b.serverId)
    else if typ == "beget" then
      Put(Put(Put(map[], "token", b.token), "server_id", b.serverId), "api_url", b.apiUrl)
    else map[]
  }

  /** The adapter a block describes, taken from the block itself; what it leaves unset comes
      from the defaults `d`. */
  function Described(typ: string, b: Block, d: Block, caps: RollCaps): Adapter
    requires typ in TYPES
  {
    if typ == "timeweb" then Timeweb(b.token, (if b.availabilityZone != "" then b.availabilityZone else d.availabilityZone), caps)
    else if typ == "vkcloud" then
      VkCloud((if b.authUrl != "" then b.authUrl else d.authUrl), (if b.region != "" then b.region else d.region), b.appCredentialId, b.appCredentialSecret,
              b.floatingNetworkId, caps)
    else if typ == "selectel" then
      Selectel((if b.authUrl != "" then b.authUrl else d.authUrl), (if b.region != "" then b.region else d.region), b.accountId, b.serviceUser, b.servicePassword,
               b.projectId, b.floatingNetworkId, caps)
    else if typ == "gcore" then Gcore((if b.apiUrl != "" then b.apiUrl else d.apiUrl), b.apiToken, b.projectId, b.regionId, caps)
    else if typ == "mws" then Mws(b.token, b.projectId, b.networkId, b.subnetworkId, caps)
    else if typ == "ruvds" then RuVds(b.token, d.strategy, b.serverId, caps)
    else Beget((if b.apiUrl != "" then b.apiUrl else d.apiUrl), b.token, d.strategy, b.serverId, caps)
  }

  lemma RequiredIsSet(typ: string, creds: Creds, i: nat)
    requires ValidCreds(typ, creds) && i < |Fields(typ)| && Fields(typ)[i].required
    ensures Cred(creds, Fields(typ)[i].name) != ""
  {
  }

  lemma VkIdentity(b: Block)
    ensures var c := CredsOf("vkcloud", b);
      Cred(c, "app_credential_id") == b.appCredentialId && Cred(c, "app_credential_secret") == b.appCredentialSecret
  {
  }

  lemma VkNetwork(b: Block)
    ensures var c := CredsOf("vkcloud", b);
      Cred(c, "floating_network_id") == b.floatingNetworkId && Cred(c, "auth_url") == b.authUrl && Cred(c, "region") == b.region
  {
  }

  lemma VkMeaning(b: Block, d: Block, caps: RollCaps)
    requires ValidCreds("vkcloud", CredsOf("vkcloud", b))
    ensures BuildAdapter("vkcloud", CredsOf("vkcloud", b), Some(d), caps) == Ok(Described("vkcloud", b, d, caps))
  {
    hide CredsOf, Cred;
    VkIdentity(b);
    VkNetwork(b);
    RequiredIsSet("vkcloud", CredsOf("vkcloud", b), 2);
    hide ValidCreds;
  }

  /** Each seeded credential reads back as the block's own text. */
  lemma SelectelIdentity(b: Block)
    ensures var c := CredsOf("selectel", b);
      Cred(c, "account_id") == b.accountId && Cred(c, "service_user") == b.serviceUser
  {
  }

  lemma SelectelSecrets(b: Block)
    ensures var c := CredsOf("selectel", b);
      Cred(c, "service_password") == b.servicePassword && Cred(c, "project_id") == b.projectId
  {
  }

  lemma SelectelNetwork(b: Block)
    ensures var c := CredsOf("selectel", b);
      Cred(c, "floating_network_id") == b.floatingNetworkId && Cred(c, "auth_url") == b.authUrl && Cred(c, "region") == b.region
  {
  }

  lemma SelectelMeaning(b: Block, d: Block, caps: RollCaps)
    requires ValidCreds("selectel", CredsOf("selectel", b))
    ensures BuildAdapter("selectel", CredsOf("selectel", b), Some(d), caps) == Ok(Described("selectel", b, d, caps))
  {
    hide CredsOf;
    SelectelIdentity(b);
    SelectelSecrets(b);
    SelectelNetwork(b);
    RequiredIsSet("selectel", CredsOf("selectel", b), 4);
    hide ValidCreds;
  }

  lemma GcoreIdentity(b: Block)
    ensures var c := CredsOf("gcore", b);
      && Cred(c, "api_token") == b.apiToken && Cred(c, "project_id") == b.projectId && Cred(c, "api_url") == b.apiUrl
  {
    hide Itoa;
  }

  lemma GcoreRegion(b: Block)
    ensures Cred(CredsOf("gcore", b), "region_id") == if b.regionId != 0 then Itoa(b.regionId) else ""
  {
    ItoaSign(b.regionId);
    hide Itoa;
  }

  lemma GcoreMeaning(b: Block, d: Block, caps: RollCaps)
    requires ValidCreds("gcore", CredsOf("gcore", b))
    ensures BuildAdapter("gcore", CredsOf("gcore", b), Some(d), caps) == Ok(Described("gcore", b, d, caps))
  {
    hide CredsOf, Cred;
    RequiredIsSet("gcore", CredsOf("gcore", b), 2);
    GcoreIdentity(b);
    GcoreRegion(b);
    AtoiItoa(b.regionId);
    hide ValidCreds, Atoi, Itoa;
  }

  lemma TimewebMeaning(b: Block, d: Block, caps: RollCaps)
    requires ValidCreds("timeweb", CredsOf("timeweb", b))
    ensures BuildAdapter("timeweb", CredsOf("timeweb", b), Some(d), caps) == Ok(Described("timeweb", b, d, caps))
  {
    RequiredIsSet("timeweb", CredsOf("timeweb", b), 0);
    hide ValidCreds;
  }

  lemma MwsMeaning(b: Block, d: Block, caps: RollCaps)
    requires ValidCreds("mws", CredsOf("mws", b))
    ensures BuildAdapter("mws", CredsOf("mws", b), Some(d), caps) == Ok(Described("mws", b, d, caps))
  {
    RequiredIsSet("mws", CredsOf("mws", b), 0);
    hide ValidCreds;
  }

  lemma RuvdsMeaning(b: Block, d: Block, caps: RollCaps)
    requires ValidCreds("ruvds", CredsOf("ruvds", b))
    ensures BuildAdapter("ruvds", CredsOf("ruvds", b), Some(d), caps) == Ok(Described("ruvds", b, d, caps))
  {
    RequiredIsSet("ruvds", CredsOf("ruvds", b), 0);
    hide ValidCreds;
  }

  lemma BegetMeaning(b: Block, d: Block, caps: RollCaps)
    requires ValidCreds("beget", CredsOf("beget", b))
    ensures BuildAdapter("beget", CredsOf("beget", b), Some(d), caps) == Ok(Described("beget", b, d, caps))
  {
    RequiredIsSet("beget", CredsOf("beget", b), 0);
    hide ValidCreds;
  }

  /** Seeding keeps the meaning of a block: for every type and every block whose credentials
      pass validation, the adapter built from the seeded row is the one the block describes,
      including the trip of region_id through text. */
  lemma SeedKeepsMeaning(typ: string, b: Block, d: Block, caps: RollCaps)
    requires typ in TYPES && ValidCreds(typ, CredsOf(typ, b))
    ensures BuildAdapter(typ, CredsOf(typ, b), Some(d), caps) == Ok(Described(typ, b, d, caps))
  {
    hide ValidCreds, CredsOf, BuildAdapter, Described;
    if typ == "vkcloud" {
      VkMeaning(b, d, caps);
    } else if typ == "selectel" {
      SelectelMeaning(b, d, caps);
    } else if typ == "gcore" {
      GcoreMeaning(b, d, caps);
    } else if typ == "timeweb" {
      TimewebMeaning(b, d, caps);
    } else if typ == "mws" {
      MwsMeaning(b, d, caps);
    } else if typ == "ruvds" {
      RuvdsMeaning(b, d, caps);
    } else {
      BegetMeaning(b, d, caps);
    }
  }

  // ---- first-run seeding ----

  predicate Seedable(cfg: Config, typ: string) {
    && BlockOf(cfg, typ).Some?
    && BlockOf(cfg, typ).value.enabled
    && ValidCreds(typ, CredsOf(typ, BlockOf(cfg, typ).value))
  }

  function SeedRow(cfg: Config, typ: string): AccountRow
    requires Seedable(cfg, typ)
  {
    AccountRow(typ, "default", true, CredsOf(typ, BlockOf(cfg, typ).value))
  }

  ghost predicate OnlySeeds(cfg: Config, types: seq<string>, fault: string -> bool, rows: map<nat, AccountRow>) {
    forall id :: id in rows ==>
      rows[id].typ in types && !fault(rows[id].typ) && Seedable(cfg, rows[id].typ) && rows[id] == SeedRow(cfg, rows[id].typ)
  }

  ghost predicate EverySeed(cfg: Config, types: seq<string>, fault: string -> bool, rows: map<nat, AccountRow>) {
    forall i :: 0 <= i < |types| && Seedable(cfg, types[i]) && !fault(types[i]) ==>
      exists id :: id in rows && rows[id].typ == types[i]
  }

  /** The rows are the seeds of the given types. */
  ghost predicate SeedsOf(cfg: Config, types: seq<string>, fault: string -> bool, rows: map<nat, AccountRow>) {
    OnlySeeds(cfg, types, fault, rows) && EverySeed(cfg, types, fault, rows)
  }

  /** What seeding does: nothing to a table that has rows, and to an empty one, one row for
      every enabled block with valid credentials whose insertion works. */
  ghost predicate SeedResult(cfg: Config, fault: string -> bool, t: Accounts, t': Accounts) {
    if t.rows != map[] then t' == t else SeedsOf(cfg, TYPES, fault, t'.rows) && t'.Valid()
  }

  method SeedFromConfig(store: SQLite, cfg: Config, countFault: bool, fault: string -> bool) returns (ok: bool)
    requires store.accounts.Valid()
    modifies store`accounts
    ensures ok == !countFault
    ensures !ok ==> store.accounts == old(store.accounts)
    ensures ok ==> SeedResult(cfg, fault, old(store.accounts), store.accounts)
    ensures store.accounts.Valid()
  {
    hide ValidCreds, CredsOf, BlockOf;
    if countFault {
      return false;
    }
    if |store.accounts.rows| > 0 {
      return true;
    }
    for i := 0 to |TYPES|
      invariant store.accounts.Valid()
      invariant SeedsOf(cfg, TYPES[..i], fault, store.accounts.rows)
    {
      var typ := TYPES[i];
      ghost var before := store.accounts;
      TypesDiffer(i);
      SeedsGrow(cfg, TYPES, i, fault, before.rows);
      var b := BlockOf(cfg, typ);
      if b.None? || !b.value.enabled {
        continue;
      }
      var creds := CredsOf(typ, b.value);
      if !ValidCreds(typ, creds) {
        continue;
      }
      var r := store.UpsertAccount(AccountRow(typ, "default", true, creds), 0, fault(typ));
      if r.Ok? {
        SeedAdded(cfg, TYPES, i, fault, before, store.accounts, r.value);
      }
    }
    assert TYPES[..|TYPES|] == TYPES;
    return true;
  }

  lemma TypesDiffer(i: nat)
    requires i < |TYPES|
    ensures TYPES[i] !in TYPES[..i]
  {
  }

  /** A type that contributes no row. */
  lemma SeedsGrow(cfg: Config, types: seq<string>, i: nat, fault: string -> bool, rows: map<nat, AccountRow>)
    requires i < |types| && SeedsOf(cfg, types[..i], fault, rows)
    ensures !Seedable(cfg, types[i]) || fault(types[i]) ==> SeedsOf(cfg, types[..i + 1], fault, rows)
  {
    hide Seedable, SeedRow;
    assert types[..i + 1] == types[..i] + [types[i]];
    forall j | 0 <= j < i && Seedable(cfg, types[j]) && !fault(types[j])
      ensures exists id :: id in rows && rows[id].typ == types[j]
    {
      assert types[..i][j] == types[j];
    }
  }

  lemma SeedAdded(cfg: Config, types: seq<string>, i: nat, fault: string -> bool, t: Accounts, t': Accounts, id: nat)
    requires i < |types| && SeedsOf(cfg, types[..i], fault, t.rows) && types[i] !in types[..i]
    requires t.Valid() && Seedable(cfg, types[i]) && !fault(types[i])
    requires Upserted(t, t', SeedRow(cfg, types[i]), id)
    ensures SeedsOf(cfg, types[..i + 1], fault, t'.rows)
  {
    hide Seedable, CredsOf, BlockOf, EverySeed;
    var row := SeedRow(cfg, types[i]);
    assert types[..i + 1] == types[..i] + [types[i]];
    assert forall k :: k in t.rows ==> t.rows[k].typ != row.typ;
    assert id !in t.rows;
    NewSeedThere(cfg, types, i, fault, t.rows, row, id);
  }

  lemma NewSeedThere(cfg: Config, types: seq<string>, i: nat, fault: string -> bool,
                     rows: map<nat, AccountRow>, row: AccountRow, id: nat)
    requires i < |types| && EverySeed(cfg, types[..i], fault, rows) && id !in rows && row.typ == types[i]
    ensures EverySeed(cfg, types[..i + 1], fault, rows[id := row])
  {
    hide Seedable, SeedRow;
    var now := rows[id := row];
    assert now[id].typ == types[i];
    var upTo := types[..i + 1];
    forall j | 0 <= j < i + 1 && Seedable(cfg, upTo[j]) && !fault(upTo[j])
      ensures exists k :: k in now && now[k].typ == upTo[j]
    {
      if j < i {
        assert types[..i][j] == types[j];
        var k :| k in rows && rows[k].typ == types[j];
        assert now[k].typ == types[j];
      }
    }
  }

  /** Some type has a block to seed whose insertion works. */
  predicate CanSeed(cfg: Config, types: seq<string>, fault: string -> bool) {
    exists i :: 0 <= i < |types| && Seedable(cfg, types[i]) && !fault(types[i])
  }

  lemma SeedsSomething(cfg: Config, types: seq<string>, fault: string -> bool, rows: map<nat, AccountRow>)
    requires SeedsOf(cfg, types, fault, rows)
    ensures rows != map[] <==> CanSeed(cfg, types, fault)
  {
    hide Seedable, SeedRow;
    if id :| id in rows {
      var i :| 0 <= i < |types| && types[i] == rows[id].typ;
    } else {
      assert rows.Keys == {};
    }
  }

  /** A second seeding changes nothing exactly when the first, or an earlier hand, left a row, or the
      second has nothing that it can seed. */
  lemma SeedAgain(cfg: Config, fault: string -> bool, t': Accounts, t'': Accounts)
    requires SeedResult(cfg, fault, t', t'')
    ensures t''.rows == t'.rows <==> t'.rows != map[] || !CanSeed(cfg, TYPES, fault)
  {
    hide CanSeed, SeedsOf;
    if t'.rows == map[] {
      SeedsSomething(cfg, TYPES, fault, t''.rows);
    }
  }

  /** So seeding twice is seeding once, whatever insertions fail: unless every insertion that the
      first could make failed, and some insertion of the second works. */
  lemma SeedIdempotent(cfg: Config, fault: string -> bool, fault': string -> bool, t: Accounts, t': Accounts, t'': Accounts)
    requires SeedResult(cfg, fault, t, t') && SeedResult(cfg, fault', t', t'')
    ensures t''.rows == t'.rows <==>
            t.rows != map[] || CanSeed(cfg, TYPES, fault) || !CanSeed(cfg, TYPES, fault')
  {
    hide CanSeed, SeedsOf;
    SeedAgain(cfg, fault', t', t'');
    if t.rows == map[] {
      SeedsSomething(cfg, TYPES, fault, t'.rows);
    }
  }

  // ---- every row is valid, so the registry shows every enabled row ----

  ghost predicate AllValid(rows: map<nat, AccountRow>) {
    forall id :: id in rows ==> rows[id].typ in TYPES && ValidCreds(rows[id].typ, rows[id].creds)
  }

  lemma SeedsAreValid(cfg: Config, fault: string -> bool, rows: map<nat, AccountRow>)
    requires SeedsOf(cfg, TYPES, fault, rows)
    ensures AllValid(rows)
  {
  }

  /** The keys of the enabled rows. */
  function EnabledKeys(rows: map<nat, AccountRow>): set<string> {
    set id | id in rows && rows[id].enabled :: Key(rows[id].typ, id)
  }

  /** When every row was validated, a reload skips nothing: the registry's keys, and the keys of
      its display order, are exactly those of the enabled rows. */
  lemma RegistryIsEnabledRows(cfg: Config, rows: map<nat, AccountRow>, byKey: map<string, Account>, order: seq<string>)
    requires AllValid(rows) && Mirrors(cfg, rows, byKey, order)
    ensures byKey.Keys == EnabledKeys(rows)
    ensures (set k | k in order) == EnabledKeys(rows)
    ensures Sorted(order) && NoDuplicates(order)
  {
    hide Key, BuildAdapter, ValidCreds, BlockOf, CapsOf;
    forall id | id in rows && rows[id].enabled ensures Live(cfg, rows[id]) {
      ValidatedBuilds(rows[id].typ, rows[id].creds, BlockOf(cfg, rows[id].typ), CapsOf(BlockOf(cfg, rows[id].typ)));
    }
  }

  lemma BuiltCaps(typ: string, creds: Creds, block: Option<Block>, caps: RollCaps)
    requires BuildAdapter(typ, creds, block, caps).Ok?
    ensures BuildAdapter(typ, creds, block, caps).value.caps == caps
  {
  }

  /** The caps of a key never change while the configuration does not: whatever rows the key
      stood for at two moments, the accounts had the caps of the same block. */
  lemma CapsOfKeyStable(cfg: Config, rows: map<nat, AccountRow>, byKey: map<string, Account>, order: seq<string>,
                        rows': map<nat, AccountRow>, byKey': map<string, Account>, order': seq<string>, k: string)
    requires Mirrors(cfg, rows, byKey, order) && Mirrors(cfg, rows', byKey', order')
    requires k in byKey && k in byKey'
    ensures byKey[k].adapter.caps == byKey'[k].adapter.caps && byKey[k].typ == byKey'[k].typ
  {
    hide Key, BuildAdapter, BlockOf, CapsOf, Leq;
    var i :| i in rows && Live(cfg, rows[i]) && k == Key(rows[i].typ, i);
    var j :| j in rows' && Live(cfg, rows'[j]) && k == Key(rows'[j].typ, j);
    KeyInjective(rows[i].typ, i, rows'[j].typ, j);
    BuiltCaps(rows[i].typ, rows[i].creds, BlockOf(cfg, rows[i].typ), CapsOf(BlockOf(cfg, rows[i].typ)));
    BuiltCaps(rows'[j].typ, rows'[j].creds, BlockOf(cfg, rows'[j].typ), CapsOf(BlockOf(cfg, rows'[j].typ)));
  }

  datatype AddResult = Added(id: nat) | BadType | BadCreds(e: CredError) | NotSaved

  /** The account commands of the bot. */
  class Admin {
    const store: SQLite
    const reg: Registry

    constructor (store: SQLite, reg: Registry)
      ensures this.store == store && this.reg == reg
    {
      this.store, this.reg := store, reg;
    }

    ghost predicate Sound()
      reads this, store
    {
      reg.store == store && store.accounts.Valid() && AllValid(store.accounts.rows)
    }

    /** The registry shows the enabled rows. */
    ghost predicate Synced()
      reads this, store, reg
    {
      Mirrors(reg.cfg, store.accounts.rows, reg.byKey, reg.order)
    }

    /** Validate, save, reload. */
    method AddAccount(typ: string, name: string, creds: Creds, gap: nat, fault: bool, reloadFault: bool) returns (r: AddResult)
      requires Sound()
      modifies store`accounts, reg
      ensures Sound()
      ensures old(Synced()) && !reloadFault ==> Synced()
      ensures r.Added? && !reloadFault ==> Synced()
      ensures r.Added? <==> typ in TYPES && ValidCreds(typ, creds) && !fault
      ensures r.Added? ==> Upserted(old(store.accounts), store.accounts, AccountRow(typ, name, true, creds), r.id)
      ensures !r.Added? ==> store.accounts == old(store.accounts)
    {
      hide ValidCreds, Mirrors;
      if typ !in TYPES {
        return BadType;
      }
      var err := ValidateCreds(typ, creds);
      if err.Some? {
        return BadCreds(err.value);
      }
      var saved := store.UpsertAccount(AccountRow(typ, name, true, creds), gap, fault);
      if saved.Err? {
        return NotSaved;
      }
      var ok := reg.Reload(reloadFault);
      return Added(saved.value);
    }

    method EnableAccount(id: nat, enabled: bool, fault: bool, reloadFault: bool) returns (r: Result<(), StoreError>)
      requires Sound()
      modifies store`accounts, reg
      ensures Sound()
      ensures old(Synced()) && !reloadFault ==> Synced()
      ensures r.Ok? && !reloadFault ==> Synced()
      ensures r == if fault then Err(Failure) else if id in old(store.accounts).rows then Ok(()) else Err(NotFound)
      ensures r.Ok? ==> Switched(old(store.accounts), store.accounts, id, enabled)
      ensures r.Err? ==> store.accounts == old(store.accounts)
    {
      hide ValidCreds, Mirrors;
      r := store.SetAccountEnabled(id, enabled, fault);
      if r.Ok? {
        var ok := reg.Reload(reloadFault);
      }
    }

    method DeleteAccount(id: nat, fault: bool, reloadFault: bool) returns (r: Result<(), StoreError>)
      requires Sound()
      modifies store`accounts, reg
      ensures Sound()
      ensures old(Synced()) && !reloadFault ==> Synced()
      ensures r.Ok? && !reloadFault ==> Synced()
      ensures r == if fault then Err(Failure) else if id in old(store.accounts).rows then Ok(()) else Err(NotFound)
      ensures r.Ok? ==> Deleted(old(store.accounts), store.accounts, id)
      ensures r.Err? ==> store.accounts == old(store.accounts)
    {
      hide ValidCreds, Mirrors;
      r := store.DeleteAccount(id, fault);
      if r.Ok? {
        var ok := reg.Reload(reloadFault);
      }
    }

    /** The toggle button: it reloads even when the change could not be saved. */
    method ToggleAccount(id: nat, readFault: bool, fault: bool, reloadFault: bool) returns (found: bool)
      requires Sound()
      modifies store`accounts, reg
      ensures Sound()
      ensures old(Synced()) && !reloadFault ==> Synced()
      ensures found && !reloadFault ==> Synced()
      ensures found == (!readFault && id in old(store.accounts).rows)
      ensures found && !fault ==>
        Switched(old(store.accounts), store.accounts, id, !old(store.accounts).rows[id].enabled)
      ensures !found || fault ==> store.accounts == old(store.accounts)
    {
      hide ValidCreds, Mirrors;
      if readFault || id !in store.accounts.rows {
        return false;
      }
      var r := store.SetAccountEnabled(id, !store.accounts.rows[id].enabled, fault);
      var ok := reg.Reload(reloadFault);
      return true;
    }
  }

  // ---- what a seeded row is ----

  /** Every seeded row is an enabled account called "default", of a type whose block is enabled, with that
      block's credentials, none of them empty. */
  lemma SeededRows(cfg: Config, fault: string -> bool, rows: map<nat, AccountRow>, id: nat)
    requires SeedsOf(cfg, TYPES, fault, rows) && id in rows
    ensures var row := rows[id];
      && row.enabled && row.name == "default" && row.typ in TYPES && row.typ in cfg && cfg[row.typ].enabled
      && row.creds == CredsOf(row.typ, cfg[row.typ])
      && (forall k :: k in row.creds ==> row.creds[k] != "")
  {
    SeedFilled(rows[id].typ, cfg[rows[id].typ]);
    hide CredsOf, ValidCreds;
  }

  lemma SeedFilled(typ: string, b: Block)
    ensures forall k :: k in CredsOf(typ, b) ==> CredsOf(typ, b)[k] != ""
  {
    hide Itoa;
  }

  /** And every enabled block with valid credentials whose insertion works has one. */
  lemma SeededTypes(cfg: Config, fault: string -> bool, rows: map<nat, AccountRow>, typ: string)
    requires SeedsOf(cfg, TYPES, fault, rows) && typ in TYPES && typ in cfg && cfg[typ].enabled && !fault(typ)
    requires ValidCreds(typ, CredsOf(typ, cfg[typ]))
    ensures exists id :: id in rows && rows[id].typ == typ
  {
    hide CredsOf, ValidCreds;
    var i :| 0 <= i < |TYPES| && TYPES[i] == typ;
    assert Seedable(cfg, TYPES[i]);
  }
}
