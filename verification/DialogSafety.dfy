/** What holds in every chat after every sequence of events: stale buttons, handlers that overlap,
    restarts of the wizard, accounts going away, and runs that finish late, in any order. */
module DialogSafety {

  import opened Wrappers
  import opened Mask
  import opened Storage
  import opened Keys
  import opened Registry
  import opened Dialog

  ghost predicate IsKey(account: string) {
    exists typ, id :: typ in TYPES && account == Key(typ, id)
  }

  lemma KeyNotEmpty(account: string)
    requires IsKey(account)
    ensures account != ""
  {
  }

  function LiveIn(e: Event): set<string> {
    match e
    case RollStart(_, _, live) => live
    case PickAccount(_, _, _, live) => live
    case BudgetAsk(_, _, live) => live
    case VmGiven(_, _, live, _) => live
    case AttachCommand(_, _, _, live, _) => live
    case _ => {}
  }

  /** The registry only ever shows account keys. */
  ghost predicate FromRegistry(e: Event) {
    forall k :: k in LiveIn(e) ==> IsKey(k)
  }

  predicate InRange(env: Env, account: string, budget: int) {
    1 <= budget && (env.maxRolls(account) > 0 ==> budget <= env.maxRolls(account))
  }

  ghost predicate ChatSound(env: Env, st: Chat) {
    && (st.mask != "" ==> MaskOf(env.read, st.mask).Ok?)
    && (st.account != "" ==> IsKey(st.account))
    && (st.stage == Confirm ==> 1 <= st.budget)
  }

  /** What holds of every run and every tap: all but that the budget is within the limit. */
  ghost predicate TicketSound(env: Env, t: Ticket) {
    MaskOf(env.read, t.mask).Ok? && IsKey(t.account) && 1 <= t.budget
  }

  ghost predicate AskSound(env: Env, k: Ask) {
    IsKey(k.account) && InRange(env, k.account, k.budget)
  }

  /** The taps of a chat that have passed the guard and not started their run. */
  function PendingOf(taps: map<nat, Ticket>, c: int): set<nat> {
    set t | t in taps && taps[t].chat == c
  }

  /** Every tap that passes is launched or pending, and took a confirmation that waited or one that
      was taken before; a chat at Confirm waits for a tap, or the tap that took it is pending. */
  predicate LaunchesCovered(st: Chat, a: Audit, pending: set<nat>) {
    && a.launches + |pending| == a.taken + a.again
    && a.taken + (if a.last.Waiting? then 1 else 0) <= a.confirms
    && (st.stage == Confirm ==> a.last.Waiting? || (a.last.TakenBy? && a.last.tap in pending))
  }

  /** The account a dialog shows with a result: the last one picked since, or the result's own. */
  function Shown(a: Audit): string
    requires a.caught.Some?
  {
    if a.picked.Some? then a.picked.value else a.caught.value.account
  }

  predicate ResultTraced(st: Chat, a: Audit) {
    st.resultIp.Some? ==>
      && a.caught.Some?
      && st.resultIp == Some(a.caught.value.ip)
      && st.resultRes == a.caught.value.resourceId
      && st.resultRow == a.caught.value.row
      && st.account == Shown(a)
  }

  /** A catch is of an account, and the row saved for it holds that very catch. */
  ghost predicate CatchSound(pool: map<nat, PoolRow>, k: Catch) {
    && IsKey(k.account)
    && (k.row != 0 ==>
          && k.row in pool
          && pool[k.row].account == k.account && pool[k.row].resourceId == k.resourceId && pool[k.row].ip == k.ip)
  }

  ghost predicate ChatOk(env: Env, s: Bot, c: int) {
    var st, a := Lookup(s.chats, c), AuditOf(s, c);
    && ChatSound(env, st)
    && LaunchesCovered(st, a, PendingOf(s.taps, c))
    && ResultTraced(st, a)
    && (a.caught.Some? ==> CatchSound(s.pool, a.caught.value))
  }

  /** What is under way: numbers to be set, taps, runs and catches; and the row ids. */
  ghost predicate RecordsOk(env: Env, s: Bot) {
    && (forall k :: k in s.asks ==> AskSound(env, s.asks[k]))
    && (forall t :: t in s.tickets ==> TicketSound(env, s.tickets[t]))
    && (forall t :: t in s.taps ==> TicketSound(env, s.taps[t]) && t < s.next)
    && (forall d :: d in s.deliveries ==> CatchSound(s.pool, s.deliveries[d].caught))
    && 0 < s.nextRow
    && (forall id :: id in s.pool ==> 0 < id < s.nextRow)
  }

  ghost predicate Sound(env: Env, s: Bot) {
    (forall c :: ChatOk(env, s, c)) && RecordsOk(env, s)
  }

  lemma BudgetInRange(env: Env, account: string, raw: string)
    requires BudgetFor(env, account, raw).Some?
    ensures InRange(env, account, BudgetFor(env, account, raw).value)
  {
  }

  ghost predicate SameElsewhere(s: Bot, t: Bot, c: int) {
    forall d :: d != c ==>
      Lookup(t.chats, d) == Lookup(s.chats, d) && AuditOf(t, d) == AuditOf(s, d) && PendingOf(t.taps, d) == PendingOf(s.taps, d)
  }

  /** Every row stays, with its account, resource and address. */
  predicate KeepsRows(pool: map<nat, PoolRow>, pool': map<nat, PoolRow>) {
    forall id :: id in pool ==>
      && id in pool' && pool'[id].account == pool[id].account
      && pool'[id].resourceId == pool[id].resourceId && pool'[id].ip == pool[id].ip
  }

  /** A change of one chat and its audit leaves the others as they were. */
  lemma OneChat(env: Env, s: Bot, t: Bot, c: int)
    requires Sound(env, s) && ChatOk(env, t, c) && RecordsOk(env, t)
    requires SameElsewhere(s, t, c) && KeepsRows(s.pool, t.pool)
    ensures Sound(env, t)
  {
    hide ChatSound, RecordsOk, LaunchesCovered, ResultTraced, PendingOf, IsKey;
    forall d ensures ChatOk(env, t, d) {
      assert ChatOk(env, s, d);
    }
  }

  lemma ShapeOf(env: Env, s: Bot, c: int)
    requires Sound(env, s)
    ensures ChatOk(env, s, c) && RecordsOk(env, s)
  {
  }

  /** A step that changes no chat, no audit and no tap, and keeps the rows. */
  lemma RecordStep(env: Env, s: Bot, t: Bot)
    requires Sound(env, s) && RecordsOk(env, t) && KeepsRows(s.pool, t.pool)
    requires t.chats == s.chats && t.audits == s.audits && t.taps == s.taps
    ensures Sound(env, t)
  {
    hide ChatSound, RecordsOk, LaunchesCovered, ResultTraced, PendingOf, IsKey;
    forall d ensures ChatOk(env, t, d) {
      assert ChatOk(env, s, d);
    }
  }

  lemma ForgetStep(env: Env, s: Bot, c: int)
    requires Sound(env, s)
    ensures Sound(env, Forget(s, c))
  {
    hide MaskOf, IsKey, InRange, Sound, PendingOf, TicketSound, AskSound, CatchSound;
    ShapeOf(env, s, c);
    OneChat(env, s, Forget(s, c), c);
  }

  lemma SimpleStep(env: Env, s: Bot, t: Bot, c: int, st: Chat, a: Audit)
    requires Sound(env, s)
    requires t == s.(chats := s.chats[c := st], audits := s.audits[c := a]) || (t == WithChat(s, c, st) && a == AuditOf(s, c))
    requires ChatSound(env, st) && LaunchesCovered(st, a, PendingOf(s.taps, c)) && ResultTraced(st, a)
    requires a.caught == AuditOf(s, c).caught
    ensures Sound(env, t)
  {
    hide MaskOf, IsKey, InRange, ChatSound, Sound, PendingOf, TicketSound, AskSound, CatchSound, LaunchesCovered, ResultTraced;
    ShapeOf(env, s, c);
    assert Lookup(t.chats, c) == st && AuditOf(t, c) == a;
    OneChat(env, s, t, c);
  }

  lemma TouchStep(env: Env, s: Bot, c: int)
    requires Sound(env, s)
    ensures Sound(env, Touch(s, c))
  {
    hide Sound, ChatSound, PendingOf, LaunchesCovered, ResultTraced;
    ShapeOf(env, s, c);
    SimpleStep(env, s, Touch(s, c), c, Lookup(s.chats, c), AuditOf(s, c));
  }

  lemma MaskStep(env: Env, s: Bot, c: int, mask: string)
    requires Sound(env, s)
    ensures Sound(env, AfterMask(env, s, c, mask))
  {
    hide MaskOf, IsKey, InRange, Sound, PendingOf, TicketSound;
    ShapeOf(env, s, c);
    if MaskOf(env.read, mask).Ok? {
      SimpleStep(env, s, AfterMask(env, s, c, mask), c,
                 Lookup(s.chats, c).(stage := ChooseBudget, mask := mask), AuditOf(s, c));
    }
  }

  lemma PickStep(env: Env, s: Bot, c: int, msgId: int, account: string, live: set<string>)
    requires Sound(env, s) && forall k :: k in live ==> IsKey(k)
    ensures Sound(env, AfterPick(s, c, msgId, account, live))
  {
    hide MaskOf, IsKey, InRange, Sound, PendingOf, TicketSound, RecordsOk;
    ShapeOf(env, s, c);
    if account in live {
      SimpleStep(env, s, AfterPick(s, c, msgId, account, live), c,
                 Lookup(s.chats, c).(stage := ChooseMask, account := account, msgId := msgId),
                 AuditOf(s, c).(picked := Some(account)));
    }
  }

  lemma AskStep(env: Env, s: Bot, c: int, raw: string, live: set<string>)
    requires Sound(env, s) && forall k :: k in live ==> IsKey(k)
    ensures Sound(env, AfterAsk(env, s, c, raw, live))
  {
    hide MaskOf, IsKey, BudgetFor, InRange, Sound, PendingOf, TicketSound, ChatSound, CatchSound, LaunchesCovered, ResultTraced;
    TouchStep(env, s, c);
    var st, t := Lookup(s.chats, c), AfterAsk(env, s, c, raw, live);
    if st.account in live && BudgetFor(env, st.account, raw).Some? {
      BudgetInRange(env, st.account, raw);
      ShapeOf(env, Touch(s, c), c);
      RecordStep(env, Touch(s, c), t);
    }
  }

  lemma SetStep(env: Env, s: Bot, ask: nat)
    requires Sound(env, s) && ask in s.asks
    ensures Sound(env, SetBudget(s, ask))
  {
    hide MaskOf, IsKey, Sound, PendingOf, TicketSound, CatchSound;
    var c, n := s.asks[ask].chat, s.asks[ask].budget;
    ShapeOf(env, s, c);
    var st, a, u := Lookup(s.chats, c), AuditOf(s, c), Confirmed(s, c, n);
    SimpleStep(env, s, u, c, st.(stage := Confirm, budget := n), a.(confirms := a.confirms + 1, last := Waiting));
    ShapeOf(env, u, c);
    RecordStep(env, u, SetBudget(s, ask));
  }

  lemma PendingAdd(taps: map<nat, Ticket>, tap: nat, t: Ticket)
    requires tap !in taps
    ensures PendingOf(taps[tap := t], t.chat) == PendingOf(taps, t.chat) + {tap} && tap !in PendingOf(taps, t.chat)
    ensures forall d :: d != t.chat ==> PendingOf(taps[tap := t], d) == PendingOf(taps, d)
  {
  }

  lemma PendingRemove(taps: map<nat, Ticket>, tap: nat)
    requires tap in taps
    ensures PendingOf(taps, taps[tap].chat) == PendingOf(taps - {tap}, taps[tap].chat) + {tap}
    ensures tap !in PendingOf(taps - {tap}, taps[tap].chat)
    ensures forall d :: d != taps[tap].chat ==> PendingOf(taps - {tap}, d) == PendingOf(taps, d)
  {
  }

  lemma TapStep(env: Env, s: Bot, c: int)
    requires Sound(env, s)
    ensures Sound(env, Tap(s, c))
  {
    hide MaskOf, IsKey, InRange, Sound, PendingOf, AskSound, CatchSound;
    ShapeOf(env, s, c);
    var st, a, t := Lookup(s.chats, c), AuditOf(s, c), Tap(s, c);
    if MayLaunch(st) {
      PendingAdd(s.taps, s.next, t.taps[s.next]);
      assert Lookup(t.chats, c) == st && AuditOf(t, c) == Tapped(a, s.next);
      OneChat(env, s, t, c);
    } else {
      TouchStep(env, s, c);
    }
  }

  lemma GoStep(env: Env, s: Bot, tap: nat)
    requires Sound(env, s) && tap in s.taps
    ensures Sound(env, Go(s, tap))
  {
    hide MaskOf, IsKey, InRange, Sound, PendingOf, AskSound, CatchSound;
    var c, t := s.taps[tap].chat, Go(s, tap);
    ShapeOf(env, s, c);
    PendingRemove(s.taps, tap);
    OneChat(env, s, t, c);
  }

  /** A call of a provider is put on record and changes nothing else. */
  lemma AttachOnly(s: Bot, call: AttachCall, origin: Origin, live: set<string>)
    ensures var t := AfterAttach(s, call, origin, live);
      t == s.(calls := t.calls, origins := t.origins, marks := t.marks)
  {
  }

  lemma AttachStep(env: Env, s: Bot, call: AttachCall, origin: Origin, live: set<string>)
    requires Sound(env, s)
    ensures Sound(env, AfterAttach(s, call, origin, live))
  {
    hide IsKey, Sound, PendingOf, TicketSound, AskSound, CatchSound, ChatSound, LaunchesCovered, ResultTraced, AfterAttach;
    AttachOnly(s, call, origin, live);
    ShapeOf(env, s, 0);
    KeepsAll(s.pool);
    RecordStep(env, s, AfterAttach(s, call, origin, live));
  }

  lemma VmOnly(s: Bot, c: int, vm: string, live: set<string>, worked: bool)
    ensures var t := AfterVm(s, c, vm, live, worked);
      t == Touch(s, c).(calls := t.calls, origins := t.origins, marks := t.marks)
  {
    hide AfterAttach;
    if Lookup(s.chats, c).resultIp.Some? {
      AttachOnly(Touch(s, c), DialogCall(Lookup(s.chats, c), vm, worked), DialogOrigin(AuditOf(s, c)), live);
    }
  }

  lemma CommandOnly(s: Bot, ip: Addr, row: nat, vm: string, live: set<string>, worked: bool)
    ensures var t := AfterCommand(s, ip, row, vm, live, worked);
      t == s.(calls := t.calls, origins := t.origins, marks := t.marks)
  {
    hide AfterAttach;
    if Finds(s.pool, ip, row) {
      AttachOnly(s, RowCall(s.pool[row], row, vm, worked), ByCommand, live);
    }
  }

  lemma VmStep(env: Env, s: Bot, c: int, vm: string, live: set<string>, worked: bool)
    requires Sound(env, s)
    ensures Sound(env, AfterVm(s, c, vm, live, worked))
  {
    hide Sound, AfterAttach;
    TouchStep(env, s, c);
    var st := Lookup(s.chats, c);
    if st.resultIp.Some? {
      AttachStep(env, Touch(s, c), DialogCall(st, vm, worked), DialogOrigin(AuditOf(s, c)), live);
    }
  }

  lemma MarkKeeps(pool: map<nat, PoolRow>, id: nat, vm: string)
    ensures KeepsRows(pool, Attached(pool, id, vm)) && Attached(pool, id, vm).Keys == pool.Keys
  {
  }

  lemma MarkOnly(s: Bot, k: nat, works: bool)
    ensures var t := AfterMark(s, k, works); t == s.(marks := t.marks, pool := t.pool)
  {
  }

  lemma MarkStep(env: Env, s: Bot, k: nat, works: bool)
    requires Sound(env, s)
    ensures Sound(env, AfterMark(s, k, works))
  {
    hide MaskOf, IsKey, Sound, TicketSound, AskSound, Attached;
    if k in s.marks && k < |s.calls| {
      ShapeOf(env, s, 0);
      MarkKeeps(s.pool, s.calls[k].row, s.calls[k].vm);
      RecordStep(env, s, AfterMark(s, k, works));
    }
  }

  lemma FailedStep(env: Env, s: Bot, ticket: nat)
    requires Sound(env, s) && ticket in s.tickets
    ensures Sound(env, EndFailed(s, ticket))
  {
    hide MaskOf, IsKey, InRange, Sound, PendingOf, TicketSound, AskSound, CatchSound, ChatSound, LaunchesCovered, ResultTraced;
    var c := s.tickets[ticket].chat;
    ForgetStep(env, s, c);
    ShapeOf(env, Forget(s, c), c);
    RecordStep(env, Forget(s, c), EndFailed(s, ticket));
  }

  lemma SaveStep(env: Env, s: Bot, ticket: nat, ip: Addr, resourceId: string, saved: bool)
    requires Sound(env, s) && ticket in s.tickets
    ensures Sound(env, Save(s, ticket, ip, resourceId, saved))
  {
    hide MaskOf, IsKey, InRange, Sound, AskSound;
    ShapeOf(env, s, 0);
    RecordStep(env, s, Save(s, ticket, ip, resourceId, saved));
  }

  lemma ShowStep(env: Env, s: Bot, ticket: nat)
    requires Sound(env, s) && ticket in s.deliveries
    ensures Sound(env, Show(s, ticket))
  {
    hide MaskOf, IsKey, InRange, Sound, PendingOf, TicketSound, AskSound;
    var c := s.deliveries[ticket].chat;
    ShapeOf(env, s, c);
    KeepsAll(s.pool);
    OneChat(env, s, Show(s, ticket), c);
  }

  lemma KeepsAll(pool: map<nat, PoolRow>)
    ensures KeepsRows(pool, pool)
  {
  }

  lemma StepOk(env: Env, s: Bot, e: Event)
    requires Sound(env, s) && FromRegistry(e)
    ensures Sound(env, Step(env, s, e))
  {
    hide IsKey, Sound, RecordsOk, PendingOf, MaskOf, AfterPick, AfterMask, AfterAsk, SetBudget, Tap, Go, Forget, AfterAttach, AfterMark;
    hide AfterVm, EndFailed, Save, Show;
    match e
    case RollStart(c, msgId, live) =>
      ShapeOf(env, s, c);
      if live != {} {
        SimpleStep(env, s, Step(env, s, e), c, FRESH.(stage := ChooseAccount, msgId := msgId), AuditOf(s, c));
      }
    case PickAccount(c, msgId, account, live) => PickStep(env, s, c, msgId, account, live);
    case MaskGiven(c, mask) => MaskStep(env, s, c, mask);
    case BudgetAsk(c, raw, live) => AskStep(env, s, c, raw, live);
    case BudgetSet(ask) =>
      if ask in s.asks {
        SetStep(env, s, ask);
      }
    case RunTap(c) => TapStep(env, s, c);
    case RunGo(tap) =>
      if tap in s.taps {
        GoStep(env, s, tap);
      }
    case Look(c) => TouchStep(env, s, c);
    case Clear(c) => ForgetStep(env, s, c);
    case AttachButton(c, msgId) =>
      ShapeOf(env, s, c);
      SimpleStep(env, s, Step(env, s, e), c, Lookup(s.chats, c).(stage := AttachVm, msgId := msgId), AuditOf(s, c));
    case VmGiven(c, vm, live, worked) => VmStep(env, s, c, vm, live, worked);
    case AttachCommand(ip, row, vm, live, worked) =>
      if Finds(s.pool, ip, row) {
        AttachStep(env, s, RowCall(s.pool[row], row, vm, worked), ByCommand, live);
      }
    case RowMark(k, works) => MarkStep(env, s, k, works);
    case RunFailed(ticket) =>
      if ticket in s.tickets {
        FailedStep(env, s, ticket);
      }
    case RunSaved(ticket, ip, resourceId, saved) =>
      if ticket in s.tickets {
        SaveStep(env, s, ticket, ip, resourceId, saved);
      }
    case RunShown(ticket) =>
      if ticket in s.deliveries {
        ShowStep(env, s, ticket);
      }
  }

  lemma {:induction false} AlwaysOk(env: Env, s: Bot, es: seq<Event>)
    requires Initial(s) && forall e :: e in es ==> FromRegistry(e)
    ensures Sound(env, Exec(env, s, es))
  {
    hide MaskOf, FromRegistry, Step, IsKey;
    if es != [] {
      AlwaysOk(env, s, es[..|es| - 1]);
      StepOk(env, Exec(env, s, es[..|es| - 1]), es[|es| - 1]);
    }
  }

  // ---- what a step leaves alone ----

  predicate SameCalls(s: Bot, t: Bot) {
    t.pool == s.pool && t.nextRow == s.nextRow && t.calls == s.calls && t.origins == s.origins && t.marks == s.marks
  }

  predicate SameRuns(s: Bot, t: Bot) {
    && s.next <= t.next && t.taps == s.taps
    && t.tickets.Keys <= s.tickets.Keys && forall k :: k in t.tickets ==> t.tickets[k] == s.tickets[k]
  }

  lemma StartSame(s: Bot, c: int, msgId: int, live: set<string>)
    ensures SameCalls(s, AfterStart(s, c, msgId, live)) && SameRuns(s, AfterStart(s, c, msgId, live))
  {
  }

  lemma PickSame(s: Bot, c: int, msgId: int, account: string, live: set<string>)
    ensures SameCalls(s, AfterPick(s, c, msgId, account, live)) && SameRuns(s, AfterPick(s, c, msgId, account, live))
  {
  }

  lemma MaskSame(env: Env, s: Bot, c: int, mask: string)
    ensures SameCalls(s, AfterMask(env, s, c, mask)) && SameRuns(s, AfterMask(env, s, c, mask))
  {
    hide MaskOf;
  }

  lemma AskSame(env: Env, s: Bot, c: int, raw: string, live: set<string>)
    ensures SameCalls(s, AfterAsk(env, s, c, raw, live)) && SameRuns(s, AfterAsk(env, s, c, raw, live))
  {
    hide BudgetFor;
  }

  lemma SetSame(s: Bot, ask: nat)
    requires ask in s.asks
    ensures SameCalls(s, SetBudget(s, ask)) && SameRuns(s, SetBudget(s, ask))
  {
  }

  lemma LaunchSame(s: Bot, c: int, tap: nat)
    ensures SameCalls(s, Tap(s, c)) && (tap in s.taps ==> SameCalls(s, Go(s, tap)))
  {
    hide MayLaunch;
  }

  lemma EndSame(s: Bot, ticket: nat)
    ensures ticket in s.tickets ==> SameCalls(s, EndFailed(s, ticket)) && SameRuns(s, EndFailed(s, ticket))
    ensures ticket in s.deliveries ==> SameCalls(s, Show(s, ticket)) && SameRuns(s, Show(s, ticket))
  {
  }

  lemma SaveSame(s: Bot, ticket: nat, ip: Addr, resourceId: string, saved: bool)
    requires ticket in s.tickets
    ensures SameRuns(s, Save(s, ticket, ip, resourceId, saved))
  {
  }

  /** Most events neither call a provider nor change the pool, and most launch nothing. */
  lemma QuietStep(env: Env, s: Bot, e: Event)
    ensures !e.VmGiven? && !e.AttachCommand? && !e.RowMark? && !e.RunSaved? ==> SameCalls(s, Step(env, s, e))
    ensures !e.RunTap? && !e.RunGo? ==> SameRuns(s, Step(env, s, e))
  {
    hide AfterStart, AfterPick, AfterMask, AfterAsk, SetBudget, Tap, Go, AfterVm, AfterCommand, AfterMark, EndFailed, Save, Show;
    match e
    case RollStart(x, msgId, live) => StartSame(s, x, msgId, live);
    case PickAccount(x, msgId, account, live) => PickSame(s, x, msgId, account, live);
    case MaskGiven(x, mask) => MaskSame(env, s, x, mask);
    case BudgetAsk(x, raw, live) => AskSame(env, s, x, raw, live);
    case BudgetSet(ask) =>
      if ask in s.asks {
        SetSame(s, ask);
      }
    case RunTap(x) => LaunchSame(s, x, 0);
    case RunGo(tap) => LaunchSame(s, 0, tap);
    case VmGiven(x, vm, live, worked) => VmOnly(s, x, vm, live, worked);
    case AttachCommand(ip, row, vm, live, worked) => CommandOnly(s, ip, row, vm, live, worked);
    case RowMark(k, works) => MarkOnly(s, k, works);
    case RunFailed(ticket) => EndSame(s, ticket);
    case RunSaved(ticket, ip, resourceId, saved) =>
      if ticket in s.tickets {
        SaveSame(s, ticket, ip, resourceId, saved);
      }
    case RunShown(ticket) => EndSame(s, ticket);
    case _ =>
  }

  // ---- the wizard ----

  /** Dialog safety, after any events: a mask that is set always parses, an account that is set is a
      key, and at Confirm the launch button works exactly when both are set. */
  lemma DialogSafe(env: Env, s: Bot, es: seq<Event>, c: int)
    requires Initial(s) && forall e :: e in es ==> FromRegistry(e)
    ensures var st := Lookup(Exec(env, s, es).chats, c);
      && (st.mask != "" ==> MaskOf(env.read, st.mask).Ok?)
      && (st.account != "" ==> IsKey(st.account))
      && (MayLaunch(st) <==> st.stage == Confirm && st.account != "" && st.mask != "")
  {
    hide Exec, MaskOf, IsKey;
    AlwaysOk(env, s, es);
    ShapeOf(env, Exec(env, s, es), c);
  }
}
