/** The /roll dialog of every chat, as the handlers change it. Each section of a handler that holds
    the lock of the dialogs, and each call of a provider or of the storage, is one event: between two
    of them any other handler may run, a callback from an old keyboard may fire, a background run
    may end, and accounts may come and go. */
module Dialog {

  import opened Wrappers
  import opened Decimal
  import opened Mask
  import opened Storage
  import opened Roll

  datatype Stage = Idle | ChooseAccount | ChooseMask | ChooseBudget | Confirm | Running | Result | AttachVm

  /** The state of one chat. An absent result address is the source's empty text. */
  datatype Chat = Chat(
    stage: Stage, account: string, mask: string, budget: int, msgId: int,
    resultIp: Option<Addr>, resultRes: string, resultRow: nat)

  const FRESH := Chat(Idle, "", "", 0, 0, None, "", 0)

  /** A started run, with what it was started with. */
  datatype Ticket = Ticket(chat: int, account: string, mask: string, budget: int)

  /** A number of attempts that was read for an account and is to be set in its chat. */
  datatype Ask = Ask(chat: int, account: string, budget: int)

  /** A result handed to a dialog: the account, resource and address a run caught, and the pool
      row saved for it (0 when saving failed). */
  datatype Catch = Catch(account: string, resourceId: string, ip: Addr, row: nat)

  /** A catch on its way to its chat. */
  datatype Delivery = Delivery(chat: int, caught: Catch)

  /** A call of a provider's Attach, the pool row the bot then marks, and whether the call worked. */
  datatype AttachCall = AttachCall(account: string, resourceId: string, ip: Addr, vm: string, row: nat, worked: bool)

  /** Where a call comes from: the command, or a dialog whose result is of account `owner` and in
      which the given account, if any, was picked last after that result. */
  datatype Origin = ByCommand | ByDialog(owner: string, picked: Option<string>)

  /** What became of the last confirmation of a chat: it waits for a tap of the launch button, or the
      given tap took it. */
  datatype Confirmation = Never | Waiting | TakenBy(tap: nat)

  /** The bookkeeping the theorems speak of: how often a chat reached Confirm and what became of the
      last time, how many taps took a confirmation that waited and how many one that another tap had
      taken, how often the chat launched, the last result it was given, and the last account picked
      since. */
  datatype Audit = Audit(
    confirms: nat, last: Confirmation, taken: nat, again: nat, launches: nat, caught: Option<Catch>, picked: Option<string>)

  const NO_AUDIT := Audit(0, Never, 0, 0, 0, None, None)

  /** `asks` are the numbers read and not yet set, `taps` the taps of the launch button that passed
      its guard and have not started their run, `tickets` the runs under way, `deliveries` the catches
      not yet shown, and `marks` the calls whose row is still to be marked. */
  datatype Bot = Bot(
    chats: map<int, Chat>, asks: map<nat, Ask>, taps: map<nat, Ticket>, tickets: map<nat, Ticket>,
    deliveries: map<nat, Delivery>, next: nat, pool: map<nat, PoolRow>, nextRow: nat,
    calls: seq<AttachCall>, origins: seq<Origin>, marks: set<nat>, audits: map<int, Audit>)

  /** What does not change while the bot runs: how CIDR text is read, and the limit of rolls per
      run of an account, which comes from the configuration block of its type. */
  datatype Env = Env(read: PrefixReader, maxRolls: string -> int)

  /** Clear is the cancelling of a dialog and the last section of every handler that ends one; Look
      is a section that only looks a dialog up. A text is a Look, and then, by the step it found, a
      MaskGiven, a BudgetAsk or a VmGiven, whatever the dialog has come to by then. */
  datatype Event =
    | RollStart(chat: int, msgId: int, live: set<string>)
    | PickAccount(chat: int, msgId: int, account: string, live: set<string>)
    | MaskGiven(chat: int, mask: string)
    | BudgetAsk(chat: int, raw: string, live: set<string>)
    | BudgetSet(ask: nat)
    | RunTap(chat: int)
    | RunGo(tap: nat)
    | Look(chat: int)
    | Clear(chat: int)
    | AttachButton(chat: int, msgId: int)
    | VmGiven(chat: int, vm: string, live: set<string>, worked: bool)
    | AttachCommand(ip: Addr, row: nat, vm: string, live: set<string>, worked: bool)
    | RowMark(call: nat, works: bool)
    | RunFailed(ticket: nat)
    | RunSaved(ticket: nat, ip: Addr, resourceId: string, saved: bool)
    | RunShown(ticket: nat)

  // ---- the dialog store ----

  function Lookup(chats: map<int, Chat>, c: int): Chat {
    if c in chats then chats[c] else FRESH
  }

  function AuditIn(audits: map<int, Audit>, c: int): Audit {
    if c in audits then audits[c] else NO_AUDIT
  }

  function AuditOf(s: Bot, c: int): Audit {
    AuditIn(s.audits, c)
  }

  function WithChat(s: Bot, c: int, st: Chat): Bot {
    s.(chats := s.chats[c := st])
  }

  /** Looking a dialog up creates an idle one if there is none. */
  function Touch(s: Bot, c: int): Bot {
    WithChat(s, c, Lookup(s.chats, c))
  }

  function Forget(s: Bot, c: int): Bot {
    s.(chats := s.chats - {c})
  }

  // ---- the steps of the wizard ----

  function AfterStart(s: Bot, c: int, msgId: int, live: set<string>): Bot {
    if live == {} then s else WithChat(s, c, FRESH.(stage := ChooseAccount, msgId := msgId))
  }

  function AfterPick(s: Bot, c: int, msgId: int, account: string, live: set<string>): Bot {
    if account !in live then s
    else s.(chats := s.chats[c := Lookup(s.chats, c).(stage := ChooseMask, account := account, msgId := msgId)],
            audits := s.audits[c := AuditOf(s, c).(picked := Some(account))])
  }

  function AfterMask(env: Env, s: Bot, c: int, mask: string): Bot {
    if MaskOf(env.read, mask).Err? then s
    else WithChat(s, c, Lookup(s.chats, c).(stage := ChooseBudget, mask := mask))
  }

  /** The number of attempts a text asks for, clamped to the account's limit. */
  function BudgetFor(env: Env, account: string, raw: string): Option<int> {
    var limit := env.maxRolls(account);
    var asked :=
      if raw == "max" || raw == "макс" then Some(if limit <= 0 then 25 else limit)
      else match Atoi(raw)
        case Some(n) => if n <= 0 then None else Some(n)
        case None => None;
    match asked
    case None => None
    case Some(n) => Some(Clamp(n, limit))
  }

  /** The account of the dialog is looked up and the number read for it. */
  function AfterAsk(env: Env, s: Bot, c: int, raw: string, live: set<string>): Bot {
    var st := Lookup(s.chats, c);
    if st.account in live && BudgetFor(env, st.account, raw).Some? then
      s.(chats := s.chats[c := st],
         asks := s.asks[s.next := Ask(c, st.account, BudgetFor(env, st.account, raw).value)], next := s.next + 1)
    else Touch(s, c)
  }

  function Confirmed(s: Bot, c: int, budget: int): Bot {
    s.(chats := s.chats[c := Lookup(s.chats, c).(stage := Confirm, budget := budget)],
       audits := s.audits[c := AuditOf(s, c).(confirms := AuditOf(s, c).confirms + 1, last := Waiting)])
  }

  /** The number is set, whatever the dialog has come to by then, its account included. */
  function SetBudget(s: Bot, ask: nat): Bot
    requires ask in s.asks
  {
    Confirmed(s, s.asks[ask].chat, s.asks[ask].budget).(asks := s.asks - {ask})
  }

  predicate MayLaunch(st: Chat) {
    st.stage == Confirm && st.account != "" && st.mask != "" && st.budget > 0
  }

  function Tapped(a: Audit, tap: nat): Audit {
    if a.last.Waiting? then a.(last := TakenBy(tap), taken := a.taken + 1) else a.(again := a.again + 1)
  }

  /** A tap of the launch button: the guard, and the values the run will have. */
  function Tap(s: Bot, c: int): Bot {
    var st := Lookup(s.chats, c);
    if !MayLaunch(st) then Touch(s, c)
    else
      s.(chats := s.chats[c := st], audits := s.audits[c := Tapped(AuditOf(s, c), s.next)],
         taps := s.taps[s.next := Ticket(c, st.account, st.mask, st.budget)], next := s.next + 1)
  }

  /** The second half of a tap, whatever the dialog has come to by then: the run starts. */
  function Go(s: Bot, tap: nat): Bot
    requires tap in s.taps
  {
    var t := s.taps[tap];
    var a := AuditOf(s, t.chat);
    s.(chats := s.chats[t.chat := Lookup(s.chats, t.chat).(stage := Running)],
       audits := s.audits[t.chat := a.(launches := a.launches + 1)],
       taps := s.taps - {tap}, tickets := s.tickets[tap := t])
  }

  // ---- attaching ----

  function AfterAttachButton(s: Bot, c: int, msgId: int): Bot {
    WithChat(s, c, Lookup(s.chats, c).(stage := AttachVm, msgId := msgId))
  }

  /** An attach calls the provider only for a live account; the row is to be marked only if the call
      worked and there is a row. */
  function AfterAttach(s: Bot, call: AttachCall, origin: Origin, live: set<string>): Bot {
    if call.account !in live then s
    else s.(calls := s.calls + [call], origins := s.origins + [origin],
            marks := if call.worked && call.row != 0 then s.marks + {|s.calls|} else s.marks)
  }

  function AfterMark(s: Bot, k: nat, works: bool): Bot {
    if k !in s.marks || k >= |s.calls| then s
    else s.(marks := s.marks - {k}, pool := if works then Attached(s.pool, s.calls[k].row, s.calls[k].vm) else s.pool)
  }

  function DialogCall(st: Chat, vm: string, worked: bool): AttachCall
    requires st.resultIp.Some?
  {
    AttachCall(st.account, st.resultRes, st.resultIp.value, vm, st.resultRow, worked)
  }

  function DialogOrigin(a: Audit): Origin {
    ByDialog(if a.caught.Some? then a.caught.value.account else "", a.picked)
  }

  function AfterVm(s: Bot, c: int, vm: string, live: set<string>, worked: bool): Bot {
    var st := Lookup(s.chats, c);
    if st.resultIp.None? then Touch(s, c)
    else AfterAttach(Touch(s, c), DialogCall(st, vm, worked), DialogOrigin(AuditOf(s, c)), live)
  }

  function RowCall(row: PoolRow, id: nat, vm: string, worked: bool): AttachCall {
    AttachCall(row.account, row.resourceId, row.ip, vm, id, worked)
  }

  /** `row` is the row found for the address; of several, any may be the one. */
  predicate Finds(pool: map<nat, PoolRow>, ip: Addr, row: nat) {
    row in pool && pool[row].ip == ip
  }

  function AfterCommand(s: Bot, ip: Addr, row: nat, vm: string, live: set<string>, worked: bool): Bot {
    if Finds(s.pool, ip, row) then AfterAttach(s, RowCall(s.pool[row], row, vm, worked), ByCommand, live) else s
  }

  // ---- the end of a run ----

  /** A run that caught nothing clears its dialog. */
  function EndFailed(s: Bot, ticket: nat): Bot
    requires ticket in s.tickets
  {
    s.(chats := s.chats - {s.tickets[ticket].chat}, tickets := s.tickets - {ticket})
  }

  /** A run that caught an address saves its row, if it can. */
  function Save(s: Bot, ticket: nat, ip: Addr, resourceId: string, saved: bool): Bot
    requires ticket in s.tickets
  {
    var t := s.tickets[ticket];
    var k := Catch(t.account, resourceId, ip, if saved then s.nextRow else 0);
    s.(tickets := s.tickets - {ticket}, deliveries := s.deliveries[ticket := Delivery(t.chat, k)],
       pool := if saved then s.pool[s.nextRow := PoolRow(t.account, resourceId, ip, t.mask, "")] else s.pool,
       nextRow := if saved then s.nextRow + 1 else s.nextRow)
  }

  /** And then shows it in the dialog, whatever step that is at. */
  function Show(s: Bot, ticket: nat): Bot
    requires ticket in s.deliveries
  {
    var c, k := s.deliveries[ticket].chat, s.deliveries[ticket].caught;
    s.(chats := s.chats[c := Lookup(s.chats, c).(stage := Result, account := k.account,
                                                 resultIp := Some(k.ip), resultRes := k.resourceId, resultRow := k.row)],
       audits := s.audits[c := AuditOf(s, c).(caught := Some(k), picked := None)],
       deliveries := s.deliveries - {ticket})
  }

  function Step(env: Env, s: Bot, e: Event): Bot {
    match e
    case RollStart(c, msgId, live) => AfterStart(s, c, msgId, live)
    case PickAccount(c, msgId, account, live) => AfterPick(s, c, msgId, account, live)
    case MaskGiven(c, mask) => AfterMask(env, s, c, mask)
    case BudgetAsk(c, raw, live) => AfterAsk(env, s, c, raw, live)
    case BudgetSet(ask) => if ask in s.asks then SetBudget(s, ask) else s
    case RunTap(c) => Tap(s, c)
    case RunGo(tap) => if tap in s.taps then Go(s, tap) else s
    case Look(c) => Touch(s, c)
    case Clear(c) => Forget(s, c)
    case AttachButton(c, msgId) => AfterAttachButton(s, c, msgId)
    case VmGiven(c, vm, live, worked) => AfterVm(s, c, vm, live, worked)
    case AttachCommand(ip, row, vm, live, worked) => AfterCommand(s, ip, row, vm, live, worked)
    case RowMark(k, works) => AfterMark(s, k, works)
    case RunFailed(ticket) => if ticket in s.tickets then EndFailed(s, ticket) else s
    case RunSaved(ticket, ip, resourceId, saved) =>
      if ticket in s.tickets then Save(s, ticket, ip, resourceId, saved) else s
    case RunShown(ticket) => if ticket in s.deliveries then Show(s, ticket) else s
  }

  function Exec(env: Env, s: Bot, es: seq<Event>): Bot {
    if es == [] then s else Step(env, Exec(env, s, es[..|es| - 1]), es[|es| - 1])
  }

  /** The bot as it starts: no dialogs, no runs, and whatever pool the database holds. */
  ghost predicate Initial(s: Bot) {
    && s.chats == map[] && s.asks == map[] && s.taps == map[] && s.tickets == map[] && s.deliveries == map[]
    && s.calls == [] && s.origins == [] && s.marks == {} && s.audits == map[]
    && 0 < s.nextRow && forall id :: id in s.pool ==> 0 < id < s.nextRow
  }
}
