/** What the dialog does for a user: every text by the step it meets, the numbers that are understood,
    the way from /roll to an attached address, and that no chat disturbs another. */
module DialogTour {

  import opened Wrappers
  import opened Decimal
  import opened Text
  import opened Mask
  import opened Storage
  import opened Dialog
  import opened DialogSafety
  import opened Handlers

  // ---- numbers ----

  /** "max" asks for the account's limit, or 25 if it has none; a positive number asks for itself, and at
      most for the limit; nothing else is understood. */
  lemma BudgetRead(env: Env, account: string, raw: string)
    ensures var limit := env.maxRolls(account);
      if raw == "max" || raw == "макс" then BudgetFor(env, account, raw) == Some(if limit > 0 then limit else 25)
      else if Atoi(raw).None? || Atoi(raw).value < 1 then BudgetFor(env, account, raw) == None
      else if limit > 0 && limit < Atoi(raw).value then BudgetFor(env, account, raw) == Some(limit)
      else BudgetFor(env, account, raw) == Some(Atoi(raw).value)
  {
    hide Atoi;
  }

  // ---- texts ----

  /** A text is heard if it is not empty and no command. */
  predicate Heard(message: string) {
    message != "" && (TrimSpace(message) == "" || TrimSpace(message)[0] != '/')
  }

  lemma Unheard(env: Env, s: Bot, c: int, message: string, live: set<string>, worked: bool, marks: bool)
    requires !Heard(message)
    ensures TextDone(env, s, c, message, live, worked, marks) == s
  {
    hide TrimSpace, AfterMask, BudgetDone, VmDone;
  }

  /** Only the chat of a text changes, and nothing else but what is said of calls and rows. */
  predicate Elsewhere(s: Bot, t: Bot, c: int) {
    t.chats - {c} == s.chats - {c}
  }

  /** At the mask step a text that parses is stored, blanks around it gone, and the number is next; a text
      that does not parse leaves the chat as it was. */
  lemma TextAtMask(env: Env, s: Bot, c: int, message: string, live: set<string>, worked: bool, marks: bool)
    requires Heard(message) && Lookup(s.chats, c).stage == ChooseMask
    ensures var st, t, mask := Lookup(s.chats, c), TextDone(env, s, c, message, live, worked, marks), TrimSpace(message);
      && Elsewhere(s, t, c) && t.pool == s.pool && t.calls == s.calls
      && t == s.(chats := t.chats)
      && Lookup(t.chats, c) == if MaskOf(env.read, mask).Ok? then st.(stage := ChooseBudget, mask := mask) else st
  {
    hide TrimSpace, MaskOf, BudgetDone, VmDone;
  }

  /** At the number step a live account and a number that is understood lead to the confirmation with that
      number; an account that is gone ends the dialog; another text leaves the chat as it was. */
  lemma TextAtBudget(env: Env, s: Bot, c: int, message: string, live: set<string>, worked: bool, marks: bool)
    requires Heard(message) && Lookup(s.chats, c).stage == ChooseBudget
    ensures var st, t, n := Lookup(s.chats, c), TextDone(env, s, c, message, live, worked, marks),
                            BudgetFor(env, Lookup(s.chats, c).account, TrimSpace(message));
      && Elsewhere(s, t, c) && t.pool == s.pool && t.nextRow == s.nextRow && t.calls == s.calls && t.marks == s.marks
      && t.taps == s.taps && t.tickets == s.tickets && t.deliveries == s.deliveries
      && (st.account !in live ==> c !in t.chats)
      && (st.account in live ==>
            Lookup(t.chats, c) == if n.Some? then st.(stage := Confirm, budget := n.value) else st)
  {
    hide TrimSpace, AfterMask, VmDone, BudgetFor;
    BudgetOnce(env, Touch(s, c), c, TrimSpace(message), live);
    hide BudgetDone;
  }

  lemma BudgetOnce(env: Env, s: Bot, c: int, raw: string, live: set<string>)
    ensures var st, t, n := Lookup(s.chats, c), BudgetDone(env, s, c, raw, live), BudgetFor(env, Lookup(s.chats, c).account, raw);
      && Elsewhere(s, t, c) && t == s.(chats := t.chats, asks := t.asks, next := t.next, audits := t.audits)
      && (st.account !in live ==> c !in t.chats)
      && (st.account in live ==>
            Lookup(t.chats, c) == if n.Some? then st.(stage := Confirm, budget := n.value) else st)
  {
    var st, t := Lookup(s.chats, c), AfterAsk(env, s, c, raw, live);
    AskOnce(env, s, c, raw, live);
    if st.account !in live {
      hide AfterAsk;
    } else if BudgetFor(env, st.account, raw).Some? {
      SetOnce(t, s.next);
      hide AfterAsk, SetBudget, BudgetFor;
    }
  }

  lemma AskOnce(env: Env, s: Bot, c: int, raw: string, live: set<string>)
    ensures var st, t, n := Lookup(s.chats, c), AfterAsk(env, s, c, raw, live), BudgetFor(env, Lookup(s.chats, c).account, raw);
      && t == s.(chats := s.chats[c := st], asks := t.asks, next := t.next)
      && (st.account in live && n.Some? ==> s.next in t.asks && t.asks[s.next] == Ask(c, st.account, n.value))
  {
    hide BudgetFor;
  }

  lemma SetOnce(s: Bot, ask: nat)
    requires ask in s.asks
    ensures var t, c := SetBudget(s, ask), s.asks[ask].chat;
      && Lookup(t.chats, c) == Lookup(s.chats, c).(stage := Confirm, budget := s.asks[ask].budget)
      && t == s.(chats := s.chats[c := Lookup(t.chats, c)], asks := t.asks, audits := t.audits)
  {
  }

  /** At the machine step a text is the machine the result is attached to, through the account shown; the
      row of the result is marked if the call worked and the row can be written; and the dialog ends.
      Without a result nothing is called. */
  lemma TextAtVm(env: Env, s: Bot, c: int, message: string, live: set<string>, worked: bool, marks: bool)
    requires Heard(message) && Lookup(s.chats, c).stage == AttachVm && forall k :: k in s.marks ==> k < |s.calls|
    ensures var st, t, vm := Lookup(s.chats, c), TextDone(env, s, c, message, live, worked, marks), TrimSpace(message);
      && Elsewhere(s, t, c)
      && (st.resultIp.None? ==> t.calls == s.calls && t.pool == s.pool && Lookup(t.chats, c) == st)
      && (st.resultIp.Some? ==>
            && c !in t.chats
            && t.calls == (if st.account in live
                           then s.calls + [AttachCall(st.account, st.resultRes, st.resultIp.value, vm, st.resultRow, worked)]
                           else s.calls)
            && t.pool == if st.account in live && worked && marks && st.resultRow != 0 && st.resultRow in s.pool
                         then s.pool[st.resultRow := s.pool[st.resultRow].(vm := vm)] else s.pool)
  {
    hide TrimSpace, AfterMask, BudgetDone;
    VmOnce(Touch(s, c), c, TrimSpace(message), live, worked, marks);
    hide VmDone;
  }

  lemma VmOnce(s: Bot, c: int, vm: string, live: set<string>, worked: bool, marks: bool)
    requires forall k :: k in s.marks ==> k < |s.calls|
    ensures var st, t := Lookup(s.chats, c), VmDone(s, c, vm, live, worked, marks);
      && Elsewhere(s, t, c)
      && (st.resultIp.None? ==> t.calls == s.calls && t.pool == s.pool && Lookup(t.chats, c) == st)
      && (st.resultIp.Some? ==>
            && c !in t.chats
            && t.calls == (if st.account in live
                           then s.calls + [AttachCall(st.account, st.resultRes, st.resultIp.value, vm, st.resultRow, worked)]
                           else s.calls)
            && t.pool == if st.account in live && worked && marks && st.resultRow != 0 && st.resultRow in s.pool
                         then s.pool[st.resultRow := s.pool[st.resultRow].(vm := vm)] else s.pool)
  {
    var st := Lookup(s.chats, c);
    if st.resultIp.Some? {
      var call := DialogCall(st, vm, worked);
      AttachOnce(Touch(s, c), call, DialogOrigin(AuditOf(s, c)), live, marks);
      hide AfterAttach, AfterMark;
    }
  }

  lemma AttachOnce(s: Bot, call: AttachCall, origin: Origin, live: set<string>, marks: bool)
    requires forall k :: k in s.marks ==> k < |s.calls|
    ensures var t := AfterMark(AfterAttach(s, call, origin, live), |s.calls|, marks);
      && t.chats == s.chats
      && t.calls == (if call.account in live then s.calls + [call] else s.calls)
      && t.pool == if call.account in live && call.worked && marks && call.row != 0 && call.row in s.pool
                   then s.pool[call.row := s.pool[call.row].(vm := call.vm)] else s.pool
  {
  }

  /** At the other steps a text changes nothing. */
  lemma TextElsewhere(env: Env, s: Bot, c: int, message: string, live: set<string>, worked: bool, marks: bool)
    requires Heard(message)
    requires var g := Lookup(s.chats, c).stage; g != ChooseMask && g != ChooseBudget && g != AttachVm
    ensures var t := TextDone(env, s, c, message, live, worked, marks);
      Elsewhere(s, t, c) && Lookup(t.chats, c) == Lookup(s.chats, c) && t == s.(chats := t.chats)
  {
    hide TrimSpace, AfterMask, BudgetDone, VmDone;
  }

  // ---- buttons ----

  /** /roll begins anew whatever the chat was at, a pick keeps all but account and step, the attach button
      all but the step, and a cancelled chat is as if it had never been used. */
  lemma Buttons(s: Bot, c: int, msgId: int, account: string, live: set<string>)
    requires account in live
    ensures var st := Lookup(s.chats, c);
      && Lookup(AfterStart(s, c, msgId, live).chats, c) == Chat(ChooseAccount, "", "", 0, msgId, None, "", 0)
      && Lookup(AfterPick(s, c, msgId, account, live).chats, c) == st.(stage := ChooseMask, account := account, msgId := msgId)
      && Lookup(AfterAttachButton(s, c, msgId).chats, c) == st.(stage := AttachVm, msgId := msgId)
      && c !in Forget(s, c).chats && Elsewhere(s, Forget(s, c), c)
  {
  }

  // ---- from /roll to an attached address ----

  lemma StartAndPick(s: Bot, c: int, m0: int, m1: int, a: string, live: set<string>)
    requires a in live
    ensures var t := AfterPick(AfterStart(s, c, m0, live), c, m1, a, live);
      && Lookup(t.chats, c) == Chat(ChooseMask, a, "", 0, m1, None, "", 0) && Elsewhere(s, t, c)
      && t == s.(chats := t.chats, audits := t.audits)
  {
  }

  lemma TapAndGo(s: Bot, c: int)
    requires var st := Lookup(s.chats, c); st.stage == Confirm && st.account != "" && st.mask != "" && st.budget >= 1
    ensures var t, st, n := Go(Tap(s, c), s.next), Lookup(s.chats, c), s.next;
      && n in Tap(s, c).taps
      && n in t.tickets && t.tickets[n] == Ticket(c, st.account, st.mask, st.budget)
      && Lookup(t.chats, c) == st.(stage := Running) && Elsewhere(s, t, c)
      && t.pool == s.pool && t.nextRow == s.nextRow && t.calls == s.calls && t.marks == s.marks
  {
  }

  lemma SaveAndShow(s: Bot, n: nat, ip: Addr, resourceId: string)
    requires n in s.tickets
    ensures n in Save(s, n, ip, resourceId, true).deliveries
    ensures var t, k := Show(Save(s, n, ip, resourceId, true), n), s.tickets[n];
      && Lookup(t.chats, k.chat) == Lookup(s.chats, k.chat).(stage := Result, account := k.account,
                                      resultIp := Some(ip), resultRes := resourceId, resultRow := s.nextRow)
      && Elsewhere(s, t, k.chat)
      && t.pool == s.pool[s.nextRow := PoolRow(k.account, resourceId, ip, k.mask, "")]
      && t.calls == s.calls && t.marks == s.marks
  {
  }

  /** The dialog up to the launch, by a text for the mask and one for the number. */
  function Launched(env: Env, s: Bot, c: int, live: set<string>, a: string, mask: string, n: int, m0: int, m1: int): Bot {
    var s2 := AfterPick(AfterStart(s, c, m0, live), c, m1, a, live);
    var s4 := TextDone(env, TextDone(env, s2, c, mask, live, false, false), c, Itoa(n), live, false, false);
    var s5 := Tap(s4, c);
    if s4.next in s5.taps then Go(s5, s4.next) else s5
  }

  /** A user who asks for n rolls of account a on a mask that parses gets a run of that account, with that
      mask and n rolls, or as many as the account allows, whatever the chat was at before. */
  lemma FromRollToLaunch(env: Env, s: Bot, c: int, live: set<string>, a: string, mask: string, n: int, m0: int, m1: int)
    returns (run: nat)
    requires a in live && a != "" && 1 <= n <= MAX_INT && Heard(mask)
    requires MaskOf(env.read, TrimSpace(mask)).Ok? && TrimSpace(mask) != ""
    ensures var t, limit := Launched(env, s, c, live, a, mask, n, m0, m1), env.maxRolls(a);
      && run in t.tickets
      && t.tickets[run] == Ticket(c, a, TrimSpace(mask), if 0 < limit < n then limit else n)
      && Elsewhere(s, t, c) && t.pool == s.pool && t.nextRow == s.nextRow && t.calls == s.calls && t.marks == s.marks
  {
    hide TextDone, MaskOf, TrimSpace, Tap, Go, Heard, BudgetFor, Atoi, Itoa, AfterPick, AfterStart;
    StartAndPick(s, c, m0, m1, a, live);
    var s2 := AfterPick(AfterStart(s, c, m0, live), c, m1, a, live);
    TextAtMask(env, s2, c, mask, live, false, false);
    var s3 := TextDone(env, s2, c, mask, live, false, false);
    NumberHeard(env, a, n);
    TextAtBudget(env, s3, c, Itoa(n), live, false, false);
    var s4 := TextDone(env, s3, c, Itoa(n), live, false, false);
    TapAndGo(s4, c);
    run := s4.next;
  }

  /** When a run has caught an address and the user asks to attach it and names a machine, there has been one
      more call, which attaches that address to that machine through the run's account; the pool has one
      more row, with account, resource, address, mask and machine; the chat is idle and no other chat is
      changed. */
  lemma FromCatchToAttached(env: Env, s: Bot, run: nat, live: set<string>, vm: string, ip: Addr, resourceId: string, m2: int)
    requires run in s.tickets && s.tickets[run].account in live && Heard(vm)
    requires s.nextRow != 0 && s.nextRow !in s.pool && forall k :: k in s.marks ==> k < |s.calls|
    ensures run in Save(s, run, ip, resourceId, true).deliveries
    ensures var k, s6 := s.tickets[run], Show(Save(s, run, ip, resourceId, true), run);
      var t := TextDone(env, AfterAttachButton(s6, k.chat, m2), k.chat, vm, live, true, true);
      && t.calls == s.calls + [AttachCall(k.account, resourceId, ip, TrimSpace(vm), s.nextRow, true)]
      && t.pool == s.pool[s.nextRow := PoolRow(k.account, resourceId, ip, k.mask, TrimSpace(vm))]
      && k.chat !in t.chats && Elsewhere(s, t, k.chat)
  {
    hide TextDone, TrimSpace, Save, Show, Heard, AfterAttachButton;
    SaveAndShow(s, run, ip, resourceId);
    var c, s6 := s.tickets[run].chat, Show(Save(s, run, ip, resourceId, true), run);
    ButtonOnly(s6, c, m2);
    TextAtVm(env, AfterAttachButton(s6, c, m2), c, vm, live, true, true);
  }

  lemma ButtonOnly(s: Bot, c: int, msgId: int)
    ensures var t := AfterAttachButton(s, c, msgId);
      && Lookup(t.chats, c) == Lookup(s.chats, c).(stage := AttachVm, msgId := msgId)
      && Elsewhere(s, t, c) && t == s.(chats := t.chats)
  {
  }

  /** A printed number is heard as itself. */
  lemma NumberHeard(env: Env, account: string, n: int)
    requires 1 <= n <= MAX_INT
    ensures Heard(Itoa(n)) && TrimSpace(Itoa(n)) == Itoa(n)
    ensures BudgetFor(env, account, Itoa(n)) ==
            Some(if 0 < env.maxRolls(account) < n then env.maxRolls(account) else n)
  {
    var s := Itoa(n);
    ItoaSign(n);
    AtoiItoa(n);
    forall i | 0 <= i < |s| ensures IsDigit(s[i]) {
      ItoaChars(n, s[i]);
    }
    TrimSpacePad("", s, "");
    assert "" + s + "" == s;
    assert IsDigit(s[0]);
    BudgetRead(env, account, s);
    hide BudgetFor, Atoi, Itoa, TrimSpace;
    assert "max"[0] == 'm' && "макс"[0] == 'м';
  }

  // ---- one chat at a time ----

  /** The chat an event belongs to, if it belongs to one. */
  function ChatOf(s: Bot, e: Event): Option<int> {
    match e
    case RollStart(c, _, _) => Some(c)
    case PickAccount(c, _, _, _) => Some(c)
    case MaskGiven(c, _) => Some(c)
    case BudgetAsk(c, _, _) => Some(c)
    case BudgetSet(k) => if k in s.asks then Some(s.asks[k].chat) else None
    case RunTap(c) => Some(c)
    case RunGo(k) => if k in s.taps then Some(s.taps[k].chat) else None
    case Look(c) => Some(c)
    case Clear(c) => Some(c)
    case AttachButton(c, _) => Some(c)
    case VmGiven(c, _, _, _) => Some(c)
    case AttachCommand(_, _, _, _, _) => None
    case RowMark(_, _) => None
    case RunFailed(k) => if k in s.tickets then Some(s.tickets[k].chat) else None
    case RunSaved(_, _, _, _) => None
    case RunShown(k) => if k in s.deliveries then Some(s.deliveries[k].chat) else None
  }

  lemma MaskElsewhere(env: Env, s: Bot, c: int, mask: string)
    ensures Elsewhere(s, AfterMask(env, s, c, mask), c)
  {
    hide MaskOf;
  }

  lemma AskElsewhere(env: Env, s: Bot, c: int, raw: string, live: set<string>)
    ensures Elsewhere(s, AfterAsk(env, s, c, raw, live), c)
  {
    hide BudgetFor;
  }

  lemma VmElsewhere(s: Bot, c: int, vm: string, live: set<string>, worked: bool)
    ensures Elsewhere(s, AfterVm(s, c, vm, live, worked), c)
  {
    VmOnly(s, c, vm, live, worked);
    hide AfterVm;
  }

  lemma TapElsewhere(s: Bot, c: int)
    ensures Elsewhere(s, Tap(s, c), c)
  {
    hide MayLaunch;
  }

  lemma StartElsewhere(s: Bot, c: int, msgId: int, live: set<string>)
    ensures Elsewhere(s, AfterStart(s, c, msgId, live), c) && Elsewhere(s, AfterAttachButton(s, c, msgId), c)
  {
  }

  lemma PickElsewhere(s: Bot, c: int, msgId: int, account: string, live: set<string>)
    ensures Elsewhere(s, AfterPick(s, c, msgId, account, live), c)
  {
  }

  lemma SetElsewhere(s: Bot, ask: nat)
    requires ask in s.asks
    ensures Elsewhere(s, SetBudget(s, ask), s.asks[ask].chat)
  {
  }

  lemma GoElsewhere(s: Bot, tap: nat)
    requires tap in s.taps
    ensures Elsewhere(s, Go(s, tap), s.taps[tap].chat)
  {
  }

  lemma EndElsewhere(s: Bot, k: nat)
    ensures k in s.tickets ==> Elsewhere(s, EndFailed(s, k), s.tickets[k].chat)
    ensures k in s.deliveries ==> Elsewhere(s, Show(s, k), s.deliveries[k].chat)
  {
  }

  /** No event changes another chat than its own. */
  lemma OtherChatsStay(env: Env, s: Bot, e: Event)
    ensures match ChatOf(s, e)
      case Some(c) => Elsewhere(s, Step(env, s, e), c)
      case None => Step(env, s, e).chats == s.chats
  {
    hide AfterStart, AfterPick, AfterMask, AfterAsk, SetBudget, Tap, Go, AfterVm, AfterCommand, AfterMark, EndFailed, Show;
    hide AfterAttachButton;
    match e
    case RollStart(c, msgId, live) => StartElsewhere(s, c, msgId, live);
    case PickAccount(c, msgId, account, live) => PickElsewhere(s, c, msgId, account, live);
    case MaskGiven(c, mask) => MaskElsewhere(env, s, c, mask);
    case BudgetAsk(c, raw, live) => AskElsewhere(env, s, c, raw, live);
    case BudgetSet(k) =>
      if k in s.asks {
        SetElsewhere(s, k);
      }
    case RunTap(c) => TapElsewhere(s, c);
    case RunGo(k) =>
      if k in s.taps {
        GoElsewhere(s, k);
      }
    case AttachButton(c, msgId) => StartElsewhere(s, c, msgId, {});
    case VmGiven(c, vm, live, worked) => VmElsewhere(s, c, vm, live, worked);
    case AttachCommand(ip, row, vm, live, worked) => CommandOnly(s, ip, row, vm, live, worked);
    case RowMark(k, works) => MarkOnly(s, k, works);
    case RunFailed(k) => EndElsewhere(s, k);
    case RunShown(k) => EndElsewhere(s, k);
    case _ =>
  }

  lemma ElsewhereIsSame(s: Bot, t: Bot, c: int, d: int)
    requires Elsewhere(s, t, c) && d != c
    ensures d in t.chats <==> d in s.chats
    ensures d in s.chats ==> t.chats[d] == s.chats[d]
  {
    assert d in t.chats <==> d in t.chats - {c};
    assert d in s.chats <==> d in s.chats - {c};
    if d in s.chats {
      assert (s.chats - {c})[d] == s.chats[d] && (t.chats - {c})[d] == t.chats[d];
    }
  }
}
