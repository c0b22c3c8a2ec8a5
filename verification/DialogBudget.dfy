/** When a dialog at Confirm has an account, and a budget within its limit. The account is looked up
    and the number read for it in one section, and the number is set in another; what the chat has
    become in between decides. */
module DialogBudget {

  import opened Mask
  import opened Roll
  import opened Dialog
  import opened DialogSafety

  /** At Confirm there is an account, and the budget is within its limit. */
  ghost predicate ConfirmSound(env: Env, st: Chat) {
    st.stage == Confirm ==> IsKey(st.account) && InRange(env, st.account, st.budget)
  }

  /** An account that a budget can be set for: there is one, and its limit is not below the budget. */
  predicate Fits(env: Env, account: string, budget: int) {
    account != "" && !(0 < env.maxRolls(account) < budget)
  }

  /** The account a number is about to be set for fits it, if the number is for chat c. */
  predicate SetFits(env: Env, s: Bot, e: Event, c: int) {
    e.BudgetSet? && e.ask in s.asks && s.asks[e.ask].chat == c ==>
      Fits(env, Lookup(s.chats, c).account, s.asks[e.ask].budget)
  }

  /** What is set fits whatever account the number was read for: so if something does not fit, the
      account of the chat changed between the reading and the setting. */
  lemma KeptAccountFits(env: Env, s: Bot, ask: nat)
    requires Sound(env, s) && ask in s.asks
    ensures Fits(env, s.asks[ask].account, s.asks[ask].budget)
  {
    hide MaskOf;
    ShapeOf(env, s, 0);
    KeyNotEmpty(s.asks[ask].account);
  }

  /** Setting a number makes a sound Confirm exactly if it fits the account the chat has by then. */
  lemma SetConfirms(env: Env, s: Bot, ask: nat)
    requires Sound(env, s) && ask in s.asks
    ensures var c := s.asks[ask].chat;
      ConfirmSound(env, Lookup(SetBudget(s, ask).chats, c)) <==> Fits(env, Lookup(s.chats, c).account, s.asks[ask].budget)
  {
    hide MaskOf, IsKey;
    ShapeOf(env, s, s.asks[ask].chat);
    if IsKey("") {
      KeyNotEmpty("");
    }
  }

  /** Confirm was not reached by the step, and what it shows not changed. */
  predicate ConfirmKept(s: Bot, t: Bot, c: int) {
    var st, st' := Lookup(s.chats, c), Lookup(t.chats, c);
    st'.stage == Confirm ==> st.stage == Confirm && st'.account == st.account && st'.budget == st.budget
  }

  lemma MaskKeeps(env: Env, s: Bot, x: int, mask: string, c: int)
    ensures ConfirmKept(s, AfterMask(env, s, x, mask), c)
  {
    hide MaskOf;
  }

  lemma AskKeeps(env: Env, s: Bot, x: int, raw: string, live: set<string>, c: int)
    ensures ConfirmKept(s, AfterAsk(env, s, x, raw, live), c)
  {
    hide BudgetFor;
  }

  lemma StartKeeps(s: Bot, x: int, msgId: int, live: set<string>, c: int)
    ensures ConfirmKept(s, AfterStart(s, x, msgId, live), c)
  {
  }

  lemma ButtonKeeps(s: Bot, x: int, msgId: int, c: int)
    ensures ConfirmKept(s, AfterAttachButton(s, x, msgId), c)
  {
  }

  lemma PickKeeps(s: Bot, x: int, msgId: int, account: string, live: set<string>, c: int)
    ensures ConfirmKept(s, AfterPick(s, x, msgId, account, live), c)
  {
  }

  lemma SetKeeps(s: Bot, ask: nat, c: int)
    requires ask in s.asks && s.asks[ask].chat != c
    ensures ConfirmKept(s, SetBudget(s, ask), c)
  {
  }

  lemma LaunchKeeps(s: Bot, x: int, tap: nat, c: int)
    ensures ConfirmKept(s, Tap(s, x), c) && (tap in s.taps ==> ConfirmKept(s, Go(s, tap), c))
  {
    hide MayLaunch;
  }

  lemma EndKeeps(s: Bot, ticket: nat, ip: Addr, resourceId: string, saved: bool, c: int)
    ensures ticket in s.tickets ==> ConfirmKept(s, EndFailed(s, ticket), c) && Save(s, ticket, ip, resourceId, saved).chats == s.chats
    ensures ticket in s.deliveries ==> ConfirmKept(s, Show(s, ticket), c)
  {
  }

  /** No other event makes a chat reach Confirm, or changes what a chat at Confirm shows. */
  lemma OtherConfirm(env: Env, s: Bot, e: Event, c: int)
    requires !(e.BudgetSet? && e.ask in s.asks && s.asks[e.ask].chat == c)
    ensures ConfirmKept(s, Step(env, s, e), c)
  {
    hide AfterStart, AfterPick, AfterMask, AfterAsk, SetBudget, Tap, Go, AfterAttachButton, AfterVm, AfterCommand, AfterMark, EndFailed, Save, Show;
    match e
    case RollStart(x, msgId, live) => StartKeeps(s, x, msgId, live, c);
    case PickAccount(x, msgId, account, live) => PickKeeps(s, x, msgId, account, live, c);
    case MaskGiven(x, mask) => MaskKeeps(env, s, x, mask, c);
    case BudgetAsk(x, raw, live) => AskKeeps(env, s, x, raw, live, c);
    case BudgetSet(ask) =>
      if ask in s.asks {
        SetKeeps(s, ask, c);
      }
    case RunTap(x) => LaunchKeeps(s, x, 0, c);
    case RunGo(tap) => LaunchKeeps(s, c, tap, c);
    case AttachButton(x, msgId) => ButtonKeeps(s, x, msgId, c);
    case VmGiven(x, vm, live, worked) => VmOnly(s, x, vm, live, worked);
    case AttachCommand(ip, row, vm, live, worked) => CommandOnly(s, ip, row, vm, live, worked);
    case RowMark(k, works) => MarkOnly(s, k, works);
    case RunFailed(ticket) => EndKeeps(s, ticket, V4([0, 0, 0, 0]), "", false, c);
    case RunSaved(ticket, ip, resourceId, saved) => EndKeeps(s, ticket, ip, resourceId, saved, c);
    case RunShown(ticket) => EndKeeps(s, ticket, V4([0, 0, 0, 0]), "", false, c);
    case _ =>
  }

  lemma StepConfirm(env: Env, s: Bot, e: Event, c: int)
    requires Sound(env, s) && ConfirmSound(env, Lookup(s.chats, c))
    ensures ConfirmSound(env, Lookup(Step(env, s, e).chats, c)) <==> SetFits(env, s, e, c)
  {
    hide Sound, Fits;
    if e.BudgetSet? && e.ask in s.asks && s.asks[e.ask].chat == c {
      SetConfirms(env, s, e.ask);
    } else {
      OtherConfirm(env, s, e, c);
      hide Step;
    }
  }

  /** At every moment of a history, what chat c shows at Confirm is sound. */
  ghost predicate AlwaysConfirmSound(env: Env, s: Bot, es: seq<Event>, c: int) {
    forall i :: 0 <= i <= |es| ==> ConfirmSound(env, Lookup(Exec(env, s, es[..i]).chats, c))
  }

  /** Every number set in chat c in a history fits the account the chat has at that moment. */
  predicate SetsFit(env: Env, s: Bot, es: seq<Event>, c: int) {
    forall i :: 0 <= i < |es| ==> SetFits(env, Exec(env, s, es[..i]), es[i], c)
  }

  lemma SoundLast(env: Env, s: Bot, es: seq<Event>, c: int)
    requires es != []
    ensures AlwaysConfirmSound(env, s, es, c) <==>
            AlwaysConfirmSound(env, s, es[..|es| - 1], c) && ConfirmSound(env, Lookup(Exec(env, s, es).chats, c))
  {
    hide Exec, ConfirmSound;
    var n := |es| - 1;
    assert es[..|es|] == es && forall i :: 0 <= i <= n ==> es[..n][..i] == es[..i];
  }

  lemma FitLast(env: Env, s: Bot, es: seq<Event>, c: int)
    requires es != []
    ensures var n := |es| - 1;
      SetsFit(env, s, es, c) <==> SetsFit(env, s, es[..n], c) && SetFits(env, Exec(env, s, es[..n]), es[n], c)
  {
    hide Exec, SetFits;
    var n := |es| - 1;
    assert forall i :: 0 <= i < n ==> es[..n][..i] == es[..i] && es[..n][i] == es[i];
  }

  lemma NowSound(env: Env, s: Bot, es: seq<Event>, c: int)
    requires AlwaysConfirmSound(env, s, es, c)
    ensures ConfirmSound(env, Lookup(Exec(env, s, es).chats, c))
  {
    assert es[..|es|] == es;
  }

  /** A chat at Confirm has an account key and a budget from 1 to its limit throughout a history if
      and only if every number, when it is set, fits the account the chat has by then. */
  lemma {:induction false} ConfirmExactly(env: Env, s: Bot, es: seq<Event>, c: int)
    requires Initial(s) && forall e :: e in es ==> FromRegistry(e)
    ensures AlwaysConfirmSound(env, s, es, c) <==> SetsFit(env, s, es, c)
  {
    hide MaskOf, FromRegistry, Step, Sound, ConfirmSound, SetFits, AlwaysConfirmSound, SetsFit;
    if es == [] {
      StartsSound(env, s, c);
    } else {
      var front := es[..|es| - 1];
      ConfirmExactly(env, s, front, c);
      AlwaysOk(env, s, front);
      SoundLast(env, s, es, c);
      FitLast(env, s, es, c);
      if AlwaysConfirmSound(env, s, front, c) {
        NowSound(env, s, front, c);
        StepConfirm(env, Exec(env, s, front), es[|es| - 1], c);
      }
    }
  }

  lemma StartsSound(env: Env, s: Bot, c: int)
    requires Initial(s)
    ensures AlwaysConfirmSound(env, s, [], c) && SetsFit(env, s, [], c)
  {
  }

  /** No account of chat c is changed between the reading and the setting of a number. */
  predicate AccountsKept(env: Env, s: Bot, es: seq<Event>, c: int) {
    forall i :: 0 <= i < |es| ==>
      var t := Exec(env, s, es[..i]);
      es[i].BudgetSet? && es[i].ask in t.asks && t.asks[es[i].ask].chat == c ==>
        Lookup(t.chats, c).account == t.asks[es[i].ask].account
  }

  /** In particular it is so throughout if no account is changed in between. */
  lemma KeptAccountsConfirm(env: Env, s: Bot, es: seq<Event>, c: int)
    requires Initial(s) && (forall e :: e in es ==> FromRegistry(e)) && AccountsKept(env, s, es, c)
    ensures AlwaysConfirmSound(env, s, es, c)
  {
    hide Exec, Sound, FromRegistry, Fits, AlwaysConfirmSound;
    forall i | 0 <= i < |es| ensures SetFits(env, Exec(env, s, es[..i]), es[i], c) {
      AlwaysOk(env, s, es[..i]);
      var t := Exec(env, s, es[..i]);
      if es[i].BudgetSet? && es[i].ask in t.asks && t.asks[es[i].ask].chat == c {
        KeptAccountFits(env, t, es[i].ask);
      }
    }
    ConfirmExactly(env, s, es, c);
  }

  /** The taps and the runs of a chat have budgets within their account's limit. */
  predicate RunsInRange(env: Env, s: Bot, c: int) {
    && (forall t :: t in s.taps && s.taps[t].chat == c ==> InRange(env, s.taps[t].account, s.taps[t].budget))
    && (forall t :: t in s.tickets && s.tickets[t].chat == c ==> InRange(env, s.tickets[t].account, s.tickets[t].budget))
  }

  lemma TapInRange(env: Env, s: Bot, x: int, c: int)
    requires RunsInRange(env, s, c) && ConfirmSound(env, Lookup(s.chats, c))
    ensures RunsInRange(env, Tap(s, x), c)
  {
    hide InRange, IsKey;
  }

  lemma GoInRange(env: Env, s: Bot, tap: nat, c: int)
    requires RunsInRange(env, s, c) && tap in s.taps
    ensures RunsInRange(env, Go(s, tap), c)
  {
    hide InRange;
  }

  lemma StepInRange(env: Env, s: Bot, e: Event, c: int)
    requires RunsInRange(env, s, c) && ConfirmSound(env, Lookup(s.chats, c))
    ensures RunsInRange(env, Step(env, s, e), c)
  {
    hide InRange, IsKey, AfterStart, AfterPick, AfterMask, AfterAsk, SetBudget, Tap, Go, AfterAttachButton, AfterVm, AfterCommand, AfterMark, EndFailed, Save, Show;
    if e.RunTap? {
      TapInRange(env, s, e.chat, c);
    } else if e.RunGo? {
      if e.tap in s.taps {
        GoInRange(env, s, e.tap, c);
      }
    } else {
      QuietStep(env, s, e);
      hide Step;
    }
  }

  lemma {:induction false} FitRuns(env: Env, s: Bot, es: seq<Event>, c: int)
    requires Initial(s) && (forall e :: e in es ==> FromRegistry(e)) && SetsFit(env, s, es, c)
    ensures RunsInRange(env, Exec(env, s, es), c)
  {
    hide MaskOf, FromRegistry, Step, ConfirmSound, SetsFit, AlwaysConfirmSound;
    if es != [] {
      var front := es[..|es| - 1];
      FitLast(env, s, es, c);
      FitRuns(env, s, front, c);
      ConfirmExactly(env, s, front, c);
      NowSound(env, s, front, c);
      StepInRange(env, Exec(env, s, front), es[|es| - 1], c);
    }
  }

  /** A run the wizard started never takes the branch for a bad mask, and has an account key and a
      budget. The roller's own clamp leaves that budget alone if every number set in its chat fitted
      the account it was set for. */
  lemma WizardRunsAreSound(env: Env, s: Bot, es: seq<Event>, ticket: nat)
    requires Initial(s) && forall e :: e in es ==> FromRegistry(e)
    requires ticket in Exec(env, s, es).tickets
    ensures var t := Exec(env, s, es).tickets[ticket];
      && MaskOf(env.read, t.mask).Ok? && IsKey(t.account) && 1 <= t.budget
      && (SetsFit(env, s, es, t.chat) ==> Clamp(t.budget, env.maxRolls(t.account)) == t.budget)
  {
    hide Exec, MaskOf, IsKey, SetsFit;
    AlwaysOk(env, s, es);
    var c := Exec(env, s, es).tickets[ticket].chat;
    if SetsFit(env, s, es, c) {
      FitRuns(env, s, es, c);
    }
  }
}
