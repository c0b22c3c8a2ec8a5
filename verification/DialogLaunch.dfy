/** How many runs a chat starts. The guard of the launch button and the start of the run are two
    sections, so taps can overlap. */
module DialogLaunch {

  import opened Mask
  import opened Dialog
  import opened DialogSafety

  /** What a chat launched, exactly: every tap that passed the guard, less those pending; and a tap
      that passes took a confirmation that waited, or one that another tap had taken already. */
  lemma LaunchesExactly(env: Env, s: Bot, es: seq<Event>, c: int)
    requires Initial(s) && forall e :: e in es ==> FromRegistry(e)
    ensures var a, pending := AuditOf(Exec(env, s, es), c), PendingOf(Exec(env, s, es).taps, c);
      a.launches + |pending| == a.taken + a.again && a.taken <= a.confirms
  {
    hide Exec, MaskOf, IsKey;
    AlwaysOk(env, s, es);
    ShapeOf(env, Exec(env, s, es), c);
  }

  /** A tap takes a confirmation again if and only if it passes the guard while the very tap that
      took that confirmation has not started its run. */
  lemma AgainExactly(env: Env, s: Bot, es: seq<Event>, c: int)
    requires Initial(s) && forall e :: e in es ==> FromRegistry(e)
    ensures var t := Exec(env, s, es);
      var a := AuditOf(t, c);
      AuditOf(Step(env, t, RunTap(c)), c).again > a.again <==>
        MayLaunch(Lookup(t.chats, c)) && a.last.TakenBy? && a.last.tap in t.taps && t.taps[a.last.tap].chat == c
  {
    hide Exec, MaskOf, IsKey;
    AlwaysOk(env, s, es);
    ShapeOf(env, Exec(env, s, es), c);
  }

  /** No tap of the launch button in a chat comes while an earlier one is half done. */
  predicate TapsApart(env: Env, s: Bot, es: seq<Event>, c: int) {
    forall i :: 0 <= i < |es| && es[i] == RunTap(c) ==> PendingOf(Exec(env, s, es[..i]).taps, c) == {}
  }

  lemma ApartPrefix(env: Env, s: Bot, es: seq<Event>, c: int)
    requires es != [] && TapsApart(env, s, es, c)
    ensures var n := |es| - 1;
      TapsApart(env, s, es[..n], c) && (es[n] == RunTap(c) ==> PendingOf(Exec(env, s, es[..n]).taps, c) == {})
  {
    hide Exec;
    var n := |es| - 1;
    forall i | 0 <= i < n && es[..n][i] == RunTap(c)
      ensures PendingOf(Exec(env, s, es[..n][..i]).taps, c) == {}
    {
      assert es[..n][..i] == es[..i];
    }
  }

  predicate SameAgain(s: Bot, t: Bot, d: int) {
    AuditOf(t, d).again == AuditOf(s, d).again
  }

  lemma WizardAgain(env: Env, s: Bot, x: int, text: string, live: set<string>, d: int)
    ensures SameAgain(s, AfterMask(env, s, x, text), d) && SameAgain(s, AfterAsk(env, s, x, text, live), d)
  {
    hide MaskOf, BudgetFor;
  }

  lemma PickAgain(s: Bot, x: int, msgId: int, account: string, live: set<string>, d: int)
    ensures SameAgain(s, AfterPick(s, x, msgId, account, live), d)
  {
  }

  lemma SetAgain(s: Bot, ask: nat, d: int)
    requires ask in s.asks
    ensures SameAgain(s, SetBudget(s, ask), d)
  {
  }

  lemma LaunchAgain(s: Bot, x: int, tap: nat, d: int)
    ensures (x != d ==> SameAgain(s, Tap(s, x), d)) && (tap in s.taps ==> SameAgain(s, Go(s, tap), d))
  {
    hide MayLaunch;
  }

  lemma EndAgain(s: Bot, ticket: nat, d: int)
    ensures ticket in s.tickets ==> SameAgain(s, EndFailed(s, ticket), d)
    ensures ticket in s.deliveries ==> SameAgain(s, Show(s, ticket), d)
  {
  }

  /** Only a tap of the chat itself counts as taking a confirmation again. */
  lemma OtherAgain(env: Env, s: Bot, e: Event, d: int)
    requires e != RunTap(d)
    ensures SameAgain(s, Step(env, s, e), d)
  {
    hide AfterMask, AfterAsk, AfterPick, SetBudget, Tap, Go, AfterVm, AfterCommand, AfterMark, EndFailed, Show;
    match e
    case PickAccount(x, msgId, account, live) => PickAgain(s, x, msgId, account, live, d);
    case MaskGiven(x, mask) => WizardAgain(env, s, x, mask, {}, d);
    case BudgetAsk(x, raw, live) => WizardAgain(env, s, x, raw, live, d);
    case BudgetSet(ask) =>
      if ask in s.asks {
        SetAgain(s, ask, d);
      }
    case RunTap(x) => LaunchAgain(s, x, 0, d);
    case RunGo(tap) => LaunchAgain(s, d, tap, d);
    case VmGiven(x, vm, live, worked) => VmOnly(s, x, vm, live, worked);
    case AttachCommand(ip, row, vm, live, worked) => CommandOnly(s, ip, row, vm, live, worked);
    case RowMark(k, works) => MarkOnly(s, k, works);
    case RunFailed(ticket) => EndAgain(s, ticket, d);
    case RunShown(ticket) => EndAgain(s, ticket, d);
    case _ =>
  }

  lemma StepAgain(env: Env, s: Bot, e: Event, c: int)
    requires Sound(env, s) && (e == RunTap(c) ==> PendingOf(s.taps, c) == {})
    ensures AuditOf(Step(env, s, e), c).again == AuditOf(s, c).again
  {
    hide Sound, Step, ChatSound, RecordsOk;
    ShapeOf(env, s, c);
    if e == RunTap(c) {
      assert Step(env, s, e) == Tap(s, c) by { TapIsStep(env, s, c); }
    } else {
      OtherAgain(env, s, e, c);
    }
  }

  lemma TapIsStep(env: Env, s: Bot, c: int)
    ensures Step(env, s, RunTap(c)) == Tap(s, c)
  {
  }

  /** If the taps of a chat do not overlap, it never starts more runs than it reached Confirm. */
  lemma {:induction false} OneLaunchPerConfirm(env: Env, s: Bot, es: seq<Event>, c: int)
    requires Initial(s) && (forall e :: e in es ==> FromRegistry(e)) && TapsApart(env, s, es, c)
    ensures AuditOf(Exec(env, s, es), c).again == 0
    ensures AuditOf(Exec(env, s, es), c).launches <= AuditOf(Exec(env, s, es), c).confirms
  {
    hide MaskOf, FromRegistry, Step, Sound, TapsApart;
    if es != [] {
      var front := es[..|es| - 1];
      ApartPrefix(env, s, es, c);
      OneLaunchPerConfirm(env, s, front, c);
      AlwaysOk(env, s, front);
      StepAgain(env, Exec(env, s, front), es[|es| - 1], c);
    }
    LaunchesExactly(env, s, es, c);
  }
}
