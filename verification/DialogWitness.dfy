/** What the code does not prevent: histories, all of events that the bot can receive, in which a
    dialog goes where one would not expect it. */
module DialogWitness {

  import opened Wrappers
  import opened Mask
  import opened Roll
  import opened Dialog
  import opened DialogSafety

  lemma ExecAppend(env: Env, s: Bot, es: seq<Event>, e: Event)
    ensures Exec(env, s, es + [e]) == Step(env, Exec(env, s, es), e)
  {
    assert (es + [e])[..|es|] == es;
  }

  lemma NoSteps(env: Env, s: Bot)
    ensures Exec(env, s, []) == s
  {
  }

  /** The most attempts the wizard offers for an account. */
  function MostRolls(env: Env, account: string): int {
    if env.maxRolls(account) <= 0 then 25 else env.maxRolls(account)
  }

  /** The wizard by buttons in chat 1, up to the number that is read and not set yet. */
  function WizardSteps(a: string, mask: string): seq<Event> {
    [PickAccount(1, 0, a, {a}), MaskGiven(1, mask), BudgetAsk(1, "max", {a})]
  }

  lemma PicksAndMasks(env: Env, t: Bot, a: string, mask: string)
    requires MaskOf(env.read, mask).Ok?
    ensures var u := Step(env, Step(env, t, PickAccount(1, 0, a, {a})), MaskGiven(1, mask));
      && Lookup(u.chats, 1) == Lookup(t.chats, 1).(stage := ChooseBudget, account := a, mask := mask, msgId := 0)
      && AuditOf(u, 1) == AuditOf(t, 1).(picked := Some(a))
      && u == t.(chats := u.chats, audits := u.audits)
  {
    hide MaskOf;
  }

  lemma Asks(env: Env, t: Bot, a: string)
    requires Lookup(t.chats, 1).account == a
    ensures var u := Step(env, t, BudgetAsk(1, "max", {a}));
      && Lookup(u.chats, 1) == Lookup(t.chats, 1)
      && u == t.(chats := u.chats, asks := t.asks[t.next := Ask(1, a, MostRolls(env, a))], next := t.next + 1)
  {
    assert BudgetFor(env, a, "max") == Some(MostRolls(env, a));
  }

  /** The wizard, after whatever came before. */
  lemma WizardRuns(env: Env, s: Bot, es: seq<Event>, a: string, mask: string)
    requires IsKey(a) && MaskOf(env.read, mask).Ok? && forall e :: e in es ==> FromRegistry(e)
    ensures forall e :: e in es + WizardSteps(a, mask) ==> FromRegistry(e)
    ensures var t, u := Exec(env, s, es), Exec(env, s, es + WizardSteps(a, mask));
      && Lookup(u.chats, 1) == Lookup(t.chats, 1).(stage := ChooseBudget, account := a, mask := mask, msgId := 0)
      && AuditOf(u, 1) == AuditOf(t, 1).(picked := Some(a))
      && u == t.(chats := u.chats, audits := u.audits, asks := t.asks[t.next := Ask(1, a, MostRolls(env, a))], next := t.next + 1)
  {
    hide MaskOf, Exec, IsKey, Step;
    var e1, e2, e3 := PickAccount(1, 0, a, {a}), MaskGiven(1, mask), BudgetAsk(1, "max", {a});
    ExecAppend(env, s, es, e1);
    ExecAppend(env, s, es + [e1], e2);
    ExecAppend(env, s, es + [e1] + [e2], e3);
    assert es + WizardSteps(a, mask) == es + [e1] + [e2] + [e3];
    PicksAndMasks(env, Exec(env, s, es), a, mask);
    Asks(env, Exec(env, s, es + [e1] + [e2]), a);
  }

  lemma Sets(env: Env, t: Bot, ask: nat)
    requires ask in t.asks && t.asks[ask].chat == 1
    ensures var u := Step(env, t, BudgetSet(ask));
      && Lookup(u.chats, 1) == Lookup(t.chats, 1).(stage := Confirm, budget := t.asks[ask].budget)
      && AuditOf(u, 1) == AuditOf(t, 1).(confirms := AuditOf(t, 1).confirms + 1, last := Waiting)
      && u == t.(chats := u.chats, audits := u.audits, asks := u.asks)
  {
  }

  /** A tap that passes the guard. */
  lemma Taps(env: Env, s: Bot, c: int)
    requires MayLaunch(Lookup(s.chats, c))
    ensures var t, st := Step(env, s, RunTap(c)), Lookup(s.chats, c);
      && Lookup(t.chats, c) == st && AuditOf(t, c) == Tapped(AuditOf(s, c), s.next)
      && t == s.(chats := t.chats, audits := t.audits,
                 taps := s.taps[s.next := Ticket(c, st.account, st.mask, st.budget)], next := s.next + 1)
  {
  }

  lemma Goes(env: Env, s: Bot, tap: nat)
    requires tap in s.taps
    ensures var t, c := Step(env, s, RunGo(tap)), s.taps[tap].chat;
      && Lookup(t.chats, c) == Lookup(s.chats, c).(stage := Running)
      && AuditOf(t, c) == AuditOf(s, c).(launches := AuditOf(s, c).launches + 1)
      && t == s.(chats := t.chats, audits := t.audits, taps := s.taps - {tap}, tickets := s.tickets[tap := s.taps[tap]])
  {
  }

  /** The wizard taken once through, up to the confirmation. */
  lemma ConfirmReachable(env: Env, s: Bot, a: string, mask: string) returns (es: seq<Event>)
    requires Initial(s) && IsKey(a) && mask != "" && MaskOf(env.read, mask).Ok?
    ensures forall e :: e in es ==> FromRegistry(e)
    ensures var t := Exec(env, s, es);
      && Lookup(t.chats, 1) == FRESH.(stage := Confirm, account := a, mask := mask, budget := MostRolls(env, a))
      && t == s.(chats := t.chats, audits := t.audits, asks := t.asks, next := s.next + 1)
      && AuditOf(t, 1) == NO_AUDIT.(confirms := 1, last := Waiting, picked := Some(a))
  {
    hide MaskOf, Exec, IsKey, Step;
    NoSteps(env, s);
    WizardRuns(env, s, [], a, mask);
    es := [] + WizardSteps(a, mask);
    ExecAppend(env, s, es, BudgetSet(s.next));
    Sets(env, Exec(env, s, es), s.next);
    es := es + [BudgetSet(s.next)];
  }

  /** And on to the launch: for every account and every mask that parses. */
  lemma LaunchReachable(env: Env, s: Bot, a: string, mask: string) returns (es: seq<Event>)
    requires Initial(s) && IsKey(a) && mask != "" && MaskOf(env.read, mask).Ok?
    ensures forall e :: e in es ==> FromRegistry(e)
    ensures var t, job := Exec(env, s, es), Ticket(1, a, mask, MostRolls(env, a));
      && Lookup(t.chats, 1) == FRESH.(stage := Running, account := a, mask := mask, budget := job.budget)
      && s.next + 1 in t.tickets && t.tickets[s.next + 1] == job
      && t == s.(chats := t.chats, audits := t.audits, asks := t.asks, taps := t.taps, tickets := t.tickets, next := s.next + 2)
  {
    hide MaskOf, Exec, IsKey, Step;
    KeyNotEmpty(a);
    es := ConfirmReachable(env, s, a, mask);
    ExecAppend(env, s, es, RunTap(1));
    Taps(env, Exec(env, s, es), 1);
    es := es + [RunTap(1)];
    ExecAppend(env, s, es, RunGo(s.next + 1));
    Goes(env, Exec(env, s, es), s.next + 1);
    es := es + [RunGo(s.next + 1)];
  }

  /** Two taps on one confirmation, the second before the first has started its run: two runs. */
  lemma DoubleLaunchReachable(env: Env, s: Bot, a: string, mask: string) returns (es: seq<Event>)
    requires Initial(s) && IsKey(a) && mask != "" && MaskOf(env.read, mask).Ok?
    ensures forall e :: e in es ==> FromRegistry(e)
    ensures AuditOf(Exec(env, s, es), 1).launches == 2 && AuditOf(Exec(env, s, es), 1).confirms == 1
  {
    hide MaskOf, Exec, IsKey, Step;
    KeyNotEmpty(a);
    var n := s.next + 1;
    es := ConfirmReachable(env, s, a, mask);
    ExecAppend(env, s, es, RunTap(1));
    Taps(env, Exec(env, s, es), 1);
    es := es + [RunTap(1)];
    ExecAppend(env, s, es, RunTap(1));
    Taps(env, Exec(env, s, es), 1);
    es := es + [RunTap(1)];
    ExecAppend(env, s, es, RunGo(n));
    Goes(env, Exec(env, s, es), n);
    es := es + [RunGo(n)];
    ExecAppend(env, s, es, RunGo(n + 1));
    Goes(env, Exec(env, s, es), n + 1);
    es := es + [RunGo(n + 1)];
  }

  /** A stale budget button right after an account is picked: Confirm with no mask, which the
      launch button then refuses. */
  lemma ConfirmWithoutMask(env: Env, s: Bot, a: string) returns (es: seq<Event>)
    requires Initial(s) && IsKey(a)
    ensures forall e :: e in es ==> FromRegistry(e)
    ensures var st := Lookup(Exec(env, s, es).chats, 1);
      st.stage == Confirm && st.account == a && st.mask == "" && !MayLaunch(st)
  {
    hide Exec, IsKey;
    var e1, e2 := PickAccount(1, 0, a, {a}), BudgetAsk(1, "max", {a});
    NoSteps(env, s);
    ExecAppend(env, s, [], e1);
    ExecAppend(env, s, [] + [e1], e2);
    ExecAppend(env, s, [] + [e1] + [e2], BudgetSet(s.next));
    es := [] + [e1] + [e2] + [BudgetSet(s.next)];
    var t := Step(env, s, e1);
    Asks(env, t, a);
    Sets(env, Step(env, t, e2), s.next);
  }

  /** A run of the chat that fails while a number is under way: Confirm with no account. */
  lemma ConfirmWithoutAccount(env: Env, s: Bot, a: string, mask: string) returns (es: seq<Event>)
    requires Initial(s) && IsKey(a) && mask != "" && MaskOf(env.read, mask).Ok?
    ensures forall e :: e in es ==> FromRegistry(e)
    ensures var st := Lookup(Exec(env, s, es).chats, 1);
      st.stage == Confirm && st.account == "" && !MayLaunch(st)
  {
    hide MaskOf, Exec, IsKey, Step;
    var run, ask := s.next + 1, s.next + 2;
    es := LaunchReachable(env, s, a, mask);
    WizardRuns(env, s, es, a, mask);
    es := es + WizardSteps(a, mask);
    var t := Exec(env, s, es);
    ExecAppend(env, s, es, RunFailed(run));
    es := es + [RunFailed(run)];
    Fails(env, t, run);
    ExecAppend(env, s, es, BudgetSet(ask));
    Sets(env, Exec(env, s, es), ask);
    es := es + [BudgetSet(ask)];
  }

  lemma Fails(env: Env, t: Bot, run: nat)
    requires run in t.tickets && t.tickets[run].chat == 1
    ensures var u := Step(env, t, RunFailed(run));
      Lookup(u.chats, 1) == FRESH && u == t.(chats := u.chats, tickets := u.tickets)
  {
  }

  lemma Catches(env: Env, t: Bot, run: nat, ip: Addr, resourceId: string)
    requires run in t.tickets && t.tickets[run].chat == 1
    ensures var k := Catch(t.tickets[run].account, resourceId, ip, t.nextRow);
      var u := Step(env, Step(env, t, RunSaved(run, ip, resourceId, true)), RunShown(run));
      && Lookup(u.chats, 1) == Lookup(t.chats, 1).(stage := Result, account := k.account,
                                                   resultIp := Some(ip), resultRes := resourceId, resultRow := k.row)
      && AuditOf(u, 1) == AuditOf(t, 1).(caught := Some(k), picked := None)
      && u == t.(chats := u.chats, audits := u.audits, tickets := u.tickets, deliveries := u.deliveries,
                 pool := u.pool, nextRow := u.nextRow)
  {
    var v := Step(env, t, RunSaved(run, ip, resourceId, true));
    assert run in v.deliveries && v.deliveries[run] == Delivery(1, Catch(t.tickets[run].account, resourceId, ip, t.nextRow));
    assert Lookup(v.chats, 1) == Lookup(t.chats, 1) && AuditOf(v, 1) == AuditOf(t, 1);
  }

  /** A run of an account with a low limit that catches an address while a number for an account with
      a higher one is under way: the wizard then launches a run whose budget the roller cuts. */
  lemma CutBudgetReachable(env: Env, s: Bot, a: string, b: string, mask: string, ip: Addr) returns (es: seq<Event>)
    requires Initial(s) && IsKey(a) && IsKey(b) && mask != "" && MaskOf(env.read, mask).Ok?
    requires 0 < env.maxRolls(a) < MostRolls(env, b)
    ensures forall e :: e in es ==> FromRegistry(e)
    ensures var t := Exec(env, s, es);
      && s.next + 3 in t.tickets
      && t.tickets[s.next + 3] == Ticket(1, a, mask, MostRolls(env, b))
      && Clamp(t.tickets[s.next + 3].budget, env.maxRolls(a)) == env.maxRolls(a) < t.tickets[s.next + 3].budget
  {
    hide MaskOf, Exec, IsKey, Step;
    KeyNotEmpty(a);
    var run, ask, tap := s.next + 1, s.next + 2, s.next + 3;
    es := LaunchReachable(env, s, a, mask);
    WizardRuns(env, s, es, b, mask);
    es := es + WizardSteps(b, mask);
    var t := Exec(env, s, es);
    ExecAppend(env, s, es, RunSaved(run, ip, "r", true));
    ExecAppend(env, s, es + [RunSaved(run, ip, "r", true)], RunShown(run));
    es := es + [RunSaved(run, ip, "r", true)] + [RunShown(run)];
    Catches(env, t, run, ip, "r");
    ExecAppend(env, s, es, BudgetSet(ask));
    Sets(env, Exec(env, s, es), ask);
    es := es + [BudgetSet(ask)];
    ExecAppend(env, s, es, RunTap(1));
    Taps(env, Exec(env, s, es), 1);
    es := es + [RunTap(1)];
    ExecAppend(env, s, es, RunGo(tap));
    Goes(env, Exec(env, s, es), tap);
    es := es + [RunGo(tap)];
  }

  lemma PicksAndAttaches(env: Env, t: Bot, b: string, live: set<string>)
    requires b in live && Lookup(t.chats, 1).resultIp.Some?
    ensures var u := Step(env, Step(env, Step(env, t, PickAccount(1, 0, b, live)), AttachButton(1, 0)), VmGiven(1, "vm", live, true));
      && |u.calls| == |t.calls| + 1
      && u.calls[|t.calls|] == DialogCall(Lookup(t.chats, 1).(account := b), "vm", true)
      && AuditOf(u, 1).caught == AuditOf(t, 1).caught
  {
    var v := Step(env, Step(env, t, PickAccount(1, 0, b, live)), AttachButton(1, 0));
    assert Lookup(v.chats, 1) == Lookup(t.chats, 1).(stage := AttachVm, account := b, msgId := 0);
    assert v.calls == t.calls && AuditOf(v, 1).caught == AuditOf(t, 1).caught;
  }

  /** A stale account button after a result: the dialog then attaches the first account's
      resource through the second account. */
  lemma MismatchReachable(env: Env, s: Bot, a: string, b: string, mask: string, ip: Addr) returns (es: seq<Event>)
    requires Initial(s) && a != b && IsKey(a) && IsKey(b)
    requires mask != "" && MaskOf(env.read, mask).Ok?
    ensures forall e :: e in es ==> FromRegistry(e)
    ensures var t := Exec(env, s, es);
      && |t.calls| == 1
      && t.calls[0].account == b
      && AuditOf(t, 1).caught.Some?
      && AuditOf(t, 1).caught.value.account == a
      && t.calls[0].resourceId == AuditOf(t, 1).caught.value.resourceId
  {
    hide MaskOf, Exec, IsKey, Step;
    var run, live := s.next + 1, {a, b};
    es := LaunchReachable(env, s, a, mask);
    var t := Exec(env, s, es);
    ExecAppend(env, s, es, RunSaved(run, ip, "r", true));
    ExecAppend(env, s, es + [RunSaved(run, ip, "r", true)], RunShown(run));
    es := es + [RunSaved(run, ip, "r", true)] + [RunShown(run)];
    Catches(env, t, run, ip, "r");
    var u := Exec(env, s, es);
    ExecAppend(env, s, es, PickAccount(1, 0, b, live));
    ExecAppend(env, s, es + [PickAccount(1, 0, b, live)], AttachButton(1, 0));
    ExecAppend(env, s, es + [PickAccount(1, 0, b, live)] + [AttachButton(1, 0)], VmGiven(1, "vm", live, true));
    es := es + [PickAccount(1, 0, b, live)] + [AttachButton(1, 0)] + [VmGiven(1, "vm", live, true)];
    PicksAndAttaches(env, u, b, live);
  }
}
