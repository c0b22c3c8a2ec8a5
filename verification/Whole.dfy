/** The runs and the dialogs together, over one pool table: an attach, whenever it is made, is for an
    address that is still rented. */
module Whole {

  import opened Wrappers
  import opened Mask
  import opened Storage
  import F = Fleet
  import FB = FleetBilling
  import D = Dialog
  import DS = DialogSafety
  import DA = DialogAttach

  /** `doing` says which run of the fleet does the work of a ticket of the bot. */
  datatype State = State(fleet: F.Sys, bot: D.Bot, doing: map<nat, nat>)

  datatype Env = Env(setup: F.Setup, dialog: D.Env)

  /** The events of one side that do not concern the other, and those of both: a run begins for a
      ticket, its catch is saved in the pool, a row is marked, the process stops and starts again. */
  datatype Event =
    | OfFleet(f: F.Event)
    | OfBot(d: D.Event)
    | Begin(ticket: nat, budget: int)
    | Saved(ticket: nat, saved: bool)
    | Marked(call: nat)
    | Stop

  predicate OnlyFleet(e: F.Event) {
    !e.Launch? && !e.Keep? && !e.Mark? && !e.Restart?
  }

  /** Marking a row can fail without the fleet; saving a catch and marking one are events of both. */
  predicate OnlyBot(e: D.Event) {
    !e.RunSaved? && (e.RowMark? ==> !e.works)
  }

  /** A ticket is served once, by a run of its own account and mask. */
  predicate Begins(env: Env, s: State, ticket: nat, budget: int) {
    && ticket in s.bot.tickets && ticket !in s.doing
    && F.Enabled(env.setup, s.fleet, LaunchOf(s.bot.tickets[ticket], budget))
  }

  function LaunchOf(t: D.Ticket, budget: int): F.Event {
    F.Launch(t.account, t.mask, budget)
  }

  predicate Saves(env: Env, s: State, ticket: nat, saved: bool) {
    && ticket in s.bot.tickets && ticket in s.doing
    && F.Enabled(env.setup, s.fleet, F.Keep(s.doing[ticket], saved))
  }

  /** What the bot forgets when the process stops: all but the pool. The history of its calls stays. */
  function Restarted(b: D.Bot): D.Bot {
    b.(chats := map[], asks := map[], taps := map[], tickets := map[], deliveries := map[], marks := {}, audits := map[])
  }

  function SaveOf(s: State, ticket: nat, saved: bool): D.Event
    requires ticket in s.doing && F.Has(s.fleet, s.doing[ticket]) && s.fleet.runs[s.doing[ticket]].pc.Logged?
  {
    var ip := s.fleet.runs[s.doing[ticket]].pc.ip;
    D.RunSaved(ticket, ip.addr, ip.id, saved)
  }

  function Step(env: Env, s: State, e: Event): State {
    match e
    case OfFleet(f) => if OnlyFleet(f) then s.(fleet := F.Step(env.setup, s.fleet, f)) else s
    case OfBot(d) => if OnlyBot(d) then s.(bot := D.Step(env.dialog, s.bot, d)) else s
    case Begin(ticket, budget) =>
      if Begins(env, s, ticket, budget) then
        s.(fleet := F.Step(env.setup, s.fleet, LaunchOf(s.bot.tickets[ticket], budget)),
           doing := s.doing[ticket := |s.fleet.runs|])
      else s
    case Saved(ticket, saved) =>
      if Saves(env, s, ticket, saved) then
        s.(fleet := F.Step(env.setup, s.fleet, F.Keep(s.doing[ticket], saved)),
           bot := D.Step(env.dialog, s.bot, SaveOf(s, ticket, saved)))
      else s
    case Marked(k) =>
      if k in s.bot.marks && k < |s.bot.calls| then
        s.(fleet := F.Step(env.setup, s.fleet, F.Mark(s.bot.calls[k].row, s.bot.calls[k].vm)),
           bot := D.Step(env.dialog, s.bot, D.RowMark(k, true)))
      else s
    case Stop => State(F.Step(env.setup, s.fleet, F.Restart), Restarted(s.bot), map[])
  }

  function Exec(env: Env, s: State, es: seq<Event>): State {
    if es == [] then s else Step(env, Exec(env, s, es[..|es| - 1]), es[|es| - 1])
  }

  ghost predicate FromRegistry(e: Event) {
    e.OfBot? ==> DS.FromRegistry(e.d)
  }

  // ---- the invariant ----

  function CatchRes(k: D.Catch): F.Res {
    F.Res(k.account, k.resourceId)
  }

  /** The resource a call is for, under the account that holds it. */
  function CallRes(b: D.Bot, k: nat): F.Res
    requires k < |b.calls| && k < |b.origins|
  {
    F.Res(DA.OwnerOf(b.pool, b.calls[k], b.origins[k]), b.calls[k].resourceId)
  }

  /** Every catch the bot knows, and the resource of every call it made, was kept by a run. */
  ghost predicate Traced(s: State) {
    && (forall t :: t in s.bot.deliveries ==> CatchRes(s.bot.deliveries[t].caught) in FB.Kept(s.fleet))
    && (forall c :: D.AuditOf(s.bot, c).caught.Some? ==> CatchRes(D.AuditOf(s.bot, c).caught.value) in FB.Kept(s.fleet))
    && |s.bot.origins| == |s.bot.calls|
    && (forall k :: 0 <= k < |s.bot.calls| ==> CallRes(s.bot, k) in FB.Kept(s.fleet))
  }

  /** A run works for a ticket with the ticket's account and mask; and a ticket, begun or not, is
      none of the taps that are still to become one. */
  ghost predicate Served(s: State) {
    && (forall t :: t in s.bot.tickets && t in s.doing ==>
          && F.Has(s.fleet, s.doing[t])
          && s.fleet.runs[s.doing[t]].account == s.bot.tickets[t].account
          && s.fleet.runs[s.doing[t]].text == s.bot.tickets[t].mask)
    && (forall t :: t in s.bot.tickets || t in s.doing ==> t < s.bot.next && t !in s.bot.taps)
  }

  predicate OnePool(s: State) {
    s.fleet.pool == s.bot.pool && s.fleet.poolNext == s.bot.nextRow
  }

  ghost predicate Holds(env: Env, base: map<nat, PoolRow>, s: State) {
    && FB.Conserved(s.fleet)
    && DS.Sound(env.dialog, s.bot)
    && DA.CallsSound(base, s.bot)
    && OnePool(s) && Served(s) && Traced(s)
  }

  // ---- what each side leaves the other ----

  /** Runs keep their account and mask; only keeping an address or marking a row touches the pool. */
  lemma FleetLeaves(setup: F.Setup, f: F.Sys, e: F.Event)
    ensures var g := F.Step(setup, f, e);
      && (!e.Restart? ==> forall r :: 0 <= r < |f.runs| ==>
            r < |g.runs| && g.runs[r].account == f.runs[r].account && g.runs[r].text == f.runs[r].text)
      && (!e.Keep? && !e.Mark? ==> g.pool == f.pool && g.poolNext == f.poolNext)
  {
    hide F.CountRuns, F.Issued, MaskOf, Accepts;
  }

  /** Tickets come from taps, and taps are new. */
  ghost predicate TokensKept(b: D.Bot, c: D.Bot) {
    && b.next <= c.next
    && (forall t :: t in c.taps ==> t in b.taps || b.next <= t)
    && (forall t :: t in c.tickets ==>
          (t in b.tickets && c.tickets[t] == b.tickets[t]) || (t in b.taps && t !in c.taps && c.tickets[t] == b.taps[t]))
  }

  lemma TapTokens(b: D.Bot, c: int)
    ensures TokensKept(b, D.Tap(b, c))
  {
    hide D.MayLaunch, D.Tapped;
  }

  lemma GoTokens(b: D.Bot, tap: nat)
    requires tap in b.taps
    ensures TokensKept(b, D.Go(b, tap))
  {
  }

  lemma BotTokens(env: D.Env, b: D.Bot, d: D.Event)
    ensures TokensKept(b, D.Step(env, b, d))
  {
    hide D.Tap, D.Go;
    if d.RunTap? {
      TapTokens(b, d.chat);
    } else if d.RunGo? {
      if d.tap in b.taps {
        GoTokens(b, d.tap);
      }
    } else {
      DS.QuietStep(env, b, d);
      hide D.Step;
    }
  }

  lemma TapsAreOld(env: D.Env, b: D.Bot)
    requires DS.Sound(env, b)
    ensures forall t :: t in b.taps ==> t < b.next
  {
    DS.ShapeOf(env, b, 0);
  }

  lemma BotLeavesPool(env: D.Env, b: D.Bot, d: D.Event)
    requires OnlyBot(d)
    ensures D.Step(env, b, d).pool == b.pool && D.Step(env, b, d).nextRow == b.nextRow
  {
    hide D.AfterMask, D.AfterAsk, D.SetBudget, D.Tap, D.Go, D.AfterVm, D.AfterCommand, D.EndFailed, D.Save, D.Show;
    match d
    case VmGiven(c, vm, live, worked) => DS.VmOnly(b, c, vm, live, worked);
    case AttachCommand(ip, row, vm, live, worked) => DS.CommandOnly(b, ip, row, vm, live, worked);
    case RowMark(_, _) =>
    case _ =>
      DS.QuietStep(env, b, d);
      hide D.Step;
  }

  lemma MaskLeaves(env: D.Env, b: D.Bot, c: int, mask: string)
    ensures var t := D.AfterMask(env, b, c, mask); t == b.(chats := t.chats)
  {
    hide MaskOf;
  }

  lemma AskLeaves(env: D.Env, b: D.Bot, c: int, raw: string, live: set<string>)
    ensures var t := D.AfterAsk(env, b, c, raw, live); t == b.(chats := t.chats, asks := t.asks, next := t.next)
  {
    hide D.BudgetFor;
  }

  lemma EndLeaves(b: D.Bot, ticket: nat)
    ensures ticket in b.tickets ==> var t := D.EndFailed(b, ticket); t == b.(chats := t.chats, tickets := t.tickets)
    ensures ticket in b.deliveries ==>
      var t := D.Show(b, ticket); t == b.(chats := t.chats, audits := t.audits, deliveries := t.deliveries)
  {
  }

  // ---- what the bot knows of catches ----

  /** No catch becomes known to a chat but one that was on its way to it. */
  ghost predicate KnownBefore(b: D.Bot, t: D.Bot) {
    && (forall k :: k in t.deliveries ==> k in b.deliveries && t.deliveries[k] == b.deliveries[k])
    && (forall c :: D.AuditOf(t, c).caught == D.AuditOf(b, c).caught
                    || exists k :: k in b.deliveries && D.AuditOf(t, c).caught == Some(b.deliveries[k].caught))
  }

  lemma PickKnows(b: D.Bot, c: int, msgId: int, account: string, live: set<string>)
    ensures KnownBefore(b, D.AfterPick(b, c, msgId, account, live))
  {
  }

  lemma SetKnows(b: D.Bot, ask: nat)
    requires ask in b.asks
    ensures KnownBefore(b, D.SetBudget(b, ask))
  {
  }

  lemma TapKnows(b: D.Bot, c: int)
    ensures KnownBefore(b, D.Tap(b, c))
  {
    hide D.MayLaunch;
  }

  lemma GoKnows(b: D.Bot, tap: nat)
    requires tap in b.taps
    ensures KnownBefore(b, D.Go(b, tap))
  {
  }

  lemma ShowKnows(b: D.Bot, ticket: nat)
    requires ticket in b.deliveries
    ensures KnownBefore(b, D.Show(b, ticket))
  {
    var t := D.Show(b, ticket);
    forall c ensures D.AuditOf(t, c).caught == D.AuditOf(b, c).caught
                     || exists k :: k in b.deliveries && D.AuditOf(t, c).caught == Some(b.deliveries[k].caught)
    {
      if c == b.deliveries[ticket].chat {
        assert ticket in b.deliveries && D.AuditOf(t, c).caught == Some(b.deliveries[ticket].caught);
      }
    }
  }

  lemma BotKnows(env: D.Env, b: D.Bot, d: D.Event)
    requires OnlyBot(d)
    ensures KnownBefore(b, D.Step(env, b, d))
  {
    hide D.AfterMask, D.AfterAsk, D.AfterPick, D.SetBudget, D.Tap, D.Go, D.AfterVm, D.AfterCommand, D.AfterMark;
    hide D.EndFailed, D.Save, D.Show;
    match d
    case PickAccount(c, msgId, account, live) => PickKnows(b, c, msgId, account, live);
    case MaskGiven(c, mask) => MaskLeaves(env, b, c, mask);
    case BudgetAsk(c, raw, live) => AskLeaves(env, b, c, raw, live);
    case BudgetSet(ask) =>
      if ask in b.asks {
        SetKnows(b, ask);
      }
    case RunTap(c) => TapKnows(b, c);
    case RunGo(tap) =>
      if tap in b.taps {
        GoKnows(b, tap);
      }
    case VmGiven(c, vm, live, worked) => DS.VmOnly(b, c, vm, live, worked);
    case AttachCommand(ip, row, vm, live, worked) => DS.CommandOnly(b, ip, row, vm, live, worked);
    case RowMark(k, works) => DS.MarkOnly(b, k, works);
    case RunFailed(ticket) => EndLeaves(b, ticket);
    case RunShown(ticket) =>
      if ticket in b.deliveries {
        ShowKnows(b, ticket);
      }
    case _ =>
  }

  // ---- the calls ----

  /** A row of the pool is of a kept address. */
  lemma RowIsKept(s: State, row: nat)
    requires OnePool(s) && row in s.bot.pool
    ensures F.Res(s.bot.pool[row].account, s.bot.pool[row].resourceId) in FB.Kept(s.fleet)
  {
    assert FB.RowRes(s.fleet.pool[row]) in FB.Pooled(s.fleet.pool);
  }

  /** Every command call names a row. */
  predicate RowsNamed(b: D.Bot) {
    && |b.origins| == |b.calls|
    && forall k :: 0 <= k < |b.calls| && b.origins[k].ByCommand? ==> b.calls[k].row in b.pool
  }

  lemma CommandRows(base: map<nat, PoolRow>, b: D.Bot)
    requires DA.CallsSound(base, b)
    ensures RowsNamed(b)
  {
    forall k | 0 <= k < |b.calls| && b.origins[k].ByCommand? ensures b.calls[k].row in b.pool {
      assert DA.CallMatches(b.pool, b.calls[k], b.origins[k]);
    }
  }

  /** The resources of the calls stay what they are while the rows stay. */
  lemma SameResources(b: D.Bot, t: D.Bot)
    requires RowsNamed(b) && t.calls == b.calls && t.origins == b.origins && DS.KeepsRows(b.pool, t.pool)
    ensures forall k :: 0 <= k < |b.calls| ==> CallRes(t, k) == CallRes(b, k)
  {
  }

  lemma SameTraced(s: State, t: State)
    requires Traced(s) && RowsNamed(s.bot) && KnownBefore(s.bot, t.bot) && FB.Kept(s.fleet) <= FB.Kept(t.fleet)
    requires t.bot.calls == s.bot.calls && t.bot.origins == s.bot.origins && DS.KeepsRows(s.bot.pool, t.bot.pool)
    ensures Traced(t)
  {
    hide FB.Kept, CallRes, DS.KeepsRows, RowsNamed;
    SameResources(s.bot, t.bot);
  }

  lemma NewCall(b: D.Bot, call: D.AttachCall, origin: D.Origin, live: set<string>)
    requires |b.origins| == |b.calls| && call.account in live
    ensures var t := D.AfterAttach(b, call, origin, live);
      && |t.calls| == |t.origins| == |b.calls| + 1
      && CallRes(t, |b.calls|) == F.Res(DA.OwnerOf(b.pool, call, origin), call.resourceId)
      && forall k :: 0 <= k < |b.calls| ==> CallRes(t, k) == CallRes(b, k)
  {
    hide DA.OwnerOf;
  }

  /** A call that is made is for a kept address, and so are those made before. */
  lemma AttachTraced(s: State, call: D.AttachCall, origin: D.Origin, live: set<string>)
    requires Traced(s) && F.Res(DA.OwnerOf(s.bot.pool, call, origin), call.resourceId) in FB.Kept(s.fleet)
    ensures Traced(s.(bot := D.AfterAttach(s.bot, call, origin, live)))
  {
    hide FB.Kept, CallRes, D.AfterAttach, DA.OwnerOf;
    DS.AttachOnly(s.bot, call, origin, live);
    assert forall c :: D.AuditOf(D.AfterAttach(s.bot, call, origin, live), c) == D.AuditOf(s.bot, c);
    if call.account in live {
      NewCall(s.bot, call, origin, live);
    } else {
      assert D.AfterAttach(s.bot, call, origin, live) == s.bot by { NoCall(s.bot, call, origin, live); }
    }
  }

  lemma NoCall(b: D.Bot, call: D.AttachCall, origin: D.Origin, live: set<string>)
    requires call.account !in live
    ensures D.AfterAttach(b, call, origin, live) == b
  {
  }

  lemma TouchTraced(s: State, c: int)
    requires Traced(s) && RowsNamed(s.bot)
    ensures Traced(s.(bot := D.Touch(s.bot, c)))
  {
    hide FB.Kept, Traced, RowsNamed;
    SameKnown(s.bot, D.Touch(s.bot, c));
    DS.KeepsAll(s.bot.pool);
    SameTraced(s, s.(bot := D.Touch(s.bot, c)));
  }

  lemma VmTraced(env: Env, s: State, c: int, vm: string, live: set<string>, worked: bool)
    requires DS.Sound(env.dialog, s.bot) && Traced(s) && RowsNamed(s.bot)
    ensures Traced(s.(bot := D.AfterVm(s.bot, c, vm, live, worked)))
  {
    TouchTraced(s, c);
    var st, a := D.Lookup(s.bot.chats, c), D.AuditOf(s.bot, c);
    if st.resultIp.Some? {
      DS.ShapeOf(env.dialog, s.bot, c);
      assert a.caught.Some? && st.resultRes == a.caught.value.resourceId;
      assert CatchRes(a.caught.value) in FB.Kept(s.fleet);
      hide FB.Kept, D.AfterAttach, Traced, DS.Sound;
      AttachTraced(s.(bot := D.Touch(s.bot, c)), D.DialogCall(st, vm, worked), D.DialogOrigin(a), live);
    }
  }

  // ---- every step ----

  lemma FleetSide(env: Env, base: map<nat, PoolRow>, s: State, f: F.Event)
    requires Holds(env, base, s) && OnlyFleet(f)
    ensures Holds(env, base, s.(fleet := F.Step(env.setup, s.fleet, f)))
  {
    hide F.Step, FB.Conserved, FB.Kept, DS.Sound, DA.CallsSound;
    FB.StepConserves(env.setup, s.fleet, f);
    FB.StepKeeps(env.setup, s.fleet, f);
    FleetLeaves(env.setup, s.fleet, f);
  }

  lemma BotTraced(env: Env, base: map<nat, PoolRow>, s: State, d: D.Event)
    requires Holds(env, base, s) && OnlyBot(d)
    ensures Traced(s.(bot := D.Step(env.dialog, s.bot, d)))
  {
    hide FB.Conserved, FB.Kept, DS.Sound, DA.CallsSound, Traced, D.AfterVm, D.AfterAttach, RowsNamed;
    CommandRows(base, s.bot);
    var t := s.(bot := D.Step(env.dialog, s.bot, d));
    match d
    case VmGiven(c, vm, live, worked) =>
      assert t.bot == D.AfterVm(s.bot, c, vm, live, worked);
      VmTraced(env, s, c, vm, live, worked);
    case AttachCommand(ip, row, vm, live, worked) =>
      if D.Finds(s.bot.pool, ip, row) {
        var call := D.RowCall(s.bot.pool[row], row, vm, worked);
        assert t.bot == D.AfterAttach(s.bot, call, D.ByCommand, live);
        RowIsKept(s, row);
        AttachTraced(s, call, D.ByCommand, live);
      } else {
        assert t == s;
      }
    case _ =>
      hide D.Step;
      SameRest(env, s, d);
      BotKnows(env.dialog, s.bot, d);
      DS.KeepsAll(s.bot.pool);
      SameTraced(s, t);
  }

  lemma SameRest(env: Env, s: State, d: D.Event)
    requires OnlyBot(d) && !d.VmGiven? && !d.AttachCommand?
    ensures var b := D.Step(env.dialog, s.bot, d);
      b.calls == s.bot.calls && b.origins == s.bot.origins && b.pool == s.bot.pool
  {
    BotLeavesPool(env.dialog, s.bot, d);
    if d.RowMark? {
      DS.MarkOnly(s.bot, d.call, d.works);
    } else {
      DS.QuietStep(env.dialog, s.bot, d);
      hide D.Step;
    }
  }

  lemma BotSide(env: Env, base: map<nat, PoolRow>, s: State, d: D.Event)
    requires Holds(env, base, s) && OnlyBot(d) && DS.FromRegistry(d)
    ensures Holds(env, base, s.(bot := D.Step(env.dialog, s.bot, d)))
  {
    hide D.Step, FB.Conserved, FB.Kept, DS.Sound, DA.CallsSound, Traced, DS.FromRegistry;
    DS.StepOk(env.dialog, s.bot, d);
    DA.StepCallsSound(env.dialog, base, s.bot, d);
    BotLeavesPool(env.dialog, s.bot, d);
    BotTokens(env.dialog, s.bot, d);
    TapsAreOld(env.dialog, s.bot);
    BotTraced(env, base, s, d);
  }

  lemma BeginSide(env: Env, base: map<nat, PoolRow>, s: State, ticket: nat, budget: int)
    requires Holds(env, base, s) && Begins(env, s, ticket, budget)
    ensures Holds(env, base, Step(env, s, Begin(ticket, budget)))
  {
    hide FB.Conserved, FB.Kept, DS.Sound, DA.CallsSound, MaskOf, F.CountRuns, D.Step;
    var f := LaunchOf(s.bot.tickets[ticket], budget);
    FB.StepConserves(env.setup, s.fleet, f);
    FB.StepKeeps(env.setup, s.fleet, f);
    FleetLeaves(env.setup, s.fleet, f);
  }

  /** Keeping an address makes it kept, in the pool or not. */
  lemma KeepKeeps(setup: F.Setup, f: F.Sys, r: nat, saved: bool)
    requires FB.Conserved(f) && F.Enabled(setup, f, F.Keep(r, saved))
    ensures var g, run, ip := F.Step(setup, f, F.Keep(r, saved)), f.runs[r], f.runs[r].pc.ip;
      && F.ResOf(run, ip) in FB.Kept(g)
      && g.pool == (if saved then f.pool[f.poolNext := PoolRow(run.account, ip.id, ip.addr, run.text, "")] else f.pool)
      && g.poolNext == if saved then f.poolNext + 1 else f.poolNext
  {
    hide Accepts, MaskOf, F.CountRuns;
    var g := F.Step(setup, f, F.Keep(r, saved));
    if saved {
      assert FB.RowRes(g.pool[f.poolNext]) in FB.Pooled(g.pool);
    }
  }

  lemma SavedSide(env: Env, base: map<nat, PoolRow>, s: State, ticket: nat, saved: bool)
    requires Holds(env, base, s) && Saves(env, s, ticket, saved)
    ensures Holds(env, base, Step(env, s, Saved(ticket, saved)))
  {
    hide FB.Conserved, FB.Kept, DS.Sound, DA.CallsSound, F.Step, Traced, Accepts;
    var r, t := s.doing[ticket], Step(env, s, Saved(ticket, saved));
    var d := SaveOf(s, ticket, saved);
    FB.StepConserves(env.setup, s.fleet, F.Keep(r, saved));
    FB.StepKeeps(env.setup, s.fleet, F.Keep(r, saved));
    FleetLeaves(env.setup, s.fleet, F.Keep(r, saved));
    KeepKeeps(env.setup, s.fleet, r, saved);
    DS.StepOk(env.dialog, s.bot, d);
    DA.StepCallsSound(env.dialog, base, s.bot, d);
    assert t.bot == D.Save(s.bot, ticket, d.ip, d.resourceId, saved);
    BotTokens(env.dialog, s.bot, d);
    TapsAreOld(env.dialog, s.bot);
    SavedTraced(env, base, s, t, ticket, d.ip, d.resourceId, saved);
  }

  /** A saved catch is of the ticket's account, and adds at most a new row. */
  lemma SaveLeaves(b: D.Bot, ticket: nat, ip: Addr, resourceId: string, saved: bool)
    requires b.nextRow !in b.pool && ticket in b.tickets
    ensures var t, k := D.Save(b, ticket, ip, resourceId, saved), D.Catch(b.tickets[ticket].account, resourceId, ip, if saved then b.nextRow else 0);
      && t == b.(tickets := t.tickets, deliveries := b.deliveries[ticket := D.Delivery(b.tickets[ticket].chat, k)],
                 pool := t.pool, nextRow := t.nextRow)
      && DS.KeepsRows(b.pool, t.pool)
  {
  }

  lemma RowIsNew(env: D.Env, b: D.Bot)
    requires DS.Sound(env, b)
    ensures b.nextRow !in b.pool
  {
    DS.ShapeOf(env, b, 0);
  }

  lemma SavedTraced(env: Env, base: map<nat, PoolRow>, s: State, t: State, ticket: nat, ip: Addr, resourceId: string, saved: bool)
    requires Holds(env, base, s) && ticket in s.bot.tickets && t.bot == D.Save(s.bot, ticket, ip, resourceId, saved)
    requires FB.Kept(s.fleet) <= FB.Kept(t.fleet)
    requires F.Res(s.bot.tickets[ticket].account, resourceId) in FB.Kept(t.fleet)
    ensures Traced(t)
  {
    hide FB.Conserved, FB.Kept, DS.Sound, DA.CallsSound, D.Save, CallRes, RowsNamed, DS.KeepsRows;
    CommandRows(base, s.bot);
    RowIsNew(env.dialog, s.bot);
    SaveLeaves(s.bot, ticket, ip, resourceId, saved);
    SameResources(s.bot, t.bot);
    assert forall c :: D.AuditOf(t.bot, c) == D.AuditOf(s.bot, c);
  }

  lemma MarkTraced(s: State, t: State, k: nat)
    requires Traced(s) && RowsNamed(s.bot) && FB.Kept(s.fleet) <= FB.Kept(t.fleet)
    requires k in s.bot.marks && k < |s.bot.calls| && t.bot == D.AfterMark(s.bot, k, true)
    ensures Traced(t)
  {
    hide FB.Kept, Traced, RowsNamed, Attached;
    DS.MarkKeeps(s.bot.pool, s.bot.calls[k].row, s.bot.calls[k].vm);
    SameKnown(s.bot, t.bot);
    SameTraced(s, t);
  }

  lemma MarkedSide(env: Env, base: map<nat, PoolRow>, s: State, k: nat)
    requires Holds(env, base, s) && k in s.bot.marks && k < |s.bot.calls|
    ensures Holds(env, base, Step(env, s, Marked(k)))
  {
    hide FB.Conserved, FB.Kept, DS.Sound, DA.CallsSound, Traced, Attached, RowsNamed;
    var t := Step(env, s, Marked(k));
    var call := s.bot.calls[k];
    FB.StepConserves(env.setup, s.fleet, F.Mark(call.row, call.vm));
    FB.StepKeeps(env.setup, s.fleet, F.Mark(call.row, call.vm));
    DS.StepOk(env.dialog, s.bot, D.RowMark(k, true));
    DA.StepCallsSound(env.dialog, base, s.bot, D.RowMark(k, true));
    assert t.bot == D.AfterMark(s.bot, k, true);
    CommandRows(base, s.bot);
    MarkTraced(s, t, k);
  }

  lemma SameKnown(b: D.Bot, t: D.Bot)
    requires t.audits == b.audits && t.deliveries == b.deliveries
    ensures KnownBefore(b, t)
  {
  }

  lemma RestartSound(env: D.Env, b: D.Bot)
    requires DS.Sound(env, b)
    ensures DS.Sound(env, Restarted(b))
  {
    RestartRecords(env, b);
    hide DS.ChatOk, DS.RecordsOk;
    forall c ensures DS.ChatOk(env, Restarted(b), c) {
      FreshIsOk(env, Restarted(b), c);
    }
  }

  lemma RestartRecords(env: D.Env, b: D.Bot)
    requires DS.Sound(env, b)
    ensures DS.RecordsOk(env, Restarted(b))
  {
    DS.ShapeOf(env, b, 0);
    hide DS.Sound, DS.ChatOk, DS.CatchSound, DS.AskSound, DS.TicketSound;
  }

  lemma FreshIsOk(env: D.Env, b: D.Bot, c: int)
    requires b.chats == map[] && b.taps == map[] && b.audits == map[]
    ensures DS.ChatOk(env, b, c)
  {
    assert DS.PendingOf(b.taps, c) == {};
  }

  lemma RestartCalls(base: map<nat, PoolRow>, b: D.Bot)
    requires DA.CallsSound(base, b)
    ensures DA.CallsSound(base, Restarted(b))
  {
    hide DA.CallMatches;
    forall id | id in b.pool ensures DA.MarkExplained(base, Restarted(b), id) {
      assert DA.MarkExplained(base, b, id);
    }
  }

  lemma StopSide(env: Env, base: map<nat, PoolRow>, s: State)
    requires Holds(env, base, s)
    ensures Holds(env, base, Step(env, s, Event.Stop))
  {
    hide FB.Conserved, DS.Sound, DA.CallsSound;
    FB.StepConserves(env.setup, s.fleet, F.Restart);
    RestartSound(env.dialog, s.bot);
    RestartCalls(base, s.bot);
    CommandRows(base, s.bot);
    var t := Step(env, s, Event.Stop);
    forall k | 0 <= k < |t.bot.calls| ensures CallRes(t.bot, k) == CallRes(s.bot, k) {
    }
  }

  lemma StepHolds(env: Env, base: map<nat, PoolRow>, s: State, e: Event)
    requires Holds(env, base, s) && FromRegistry(e)
    ensures Holds(env, base, Step(env, s, e))
  {
    hide Holds, Begins, Saves, OnlyFleet, OnlyBot, F.Step, D.Step;
    match e
    case OfFleet(f) =>
      if OnlyFleet(f) {
        FleetSide(env, base, s, f);
      }
    case OfBot(d) =>
      if OnlyBot(d) {
        BotSide(env, base, s, d);
      }
    case Begin(ticket, budget) =>
      if Begins(env, s, ticket, budget) {
        BeginSide(env, base, s, ticket, budget);
      }
    case Saved(ticket, saved) =>
      if Saves(env, s, ticket, saved) {
        SavedSide(env, base, s, ticket, saved);
      }
    case Marked(k) =>
      if k in s.bot.marks && k < |s.bot.calls| {
        MarkedSide(env, base, s, k);
      }
    case Stop => StopSide(env, base, s);
  }

  // ---- the theorem ----

  /** The two sides as they start, on the same pool, each row of which is of a rented address. */
  ghost predicate Initial(s: State) {
    && F.Initial(s.fleet) && FB.Conserved(s.fleet) && D.Initial(s.bot) && OnePool(s) && s.doing == map[]
  }

  lemma StartHolds(env: Env, s: State)
    requires Initial(s)
    ensures Holds(env, s.bot.pool, s)
  {
    hide FB.Conserved, MaskOf;
    assert forall c :: DS.PendingOf(s.bot.taps, c) == {};
  }

  lemma {:induction false} AlwaysHolds(env: Env, s: State, es: seq<Event>)
    requires Initial(s) && forall e :: e in es ==> FromRegistry(e)
    ensures Holds(env, s.bot.pool, Exec(env, s, es))
  {
    hide Step, Holds, FromRegistry, Initial;
    if es == [] {
      StartHolds(env, s);
    } else {
      AlwaysHolds(env, s, es[..|es| - 1]);
      StepHolds(env, s.bot.pool, Exec(env, s, es[..|es| - 1]), es[|es| - 1]);
    }
  }

  /** Over every history of runs, dialogs, commands and restarts: every attach call ever made is for an
      address that some run kept and that is still rented, for which no release was ever tried; and the
      call went through the account that rents it exactly unless it came from a dialog in which
      another account was picked after the result. */
  lemma AttachesAreRented(env: Env, s: State, es: seq<Event>, k: nat)
    requires Initial(s) && forall e :: e in es ==> FromRegistry(e)
    requires k < |Exec(env, s, es).bot.calls|
    ensures var t := Exec(env, s, es);
      && |t.bot.origins| == |t.bot.calls|
      && CallRes(t.bot, k) in FB.Kept(t.fleet) && CallRes(t.bot, k) in t.fleet.live && CallRes(t.bot, k) !in t.fleet.releases
      && (t.bot.calls[k].account == CallRes(t.bot, k).account <==>
          var o := t.bot.origins[k];
          o.ByCommand? || o.picked.None? || o.picked == Some(CallRes(t.bot, k).account))
  {
    hide Exec, FB.Conserved, FB.Kept, DS.Sound;
    AlwaysHolds(env, s, es);
    var t := Exec(env, s, es);
    FB.KeptIsLive(t.fleet, CallRes(t.bot, k));
    assert DA.CallMatches(t.bot.pool, t.bot.calls[k], t.bot.origins[k]);
  }
}
