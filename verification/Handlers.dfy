/** The chat handlers over the objects they change: the dialog store, the pool table, and the
    rolling engine of a run. Each section of a handler does to them what module Dialog says of its
    event, and a handler that nothing interrupts does its sections one after the other. */
module Handlers {

  import opened Wrappers
  import opened Decimal
  import opened Text
  import opened Mask
  import opened Storage
  import opened Roll
  import opened Dialog

  /** The state of a chat, which the store hands out and changes in place. */
  class DialogState {
    var value: Chat

    constructor ()
      ensures value == FRESH
    {
      value := FRESH;
    }
  }

  /** Dialog states by chat. `shown` is what the states say, as values. */
  class FSM {
    var states: map<int, DialogState>
    ghost var shown: map<int, Chat>

    /** No two chats share a state. */
    ghost predicate Valid()
      reads this, states.Values
    {
      && states.Keys == shown.Keys
      && (forall c :: c in states ==> states[c].value == shown[c])
      && (forall c, d :: c in states && d in states && c != d ==> states[c] != states[d])
    }

    constructor ()
      ensures Valid() && states == map[] && shown == map[]
    {
      states, shown := map[], map[];
    }

    /** The state of a chat itself; an idle one is created if there is none. */
    method Get(c: int) returns (st: DialogState)
      requires Valid()
      modifies this
      ensures Valid() && fresh(states.Values - old(states.Values))
      ensures c in states && st == states[c] && st.value == Lookup(old(shown), c)
      ensures shown == old(shown)[c := st.value]
    {
      if c !in states {
        var idle := new DialogState();
        states := states[c := idle];
        shown := shown[c := FRESH];
      }
      st := states[c];
      assert shown == shown[c := st.value];
    }

    /** Changes the state of a chat in place: who holds it sees the change. */
    method Update(c: int, f: Chat -> Chat) returns (st: DialogState)
      requires Valid()
      modifies this, states.Values
      ensures Valid() && fresh(states.Values - old(states.Values))
      ensures c in states && st == states[c] && st.value == f(Lookup(old(shown), c))
      ensures c in old(states) ==> st == old(states)[c]
      ensures shown == old(shown)[c := st.value]
    {
      if c !in states {
        var idle := new DialogState();
        states := states[c := idle];
      }
      st := states[c];
      st.value := f(st.value);
      shown := shown[c := st.value];
    }

    /** Forgets the state of a chat; who holds it still reads what it was. */
    method Clear(c: int)
      requires Valid()
      modifies this
      ensures Valid() && states == old(states) - {c} && shown == old(shown) - {c}
      ensures states.Values <= old(states.Values)
    {
      states := states - {c};
      shown := shown - {c};
    }
  }

  // ---- handlers of several sections, when nothing interrupts them ----

  /** acceptBudget: the number is read and set; if the account is gone, the dialog is cleared. */
  function BudgetDone(env: Env, s: Bot, c: int, raw: string, live: set<string>): Bot {
    var t := AfterAsk(env, s, c, raw, live);
    if Lookup(s.chats, c).account !in live then Forget(t, c)
    else if BudgetFor(env, Lookup(s.chats, c).account, raw).Some? then SetBudget(t, s.next)
    else t
  }

  /** doAttach: the call, and if it worked the mark of its row. */
  function AttachDone(s: Bot, call: AttachCall, origin: Origin, live: set<string>, marks: bool): Bot {
    AfterMark(AfterAttach(s, call, origin, live), |s.calls|, marks)
  }

  /** acceptAttachVM: the attach, after which the dialog is cleared. */
  function VmDone(s: Bot, c: int, vm: string, live: set<string>, worked: bool, marks: bool): Bot {
    var st, t := Lookup(s.chats, c), AfterVm(s, c, vm, live, worked);
    if st.resultIp.None? then t else Forget(AfterMark(t, |s.calls|, marks), c)
  }

  /** onText: the step is looked up, and the text handed to it. */
  function TextDone(env: Env, s: Bot, c: int, message: string, live: set<string>, worked: bool, marks: bool): Bot {
    var text, t := TrimSpace(message), Touch(s, c);
    if message == "" || "/" <= text then s
    else match Lookup(s.chats, c).stage
      case ChooseMask => AfterMask(env, t, c, text)
      case ChooseBudget => BudgetDone(env, t, c, text, live)
      case AttachVm => VmDone(t, c, text, live, worked, marks)
      case _ => t
  }

  /** What a run leaves. If it caught an address and that can be saved, the pool has one more row, with the
      run's account and mask and the resource and address caught, and no machine; and the dialog shows that
      result, with the row, or with none if it could not be saved. Otherwise the pool is as it was and the
      dialog is gone. */
  predicate Left(t: Ticket, result: RollResult, saveFault: bool, pool: map<nat, PoolRow>, nextRow: nat,
                 pool': map<nat, PoolRow>, shown: map<int, Chat>) {
    match result
    case Caught(ip, _) =>
      && pool' == (if saveFault then pool else pool[nextRow := PoolRow(t.account, ip.id, ip.addr, t.mask, "")])
      && t.chat in shown && shown[t.chat].stage == Result && shown[t.chat].account == t.account
      && shown[t.chat].resultIp == Some(ip.addr) && shown[t.chat].resultRes == ip.id
      && shown[t.chat].resultRow == (if saveFault then 0 else nextRow)
    case _ => t.chat !in shown && pool' == pool
  }

  /** The events by which a run ends: a catch is saved and shown, and anything else is a failure. */
  ghost predicate Ended(env: Env, s: Bot, t: Bot, ticket: nat, result: RollResult, saved: bool) {
    match result
    case Caught(ip, _) => t == Step(env, Step(env, s, RunSaved(ticket, ip.addr, ip.id, saved)), RunShown(ticket))
    case _ => t == Step(env, s, RunFailed(ticket))
  }

  /** `live` is the set of keys the registry shows at the moment of a call. */
  class Handler {
    const env: Env
    const fsm: FSM
    const store: SQLite
    const engine: Engine
    var asks: map<nat, Ask>
    var taps: map<nat, Ticket>
    var tickets: map<nat, Ticket>
    var deliveries: map<nat, Delivery>
    var next: nat
    var calls: seq<AttachCall>
    var marks: set<nat>
    ghost var origins: seq<Origin>
    ghost var audits: map<int, Audit>

    constructor (env: Env, engine: Engine)
      requires engine.Valid()
      ensures Valid() && this.env == env && this.engine == engine && fresh(fsm)
      ensures View() == Bot(map[], map[], map[], map[], map[], 0, store.pool, store.poolNext, [], [], {}, map[])
    {
      this.env, this.engine, this.store := env, engine, engine.store;
      fsm := new FSM();
      asks, taps, tickets, deliveries, next := map[], map[], map[], map[], 0;
      calls, marks, origins, audits := [], {}, [], map[];
    }

    ghost predicate Valid()
      reads this, fsm, fsm.states.Values, engine
    {
      fsm.Valid() && engine.Valid() && engine.store == store && forall k :: k in marks ==> k < |calls|
    }

    ghost function View(): Bot
      reads this, fsm, store
    {
      Bot(fsm.shown, asks, taps, tickets, deliveries, next, store.pool, store.poolNext, calls, origins, marks, audits)
    }

    method SendRollStart(c: int, msgId: int, live: set<string>)
      requires Valid()
      modifies fsm, fsm.states.Values
      ensures Valid() && fresh(fsm.states.Values - old(fsm.states.Values))
      ensures View() == AfterStart(old(View()), c, msgId, live)
    {
      if |live| == 0 {
        return;
      }
      var st := fsm.Update(c, _ => FRESH.(stage := ChooseAccount, msgId := msgId));
    }

    method CbProvider(c: int, msgId: int, key: string, live: set<string>)
      requires Valid()
      modifies fsm, fsm.states.Values, this`audits
      ensures Valid() && fresh(fsm.states.Values - old(fsm.states.Values))
      ensures View() == AfterPick(old(View()), c, msgId, key, live)
    {
      hide FSM.Valid, Engine.Valid, AuditIn, Lookup;
      if key !in live {
        return;
      }
      var st := fsm.Update(c, (s: Chat) => s.(stage := ChooseMask, account := key, msgId := msgId));
      audits := audits[c := AuditIn(audits, c).(picked := Some(key))];
    }

    method AcceptMask(c: int, mask: string)
      requires Valid()
      modifies fsm, fsm.states.Values
      ensures Valid() && fresh(fsm.states.Values - old(fsm.states.Values))
      ensures View() == AfterMask(env, old(View()), c, mask)
    {
      hide MaskOf, FSM.Valid, Engine.Valid, Lookup;
      var m := ParseMask(env.read, mask);
      if m.Err? {
        return;
      }
      var st := fsm.Update(c, (s: Chat) => s.(stage := ChooseBudget, mask := mask));
    }

    /** The number a text asks for, given the limit of an account. */
    method ReadBudget(limit: int, raw: string) returns (asked: Option<int>)
      ensures forall account :: env.maxRolls(account) == limit ==> BudgetFor(env, account, raw) == asked
    {
      var budget;
      if raw == "max" || raw == "макс" {
        budget := limit;
        if budget <= 0 {
          budget := 25;
        }
      } else {
        var n := Atoi(raw);
        if n.None? || n.value <= 0 {
          return None;
        }
        budget := n.value;
      }
      if limit > 0 && budget > limit {
        budget := limit;
      }
      return Some(budget);
    }

    /** The first section: the account of the dialog, and the number for it. */
    method AskBudget(c: int, raw: string, live: set<string>) returns (gone: bool, ask: Option<nat>)
      requires Valid()
      modifies fsm, this`asks, this`next
      ensures Valid() && fresh(fsm.states.Values - old(fsm.states.Values))
      ensures View() == AfterAsk(env, old(View()), c, raw, live)
      ensures gone == (Lookup(old(View()).chats, c).account !in live)
      ensures ask == if !gone && BudgetFor(env, Lookup(old(View()).chats, c).account, raw).Some? then Some(old(next)) else None
    {
      hide FSM.Valid, Engine.Valid, BudgetFor, Lookup;
      var st := fsm.Get(c);
      if st.value.account !in live {
        return true, None;
      }
      var asked := ReadBudget(env.maxRolls(st.value.account), raw);
      if asked.None? {
        return false, None;
      }
      asks := asks[next := Ask(c, st.value.account, asked.value)];
      next := next + 1;
      return false, Some(next - 1);
    }

    /** The second section: the number is set. */
    method ConfirmBudget(ask: nat)
      requires Valid() && ask in asks
      modifies fsm, fsm.states.Values, this`asks, this`audits
      ensures Valid() && fresh(fsm.states.Values - old(fsm.states.Values))
      ensures View() == SetBudget(old(View()), ask)
    {
      hide FSM.Valid, Engine.Valid, AuditIn, Lookup;
      var c, n := asks[ask].chat, asks[ask].budget;
      asks := asks - {ask};
      var st := fsm.Update(c, (s: Chat) => s.(stage := Confirm, budget := n));
      audits := audits[c := AuditIn(audits, c).(confirms := AuditIn(audits, c).confirms + 1, last := Waiting)];
    }

    method AcceptBudget(c: int, raw: string, live: set<string>)
      requires Valid()
      modifies fsm, fsm.states.Values, this
      ensures Valid() && fresh(fsm.states.Values - old(fsm.states.Values))
      ensures View() == BudgetDone(env, old(View()), c, raw, live)
    {
      hide FSM.Valid, Engine.Valid, BudgetFor, SetBudget, Lookup;
      var gone, ask := AskBudget(c, raw, live);
      if gone {
        fsm.Clear(c);
      } else if ask.Some? {
        ConfirmBudget(ask.value);
      }
    }

    /** The launch button up to its guard, with the values the run will have. */
    method CbRunGuard(c: int) returns (tap: Option<nat>)
      requires Valid()
      modifies fsm, this`taps, this`next, this`audits
      ensures Valid() && fresh(fsm.states.Values - old(fsm.states.Values))
      ensures View() == Tap(old(View()), c)
      ensures tap == if MayLaunch(Lookup(old(View()).chats, c)) then Some(old(next)) else None
    {
      hide FSM.Valid, Engine.Valid, AuditIn, Tapped, Lookup;
      var st := fsm.Get(c);
      if st.value.stage != Confirm || st.value.account == "" || st.value.mask == "" || st.value.budget <= 0 {
        return None;
      }
      audits := audits[c := Tapped(AuditIn(audits, c), next)];
      taps := taps[next := Ticket(c, st.value.account, st.value.mask, st.value.budget)];
      tap := Some(next);
      next := next + 1;
    }

    /** The rest of it: the dialog moves on and the run starts. */
    method CbRunStart(tap: nat)
      requires Valid() && tap in taps
      modifies fsm, fsm.states.Values, this`taps, this`tickets, this`audits
      ensures Valid() && fresh(fsm.states.Values - old(fsm.states.Values))
      ensures View() == Go(old(View()), tap)
    {
      hide FSM.Valid, Engine.Valid, AuditIn, Lookup;
      var t := taps[tap];
      taps := taps - {tap};
      var st := fsm.Update(t.chat, (s: Chat) => s.(stage := Running));
      audits := audits[t.chat := AuditIn(audits, t.chat).(launches := AuditIn(audits, t.chat).launches + 1)];
      tickets := tickets[tap := t];
    }

    method CbRun(c: int)
      requires Valid()
      modifies fsm, fsm.states.Values, this
      ensures Valid() && fresh(fsm.states.Values - old(fsm.states.Values))
      ensures var tapped := Tap(old(View()), c);
        View() == if MayLaunch(Lookup(old(View()).chats, c)) then Go(tapped, old(next)) else tapped
    {
      hide FSM.Valid, Engine.Valid, Go, Lookup, MayLaunch;
      var tap := CbRunGuard(c);
      if tap.Some? {
        CbRunStart(tap.value);
      }
    }

    method CbCancel(c: int)
      requires Valid()
      modifies fsm
      ensures Valid() && fsm.states.Values <= old(fsm.states.Values)
      ensures View() == Forget(old(View()), c)
    {
      fsm.Clear(c);
    }

    method CbKeepInPool(c: int)
      requires Valid()
      modifies fsm
      ensures Valid() && fresh(fsm.states.Values - old(fsm.states.Values))
      ensures View() == Forget(Touch(old(View()), c), c)
    {
      var st := fsm.Get(c);
      fsm.Clear(c);
    }

    method CbAttach(c: int, msgId: int)
      requires Valid()
      modifies fsm, fsm.states.Values
      ensures Valid() && fresh(fsm.states.Values - old(fsm.states.Values))
      ensures View() == AfterAttachButton(old(View()), c, msgId)
    {
      var st := fsm.Update(c, (s: Chat) => s.(stage := AttachVm, msgId := msgId));
    }

    /** `call.worked` is the provider's answer, `works` whether the row can be written. */
    method DoAttach(call: AttachCall, ghost origin: Origin, live: set<string>, works: bool)
      requires Valid()
      modifies this`calls, this`origins, this`marks, store`pool
      ensures Valid() && View() == AttachDone(old(View()), call, origin, live, works)
      ensures calls == if call.account in live then old(calls) + [call] else old(calls)
      ensures store.pool ==
        if call.account in live && call.worked && call.row != 0 && call.row in old(store.pool) && works
        then old(store.pool)[call.row := old(store.pool)[call.row].(vm := call.vm)] else old(store.pool)
    {
      if call.account !in live {
        return;
      }
      var k := |calls|;
      calls := calls + [call];
      origins := origins + [origin];
      if !call.worked || call.row == 0 {
        return;
      }
      marks := marks + {k};
      MarkRow(k, works);
    }

    method MarkRow(k: nat, works: bool)
      requires Valid() && k in marks && k < |calls|
      modifies this`marks, store`pool
      ensures Valid() && View() == AfterMark(old(View()), k, works)
    {
      var ok := store.MarkAttached(calls[k].row, calls[k].vm, !works);
      marks := marks - {k};
    }

    method AcceptAttachVM(c: int, vm: string, live: set<string>, worked: bool, works: bool)
      requires Valid()
      modifies fsm, this`calls, this`origins, this`marks, store`pool
      ensures Valid() && fresh(fsm.states.Values - old(fsm.states.Values))
      ensures View() == VmDone(old(View()), c, vm, live, worked, works)
    {
      hide FSM.Valid, Engine.Valid, Lookup, AfterMark, AfterAttach;
      var st := fsm.Get(c);
      if st.value.resultIp.None? {
        return;
      }
      var v := st.value;
      ghost var origin := DialogOrigin(AuditIn(audits, c));
      DoAttach(AttachCall(v.account, v.resultRes, v.resultIp.value, vm, v.resultRow, worked), origin, live, works);
      fsm.Clear(c);
    }

    method OnText(c: int, message: string, live: set<string>, worked: bool, works: bool)
      requires Valid()
      modifies fsm, fsm.states.Values, this, store`pool
      ensures Valid() && fresh(fsm.states.Values - old(fsm.states.Values))
      ensures View() == TextDone(env, old(View()), c, message, live, worked, works)
    {
      hide FSM.Valid, Engine.Valid, TrimSpace, AfterMask, BudgetDone, VmDone, Lookup;
      if message == "" {
        return;
      }
      var text := TrimSpace(message);
      if "/" <= text {
        return;
      }
      var st := fsm.Get(c);
      match st.value.stage
      case ChooseMask => AcceptMask(c, text);
      case ChooseBudget => AcceptBudget(c, text, live);
      case AttachVm => AcceptAttachVM(c, text, live, worked, works);
      case _ =>
    }

    /** The command names an address; `row` is the row it finds. */
    method CmdAttach(ip: Addr, vm: string, live: set<string>, worked: bool, works: bool, fault: bool) returns (ghost row: nat)
      requires Valid()
      modifies this`calls, this`origins, this`marks, store`pool
      ensures Valid()
      ensures !fault && (exists id :: Finds(old(store.pool), ip, id)) ==> Finds(old(store.pool), ip, row)
      ensures !fault && Finds(old(store.pool), ip, row) ==>
        var p := old(store.pool)[row];
        && calls == (if p.account in live then old(calls) + [AttachCall(p.account, p.resourceId, p.ip, vm, row, worked)]
                     else old(calls))
        && store.pool == if p.account in live && worked && works && row != 0 then old(store.pool)[row := p.(vm := vm)]
                         else old(store.pool)
      ensures fault || !Finds(old(store.pool), ip, row) ==> calls == old(calls) && store.pool == old(store.pool)
      ensures View() == if fault then old(View())
                        else AfterMark(AfterCommand(old(View()), ip, row, vm, live, worked), |old(calls)|, works)
    {
      hide AfterAttach;
      var found := store.GetPoolIPByIP(ip, fault);
      row := 0;
      if found.Err? {
        return;
      }
      row := found.value;
      var p := store.pool[found.value];
      DoAttach(AttachCall(p.account, p.resourceId, p.ip, vm, found.value, worked), ByCommand, live, works);
    }

    /** A background run. `known` says whether the registry still has the account, `p` is that
        account, and `attempts` is everything the engine takes from outside. The chat ends as the
        event for the engine's result says, and the engine's counter, log and provider as the
        specification of the loop says. */
    method RunRoll(ticket: nat, p: Provider, known: bool, attempts: nat -> Attempt, saveFault: bool)
      requires Valid() && ticket in tickets && p.name == tickets[ticket].account
      modifies fsm, fsm.states.Values, this, engine, engine.daily, store, p
      ensures Valid() && fresh(fsm.states.Values - old(fsm.states.Values))
      ensures var t := old(tickets)[ticket];
        var m := MaskOf(env.read, t.mask);
        if known && m.Ok? then
          var ran := Run(Job(t.account, p.dailyCap, m.value, Clamp(t.budget, p.maxRollsPerRun)), old(engine.View(p)), 1, attempts);
          engine.View(p) == ran.0 && Ended(env, old(View()), View(), ticket, ran.1, !saveFault)
        else
          engine.View(p) == old(engine.View(p)) && View() == Step(env, old(View()), RunFailed(ticket))
    {
      hide FSM.Valid, MaskOf, Run, Ended, Step;
      var t := tickets[ticket];
      if !known {
        RunFails(ticket);
        return;
      }
      var m := ParseMask(env.read, t.mask);
      if m.Err? {
        RunFails(ticket);
        return;
      }
      var result := engine.Roll(p, m.value, t.budget, attempts);
      RunEnds(ticket, result, saveFault);
    }

    method RunEnds(ticket: nat, result: RollResult, saveFault: bool)
      requires Valid() && ticket in tickets
      modifies fsm, fsm.states.Values, this`tickets, this`deliveries, this`audits, store`pool, store`poolNext
      ensures Valid() && fresh(fsm.states.Values - old(fsm.states.Values))
      ensures Ended(env, old(View()), View(), ticket, result, !saveFault)
    {
      hide FSM.Valid, Engine.Valid, Save, Show, EndFailed, Step;
      RunEvents(env, View(), ticket, result, !saveFault);
      if !result.Caught? {
        RunFails(ticket);
        return;
      }
      SaveCatch(ticket, result.ip, saveFault);
      ShowCatch(ticket);
    }

    method RunFails(ticket: nat)
      requires Valid() && ticket in tickets
      modifies fsm, this`tickets
      ensures Valid() && fsm.states.Values <= old(fsm.states.Values) && old(tickets)[ticket].chat !in fsm.shown
      ensures View() == Step(env, old(View()), RunFailed(ticket))
    {
      hide FSM.Valid, Engine.Valid, Step;
      RunEvents(env, View(), ticket, BudgetExhausted, false);
      fsm.Clear(tickets[ticket].chat);
      tickets := tickets - {ticket};
    }

    method SaveCatch(ticket: nat, ip: AllocatedIP, saveFault: bool)
      requires Valid() && ticket in tickets
      modifies this`tickets, this`deliveries, store`pool, store`poolNext
      ensures Valid() && ticket in deliveries
      ensures var t, row := old(tickets)[ticket], if saveFault then 0 else old(store.poolNext);
        && deliveries[ticket] == Delivery(t.chat, Catch(t.account, ip.id, ip.addr, row))
        && store.pool == (if saveFault then old(store.pool) else old(store.pool)[row := PoolRow(t.account, ip.id, ip.addr, t.mask, "")])
      ensures View() == Save(old(View()), ticket, ip.addr, ip.id, !saveFault)
    {
      var t := tickets[ticket];
      tickets := tickets - {ticket};
      var saved := store.AddPoolIP(PoolRow(t.account, ip.id, ip.addr, t.mask, ""), saveFault);
      var id := if saved.Ok? then saved.value else 0;
      deliveries := deliveries[ticket := Delivery(t.chat, Catch(t.account, ip.id, ip.addr, id))];
    }

    method ShowCatch(ticket: nat)
      requires Valid() && ticket in deliveries
      modifies fsm, fsm.states.Values, this`deliveries, this`audits
      ensures Valid() && fresh(fsm.states.Values - old(fsm.states.Values))
      ensures var c, k := old(deliveries)[ticket].chat, old(deliveries)[ticket].caught;
        && c in fsm.shown && fsm.shown[c].stage == Result && fsm.shown[c].account == k.account
        && fsm.shown[c].resultIp == Some(k.ip) && fsm.shown[c].resultRes == k.resourceId && fsm.shown[c].resultRow == k.row
      ensures View() == Show(old(View()), ticket)
    {
      hide FSM.Valid, Engine.Valid, AuditIn, Lookup;
      var c, k := deliveries[ticket].chat, deliveries[ticket].caught;
      deliveries := deliveries - {ticket};
      var st := fsm.Update(c, (s: Chat) =>
        s.(stage := Result, account := k.account, resultIp := Some(k.ip), resultRes := k.resourceId, resultRow := k.row));
      audits := audits[c := AuditIn(audits, c).(caught := Some(k), picked := None)];
    }
  }

  /** The two ways a run ends, as events. */
  lemma RunEvents(env: Env, s: Bot, ticket: nat, result: RollResult, saved: bool)
    requires ticket in s.tickets
    ensures Step(env, s, RunFailed(ticket)) == EndFailed(s, ticket)
    ensures result.Caught? ==>
      var u := Save(s, ticket, result.ip.addr, result.ip.id, saved);
      && ticket in u.deliveries
      && Step(env, s, RunSaved(ticket, result.ip.addr, result.ip.id, saved)) == u
      && Step(env, u, RunShown(ticket)) == Show(u, ticket)
  {
    hide MaskOf, AfterAsk, AfterVm, AfterCommand, AfterMark, Tap, Go, SetBudget;
  }

  /** So a run whose catch is saved leaves its row in the pool and its result in the dialog. */
  lemma EndedLeaves(env: Env, s: Bot, t: Bot, ticket: nat, result: RollResult, saved: bool)
    requires ticket in s.tickets && Ended(env, s, t, ticket, result, saved)
    ensures Left(s.tickets[ticket], result, !saved, s.pool, s.nextRow, t.pool, t.chats)
  {
    RunEvents(env, s, ticket, result, saved);
    hide Step;
  }
}
