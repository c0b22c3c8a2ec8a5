/** Every attach call of a whole history, from the command and from the dialogs, and every mark of a
    pool row. */
module DialogAttach {

  import opened Wrappers
  import opened Mask
  import opened Storage
  import opened Dialog
  import opened DialogSafety

  /** Attach from the dialog: the call always carries the resource, address and row of one catch,
      the last one given to this chat, and the row still holds that catch. Its account is
      that catch's account exactly when no other account was picked since. */
  lemma DialogAttachCoherent(env: Env, s: Bot, es: seq<Event>, c: int, vm: string, worked: bool)
    requires Initial(s) && forall e :: e in es ==> FromRegistry(e)
    requires Lookup(Exec(env, s, es).chats, c).resultIp.Some?
    ensures var t := Exec(env, s, es);
      var call, a := DialogCall(Lookup(t.chats, c), vm, worked), AuditOf(t, c);
      && a.caught.Some?
      && call.resourceId == a.caught.value.resourceId && call.ip == a.caught.value.ip && call.row == a.caught.value.row
      && CatchSound(t.pool, a.caught.value)
      && (call.account == a.caught.value.account <==> a.picked.None? || a.picked == Some(a.caught.value.account))
  {
    hide Exec, MaskOf, IsKey;
    AlwaysOk(env, s, es);
    ShapeOf(env, Exec(env, s, es), c);
  }

  /** The account that holds the resource of a call: the one of the row a command found, or the one
      of the result of a dialog. */
  function OwnerOf(pool: map<nat, PoolRow>, call: AttachCall, origin: Origin): string {
    if origin.ByDialog? then origin.owner else if call.row in pool then pool[call.row].account else ""
  }

  /** A call that is to mark a row carries the resource and the address of that row, and the row is
      of the account that holds the resource; and a call goes through that account exactly unless it
      comes from a dialog in which another account was picked after the result. */
  predicate CallMatches(pool: map<nat, PoolRow>, call: AttachCall, origin: Origin) {
    var owner := OwnerOf(pool, call, origin);
    && (origin.ByCommand? ==> call.row != 0)
    && (call.row != 0 ==>
          && call.row in pool && pool[call.row].account == owner
          && pool[call.row].resourceId == call.resourceId && pool[call.row].ip == call.ip)
    && (call.account == owner <==> origin.ByCommand? || origin.picked.None? || origin.picked == Some(owner))
  }

  /** The machine written in a row was there from the start (`base`), or there is a call for that
      row and that machine that worked. */
  ghost predicate MarkExplained(base: map<nat, PoolRow>, s: Bot, id: nat)
    requires id in s.pool
  {
    || s.pool[id].vm == (if id in base then base[id].vm else "")
    || exists k :: 0 <= k < |s.calls| && s.calls[k].row == id && s.calls[k].vm == s.pool[id].vm && s.calls[k].worked
  }

  ghost predicate CallsSound(base: map<nat, PoolRow>, s: Bot) {
    && base.Keys <= s.pool.Keys && |s.origins| == |s.calls|
    && (forall k :: 0 <= k < |s.calls| ==> CallMatches(s.pool, s.calls[k], s.origins[k]))
    && (forall k :: k in s.marks ==> k < |s.calls| && s.calls[k].row != 0 && s.calls[k].worked)
    && (forall id :: id in s.pool ==> MarkExplained(base, s, id))
  }

  lemma AttachIsSound(base: map<nat, PoolRow>, s: Bot, call: AttachCall, origin: Origin, live: set<string>)
    requires CallsSound(base, s) && CallMatches(s.pool, call, origin)
    ensures CallsSound(base, AfterAttach(s, call, origin, live))
  {
    hide CallMatches;
    var t := AfterAttach(s, call, origin, live);
    if call.account in live {
      assert t.calls[|s.calls|] == call && t.origins[|s.calls|] == origin;
      forall id | id in t.pool ensures MarkExplained(base, t, id) {
        assert MarkExplained(base, s, id);
        assert forall k :: 0 <= k < |s.calls| ==> t.calls[k] == s.calls[k];
      }
    }
  }

  lemma StillMatches(pool: map<nat, PoolRow>, pool': map<nat, PoolRow>, call: AttachCall, origin: Origin)
    requires CallMatches(pool, call, origin) && KeepsRows(pool, pool')
    ensures CallMatches(pool', call, origin)
  {
  }

  lemma FewerMarks(base: map<nat, PoolRow>, s: Bot, t: Bot)
    requires CallsSound(base, s) && t == s.(marks := t.marks) && t.marks <= s.marks
    ensures CallsSound(base, t)
  {
    hide CallMatches;
    forall id | id in t.pool ensures MarkExplained(base, t, id) {
      assert MarkExplained(base, s, id);
    }
  }

  lemma MarkIsSound(base: map<nat, PoolRow>, s: Bot, k: nat, works: bool)
    requires CallsSound(base, s)
    ensures CallsSound(base, AfterMark(s, k, works))
  {
    hide CallMatches, KeepsRows;
    if k in s.marks && works {
      var t, call := AfterMark(s, k, works), s.calls[k];
      MarkKeeps(s.pool, call.row, call.vm);
      forall j | 0 <= j < |t.calls| ensures CallMatches(t.pool, t.calls[j], t.origins[j]) {
        StillMatches(s.pool, t.pool, s.calls[j], s.origins[j]);
      }
      forall id | id in t.pool ensures MarkExplained(base, t, id) {
        assert MarkExplained(base, s, id);
      }
    } else {
      FewerMarks(base, s, AfterMark(s, k, works));
    }
  }

  /** Saving a catch takes a new row, which no call has named yet. */
  lemma SaveIsSound(base: map<nat, PoolRow>, s: Bot, t: Bot, row: PoolRow)
    requires CallsSound(base, s) && s.nextRow !in s.pool && row.vm == ""
    requires t.pool == s.pool[s.nextRow := row] && t.calls == s.calls && t.origins == s.origins && t.marks == s.marks
    ensures CallsSound(base, t)
  {
    hide CallMatches;
    forall k | 0 <= k < |t.calls| ensures CallMatches(t.pool, t.calls[k], t.origins[k]) {
      StillMatches(s.pool, t.pool, s.calls[k], s.origins[k]);
    }
    forall id | id in t.pool ensures MarkExplained(base, t, id) {
      assert id in s.pool ==> MarkExplained(base, s, id);
    }
  }

  lemma SameIsSound(base: map<nat, PoolRow>, s: Bot, t: Bot)
    requires CallsSound(base, s) && SameCalls(s, t)
    ensures CallsSound(base, t)
  {
    hide CallMatches;
    forall id | id in t.pool ensures MarkExplained(base, t, id) {
      assert MarkExplained(base, s, id);
    }
  }

  /** The call a dialog makes for its result. */
  lemma DialogCallMatches(env: Env, s: Bot, c: int, vm: string, worked: bool)
    requires Sound(env, s) && Lookup(s.chats, c).resultIp.Some?
    ensures CallMatches(s.pool, DialogCall(Lookup(s.chats, c), vm, worked), DialogOrigin(AuditOf(s, c)))
  {
    ShapeOf(env, s, c);
    hide Sound, ChatSound, PendingOf;
  }

  lemma RowCallMatches(env: Env, s: Bot, row: nat, vm: string, worked: bool)
    requires Sound(env, s) && row in s.pool
    ensures CallMatches(s.pool, RowCall(s.pool[row], row, vm, worked), ByCommand)
  {
    ShapeOf(env, s, 0);
    hide Sound, ChatOk;
  }

  lemma VmIsSound(env: Env, base: map<nat, PoolRow>, s: Bot, c: int, vm: string, live: set<string>, worked: bool)
    requires Sound(env, s) && CallsSound(base, s)
    ensures CallsSound(base, AfterVm(s, c, vm, live, worked))
  {
    hide CallsSound, AfterAttach, Sound, CallMatches;
    var st := Lookup(s.chats, c);
    SameIsSound(base, s, Touch(s, c));
    if st.resultIp.Some? {
      DialogCallMatches(env, s, c, vm, worked);
      AttachIsSound(base, Touch(s, c), DialogCall(st, vm, worked), DialogOrigin(AuditOf(s, c)), live);
    }
  }

  lemma CatchIsSound(env: Env, base: map<nat, PoolRow>, s: Bot, ticket: nat, ip: Addr, resourceId: string, saved: bool)
    requires Sound(env, s) && CallsSound(base, s) && ticket in s.tickets
    ensures CallsSound(base, Save(s, ticket, ip, resourceId, saved))
  {
    hide CallsSound, CallMatches, ChatOk;
    ShapeOf(env, s, 0);
    var t := Save(s, ticket, ip, resourceId, saved);
    if saved {
      SaveIsSound(base, s, t, t.pool[s.nextRow]);
    } else {
      SameIsSound(base, s, t);
    }
  }

  lemma StepCallsSound(env: Env, base: map<nat, PoolRow>, s: Bot, e: Event)
    requires Sound(env, s) && CallsSound(base, s)
    ensures CallsSound(base, Step(env, s, e))
  {
    hide CallsSound, CallMatches, Sound, AfterMask, AfterAsk, SetBudget, Tap, Go, AfterAttach, AfterVm, AfterMark, EndFailed, Save, Show;
    var t := Step(env, s, e);
    match e
    case VmGiven(c, vm, live, worked) => VmIsSound(env, base, s, c, vm, live, worked);
    case AttachCommand(ip, row, vm, live, worked) =>
      if Finds(s.pool, ip, row) {
        RowCallMatches(env, s, row, vm, worked);
        AttachIsSound(base, s, RowCall(s.pool[row], row, vm, worked), ByCommand, live);
      }
    case RowMark(k, works) => MarkIsSound(base, s, k, works);
    case RunSaved(ticket, ip, resourceId, saved) =>
      if ticket in s.tickets {
        CatchIsSound(env, base, s, ticket, ip, resourceId, saved);
      }
    case _ =>
      QuietStep(env, s, e);
      SameIsSound(base, s, t);
  }

  /** Over every history: whatever was called for a row, by command or from any dialog, carried that
      row's resource and address; every call went through the account that holds the resource
      exactly unless it came from a dialog in which another account was picked after the result;
      and no row is marked with a machine without a call for that row and that machine that worked. */
  lemma {:induction false} EveryAttachIsCoherent(env: Env, s: Bot, es: seq<Event>)
    requires Initial(s) && forall e :: e in es ==> FromRegistry(e)
    ensures CallsSound(s.pool, Exec(env, s, es))
  {
    hide MaskOf, FromRegistry, Step, Sound;
    if es != [] {
      AlwaysOk(env, s, es[..|es| - 1]);
      EveryAttachIsCoherent(env, s, es[..|es| - 1]);
      StepCallsSound(env, s.pool, Exec(env, s, es[..|es| - 1]), es[|es| - 1]);
    }
  }

  // ---- every call that works marks its row ----

  /** A mark that is due and can be written writes the machine of its call into the row of that call, and
      nothing else; one that cannot be written changes no row. Either way it is no longer due. */
  lemma MarkWrites(env: Env, base: map<nat, PoolRow>, s: Bot, k: nat, works: bool)
    requires CallsSound(base, s) && k in s.marks
    ensures k < |s.calls| && s.calls[k].row in s.pool
    ensures var t, row := Step(env, s, RowMark(k, works)), s.calls[k].row;
      && t.pool == (if works then s.pool[row := s.pool[row].(vm := s.calls[k].vm)] else s.pool)
      && t.marks == s.marks - {k}
  {
    assert CallMatches(s.pool, s.calls[k], s.origins[k]);
  }

  /** Calls stay on record, and a mark that is due stays due until it is tried. */
  lemma CallsStay(env: Env, s: Bot, e: Event)
    ensures s.calls <= Step(env, s, e).calls
    ensures forall k :: k in s.marks && e != RowMark(k, true) && e != RowMark(k, false) ==> k in Step(env, s, e).marks
  {
    hide AfterMask, AfterAsk, SetBudget, Tap, Go, AfterVm, AfterCommand, EndFailed, Show;
    match e
    case VmGiven(c, vm, live, worked) => VmCalls(s, c, vm, live, worked);
    case AttachCommand(ip, row, vm, live, worked) => CommandCalls(s, ip, row, vm, live, worked);
    case RowMark(_, _) =>
    case RunSaved(_, _, _, _) =>
    case _ =>
      QuietStep(env, s, e);
      hide Step;
  }

  /** What an attach adds to the record: nothing, or one call, whose mark is due if it worked and has a
      row. */
  ghost predicate OneCall(s: Bot, t: Bot) {
    || (t.calls == s.calls && t.marks == s.marks)
    || (|t.calls| == |s.calls| + 1 && s.calls <= t.calls
        && var call := t.calls[|s.calls|];
           t.marks == s.marks + if call.worked && call.row != 0 then {|s.calls|} else {})
  }

  lemma AttachCalls(s: Bot, call: AttachCall, origin: Origin, live: set<string>)
    ensures OneCall(s, AfterAttach(s, call, origin, live))
  {
  }

  lemma VmCalls(s: Bot, c: int, vm: string, live: set<string>, worked: bool)
    ensures OneCall(s, AfterVm(s, c, vm, live, worked))
  {
    hide AfterAttach;
    var st := Lookup(s.chats, c);
    if st.resultIp.Some? {
      AttachCalls(Touch(s, c), DialogCall(st, vm, worked), DialogOrigin(AuditOf(s, c)), live);
    }
  }

  lemma CommandCalls(s: Bot, ip: Addr, row: nat, vm: string, live: set<string>, worked: bool)
    ensures OneCall(s, AfterCommand(s, ip, row, vm, live, worked))
  {
    hide AfterAttach;
    if Finds(s.pool, ip, row) {
      AttachCalls(s, RowCall(s.pool[row], row, vm, worked), ByCommand, live);
    }
  }

  /** A call that is new, worked and has a row has its mark due. */
  lemma NewCallDue(env: Env, s: Bot, e: Event)
    ensures var t := Step(env, s, e);
      |t.calls| == |s.calls| || (|t.calls| == |s.calls| + 1
        && (t.calls[|s.calls|].worked && t.calls[|s.calls|].row != 0 ==> |s.calls| in t.marks))
  {
    hide AfterMask, AfterAsk, SetBudget, Tap, Go, AfterVm, AfterCommand, EndFailed, Show;
    match e
    case VmGiven(c, vm, live, worked) => VmCalls(s, c, vm, live, worked);
    case AttachCommand(ip, row, vm, live, worked) => CommandCalls(s, ip, row, vm, live, worked);
    case RowMark(_, _) =>
    case RunSaved(_, _, _, _) =>
    case _ =>
      QuietStep(env, s, e);
      hide Step;
  }

  /** At event i of the history the mark of call k, which is the given one, is due and tried. */
  ghost predicate MarkTried(env: Env, s: Bot, es: seq<Event>, k: nat, call: AttachCall, i: nat) {
    && i < |es| && es[i].RowMark? && es[i].call == k
    && var t := Exec(env, s, es[..i]); k in t.marks && k < |t.calls| && t.calls[k] == call
  }

  lemma TriedStays(env: Env, s: Bot, es: seq<Event>, k: nat, call: AttachCall, i: nat)
    requires es != [] && MarkTried(env, s, es[..|es| - 1], k, call, i)
    ensures MarkTried(env, s, es, k, call, i)
  {
    hide Exec;
    assert es[..|es| - 1][..i] == es[..i];
  }

  /** Over every history: a call that worked and has a row has its mark due, or the mark was tried. */
  lemma {:induction false} MarkIsDue(env: Env, s: Bot, es: seq<Event>, k: nat)
    requires Initial(s) && k < |Exec(env, s, es).calls|
    requires Exec(env, s, es).calls[k].worked && Exec(env, s, es).calls[k].row != 0
    ensures k in Exec(env, s, es).marks || exists i: nat :: MarkTried(env, s, es, k, Exec(env, s, es).calls[k], i)
  {
    hide Step, MarkTried;
    if es != [] {
      var n := |es| - 1;
      var t, call := Exec(env, s, es[..n]), Exec(env, s, es).calls[k];
      CallsStay(env, t, es[n]);
      NewCallDue(env, t, es[n]);
      if k < |t.calls| {
        MarkIsDue(env, s, es[..n], k);
        if k !in t.marks {
          var i: nat :| MarkTried(env, s, es[..n], k, call, i);
          TriedStays(env, s, es, k, call, i);
        } else if es[n] == RowMark(k, true) || es[n] == RowMark(k, false) {
          assert MarkTried(env, s, es, k, call, n) by { TriedNow(env, s, es, k, call); }
        }
      }
    }
  }

  lemma TriedNow(env: Env, s: Bot, es: seq<Event>, k: nat, call: AttachCall)
    requires es != [] && es[|es| - 1].RowMark? && es[|es| - 1].call == k
    requires var t := Exec(env, s, es[..|es| - 1]); k in t.marks && k < |t.calls| && t.calls[k] == call
    ensures MarkTried(env, s, es, k, call, |es| - 1)
  {
  }

  /** The mark of a call was tried, and if it could be written, its row then bore the machine of the call. */
  ghost predicate MarkDone(env: Env, s: Bot, es: seq<Event>, k: nat, call: AttachCall, i: nat) {
    && MarkTried(env, s, es, k, call, i)
    && (es[i].works ==>
          var pool := Exec(env, s, es[..i + 1]).pool; call.row in pool && pool[call.row].vm == call.vm)
  }

  /** So every attach call that worked marks its row: until then the mark is due, and when it is tried and
      can be written, the row bears the machine of the call. */
  lemma EveryWorkingCallMarks(env: Env, s: Bot, es: seq<Event>, k: nat)
    requires Initial(s) && forall e :: e in es ==> FromRegistry(e)
    requires k < |Exec(env, s, es).calls| && Exec(env, s, es).calls[k].worked && Exec(env, s, es).calls[k].row != 0
    ensures k in Exec(env, s, es).marks || exists i: nat :: MarkDone(env, s, es, k, Exec(env, s, es).calls[k], i)
  {
    hide Exec, CallsSound, Step, FromRegistry;
    MarkIsDue(env, s, es, k);
    var call := Exec(env, s, es).calls[k];
    if k !in Exec(env, s, es).marks {
      var i: nat :| MarkTried(env, s, es, k, call, i);
      EveryAttachIsCoherent(env, s, es[..i]);
      MarkWrites(env, s.pool, Exec(env, s, es[..i]), k, es[i].works);
      assert es[..i + 1] == es[..i] + [es[i]];
      ExecLast(env, s, es[..i], es[i]);
      assert es[i] == RowMark(k, es[i].works);
      assert MarkDone(env, s, es, k, call, i);
    }
  }

  lemma ExecLast(env: Env, s: Bot, es: seq<Event>, e: Event)
    ensures Exec(env, s, es + [e]) == Step(env, Exec(env, s, es), e)
  {
    assert (es + [e])[..|es|] == es;
  }
}
