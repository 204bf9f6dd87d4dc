/**
 * The batch-get protocol shared by `lua_lv_obj_get` and `lua_lv_btn_get`:
 * the names `t[1], t[2], ...` up to the first nil are answered one by one,
 * each by the binding's own getter for that name, else by the shared
 * generic-object getter `lua_lv_obj_get_core`, else by nil.
 *
 * The shared getter pushes on the file-scope Lua state, not on the state
 * the binding was called with; `Route` says which of the two that is, and
 * `Finish` follows both stacks through the whole loop.
 */
module NameLists {
  import opened LuaValues

  /** A getter dispatch: the value pushed for a recognised name, None for any other. */
  type Lookup = string -> Option<LuaValue>

  /** The dispatch of a binding with no getters of its own before the shared one. */
  function NoOwn(): Lookup
  {
    _ => None
  }

  /**
   * An entry `lua_tostring` gives text for: a string, or a number (whose
   * decimal text matches no getter name); for any other kind it gives NULL,
   * and comparing NULL with `strcmp` is undefined.
   */
  predicate Named(v: LuaValue)
  {
    v.Str? || v.Num?
  }

  /** A name that only the shared getter answers. */
  predicate CoreOnly(own: Lookup, core: Lookup, v: LuaValue)
  {
    v.Str? && own(v.s).None? && core(v.s).Some?
  }

  /**
   * What the loop leaves for one list entry when every push lands on the
   * calling state: nil for a number, whose text is no getter name.
   */
  function Answer(own: Lookup, core: Lookup, v: LuaValue): LuaValue
  {
    if !v.Str? then Nil
    else if own(v.s).Some? then own(v.s).value
    else core(v.s).GetOr(Nil)
  }

  /** The results of a batch get, one per name before the first nil. */
  function Answers(own: Lookup, core: Lookup, t: LuaTable): (r: seq<LuaValue>)
    ensures |r| == ListLength(t)
  {
    seq(ListLength(t), i requires 0 <= i < ListLength(t) => Answer(own, core, Item(t, i + 1)))
  }

  /**
   * The i-th result is the binding's own value for the i-th name, else the
   * shared getter's value, else nil.
   */
  lemma AnswersAt(own: Lookup, core: Lookup, t: LuaTable, i: nat)
    requires 1 <= i <= ListLength(t)
    ensures var v := Item(t, i);
      Answers(own, core, t)[i - 1] ==
        if v.Str? && own(v.s).Some? then own(v.s).value
        else if v.Str? && core(v.s).Some? then core(v.s).value
        else Nil
  {
  }

  /** Entries after the first nil are never read: cutting the list there changes nothing. */
  lemma AnswersStopAtNil(own: Lookup, core: Lookup, t: LuaTable, rest: seq<LuaValue>)
    requires rest == [] || rest[0] == Nil
    ensures Answers(own, core, LuaTable(t.fields, t.items[..ListLength(t)] + rest)) == Answers(own, core, t)
  {
    var t' := LuaTable(t.fields, t.items[..ListLength(t)] + rest);
    LeadingCountPrefix(t.items, rest);
    assert forall i :: 1 <= i <= ListLength(t) ==> Item(t', i) == Item(t, i);
  }

  /**
   * Where the shared getter pushes: on the calling state itself, on another
   * state stored by `lv_lua_set_context`, or on no state at all (NULL).
   */
  datatype Route = Here | Elsewhere | Nowhere

  /** The calling state's stack and the stored state's stack. */
  datatype Stacks = Stacks(mine: seq<LuaValue>, theirs: seq<LuaValue>)

  /**
   * The end of a batch get: both stacks, the number of names returned, and
   * whether the loop ran to its end (false: C undefined behaviour was reached,
   * and the stacks are those at that point).
   */
  datatype Outcome = Outcome(mine: seq<LuaValue>, theirs: seq<LuaValue>, count: int, completed: bool)

  /**
   * One name `v`, just read onto the calling stack above `mine`: a name the
   * shared getter answers gets its value pushed where the route says and the
   * calling state's top-but-one replaced by the top; None when there is no
   * state to push on. Any other name pushes its own value or nil on the
   * calling state, which then replaces the name. An entry that is not
   * `Named` is undefined behaviour too.
   */
  function Turn(route: Route, own: Lookup, core: Lookup, mine: seq<LuaValue>, theirs: seq<LuaValue>, v: LuaValue): Option<Stacks>
    requires |mine| >= 1
  {
    if !Named(v) then None
    else if CoreOnly(own, core, v) then
      match route
      case Here => Some(Stacks(mine + [core(v.s).value], theirs))
      case Elsewhere => Some(Stacks(mine[..|mine| - 1] + [v], theirs + [core(v.s).value]))
      case Nowhere => None
    else Some(Stacks(mine + [Answer(own, core, v)], theirs))
  }

  /** A name the binding does not answer itself turns as in a binding with no getters of its own. */
  lemma TurnNoOwn(route: Route, own: Lookup, core: Lookup, mine: seq<LuaValue>, theirs: seq<LuaValue>, v: LuaValue)
    requires |mine| >= 1 && (v.Str? ==> own(v.s).None?)
    ensures Turn(route, own, core, mine, theirs, v) == Turn(route, NoOwn(), core, mine, theirs, v)
  {
  }

  /** A turn never shrinks the calling stack, and leaves all but its top element alone. */
  lemma TurnKeepsSlots(route: Route, own: Lookup, core: Lookup, mine: seq<LuaValue>, theirs: seq<LuaValue>, v: LuaValue)
    requires |mine| >= 1
    ensures var r := Turn(route, own, core, mine, theirs, v);
      r.Some? ==> |r.value.mine| >= |mine| && r.value.mine[..|mine| - 1] == mine[..|mine| - 1]
  {
  }

  /**
   * The loop of a batch get from name `i` on, with the calling stack `mine`
   * (slot 2 must still hold the list `t`: `lua_rawgeti` on anything else is
   * undefined) and the stored state's stack `theirs`.
   */
  function Finish(route: Route, own: Lookup, core: Lookup, t: LuaTable, mine: seq<LuaValue>, theirs: seq<LuaValue>, i: nat): Outcome
    requires |mine| >= 2 && 1 <= i <= ListLength(t) + 1
    decreases ListLength(t) + 1 - i
  {
    if mine[1] != Table(t) then Outcome(mine, theirs, i - 1, false)
    else if i == ListLength(t) + 1 then Outcome(mine, theirs, i - 1, true)
    else
      TurnKeepsSlots(route, own, core, mine, theirs, Item(t, i));
      match Turn(route, own, core, mine, theirs, Item(t, i))
      case None => Outcome(mine + [Item(t, i)], theirs, i - 1, false)
      case Some(next) => Finish(route, own, core, t, next.mine, next.theirs, i + 1)
  }

  /**
   * When every entry is `Named` and the shared getter pushes on the calling
   * state, or no name needs it, the loop runs to the end, pushes one answer
   * per name, and returns the length of the list; the stored state is untouched.
   */
  lemma {:induction false} FinishAnswers(route: Route, own: Lookup, core: Lookup, t: LuaTable, mine: seq<LuaValue>, theirs: seq<LuaValue>, i: nat)
    requires |mine| >= 2 && 1 <= i <= ListLength(t) + 1 && mine[1] == Table(t)
    requires forall j :: i <= j <= ListLength(t) ==> Named(Item(t, j))
    requires route == Here || forall j :: i <= j <= ListLength(t) ==> !CoreOnly(own, core, Item(t, j))
    ensures Finish(route, own, core, t, mine, theirs, i) == Outcome(mine + Answers(own, core, t)[i - 1..], theirs, ListLength(t), true)
    decreases ListLength(t) + 1 - i
  {
    var rs := Answers(own, core, t);
    if i == ListLength(t) + 1 {
      assert rs[i - 1..] == [];
    } else {
      var a := Answer(own, core, Item(t, i));
      assert Turn(route, own, core, mine, theirs, Item(t, i)) == Some(Stacks(mine + [a], theirs));
      FinishAnswers(route, own, core, t, mine + [a], theirs, i + 1);
      assert rs[i - 1..] == [a] + rs[i..];
      assert mine + [a] + rs[i..] == mine + rs[i - 1..];
    }
  }

  /** Whatever the route, a loop that runs to its end returns the length of the list. */
  lemma {:induction false} FinishCount(route: Route, own: Lookup, core: Lookup, t: LuaTable, mine: seq<LuaValue>, theirs: seq<LuaValue>, i: nat)
    requires |mine| >= 2 && 1 <= i <= ListLength(t) + 1
    ensures Finish(route, own, core, t, mine, theirs, i).completed ==> Finish(route, own, core, t, mine, theirs, i).count == ListLength(t)
    decreases ListLength(t) + 1 - i
  {
    if mine[1] == Table(t) && i <= ListLength(t) {
      TurnKeepsSlots(route, own, core, mine, theirs, Item(t, i));
      var next := Turn(route, own, core, mine, theirs, Item(t, i));
      if next.Some? {
        FinishCount(route, own, core, t, next.value.mine, next.value.theirs, i + 1);
      }
    }
  }

  /**
   * The whole loop, from the first name: a completed run returns the length
   * of the list, and on the calling state with every entry `Named` it
   * completes, pushing exactly `Answers`.
   */
  lemma FinishFromStart(route: Route, own: Lookup, core: Lookup, t: LuaTable, mine: seq<LuaValue>, theirs: seq<LuaValue>)
    requires |mine| >= 2 && mine[1] == Table(t)
    ensures Finish(route, own, core, t, mine, theirs, 1).completed ==> Finish(route, own, core, t, mine, theirs, 1).count == ListLength(t)
    ensures route == Here && (forall j :: 1 <= j <= ListLength(t) ==> Named(Item(t, j))) ==>
      Finish(route, own, core, t, mine, theirs, 1) == Outcome(mine + Answers(own, core, t), theirs, ListLength(t), true)
  {
    FinishCount(route, own, core, t, mine, theirs, 1);
    if route == Here && forall j :: 1 <= j <= ListLength(t) ==> Named(Item(t, j)) {
      FinishAnswers(route, own, core, t, mine, theirs, 1);
      assert Answers(own, core, t)[0..] == Answers(own, core, t);
    }
  }

  /**
   * On the calling state a completed run leaves one value per remaining name
   * above the stack it started from: no name is ever popped.
   */
  lemma {:induction false} FinishDepth(own: Lookup, core: Lookup, t: LuaTable, mine: seq<LuaValue>, theirs: seq<LuaValue>, i: nat)
    requires |mine| >= 2 && 1 <= i <= ListLength(t) + 1 && mine[1] == Table(t)
    ensures var out := Finish(Here, own, core, t, mine, theirs, i);
      out.completed ==> |out.mine| == |mine| + ListLength(t) + 1 - i
    decreases ListLength(t) + 1 - i
  {
    if i <= ListLength(t) {
      match Turn(Here, own, core, mine, theirs, Item(t, i)) {
        case None =>
        case Some(next) =>
          FinishDepth(own, core, t, next.mine, next.theirs, i + 1);
      }
    }
  }

  /**
   * Called with its two arguments on the calling state, a completed run
   * leaves one result per name above them. With the closing nil pushed on
   * top of those, a list of `LUA_MINSTACK` or more names needs more than the
   * `LUA_MINSTACK` free slots Lua guarantees; the loop never calls `lua_checkstack`.
   */
  lemma GetStackDepth(own: Lookup, core: Lookup, t: LuaTable, arg1: LuaValue, theirs: seq<LuaValue>)
    ensures var out := Finish(Here, own, core, t, [arg1, Table(t)], theirs, 1);
      out.completed ==> |out.mine| == 2 + ListLength(t)
    ensures var out := Finish(Here, own, core, t, [arg1, Table(t)], theirs, 1);
      out.completed && ListLength(t) >= LUA_MINSTACK ==> (|out.mine| - 2) + 1 > LUA_MINSTACK
  {
    FinishDepth(own, core, t, [arg1, Table(t)], theirs, 1);
  }

  /**
   * On the calling state, the loop runs to its end exactly when every entry
   * is `Named`; with no stored state, exactly when in addition no name needs
   * the shared getter.
   */
  lemma {:induction false} FinishCompletes(route: Route, own: Lookup, core: Lookup, t: LuaTable, mine: seq<LuaValue>, theirs: seq<LuaValue>, i: nat)
    requires route == Here || route == Nowhere
    requires |mine| >= 2 && 1 <= i <= ListLength(t) + 1 && mine[1] == Table(t)
    ensures Finish(route, own, core, t, mine, theirs, i).completed <==>
      forall j :: i <= j <= ListLength(t) ==> Named(Item(t, j)) && (route == Here || !CoreOnly(own, core, Item(t, j)))
    decreases ListLength(t) + 1 - i
  {
    if forall j :: i <= j <= ListLength(t) ==> Named(Item(t, j)) && (route == Here || !CoreOnly(own, core, Item(t, j))) {
      FinishAnswers(route, own, core, t, mine, theirs, i);
    } else if Named(Item(t, i)) && (route == Here || !CoreOnly(own, core, Item(t, i))) {
      var a := Answer(own, core, Item(t, i));
      assert Turn(route, own, core, mine, theirs, Item(t, i)) == Some(Stacks(mine + [a], theirs));
      FinishCompletes(route, own, core, t, mine + [a], theirs, i + 1);
    }
  }

  /**
   * With another state stored and only the two arguments on the calling
   * stack, a first name that needs the shared getter leaves the name itself
   * in slot 2 in place of the list: its value went to the other state, and
   * the next `lua_rawgeti` on slot 2 is undefined.
   */
  lemma ElsewhereOverwritesList(own: Lookup, core: Lookup, t: LuaTable, arg1: LuaValue, theirs: seq<LuaValue>)
    requires 1 <= ListLength(t) && CoreOnly(own, core, Item(t, 1))
    ensures var out := Finish(Elsewhere, own, core, t, [arg1, Table(t)], theirs, 1);
      !out.completed && out.mine == [arg1, Item(t, 1)] && out.theirs == theirs + [core(Item(t, 1).s).value]
  {
    var v := Item(t, 1);
    assert [arg1, Table(t)][..1] + [v] == [arg1, v];
    assert Turn(Elsewhere, own, core, [arg1, Table(t)], theirs, v) == Some(Stacks([arg1, v], theirs + [core(v.s).value]));
    assert [arg1, v][1] != Table(t);
  }
}
