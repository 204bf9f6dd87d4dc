/**
 * The drop-down list family: `lua_lv_ddlist_set` only configures an
 * existing list (it never creates one), and `lua_lv_ddlist_get` answers nothing.
 */
module DdlistBinding {
  import opened LuaValues
  import opened Lvgl
  import opened FieldSteps

  /** The field lines of `lua_lv_ddlist_set`, in source order. */
  const DdlistSteps: seq<Step> := [
    Step("options", StrKind, DdlistSetOptions, Direct),
    Step("selected", IntKind, DdlistSetSelected, Direct),
    Step("fix_height", IntKind, DdlistSetFixHeight, Direct),
    Step("hor_fit", BoolKind, DdlistSetHorFit, Direct),
    Step("sb_mode", IntKind, DdlistSetSbMode, Direct),
    Step("anim_time", IntKind, DdlistSetAnimTime, Direct),
    Step("style_bg", PtrKind, DdlistSetStyle(StyleBg), Direct),
    Step("style_sel", PtrKind, DdlistSetStyle(StyleSel), Direct),
    Step("style_sb", PtrKind, DdlistSetStyle(StyleSb), Direct)
  ]

  /** Everything `lua_lv_ddlist_set` asks of the native library, in order. */
  function DdlistSetCalls(lib: Library, tr: seq<NativeCall>, arg1: LuaValue, t: LuaTable): seq<NativeCall>
  {
    Run(lib, tr, t, ToPointer(arg1), false, DdlistSteps)
  }

  /** The table's lines are in strictly increasing order, each setter (and each style part) once. */
  lemma DdlistStepsFacts()
    ensures Ascending(DdlistSteps)
    ensures forall k :: 0 <= k < |DdlistSteps| ==> UniqueAt(DdlistSteps, k) && Plain(DdlistSteps[k])
    ensures forall k :: 0 <= k < |DdlistSteps| ==> FamilyOf(DdlistSteps[k].fn) == DdlistFamily
  {
    DdlistStepsRanks();
    DdlistStepsPlain();
  }

  lemma DdlistStepsRanks()
    ensures forall i :: 0 <= i < |DdlistSteps| ==> Rank(DdlistSteps[i].fn) == 23 + i
  {
  }

  lemma DdlistStepsPlain()
    ensures forall k :: 0 <= k < |DdlistSteps| ==> Plain(DdlistSteps[k]) && FamilyOf(DdlistSteps[k].fn) == DdlistFamily
  {
  }

  /** No list is ever created; every call is a drop-down list setter on the object passed in. */
  lemma DdlistSetNeverCreates(lib: Library, tr: seq<NativeCall>, arg1: LuaValue, t: LuaTable)
    ensures Creations(DdlistSetCalls(lib, tr, arg1, t)) == []
    ensures forall c :: c in DdlistSetCalls(lib, tr, arg1, t) ==>
      c.Call? && FamilyOf(c.fn) == DdlistFamily && c.obj == ToPointer(arg1)
  {
    DdlistStepsFacts();
    RunFamily(lib, tr, t, ToPointer(arg1), false, DdlistSteps, DdlistFamily);
    CreationsNone(DdlistSetCalls(lib, tr, arg1, t));
  }

  /**
   * Each setter (each style part its own) runs iff its field has the
   * expected kind, and is handed the value read.
   */
  lemma DdlistSetGating(lib: Library, tr: seq<NativeCall>, arg1: LuaValue, t: LuaTable, k: nat)
    requires k < |DdlistSteps|
    ensures DdlistSteps[k].fn in Called(DdlistSetCalls(lib, tr, arg1, t)) <==> HasKind(Field(t, DdlistSteps[k].name), DdlistSteps[k].kind)
    ensures forall c :: c in DdlistSetCalls(lib, tr, arg1, t) && c.Call? && c.fn == DdlistSteps[k].fn ==>
      c == Call(DdlistSteps[k].fn, ToPointer(arg1), [Value(t, DdlistSteps[k])])
  {
    DdlistStepsFacts();
    RunGating(lib, tr, t, ToPointer(arg1), false, DdlistSteps, k);
  }

  /** Setters run in the order options, selected, fix_height, hor_fit, sb_mode, anim_time, style_bg, style_sel, style_sb. */
  lemma DdlistSetOrder(lib: Library, tr: seq<NativeCall>, arg1: LuaValue, t: LuaTable)
    ensures InOrder(DdlistSetCalls(lib, tr, arg1, t))
  {
    DdlistStepsFacts();
    RunOrder(lib, tr, t, ToPointer(arg1), false, DdlistSteps);
  }

  /** The calls depend on the handle and the table alone, never on the library or the history. */
  lemma DdlistSetRepeatable(lib1: Library, lib2: Library, tr1: seq<NativeCall>, tr2: seq<NativeCall>, arg1: LuaValue, t: LuaTable)
    ensures DdlistSetCalls(lib1, tr1, arg1, t) == DdlistSetCalls(lib2, tr2, arg1, t)
  {
    DdlistStepsFacts();
    RunPlain(lib1, lib2, tr1, tr2, t, ToPointer(arg1), false, DdlistSteps);
  }
}
