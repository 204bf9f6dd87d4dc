/**
 * The button family: `lua_lv_btn_set` creates a button when argument 1 is
 * nil, writes it back into stack slot 1, runs the generic-object setter on
 * it and then the button's own field lines; `lua_lv_btn_get` answers the
 * button's own names and falls back to the generic-object getter.
 */
module BtnBinding {
  import opened LuaValues
  import opened Lvgl
  import opened FieldSteps
  import opened NameLists
  import opened ObjBinding

  /** The button's own field lines of `lua_lv_btn_set`, in source order. */
  const BtnSteps: seq<Step> := [
    Step("toggle", IntKind, BtnSetToggle, Direct),
    Step("state", IntKind, BtnSetState, Direct),
    Step("action_pr", StrKind, BtnSetLuaAction(ActionPr), Direct),
    Step("action_click", StrKind, BtnSetLuaAction(ActionClick), Direct),
    Step("action_long_pr", StrKind, BtnSetLuaAction(ActionLongPr), Direct),
    Step("action_long_pr_repeate", StrKind, BtnSetLuaAction(ActionLongPrRepeat), Direct),
    Step("layout", IntKind, BtnSetLayout, Direct),
    Step("hor_fit", BoolKind, BtnSetFit, FitHor),
    Step("ver_fit", BoolKind, BtnSetFit, FitVer),
    Step("style_rel", PtrKind, BtnSetStyle(StyleRel), Direct),
    Step("style_pr", PtrKind, BtnSetStyle(StyleRel), Direct),
    Step("style_tgl_rel", PtrKind, BtnSetStyle(StyleRel), Direct),
    Step("style_tgl_pr", PtrKind, BtnSetStyle(StyleRel), Direct),
    Step("style_ina", PtrKind, BtnSetStyle(StyleRel), Direct)
  ]

  /** The names `lua_lv_btn_get` answers itself, before falling back. */
  const BtnGettable: set<string> := {
    "state", "toggle", "action_pr", "action_click", "action_long_pr", "action_long_pr_repeate",
    "layout", "hor_fit", "ver_fit", "style_rel", "style_pr", "style_tgl_rel", "style_tgl_pr", "style_ina"}

  /** Stack slot 1 once the new button has been written over the nil. */
  function BtnSlot1(lib: Library, tr: seq<NativeCall>, arg1: LuaValue, t: LuaTable): LuaValue
  {
    if arg1 == Nil then LightUd(Target(lib, tr, BtnFamily, arg1, t)) else arg1
  }

  /** The calls of the delegated `lua_lv_obj_set`. */
  function BtnBaseCalls(lib: Library, tr: seq<NativeCall>, arg1: LuaValue, t: LuaTable): seq<NativeCall>
  {
    ObjSetCalls(lib, tr + Creation(BtnFamily, arg1, t), BtnSlot1(lib, tr, arg1, t), t)
  }

  /** The calls of the button's own field lines. */
  function BtnOwnCalls(lib: Library, tr: seq<NativeCall>, arg1: LuaValue, t: LuaTable): seq<NativeCall>
  {
    Run(lib, tr + Creation(BtnFamily, arg1, t) + BtnBaseCalls(lib, tr, arg1, t), t, Target(lib, tr, BtnFamily, arg1, t), false, BtnSteps)
  }

  /** Everything `lua_lv_btn_set` asks of the native library, in order. */
  function BtnSetCalls(lib: Library, tr: seq<NativeCall>, arg1: LuaValue, t: LuaTable): seq<NativeCall>
  {
    Creation(BtnFamily, arg1, t) + BtnBaseCalls(lib, tr, arg1, t) + BtnOwnCalls(lib, tr, arg1, t)
  }

  /** What `lua_lv_btn_set` leaves pushed above its two arguments. */
  function BtnSetPushes(lib: Library, tr: seq<NativeCall>, arg1: LuaValue, t: LuaTable): seq<LuaValue>
  {
    CreationPushes(arg1, t)
      + ObjSetPushes(lib, tr + Creation(BtnFamily, arg1, t), BtnSlot1(lib, tr, arg1, t), t)
      + Fetched(t, BtnSteps) + [LightUd(Target(lib, tr, BtnFamily, arg1, t))]
  }

  /**
   * `lua_lv_btn_set` leaves 32 values above its arguments when it creates the
   * button and 30 otherwise: more than the `LUA_MINSTACK` slots Lua
   * guarantees, and the binding never calls `lua_checkstack`.
   */
  lemma BtnSetStackDepth(lib: Library, tr: seq<NativeCall>, arg1: LuaValue, t: LuaTable)
    ensures |BtnSetPushes(lib, tr, arg1, t)| == if arg1 == Nil then 32 else 30
    ensures |BtnSetPushes(lib, tr, arg1, t)| > LUA_MINSTACK
  {
    ObjSetStack(lib, tr + Creation(BtnFamily, arg1, t), BtnSlot1(lib, tr, arg1, t), t);
  }

  /** Index facts about the button table: the single-setter lines, the two fit lines, the five style lines. */
  lemma BtnStepsFacts()
    ensures forall k :: 0 <= k < 7 ==> UniqueAt(BtnSteps, k)
    ensures forall k :: 0 <= k < |BtnSteps| ==> FamilyOf(BtnSteps[k].fn) == BtnFamily
    ensures forall k :: 0 <= k < |BtnSteps| && BtnSteps[k].fn == BtnSetFit ==> k == 7 || k == 8
    ensures forall k :: 0 <= k < |BtnSteps| && BtnSteps[k].fn.BtnSetStyle? ==> 9 <= k < 14 && BtnSteps[k].fn.slot == StyleRel
    ensures forall k :: 9 <= k < 14 ==> BtnSteps[k].fn == BtnSetStyle(StyleRel) && BtnSteps[k].kind == PtrKind && Plain(BtnSteps[k])
  {
    BtnStepsRanks();
    BtnStepsShape();
  }

  lemma BtnStepsRanks()
    ensures forall j :: 0 <= j < |BtnSteps| ==> Rank(BtnSteps[j].fn) == 14 + (if j < 7 then j else if j < 9 then 7 else 8)
  {
  }

  lemma BtnStepsShape()
    ensures forall k :: 0 <= k < |BtnSteps| ==> FamilyOf(BtnSteps[k].fn) == BtnFamily
    ensures forall k :: 0 <= k < |BtnSteps| && BtnSteps[k].fn == BtnSetFit ==> k == 7 || k == 8
    ensures forall k :: 0 <= k < |BtnSteps| && BtnSteps[k].fn.BtnSetStyle? ==> 9 <= k < 14 && BtnSteps[k].fn.slot == StyleRel
    ensures forall k :: 9 <= k < 14 ==> BtnSteps[k].fn == BtnSetStyle(StyleRel) && BtnSteps[k].kind == PtrKind && Plain(BtnSteps[k])
  {
  }

  /** No setter calls in `calls` after one of family `g` belong to family `f`. */
  predicate NoneAfter(calls: seq<NativeCall>, g: Family, f: Family)
  {
    forall i, j :: 0 <= i < j < |calls| && calls[i].Call? && calls[j].Call? && FamilyOf(calls[i].fn) == g ==>
      FamilyOf(calls[j].fn) != f
  }

  /** Every base-object call is a generic-object setter on the button. */
  lemma BtnBaseShape(lib: Library, tr: seq<NativeCall>, arg1: LuaValue, t: LuaTable)
    ensures forall c :: c in BtnBaseCalls(lib, tr, arg1, t) ==>
      c.Call? && FamilyOf(c.fn) == ObjFamily && c.obj == Target(lib, tr, BtnFamily, arg1, t)
    ensures ObjSetParent !in Called(BtnBaseCalls(lib, tr, arg1, t))
  {
    var tr' := tr + Creation(BtnFamily, arg1, t);
    var slot := BtnSlot1(lib, tr, arg1, t);
    RunSound(lib, tr' + Creation(ObjFamily, slot, t), t, Target(lib, tr', ObjFamily, slot, t), false, ObjSteps);
    assert forall k :: 0 <= k < |ObjSteps| ==> FamilyOf(ObjSteps[k].fn) == ObjFamily;
    ObjSetReparent(lib, tr', slot, t);
  }

  /** Every own call is a button setter on the button. */
  lemma BtnOwnShape(lib: Library, tr: seq<NativeCall>, arg1: LuaValue, t: LuaTable)
    ensures forall c :: c in BtnOwnCalls(lib, tr, arg1, t) ==>
      c.Call? && FamilyOf(c.fn) == BtnFamily && c.obj == Target(lib, tr, BtnFamily, arg1, t)
  {
    BtnStepsFacts();
    RunFamily(lib, tr + Creation(BtnFamily, arg1, t) + BtnBaseCalls(lib, tr, arg1, t), t, Target(lib, tr, BtnFamily, arg1, t), false, BtnSteps, BtnFamily);
  }

  /**
   * The button constructor runs exactly once for a nil argument 1 and never
   * otherwise; the delegated object setter never creates a second object.
   */
  lemma BtnSetCreatesOnce(lib: Library, tr: seq<NativeCall>, arg1: LuaValue, t: LuaTable)
    ensures Creations(BtnSetCalls(lib, tr, arg1, t))
      == if arg1 == Nil then [Create(BtnFamily, CreateParent(t), CreateCopy(t))] else []
    ensures BtnSlot1(lib, tr, arg1, t) != Nil
  {
    var base := BtnBaseCalls(lib, tr, arg1, t);
    var own := BtnOwnCalls(lib, tr, arg1, t);
    BtnBaseShape(lib, tr, arg1, t);
    BtnOwnShape(lib, tr, arg1, t);
    CreationsNone(base);
    CreationsNone(own);
    CreationsAppend(Creation(BtnFamily, arg1, t), base);
    CreationsAppend(Creation(BtnFamily, arg1, t) + base, own);
  }

  /** A button is never re-parented, not even one created by this call. */
  lemma BtnSetNeverReparents(lib: Library, tr: seq<NativeCall>, arg1: LuaValue, t: LuaTable)
    ensures ObjSetParent !in Called(BtnSetCalls(lib, tr, arg1, t))
  {
    var base := BtnBaseCalls(lib, tr, arg1, t);
    var own := BtnOwnCalls(lib, tr, arg1, t);
    BtnBaseShape(lib, tr, arg1, t);
    BtnOwnShape(lib, tr, arg1, t);
    CalledAppend(Creation(BtnFamily, arg1, t), base);
    CalledAppend(Creation(BtnFamily, arg1, t) + base, own);
  }

  /** All setter calls target the button, and every generic-object setter runs before every button setter. */
  lemma BtnSetBaseFirst(lib: Library, tr: seq<NativeCall>, arg1: LuaValue, t: LuaTable)
    ensures forall c :: c in BtnSetCalls(lib, tr, arg1, t) && c.Call? ==> c.obj == Target(lib, tr, BtnFamily, arg1, t)
    ensures NoneAfter(BtnSetCalls(lib, tr, arg1, t), BtnFamily, ObjFamily)
  {
    var pre := Creation(BtnFamily, arg1, t);
    var base := BtnBaseCalls(lib, tr, arg1, t);
    var own := BtnOwnCalls(lib, tr, arg1, t);
    var calls := pre + base + own;
    BtnBaseShape(lib, tr, arg1, t);
    BtnOwnShape(lib, tr, arg1, t);
    forall i, j | 0 <= i < j < |calls| && calls[i].Call? && calls[j].Call? && FamilyOf(calls[i].fn) == BtnFamily
      ensures FamilyOf(calls[j].fn) != ObjFamily
    {
      if i >= |pre| + |base| {
        assert calls[j] == own[j - |pre| - |base|] && calls[j] in own;
      }
    }
  }

  /**
   * A button field line with a setter of its own (toggle, state, the four
   * actions, layout) calls it iff the field has the expected kind, with the value read.
   */
  lemma BtnSetGating(lib: Library, tr: seq<NativeCall>, arg1: LuaValue, t: LuaTable, k: nat)
    requires k < 7
    ensures BtnSteps[k].fn in Called(BtnSetCalls(lib, tr, arg1, t)) <==> HasKind(Field(t, BtnSteps[k].name), BtnSteps[k].kind)
    ensures forall c :: c in BtnSetCalls(lib, tr, arg1, t) && c.Call? && c.fn == BtnSteps[k].fn ==>
      c == Call(BtnSteps[k].fn, Target(lib, tr, BtnFamily, arg1, t), [Value(t, BtnSteps[k])])
  {
    var pre := Creation(BtnFamily, arg1, t);
    var base := BtnBaseCalls(lib, tr, arg1, t);
    var own := BtnOwnCalls(lib, tr, arg1, t);
    BtnBaseShape(lib, tr, arg1, t);
    BtnStepsFacts();
    RunGating(lib, tr + pre + base, t, Target(lib, tr, BtnFamily, arg1, t), false, BtnSteps, k);
    CalledAppend(pre, base);
    CalledAppend(pre + base, own);
    assert BtnSteps[k].fn !in Called(base);
  }

  /**
   * `lv_btn_set_fit` is called iff `hor_fit` or `ver_fit` is a boolean, and
   * each call carries one of the two field values in its own position.
   */
  lemma BtnSetFitCalls(lib: Library, tr: seq<NativeCall>, arg1: LuaValue, t: LuaTable)
    ensures BtnSetFit in Called(BtnSetCalls(lib, tr, arg1, t)) <==> Field(t, "hor_fit").Bool? || Field(t, "ver_fit").Bool?
    ensures forall c :: c in BtnSetCalls(lib, tr, arg1, t) && c.Call? && c.fn == BtnSetFit ==>
      |c.args| == 2 && c.args[0].BoolArg? && c.args[1].BoolArg?
      && ((Field(t, "hor_fit").Bool? && c.args[0] == BoolArg(Field(t, "hor_fit").b))
        || (Field(t, "ver_fit").Bool? && c.args[1] == BoolArg(Field(t, "ver_fit").b)))
  {
    var pre := Creation(BtnFamily, arg1, t);
    var base := BtnBaseCalls(lib, tr, arg1, t);
    var own := BtnOwnCalls(lib, tr, arg1, t);
    BtnBaseShape(lib, tr, arg1, t);
    OwnFitCalls(lib, tr + pre + base, t, Target(lib, tr, BtnFamily, arg1, t));
    CalledAppend(pre, base);
    CalledAppend(pre + base, own);
    assert BtnSetFit !in Called(base);
    forall c | c in BtnSetCalls(lib, tr, arg1, t) && c.Call? && c.fn == BtnSetFit
      ensures c in own
    {
    }
  }

  /**
   * The fit calls of the two fit lines after the calls `tr`: `hor_fit` first,
   * paired with the vertical fit read before it, then `ver_fit`, paired with
   * the horizontal fit read after the first call.
   */
  function FitCalls(lib: Library, tr: seq<NativeCall>, t: LuaTable, btn: Handle): seq<NativeCall>
  {
    var hor := if Field(t, "hor_fit").Bool? then
        [Call(BtnSetFit, btn, [BoolArg(Field(t, "hor_fit").b), BoolArg(lib.boolOf(tr, btn, BtnGetVerFit))])]
      else [];
    var ver := if Field(t, "ver_fit").Bool? then
        [Call(BtnSetFit, btn, [BoolArg(lib.boolOf(tr + hor, btn, BtnGetHorFit)), BoolArg(Field(t, "ver_fit").b)])]
      else [];
    hor + ver
  }

  /**
   * `lua_lv_btn_set` calls the fit setter exactly as `FitCalls` says, after
   * the creation, the generic-object calls and the first seven button lines.
   */
  lemma BtnSetFitExact(lib: Library, tr: seq<NativeCall>, arg1: LuaValue, t: LuaTable)
    ensures var before := tr + Creation(BtnFamily, arg1, t) + BtnBaseCalls(lib, tr, arg1, t);
      var btn := Target(lib, tr, BtnFamily, arg1, t);
      Only(BtnSetCalls(lib, tr, arg1, t), BtnSetFit) == FitCalls(lib, before + Run(lib, before, t, btn, false, BtnSteps[..7]), t, btn)
  {
    var pre := Creation(BtnFamily, arg1, t);
    var base := BtnBaseCalls(lib, tr, arg1, t);
    var btn := Target(lib, tr, BtnFamily, arg1, t);
    BtnBaseShape(lib, tr, arg1, t);
    OnlyNone(pre, BtnSetFit);
    OnlyNone(base, BtnSetFit);
    OnlyAppend(pre, base, BtnSetFit);
    OnlyAppend(pre + base, BtnOwnCalls(lib, tr, arg1, t), BtnSetFit);
    OwnFitExact(lib, tr + pre + base, t, btn);
  }

  /** The button table around its two fit lines. */
  lemma BtnStepsAroundFit()
    ensures BtnSteps == BtnSteps[..7] + [BtnSteps[7], BtnSteps[8]] + BtnSteps[9..]
    ensures forall k :: 0 <= k < |BtnSteps[..7]| ==> BtnSteps[..7][k].fn != BtnSetFit
    ensures forall k :: 0 <= k < |BtnSteps[9..]| ==> BtnSteps[9..][k].fn != BtnSetFit
    ensures BtnSteps[7] == Step("hor_fit", BoolKind, BtnSetFit, FitHor)
    ensures BtnSteps[8] == Step("ver_fit", BoolKind, BtnSetFit, FitVer)
  {
    assert forall k :: 0 <= k < 7 ==> BtnSteps[..7][k] == BtnSteps[k];
    assert forall k :: 0 <= k < 5 ==> BtnSteps[9..][k] == BtnSteps[k + 9];
  }

  /** The fit lines of the button's own steps make exactly the calls of `FitCalls`. */
  lemma OwnFitExact(lib: Library, tr: seq<NativeCall>, t: LuaTable, btn: Handle)
    ensures Only(Run(lib, tr, t, btn, false, BtnSteps), BtnSetFit) == FitCalls(lib, tr + Run(lib, tr, t, btn, false, BtnSteps[..7]), t, btn)
  {
    BtnStepsAroundFit();
    FitExactOn(lib, tr, t, btn, BtnSteps);
  }

  /** `OwnFitExact` for any table laid out like the button's around its fit lines. */
  lemma FitExactOn(lib: Library, tr: seq<NativeCall>, t: LuaTable, btn: Handle, steps: seq<Step>)
    requires |steps| >= 9 && steps == steps[..7] + [steps[7], steps[8]] + steps[9..]
    requires forall k :: 0 <= k < |steps[..7]| ==> steps[..7][k].fn != BtnSetFit
    requires forall k :: 0 <= k < |steps[9..]| ==> steps[9..][k].fn != BtnSetFit
    requires steps[7] == Step("hor_fit", BoolKind, BtnSetFit, FitHor)
    requires steps[8] == Step("ver_fit", BoolKind, BtnSetFit, FitVer)
    ensures Only(Run(lib, tr, t, btn, false, steps), BtnSetFit) == FitCalls(lib, tr + Run(lib, tr, t, btn, false, steps[..7]), t, btn)
  {
    var hor, ver := steps[7], steps[8];
    var pre := tr + Run(lib, tr, t, btn, false, steps[..7]);
    RunOnlyMiddle(lib, tr, t, btn, false, steps[..7], [hor, ver], steps[9..], BtnSetFit);
    RunPair(lib, pre, t, btn, false, hor, ver);
    var e1 := Emit(lib, pre, t, btn, false, hor);
    var e2 := Emit(lib, pre + e1, t, btn, false, ver);
    OnlyAppend(e1, e2, BtnSetFit);
    EmitOnly(lib, pre, t, btn, false, hor);
    EmitOnly(lib, pre + e1, t, btn, false, ver);
  }

  /** The fit lines of the button's own steps, on their own. */
  lemma OwnFitCalls(lib: Library, tr: seq<NativeCall>, t: LuaTable, btn: Handle)
    ensures BtnSetFit in Called(Run(lib, tr, t, btn, false, BtnSteps)) <==> Field(t, "hor_fit").Bool? || Field(t, "ver_fit").Bool?
    ensures forall c :: c in Run(lib, tr, t, btn, false, BtnSteps) && c.Call? && c.fn == BtnSetFit ==>
      |c.args| == 2 && c.args[0].BoolArg? && c.args[1].BoolArg?
      && ((Field(t, "hor_fit").Bool? && c.args[0] == BoolArg(Field(t, "hor_fit").b))
        || (Field(t, "ver_fit").Bool? && c.args[1] == BoolArg(Field(t, "ver_fit").b)))
  {
    BtnStepsFacts();
    RunSound(lib, tr, t, btn, false, BtnSteps);
    RunFires(lib, tr, t, btn, false, BtnSteps);
    assert BtnSteps[7].name == "hor_fit" && BtnSteps[8].name == "ver_fit";
    forall c | c in Run(lib, tr, t, btn, false, BtnSteps) && c.Call? && c.fn == BtnSetFit
      ensures |c.args| == 2 && c.args[0].BoolArg? && c.args[1].BoolArg?
      && ((Field(t, "hor_fit").Bool? && c.args[0] == BoolArg(Field(t, "hor_fit").b))
        || (Field(t, "ver_fit").Bool? && c.args[1] == BoolArg(Field(t, "ver_fit").b)))
    {
      var k :| 0 <= k < |BtnSteps| && Explains(t, btn, false, BtnSteps[k], c);
      assert k == 7 || k == 8;
    }
  }

  /**
   * All five style fields go to the `LV_BTN_STYLE_REL` slot: that slot's
   * setter runs iff any style field is a light userdata, and no other slot is ever set.
   */
  lemma BtnSetStylesTargetRel(lib: Library, tr: seq<NativeCall>, arg1: LuaValue, t: LuaTable)
    ensures forall c :: c in BtnSetCalls(lib, tr, arg1, t) && c.Call? && c.fn.BtnSetStyle? ==> c.fn.slot == StyleRel
    ensures BtnSetStyle(StyleRel) in Called(BtnSetCalls(lib, tr, arg1, t)) <==>
      exists k :: 9 <= k < 14 && Field(t, BtnSteps[k].name).LightUd?
  {
    var pre := Creation(BtnFamily, arg1, t);
    var base := BtnBaseCalls(lib, tr, arg1, t);
    var own := BtnOwnCalls(lib, tr, arg1, t);
    BtnBaseShape(lib, tr, arg1, t);
    OwnStyleCalls(lib, tr + pre + base, t, Target(lib, tr, BtnFamily, arg1, t));
    CalledFamily(pre + base, ObjFamily);
    CalledAppend(pre + base, own);
    assert FamilyOf(BtnSetStyle(StyleRel)) == BtnFamily;
    forall c | c in BtnSetCalls(lib, tr, arg1, t) && c.Call? && c.fn.BtnSetStyle?
      ensures c.fn.slot == StyleRel
    {
      assert FamilyOf(c.fn) == BtnFamily;
      assert c in own;
    }
  }

  /** The style lines of the button's own steps, on their own. */
  lemma OwnStyleCalls(lib: Library, tr: seq<NativeCall>, t: LuaTable, btn: Handle)
    ensures forall c :: c in Run(lib, tr, t, btn, false, BtnSteps) && c.Call? && c.fn.BtnSetStyle? ==> c.fn.slot == StyleRel
    ensures BtnSetStyle(StyleRel) in Called(Run(lib, tr, t, btn, false, BtnSteps)) <==>
      exists k :: 9 <= k < 14 && Field(t, BtnSteps[k].name).LightUd?
  {
    BtnStepsFacts();
    RunSound(lib, tr, t, btn, false, BtnSteps);
    RunFires(lib, tr, t, btn, false, BtnSteps);
    forall c | c in Run(lib, tr, t, btn, false, BtnSteps) && c.Call? && c.fn.BtnSetStyle?
      ensures c.fn.slot == StyleRel && exists k :: 9 <= k < 14 && Field(t, BtnSteps[k].name).LightUd?
    {
      var k :| 0 <= k < |BtnSteps| && Explains(t, btn, false, BtnSteps[k], c);
      assert 9 <= k < 14;
    }
  }

  /** The button's own answers in `lua_lv_btn_get`, None for the names it passes on. */
  function BtnOwnGet(lib: Library, tr: seq<NativeCall>, btn: Handle, par: string): Option<LuaValue>
  {
    if SameCName(par, "state") then Some(Num(lib.intOf(tr, btn, BtnGetState)))
    else if SameCName(par, "toggle") then Some(Num(lib.intOf(tr, btn, BtnGetToggle)))
    else if SameCName(par, "action_pr") then Some(PushString(lib.strOf(tr, btn, BtnGetLuaAction(ActionPr))))
    else if SameCName(par, "action_click") then Some(PushString(lib.strOf(tr, btn, BtnGetLuaAction(ActionClick))))
    else if SameCName(par, "action_long_pr") then Some(PushString(lib.strOf(tr, btn, BtnGetLuaAction(ActionLongPr))))
    else if SameCName(par, "action_long_pr_repeate") then Some(PushString(lib.strOf(tr, btn, BtnGetLuaAction(ActionLongPrRepeat))))
    else if SameCName(par, "layout") then Some(Num(lib.intOf(tr, btn, BtnGetLayout)))
    else if SameCName(par, "hor_fit") then Some(Bool(lib.boolOf(tr, btn, BtnGetHorFit)))
    else if SameCName(par, "ver_fit") then Some(Bool(lib.boolOf(tr, btn, BtnGetHorFit)))
    else if SameCName(par, "style_rel") then Some(LightUd(lib.ptrOf(tr, btn, BtnGetStyle(StyleRel))))
    else if SameCName(par, "style_pr") then Some(LightUd(lib.ptrOf(tr, btn, BtnGetStyle(StylePr))))
    else if SameCName(par, "style_tgl_rel") then Some(LightUd(lib.ptrOf(tr, btn, BtnGetStyle(StyleTglRel))))
    else if SameCName(par, "style_tgl_pr") then Some(LightUd(lib.ptrOf(tr, btn, BtnGetStyle(StyleTglPr))))
    else if SameCName(par, "style_ina") then Some(LightUd(lib.ptrOf(tr, btn, BtnGetStyle(StyleIna))))
    else None
  }

  /** One name in `lua_lv_btn_get`: the button's own getter, else the generic-object getter. */
  function BtnAnswer(lib: Library, tr: seq<NativeCall>, btn: Handle, par: string): Option<LuaValue>
  {
    var own := BtnOwnGet(lib, tr, btn, par);
    if own.Some? then own else CoreGet(lib, tr, btn, par)
  }

  /** The button's own getters on `btn` as a getter dispatch. */
  function BtnLookup(lib: Library, tr: seq<NativeCall>, btn: Handle): Lookup
  {
    par => BtnOwnGet(lib, tr, btn, par)
  }

  /** The results of `lua_lv_btn_get` on `btn`, when the shared getter pushes on the calling state. */
  function BtnGetResults(lib: Library, tr: seq<NativeCall>, btn: Handle, t: LuaTable): seq<LuaValue>
  {
    Answers(BtnLookup(lib, tr, btn), CoreLookup(lib, tr, btn), t)
  }

  /** Each result is `BtnAnswer`'s value for the name, or nil for an unknown name or a number. */
  lemma BtnGetResultsAt(lib: Library, tr: seq<NativeCall>, btn: Handle, t: LuaTable, i: nat)
    requires 1 <= i <= ListLength(t)
    ensures var v := Item(t, i);
      BtnGetResults(lib, tr, btn, t)[i - 1] == if v.Str? then BtnAnswer(lib, tr, btn, v.s).GetOr(Nil) else Nil
  {
    AnswersAt(BtnLookup(lib, tr, btn), CoreLookup(lib, tr, btn), t, i);
  }

  /**
   * A name is answered iff its C string is a button name or a generic-object name; the
   * two sets are disjoint, so the generic names get the generic getter's value.
   */
  lemma BtnGetRecognises(lib: Library, tr: seq<NativeCall>, btn: Handle, par: string)
    ensures BtnOwnGet(lib, tr, btn, par).Some? <==> CText(par) in BtnGettable
    ensures BtnAnswer(lib, tr, btn, par).Some? <==> CText(par) in BtnGettable || CText(par) in ObjGettable
    ensures CText(par) in ObjGettable ==> CText(par) !in BtnGettable && BtnAnswer(lib, tr, btn, par) == CoreGet(lib, tr, btn, par)
  {
    BtnAnswerSeesCText(lib, tr, btn, par);
    BtnGetNames(lib, tr, btn, CText(par));
  }

  /** On a name without NUL, `strcmp` is equality: the same statement on the name itself. */
  lemma BtnGetNames(lib: Library, tr: seq<NativeCall>, btn: Handle, par: CStr)
    ensures BtnOwnGet(lib, tr, btn, par).Some? <==> par in BtnGettable
    ensures BtnAnswer(lib, tr, btn, par).Some? <==> par in BtnGettable || par in ObjGettable
    ensures par in ObjGettable ==> par !in BtnGettable && BtnAnswer(lib, tr, btn, par) == CoreGet(lib, tr, btn, par)
  {
    SameCNameOfCStr(par);
    assert BtnOwnGet(lib, tr, btn, par).Some? <==> par in BtnGettable;
    CoreGetNames(lib, tr, btn, par);
  }

  /**
   * `lua_lv_btn_get` compares with `strcmp` too: the button's getters, and
   * so the whole answer, see only the C string of `par`.
   */
  lemma BtnAnswerSeesCText(lib: Library, tr: seq<NativeCall>, btn: Handle, par: string)
    ensures BtnOwnGet(lib, tr, btn, par) == BtnOwnGet(lib, tr, btn, CText(par))
    ensures BtnAnswer(lib, tr, btn, par) == BtnAnswer(lib, tr, btn, CText(par))
  {
    BtnGettableAreCStrs();
    SameCNamesSeeCText(par, BtnGettable);
    CoreGetSeesCText(lib, tr, btn, par);
  }

  /** No button name holds a NUL. */
  lemma BtnGettableAreCStrs()
    ensures forall name :: name in BtnGettable ==> '\0' !in name
  {
  }

  /** So `"state\0tail"` reads the state, and a name with a tail is a button name iff the name is. */
  lemma BtnLookupCutsAtNul(lib: Library, tr: seq<NativeCall>, btn: Handle, name: CStr, tail: string)
    ensures BtnLookup(lib, tr, btn)(name + "\0" + tail) == BtnOwnGet(lib, tr, btn, name)
    ensures BtnLookup(lib, tr, btn)(name + "\0" + tail).Some? <==> name in BtnGettable
  {
    CTextCut(name, tail);
    BtnAnswerSeesCText(lib, tr, btn, name + "\0" + tail);
    BtnGetRecognises(lib, tr, btn, name);
  }

  /** `ver_fit` is read through the horizontal getter: it always reports the same as `hor_fit`. */
  lemma BtnGetVerFitIsHorFit(lib: Library, tr: seq<NativeCall>, btn: Handle)
    ensures BtnAnswer(lib, tr, btn, "ver_fit") == BtnAnswer(lib, tr, btn, "hor_fit") == Some(Bool(lib.boolOf(tr, btn, BtnGetHorFit)))
  {
  }

  /**
   * Every button field the setter reads is answered by the getter. A non-nil
   * value is of the kind the setter reads, and read back and written again it
   * is found and handed to the setter unchanged (an integer cut to a C
   * `int`); nil is what an action name
   * reads when no action is attached, and written back it sets nothing.
   */
  lemma BtnGetSetRoundTrip(lib: Library, tr: seq<NativeCall>, btn: Handle, k: nat, created: bool)
    requires k < |BtnSteps|
    ensures BtnAnswer(lib, tr, btn, BtnSteps[k].name).Some?
    ensures var v := BtnAnswer(lib, tr, btn, BtnSteps[k].name).value;
      var t := LuaTable(map[BtnSteps[k].name := v], []);
      if v == Nil then
        BtnSteps[k].fn.BtnSetLuaAction? && lib.strOf(tr, btn, BtnGetLuaAction(BtnSteps[k].fn.action)).None?
        && !Fires(t, created, BtnSteps[k])
      else
        HasKind(v, BtnSteps[k].kind) && Fires(t, created, BtnSteps[k])
        && Lift(Value(t, BtnSteps[k])) == (if v.Num? then Num(ToCInt(v.n)) else v)
  {
    SameCNameOfCStr(BtnSteps[k].name);
    BtnStepAnswered(lib, tr, btn, k);
    var v := BtnAnswer(lib, tr, btn, BtnSteps[k].name).value;
    if v != Nil {
      StepReadsBack(v, BtnSteps[k], created);
    }
  }

  /** The button's own answer for a setter field: nil only for an unset action, otherwise of the setter's kind. */
  lemma BtnStepAnswered(lib: Library, tr: seq<NativeCall>, btn: Handle, k: nat)
    requires k < |BtnSteps|
    ensures BtnOwnGet(lib, tr, btn, BtnSteps[k].name).Some?
    ensures var v := BtnOwnGet(lib, tr, btn, BtnSteps[k].name).value;
      (v == Nil ==> BtnSteps[k].fn.BtnSetLuaAction? && lib.strOf(tr, btn, BtnGetLuaAction(BtnSteps[k].fn.action)).None?)
      && (v != Nil ==> HasKind(v, BtnSteps[k].kind) && (v.Str? ==> '\0' !in v.s) && BtnSteps[k].how != IfCreated)
  {
    SameCNameOfCStr(BtnSteps[k].name);
    if k < 2 {
    } else if k < 6 {
    } else if k < 9 {
    } else {
    }
  }

  /** A style written under a non-REL name cannot be read back under that name: the getter reads the name's own slot. */
  lemma BtnStyleSlotsDiffer(lib: Library, tr: seq<NativeCall>, btn: Handle, k: nat)
    requires 10 <= k < 14
    ensures BtnSteps[k].fn == BtnSetStyle(StyleRel)
    ensures exists s :: s != StyleRel && BtnAnswer(lib, tr, btn, BtnSteps[k].name) == Some(LightUd(lib.ptrOf(tr, btn, BtnGetStyle(s))))
  {
    SameCNameOfCStr(BtnSteps[k].name);
    if k == 10 {
      assert BtnAnswer(lib, tr, btn, BtnSteps[k].name) == Some(LightUd(lib.ptrOf(tr, btn, BtnGetStyle(StylePr))));
    } else if k == 11 {
      assert BtnAnswer(lib, tr, btn, BtnSteps[k].name) == Some(LightUd(lib.ptrOf(tr, btn, BtnGetStyle(StyleTglRel))));
    } else if k == 12 {
      assert BtnAnswer(lib, tr, btn, BtnSteps[k].name) == Some(LightUd(lib.ptrOf(tr, btn, BtnGetStyle(StyleTglPr))));
    } else {
      assert BtnAnswer(lib, tr, btn, BtnSteps[k].name) == Some(LightUd(lib.ptrOf(tr, btn, BtnGetStyle(StyleIna))));
    }
  }
}
