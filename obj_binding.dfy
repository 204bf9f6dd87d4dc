/**
 * The generic-object family: what `lua_lv_obj_set` does to the native
 * library and the Lua stack, and what `lua_lv_obj_get_core` and the
 * `lua_lv_obj_get` loop answer for each requested name.
 */
module ObjBinding {
  import opened LuaValues
  import opened Lvgl
  import opened FieldSteps
  import opened NameLists

  /** The field lines of `lua_lv_obj_set`, in source order. */
  const ObjSteps: seq<Step> := [
    Step("width", IntKind, ObjSetWidth, Direct),
    Step("height", IntKind, ObjSetHeight, Direct),
    Step("x", IntKind, ObjSetX, Direct),
    Step("y", IntKind, ObjSetY, Direct),
    Step("free_num", IntKind, ObjSetFreeNum, Direct),
    Step("hidden", BoolKind, ObjSetHidden, Direct),
    Step("click", BoolKind, ObjSetClick, Direct),
    Step("top", BoolKind, ObjSetTop, Direct),
    Step("drag", BoolKind, ObjSetDrag, Direct),
    Step("drag_throw", BoolKind, ObjSetDragThrow, Direct),
    Step("drag_parent", BoolKind, ObjSetDragParent, Direct),
    Step("parent", PtrKind, ObjSetParent, IfCreated),
    Step("style", PtrKind, ObjSetStyle, Direct),
    Step("free_ptr", PtrKind, ObjSetFreePtr, Direct)
  ]

  /** Every key `lua_lv_obj_set` reads from its table. */
  const ObjKeys: set<string> := {
    "parent", "copy", "width", "height", "x", "y", "free_num", "hidden", "click",
    "top", "drag", "drag_throw", "drag_parent", "style", "free_ptr"}

  /** The names `lua_lv_obj_get_core` answers. */
  const ObjGettable: set<string> := {
    "width", "height", "x", "y", "free_num", "hidden", "click",
    "drag", "drag_throw", "drag_parent", "free_ptr", "style"}

  /** The `parent` a constructor is given: the table's light userdata, else NULL. */
  function CreateParent(t: LuaTable): Handle
  {
    ReadAs(Field(t, "parent"), PtrKind).arg.p
  }

  /** The `copy` a constructor is given: the table's light userdata, else NULL. */
  function CreateCopy(t: LuaTable): Handle
  {
    ReadAs(Field(t, "copy"), PtrKind).arg.p
  }

  /** The object a setter configures: the one passed as argument 1, or a new one of `family` when that is nil. */
  function Target(lib: Library, tr: seq<NativeCall>, family: Family, arg1: LuaValue, t: LuaTable): Handle
  {
    if arg1 == Nil then lib.create(tr, family, CreateParent(t), CreateCopy(t)) else ToPointer(arg1)
  }

  /** The constructor call, made only for a nil argument 1. */
  function Creation(family: Family, arg1: LuaValue, t: LuaTable): seq<NativeCall>
  {
    if arg1 == Nil then [Create(family, CreateParent(t), CreateCopy(t))] else []
  }

  /** The values the constructor's two accessors push, only for a nil argument 1. */
  function CreationPushes(arg1: LuaValue, t: LuaTable): seq<LuaValue>
  {
    if arg1 == Nil then [Field(t, "parent"), Field(t, "copy")] else []
  }

  /** The setter calls of `lua_lv_obj_set`. */
  function ObjSetters(lib: Library, tr: seq<NativeCall>, arg1: LuaValue, t: LuaTable): seq<NativeCall>
  {
    Run(lib, tr + Creation(ObjFamily, arg1, t), t, Target(lib, tr, ObjFamily, arg1, t), arg1 == Nil, ObjSteps)
  }

  /** Everything `lua_lv_obj_set` asks of the native library, in order. */
  function ObjSetCalls(lib: Library, tr: seq<NativeCall>, arg1: LuaValue, t: LuaTable): seq<NativeCall>
  {
    Creation(ObjFamily, arg1, t) + ObjSetters(lib, tr, arg1, t)
  }

  /** What `lua_lv_obj_set` leaves pushed: one value per accessor call, then the object. */
  function ObjSetPushes(lib: Library, tr: seq<NativeCall>, arg1: LuaValue, t: LuaTable): seq<LuaValue>
  {
    CreationPushes(arg1, t) + Fetched(t, ObjSteps) + [LightUd(Target(lib, tr, ObjFamily, arg1, t))]
  }

  /** The setters are listed in strictly increasing order, so each is distinct. */
  lemma ObjStepsAscending()
    ensures Ascending(ObjSteps)
    ensures forall k :: 0 <= k < |ObjSteps| ==> UniqueAt(ObjSteps, k)
  {
    assert forall i :: 0 <= i < |ObjSteps| ==> Rank(ObjSteps[i].fn) == i;
  }

  /** The stack grows by one per accessor call, and the object ends on top. */
  lemma ObjSetStack(lib: Library, tr: seq<NativeCall>, arg1: LuaValue, t: LuaTable)
    ensures |ObjSetPushes(lib, tr, arg1, t)| == (if arg1 == Nil then 2 else 0) + |ObjSteps| + 1
    ensures ObjSetPushes(lib, tr, arg1, t)[|ObjSetPushes(lib, tr, arg1, t)| - 1]
      == LightUd(if arg1 == Nil then lib.create(tr, ObjFamily, CreateParent(t), CreateCopy(t)) else ToPointer(arg1))
  {
  }

  /** The constructor runs exactly once for a nil argument 1 and never otherwise. */
  lemma ObjSetCreatesOnce(lib: Library, tr: seq<NativeCall>, arg1: LuaValue, t: LuaTable)
    ensures Creations(ObjSetCalls(lib, tr, arg1, t))
      == if arg1 == Nil then [Create(ObjFamily, CreateParent(t), CreateCopy(t))] else []
    ensures CreateParent(t) == (if Field(t, "parent").LightUd? then Field(t, "parent").p else NULL)
    ensures CreateCopy(t) == (if Field(t, "copy").LightUd? then Field(t, "copy").p else NULL)
  {
    var setters := ObjSetters(lib, tr, arg1, t);
    RunSound(lib, tr + Creation(ObjFamily, arg1, t), t, Target(lib, tr, ObjFamily, arg1, t), arg1 == Nil, ObjSteps);
    CreationsNone(setters);
    CreationsAppend(Creation(ObjFamily, arg1, t), setters);
  }

  /** Every setter call targets the object being configured. */
  lemma ObjSetTargets(lib: Library, tr: seq<NativeCall>, arg1: LuaValue, t: LuaTable)
    ensures forall c :: c in ObjSetters(lib, tr, arg1, t) ==> c.Call? && c.obj == Target(lib, tr, ObjFamily, arg1, t)
  {
    var obj := Target(lib, tr, ObjFamily, arg1, t);
    RunSound(lib, tr + Creation(ObjFamily, arg1, t), t, obj, arg1 == Nil, ObjSteps);
  }

  /**
   * A field's setter runs iff its accessor found the field with the right
   * kind (the parent only on a just-created object), and it gets the value read.
   */
  lemma ObjSetGating(lib: Library, tr: seq<NativeCall>, arg1: LuaValue, t: LuaTable, k: nat)
    requires k < |ObjSteps|
    ensures ObjSteps[k].fn in Called(ObjSetCalls(lib, tr, arg1, t))
      <==> HasKind(Field(t, ObjSteps[k].name), ObjSteps[k].kind) && (ObjSteps[k].fn == ObjSetParent ==> arg1 == Nil)
    ensures forall c :: c in ObjSetCalls(lib, tr, arg1, t) && c.Call? && c.fn == ObjSteps[k].fn ==>
      c == Call(ObjSteps[k].fn, Target(lib, tr, ObjFamily, arg1, t), [Value(t, ObjSteps[k])])
  {
    var obj := Target(lib, tr, ObjFamily, arg1, t);
    var setters := ObjSetters(lib, tr, arg1, t);
    ObjStepsAscending();
    RunGating(lib, tr + Creation(ObjFamily, arg1, t), t, obj, arg1 == Nil, ObjSteps, k);
    assert Called(ObjSetCalls(lib, tr, arg1, t)) == Called(setters);
  }

  /** The re-parent call happens only on an object created by this very call: an existing handle is never re-parented. */
  lemma ObjSetReparent(lib: Library, tr: seq<NativeCall>, arg1: LuaValue, t: LuaTable)
    ensures ObjSetParent in Called(ObjSetCalls(lib, tr, arg1, t)) <==> arg1 == Nil && Field(t, "parent").LightUd?
  {
    ObjSetGating(lib, tr, arg1, t, 11);
  }

  /** Setters run in the fixed order width, height, x, y, free_num, hidden, click, top, drag, drag_throw, drag_parent, parent, style, free_ptr. */
  lemma ObjSetOrder(lib: Library, tr: seq<NativeCall>, arg1: LuaValue, t: LuaTable)
    ensures InOrder(ObjSetters(lib, tr, arg1, t))
  {
    ObjStepsAscending();
    RunOrder(lib, tr + Creation(ObjFamily, arg1, t), t, Target(lib, tr, ObjFamily, arg1, t), arg1 == Nil, ObjSteps);
  }

  /** A key the setter does not read changes neither the native calls nor the stack. */
  lemma ObjSetIgnoresUnknownKeys(lib: Library, tr: seq<NativeCall>, arg1: LuaValue, t: LuaTable, key: string, v: LuaValue)
    requires key !in ObjKeys
    ensures var t' := LuaTable(t.fields[key := v], t.items);
      ObjSetCalls(lib, tr, arg1, t') == ObjSetCalls(lib, tr, arg1, t)
      && ObjSetPushes(lib, tr, arg1, t') == ObjSetPushes(lib, tr, arg1, t)
  {
    var t' := LuaTable(t.fields[key := v], t.items);
    assert Field(t', "parent") == Field(t, "parent") && Field(t', "copy") == Field(t, "copy");
    assert forall k :: 0 <= k < |ObjSteps| ==> Field(t', ObjSteps[k].name) == Field(t, ObjSteps[k].name);
    RunLocal(lib, tr + Creation(ObjFamily, arg1, t), t', t, Target(lib, tr, ObjFamily, arg1, t), arg1 == Nil, ObjSteps);
  }

  /**
   * On an existing handle the setter calls depend on the table alone: a
   * second call with the same table repeats exactly the same calls.
   */
  lemma ObjSetRepeatable(lib1: Library, lib2: Library, tr1: seq<NativeCall>, tr2: seq<NativeCall>, arg1: LuaValue, t: LuaTable)
    requires arg1 != Nil
    ensures ObjSetCalls(lib1, tr1, arg1, t) == ObjSetCalls(lib2, tr2, arg1, t)
    ensures Creations(ObjSetCalls(lib1, tr1, arg1, t)) == []
  {
    assert forall k :: 0 <= k < |ObjSteps| ==> Plain(ObjSteps[k]);
    RunPlain(lib1, lib2, tr1 + Creation(ObjFamily, arg1, t), tr2 + Creation(ObjFamily, arg1, t), t, ToPointer(arg1), false, ObjSteps);
    ObjSetCreatesOnce(lib1, tr1, arg1, t);
  }

  /** `lua_lv_obj_get_core`: the value pushed for a recognised name, None for any other. */
  function CoreGet(lib: Library, tr: seq<NativeCall>, obj: Handle, par: string): Option<LuaValue>
  {
    if SameCName(par, "width") then Some(Num(lib.intOf(tr, obj, ObjGetWidth)))
    else if SameCName(par, "height") then Some(Num(lib.intOf(tr, obj, ObjGetHeight)))
    else if SameCName(par, "x") then Some(Num(lib.intOf(tr, obj, ObjGetX)))
    else if SameCName(par, "y") then Some(Num(lib.intOf(tr, obj, ObjGetY)))
    else if SameCName(par, "free_num") then Some(Num(lib.intOf(tr, obj, ObjGetFreeNum)))
    else if SameCName(par, "hidden") then Some(Bool(lib.boolOf(tr, obj, ObjGetHidden)))
    else if SameCName(par, "click") then Some(Bool(lib.boolOf(tr, obj, ObjGetClick)))
    else if SameCName(par, "drag") then Some(Bool(lib.boolOf(tr, obj, ObjGetDrag)))
    else if SameCName(par, "drag_throw") then Some(Bool(lib.boolOf(tr, obj, ObjGetDragThrow)))
    else if SameCName(par, "drag_parent") then Some(Bool(lib.boolOf(tr, obj, ObjGetDragParent)))
    else if SameCName(par, "free_ptr") then Some(LightUd(lib.ptrOf(tr, obj, ObjGetFreePtr)))
    else if SameCName(par, "style") then Some(LightUd(lib.ptrOf(tr, obj, ObjGetStyle)))
    else None
  }

  /** A name is recognised iff its C string is one of `ObjGettable`. */
  lemma CoreGetRecognises(lib: Library, tr: seq<NativeCall>, obj: Handle, par: string)
    ensures CoreGet(lib, tr, obj, par).Some? <==> CText(par) in ObjGettable
  {
    CoreGetSeesCText(lib, tr, obj, par);
    CoreGetNames(lib, tr, obj, CText(par));
  }

  /** On a name without NUL, `strcmp` is equality: exactly the names of `ObjGettable` are recognised. */
  lemma CoreGetNames(lib: Library, tr: seq<NativeCall>, obj: Handle, par: CStr)
    ensures CoreGet(lib, tr, obj, par).Some? <==> par in ObjGettable
  {
    SameCNameOfCStr(par);
  }

  /**
   * Every readable name is a settable one, of the kind the setter reads, and
   * the only write-only fields are `top` and `parent`.
   */
  lemma ObjGetMatchesSet(lib: Library, tr: seq<NativeCall>, obj: Handle, k: nat)
    requires k < |ObjSteps|
    ensures CoreGet(lib, tr, obj, ObjSteps[k].name).None? <==> ObjSteps[k].name in {"top", "parent"}
    ensures CoreGet(lib, tr, obj, ObjSteps[k].name).Some? ==>
      HasKind(CoreGet(lib, tr, obj, ObjSteps[k].name).value, ObjSteps[k].kind)
    ensures forall par :: par in ObjGettable ==> exists j :: 0 <= j < |ObjSteps| && ObjSteps[j].name == par
  {
    SameCNameOfCStr(ObjSteps[k].name);
    assert forall par :: par in ObjGettable ==>
      par in {ObjSteps[0].name, ObjSteps[1].name, ObjSteps[2].name, ObjSteps[3].name, ObjSteps[4].name,
              ObjSteps[5].name, ObjSteps[6].name, ObjSteps[8].name, ObjSteps[9].name, ObjSteps[10].name,
              ObjSteps[12].name, ObjSteps[13].name};
  }

  /**
   * Round trip: a value read with `lv_obj_get`, written back under the same
   * name, is found by the setter's accessor and handed to the setter
   * unchanged, except that an integer is cut to a C `int` on the way.
   */
  lemma ObjGetSetRoundTrip(lib: Library, tr: seq<NativeCall>, obj: Handle, k: nat, created: bool)
    requires k < |ObjSteps|
    requires CoreGet(lib, tr, obj, ObjSteps[k].name).Some?
    ensures var v := CoreGet(lib, tr, obj, ObjSteps[k].name).value;
      var t := LuaTable(map[ObjSteps[k].name := v], []);
      Fires(t, created, ObjSteps[k]) && Lift(Value(t, ObjSteps[k])) == (if v.Num? then Num(ToCInt(v.n)) else v)
  {
    ObjGetMatchesSet(lib, tr, obj, k);
  }

  /** `lua_lv_obj_get_core` on `obj` as a getter dispatch. */
  function CoreLookup(lib: Library, tr: seq<NativeCall>, obj: Handle): Lookup
  {
    par => CoreGet(lib, tr, obj, par)
  }

  /** The results of `lua_lv_obj_get` on `obj`, when the shared getter pushes on the calling state. */
  function ObjGetResults(lib: Library, tr: seq<NativeCall>, obj: Handle, t: LuaTable): seq<LuaValue>
  {
    Answers(NoOwn(), CoreLookup(lib, tr, obj), t)
  }

  /** `{"width", "bogus", "height"}` gives three results: the width, nil, the height. */
  lemma ObjGetExample(lib: Library, tr: seq<NativeCall>, obj: Handle)
    ensures ObjGetResults(lib, tr, obj, LuaTable(map[], [Str("width"), Str("bogus"), Str("height")]))
      == [Num(lib.intOf(tr, obj, ObjGetWidth)), Nil, Num(lib.intOf(tr, obj, ObjGetHeight))]
  {
    var t := LuaTable(map[], [Str("width"), Str("bogus"), Str("height")]);
    assert ListLength(t) == 3;
  }

  /**
   * `lua_lv_obj_get_core` compares with `strcmp`, so it sees only the C
   * string of `par`: what follows an embedded NUL makes no difference.
   */
  lemma CoreGetSeesCText(lib: Library, tr: seq<NativeCall>, obj: Handle, par: string)
    ensures CoreGet(lib, tr, obj, par) == CoreGet(lib, tr, obj, CText(par))
  {
    ObjGettableAreCStrs();
    SameCNamesSeeCText(par, ObjGettable);
  }

  /** No recognised name holds a NUL. */
  lemma ObjGettableAreCStrs()
    ensures forall name :: name in ObjGettable ==> '\0' !in name
  {
  }

  /** So `"width\0tail"` reads the width, and a name with a tail is recognised iff the name is. */
  lemma CoreLookupCutsAtNul(lib: Library, tr: seq<NativeCall>, obj: Handle, name: CStr, tail: string)
    ensures CoreLookup(lib, tr, obj)(name + "\0" + tail) == CoreGet(lib, tr, obj, name)
    ensures CoreLookup(lib, tr, obj)(name + "\0" + tail).Some? <==> name in ObjGettable
  {
    CTextCut(name, tail);
    CoreGetSeesCText(lib, tr, obj, name + "\0" + tail);
    CoreGetRecognises(lib, tr, obj, name);
  }
}
