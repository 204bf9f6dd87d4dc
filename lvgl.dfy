/**
 * The widget library as the bindings use it. Nothing here models what a
 * widget does: every constructor or setter the bindings invoke becomes a
 * `NativeCall` appended to a trace, and every value the library hands back
 * (a created handle, a getter's result) is given by a `Library` oracle as a
 * function of the calls made so far. A string getter may return NULL (None);
 * any string it does return is a C string. The integer getters may answer
 * any integer: the return types the widget library declares are not modelled.
 */
module Lvgl {
  import opened LuaValues

  /** The object kinds whose constructors the bindings call. */
  datatype Family = ObjFamily | BtnFamily | DdlistFamily

  /** `LV_BTN_ACTION_*`: which button event a Lua action name is attached to. */
  datatype BtnAction = ActionPr | ActionClick | ActionLongPr | ActionLongPrRepeat

  /** `LV_BTN_STYLE_*`: the button's per-state style slots. */
  datatype BtnStyle = StyleRel | StylePr | StyleTglRel | StyleTglPr | StyleIna

  /** `LV_DDLIST_STYLE_*`: the drop-down list's style parts. */
  datatype DdlistStyle = StyleBg | StyleSel | StyleSb

  /** The native setters the bindings call, one constructor per C function (and slot). */
  datatype NativeFn =
    | ObjSetWidth | ObjSetHeight | ObjSetX | ObjSetY | ObjSetFreeNum
    | ObjSetHidden | ObjSetClick | ObjSetTop | ObjSetDrag | ObjSetDragThrow | ObjSetDragParent
    | ObjSetParent | ObjSetStyle | ObjSetFreePtr
    | BtnSetToggle | BtnSetState | BtnSetLuaAction(action: BtnAction) | BtnSetLayout
    | BtnSetFit | BtnSetStyle(slot: BtnStyle)
    | DdlistSetOptions | DdlistSetSelected | DdlistSetFixHeight | DdlistSetHorFit
    | DdlistSetSbMode | DdlistSetAnimTime | DdlistSetStyle(part: DdlistStyle)

  /** The family whose API a setter belongs to (`lv_obj_*`, `lv_btn_*`, `lv_ddlist_*`). */
  function FamilyOf(fn: NativeFn): Family
  {
    match fn
    case BtnSetToggle | BtnSetState | BtnSetLuaAction(_) | BtnSetLayout | BtnSetFit | BtnSetStyle(_) => BtnFamily
    case DdlistSetOptions | DdlistSetSelected | DdlistSetFixHeight | DdlistSetHorFit
      | DdlistSetSbMode | DdlistSetAnimTime | DdlistSetStyle(_) => DdlistFamily
    case _ => ObjFamily
  }

  /**
   * The position of each setter in the source: `lua_lv_obj_set`'s lines are
   * 0 .. 13, the button lines follow, then the drop-down list lines.
   */
  function Rank(fn: NativeFn): nat
  {
    match fn
    case ObjSetWidth => 0
    case ObjSetHeight => 1
    case ObjSetX => 2
    case ObjSetY => 3
    case ObjSetFreeNum => 4
    case ObjSetHidden => 5
    case ObjSetClick => 6
    case ObjSetTop => 7
    case ObjSetDrag => 8
    case ObjSetDragThrow => 9
    case ObjSetDragParent => 10
    case ObjSetParent => 11
    case ObjSetStyle => 12
    case ObjSetFreePtr => 13
    case BtnSetToggle => 14
    case BtnSetState => 15
    case BtnSetLuaAction(a) => 16 + (match a case ActionPr => 0 case ActionClick => 1 case ActionLongPr => 2 case ActionLongPrRepeat => 3)
    case BtnSetLayout => 20
    case BtnSetFit => 21
    case BtnSetStyle(_) => 22
    case DdlistSetOptions => 23
    case DdlistSetSelected => 24
    case DdlistSetFixHeight => 25
    case DdlistSetHorFit => 26
    case DdlistSetSbMode => 27
    case DdlistSetAnimTime => 28
    case DdlistSetStyle(p) => 29 + (match p case StyleBg => 0 case StyleSel => 1 case StyleSb => 2)
  }

  /** One invocation of the widget library, with its arguments. */
  datatype NativeCall =
    | Create(family: Family, parent: Handle, copy: Handle)
    | Call(fn: NativeFn, obj: Handle, args: seq<Arg>)

  /** The native getters the bindings read. */
  datatype Getter =
    | ObjGetWidth | ObjGetHeight | ObjGetX | ObjGetY | ObjGetFreeNum
    | ObjGetHidden | ObjGetClick | ObjGetDrag | ObjGetDragThrow | ObjGetDragParent
    | ObjGetFreePtr | ObjGetStyle
    | BtnGetState | BtnGetToggle | BtnGetLuaAction(action: BtnAction) | BtnGetLayout
    | BtnGetHorFit | BtnGetVerFit | BtnGetStyle(slot: BtnStyle)

  /**
   * The library's answers, as functions of the calls made before the
   * question: the handle a constructor returns and the value of each getter.
   */
  datatype Library = Library(
    create: (seq<NativeCall>, Family, Handle, Handle) -> Handle,
    intOf: (seq<NativeCall>, Handle, Getter) -> int,
    boolOf: (seq<NativeCall>, Handle, Getter) -> bool,
    ptrOf: (seq<NativeCall>, Handle, Getter) -> Handle,
    strOf: (seq<NativeCall>, Handle, Getter) -> Option<CStr>)

  /** The setters a trace invokes. */
  function Called(calls: seq<NativeCall>): set<NativeFn>
  {
    set c | c in calls && c.Call? :: c.fn
  }

  /** The constructor calls of a trace, in order. */
  function Creations(calls: seq<NativeCall>): (r: seq<NativeCall>)
    ensures |r| <= |calls|
    ensures forall c :: c in r ==> c.Create? && c in calls
    ensures forall c :: c in calls && c.Create? ==> c in r
  {
    if calls == [] then []
    else (if calls[0].Create? then [calls[0]] else []) + Creations(calls[1..])
  }

  /** The calls of setter `fn` in a trace, in order. */
  function Only(calls: seq<NativeCall>, fn: NativeFn): seq<NativeCall>
  {
    if calls == [] then []
    else (if calls[0].Call? && calls[0].fn == fn then [calls[0]] else []) + Only(calls[1..], fn)
  }

  lemma {:induction false} OnlyAppend(a: seq<NativeCall>, b: seq<NativeCall>, fn: NativeFn)
    ensures Only(a + b, fn) == Only(a, fn) + Only(b, fn)
  {
    if a != [] {
      assert (a + b)[1..] == a[1..] + b;
      OnlyAppend(a[1..], b, fn);
    } else {
      assert a + b == b;
    }
  }

  /** A trace that never calls `fn` filters to nothing. */
  lemma {:induction false} OnlyNone(calls: seq<NativeCall>, fn: NativeFn)
    requires forall c :: c in calls && c.Call? ==> c.fn != fn
    ensures Only(calls, fn) == []
  {
    if calls != [] {
      assert forall c :: c in calls[1..] ==> c in calls;
      OnlyNone(calls[1..], fn);
    }
  }

  /** The setters of a concatenation are those of its parts. */
  lemma CalledAppend(a: seq<NativeCall>, b: seq<NativeCall>)
    ensures Called(a + b) == Called(a) + Called(b)
  {
  }

  /** A trace whose setters all belong to one family calls nothing of another. */
  lemma CalledFamily(calls: seq<NativeCall>, f: Family)
    requires forall c :: c in calls && c.Call? ==> FamilyOf(c.fn) == f
    ensures forall fn :: fn in Called(calls) ==> FamilyOf(fn) == f
  {
  }

  lemma {:induction false} CreationsAppend(a: seq<NativeCall>, b: seq<NativeCall>)
    ensures Creations(a + b) == Creations(a) + Creations(b)
  {
    if a != [] {
      assert (a + b)[1..] == a[1..] + b;
      CreationsAppend(a[1..], b);
    } else {
      assert a + b == b;
    }
  }

  lemma {:induction false} CreationsNone(calls: seq<NativeCall>)
    requires forall c :: c in calls ==> c.Call?
    ensures Creations(calls) == []
  {
    if calls != [] {
      CreationsNone(calls[1..]);
    }
  }
}
