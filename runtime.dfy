/**
 * The bindings as they run against a Lua state: a value stack, a globals
 * table and the trace of native calls, changed step by step by the Lua API
 * primitives the C code uses. Each binding is proved to leave exactly the
 * stack and the trace that the family's specification functions describe.
 */
module LuaRuntime {
  import opened LuaValues
  import opened Lvgl
  import opened FieldSteps
  import opened NameLists
  import opened ObjBinding
  import opened BtnBinding
  import opened DdlistBinding

  /** The globals after a sequence of `lua_setglobal` writes, applied in order. */
  function Registered(g: map<string, LuaValue>, writes: seq<(string, LuaValue)>): map<string, LuaValue>
    decreases |writes|
  {
    if writes == [] then g
    else Registered(g, writes[..|writes| - 1])[writes[|writes| - 1].0 := writes[|writes| - 1].1]
  }

  /** A later registration under a name overwrites every earlier one. */
  lemma {:induction false} RegisteredLastWins(g: map<string, LuaValue>, writes: seq<(string, LuaValue)>, i: nat)
    requires i < |writes|
    requires forall j :: i < j < |writes| ==> writes[j].0 != writes[i].0
    ensures writes[i].0 in Registered(g, writes) && Registered(g, writes)[writes[i].0] == writes[i].1
    decreases |writes|
  {
    var n := |writes| - 1;
    if i < n {
      var front := writes[..n];
      assert forall j :: i < j < |front| ==> front[j] == writes[j];
      RegisteredLastWins(g, front, i);
      assert front[i] == writes[i];
    }
  }

  /** A name nobody registers keeps whatever the globals held before. */
  lemma {:induction false} RegisteredUntouched(g: map<string, LuaValue>, writes: seq<(string, LuaValue)>, name: string)
    requires forall j :: 0 <= j < |writes| ==> writes[j].0 != name
    ensures (name in Registered(g, writes)) == (name in g)
    ensures name in g ==> Registered(g, writes)[name] == g[name]
    decreases |writes|
  {
    if writes != [] {
      var front := writes[..|writes| - 1];
      assert forall j :: 0 <= j < |front| ==> front[j] == writes[j];
      RegisteredUntouched(g, front, name);
    }
  }

  /** `lua_replace(L, -2)` on a stack ending in two values keeps the top one in place of the other. */
  lemma ReplaceBelowTop<T>(below: seq<T>, x: T, y: T, s: seq<T>)
    requires s == (below + [x] + [y])[|below| := y][..|below| + 1]
    ensures s == below + [y]
  {
  }

  /** `lua_replace(L, -2)` with the name on top and nothing pushed above it: the name moves down one slot. */
  lemma ReplaceNameDown<T>(mine: seq<T>, x: T, s: seq<T>)
    requires |mine| >= 1 && s == (mine + [x])[|mine| - 1 := x][..|mine|]
    ensures s == mine[..|mine| - 1] + [x]
  {
  }

  /** Regrouping a concatenation. */
  lemma Regroup3<T>(x: seq<T>, a: seq<T>, b: seq<T>, c: seq<T>)
    ensures x + a + b + c == x + (a + b + c)
  {
  }

  /** Regrouping a concatenation. */
  lemma Regroup<T>(x: seq<T>, a: seq<T>, b: seq<T>, c: seq<T>, d: seq<T>)
    ensures x + a + b + c + d == x + (a + b + c + d)
  {
  }

  /** The creation block followed by the field lines is the whole of `lua_lv_obj_set`'s calls and pushes. */
  lemma ObjSetComposes(lib: Library, tr: seq<NativeCall>, st: seq<LuaValue>, arg1: LuaValue, t: LuaTable, obj: Handle,
                       tr1: seq<NativeCall>, st1: seq<LuaValue>, tr2: seq<NativeCall>, st2: seq<LuaValue>)
    requires obj == Target(lib, tr, ObjFamily, arg1, t)
    requires tr1 == tr + Creation(ObjFamily, arg1, t) && st1 == st + CreationPushes(arg1, t)
    requires tr2 == tr1 + Run(lib, tr1, t, obj, arg1 == Nil, ObjSteps)
    requires st2 == st1 + Fetched(t, ObjSteps) + [LightUd(obj)]
    ensures tr2 == tr + ObjSetCalls(lib, tr, arg1, t)
    ensures st2 == st + ObjSetPushes(lib, tr, arg1, t)
  {
    Regroup3(tr, Creation(ObjFamily, arg1, t), ObjSetters(lib, tr, arg1, t), []);
    Regroup3(st, CreationPushes(arg1, t), Fetched(t, ObjSteps), [LightUd(obj)]);
  }

  /** A `lua_State`: its value stack, its globals, and the native calls made so far. */
  class LuaState {
    var stack: seq<LuaValue>
    var globals: map<string, LuaValue>
    var trace: seq<NativeCall>
    /** The widget library's answers. */
    const lib: Library

    constructor(lib: Library)
      ensures stack == [] && globals == map[] && trace == [] && this.lib == lib
    {
      stack := [];
      globals := map[];
      trace := [];
      this.lib := lib;
    }

    /** A stack index that names an element: 1 .. top from the bottom, -1 .. -top from the top. */
    predicate ValidIndex(idx: int)
      reads this
    {
      1 <= idx <= |stack| || -|stack| <= idx <= -1
    }

    /** The position in `stack` of a valid stack index. */
    function Slot(idx: int): (r: nat)
      requires ValidIndex(idx)
      reads this
      ensures r < |stack|
      ensures idx > 0 ==> r == idx - 1
      ensures idx < 0 ==> r == |stack| + idx
    {
      if idx > 0 then idx - 1 else |stack| + idx
    }

    function At(idx: int): LuaValue
      requires ValidIndex(idx)
      reads this
    {
      stack[Slot(idx)]
    }

    /** `lua_push*`. */
    method Push(v: LuaValue)
      modifies this
      ensures stack == old(stack) + [v]
      ensures globals == old(globals) && trace == old(trace)
    {
      stack := stack + [v];
    }

    /** `lua_pop(L, n)`. */
    method Pop(n: nat)
      requires n <= |stack|
      modifies this
      ensures stack == old(stack)[..|old(stack)| - n]
      ensures globals == old(globals) && trace == old(trace)
    {
      stack := stack[..|stack| - n];
    }

    /** `lua_replace(L, idx)`: the top value overwrites slot `idx` and is popped. */
    method Replace(idx: int)
      requires ValidIndex(idx)
      modifies this
      ensures stack == old(stack)[old(Slot(idx)) := old(stack)[|old(stack)| - 1]][..|old(stack)| - 1]
      ensures globals == old(globals) && trace == old(trace)
    {
      var top := stack[|stack| - 1];
      stack := stack[Slot(idx) := top][..|stack| - 1];
    }

    /** `lua_getfield(L, idx, k)` on a table. */
    method GetField(idx: int, k: string)
      requires ValidIndex(idx) && At(idx).Table?
      modifies this
      ensures stack == old(stack) + [Field(old(At(idx)).t, k)]
      ensures globals == old(globals) && trace == old(trace)
    {
      Push(Field(At(idx).t, k));
    }

    /** `lua_rawgeti(L, idx, i)` on a table. */
    method RawGetI(idx: int, i: int)
      requires ValidIndex(idx) && At(idx).Table?
      modifies this
      ensures stack == old(stack) + [Item(old(At(idx)).t, i)]
      ensures globals == old(globals) && trace == old(trace)
    {
      Push(Item(At(idx).t, i));
    }

    /** `lua_setglobal(L, name)`: pops the top value into the globals. */
    method SetGlobal(name: string)
      requires |stack| >= 1
      modifies this
      ensures globals == Registered(old(globals), [(name, old(stack)[|old(stack)| - 1])])
      ensures stack == old(stack)[..|old(stack)| - 1] && trace == old(trace)
    {
      globals := globals[name := stack[|stack| - 1]];
      stack := stack[..|stack| - 1];
    }

    /** A call into the widget library, appended to the trace. */
    method Native(c: NativeCall)
      modifies this
      ensures trace == old(trace) + [c]
      ensures stack == old(stack) && globals == old(globals)
    {
      trace := trace + [c];
    }

    /** `lv_<family>_create(parent, copy)`. */
    method NativeCreate(family: Family, parent: Handle, copy: Handle) returns (h: Handle)
      modifies this
      ensures h == lib.create(old(trace), family, parent, copy)
      ensures trace == old(trace) + [Create(family, parent, copy)]
      ensures stack == old(stack) && globals == old(globals)
    {
      h := lib.create(trace, family, parent, copy);
      Native(Create(family, parent, copy));
    }

    /** A boolean getter of the widget library. */
    method NativeBool(obj: Handle, g: Getter) returns (b: bool)
      ensures b == lib.boolOf(trace, obj, g)
    {
      b := lib.boolOf(trace, obj, g);
    }

    /** `lv_lua_get_table_int`: pushes the field, stores it as a C int iff it is a number. */
    method GetTableInt(idx: int, field: string) returns (found: bool, res: CInt)
      requires ValidIndex(idx) && At(idx).Table?
      modifies this
      ensures stack == old(stack) + [Field(old(At(idx)).t, field)]
      ensures Read(found, IntArg(res)) == ReadAs(Field(old(At(idx)).t, field), IntKind)
      ensures globals == old(globals) && trace == old(trace)
    {
      GetField(idx, field);
      var v := stack[|stack| - 1];
      if v.Num? {
        res := ToCInt(v.n);
        found := true;
      } else {
        res := 0;
        found := false;
      }
    }

    /** `lv_lua_get_table_bool`: pushes the field, stores it iff it is a boolean. */
    method GetTableBool(idx: int, field: string) returns (found: bool, res: bool)
      requires ValidIndex(idx) && At(idx).Table?
      modifies this
      ensures stack == old(stack) + [Field(old(At(idx)).t, field)]
      ensures Read(found, BoolArg(res)) == ReadAs(Field(old(At(idx)).t, field), BoolKind)
      ensures globals == old(globals) && trace == old(trace)
    {
      GetField(idx, field);
      var v := stack[|stack| - 1];
      if v.Bool? {
        res := v.b;
        found := true;
      } else {
        res := false;
        found := false;
      }
    }

    /** `lv_lua_get_table_ptr`: pushes the field, stores it iff it is a light userdata. */
    method GetTablePtr(idx: int, field: string) returns (found: bool, res: Handle)
      requires ValidIndex(idx) && At(idx).Table?
      modifies this
      ensures stack == old(stack) + [Field(old(At(idx)).t, field)]
      ensures Read(found, PtrArg(res)) == ReadAs(Field(old(At(idx)).t, field), PtrKind)
      ensures globals == old(globals) && trace == old(trace)
    {
      GetField(idx, field);
      var v := stack[|stack| - 1];
      if v.LightUd? {
        res := v.p;
        found := true;
      } else {
        res := NULL;
        found := false;
      }
    }

    /** `lv_lua_get_table_str`: pushes the field, stores its C string iff it is a string. */
    method GetTableStr(idx: int, field: string) returns (found: bool, res: CStr)
      requires ValidIndex(idx) && At(idx).Table?
      modifies this
      ensures stack == old(stack) + [Field(old(At(idx)).t, field)]
      ensures Read(found, StrArg(res)) == ReadAs(Field(old(At(idx)).t, field), StrKind)
      ensures globals == old(globals) && trace == old(trace)
    {
      GetField(idx, field);
      var v := stack[|stack| - 1];
      if v.Str? {
        res := CText(v.s);
        found := true;
      } else {
        res := "";
        found := false;
      }
    }

    /** The accessor a field line uses, chosen by the kind it reads. */
    method GetTable(idx: int, field: string, kind: Kind) returns (r: Read)
      requires ValidIndex(idx) && At(idx).Table?
      modifies this
      ensures stack == old(stack) + [Field(old(At(idx)).t, field)]
      ensures r == ReadAs(Field(old(At(idx)).t, field), kind)
      ensures globals == old(globals) && trace == old(trace)
    {
      match kind {
        case IntKind =>
          var found, res := GetTableInt(idx, field);
          r := Read(found, IntArg(res));
        case BoolKind =>
          var found, res := GetTableBool(idx, field);
          r := Read(found, BoolArg(res));
        case PtrKind =>
          var found, res := GetTablePtr(idx, field);
          r := Read(found, PtrArg(res));
        case StrKind =>
          var found, res := GetTableStr(idx, field);
          r := Read(found, StrArg(res));
      }
    }

    /**
     * One field line `if(lv_lua_get_table_<kind>(L, 2, name, &res)) fn(obj, res);`,
     * the k-th of its table: the trace and the stack advance by one step of `Run` and `Fetched`.
     */
    method ApplyStep(steps: seq<Step>, k: nat, t: LuaTable, obj: Handle, created: bool,
                     ghost tr0: seq<NativeCall>, ghost st0: seq<LuaValue>)
      requires k < |steps| && |st0| >= 2 && st0[1] == Table(t)
      requires trace == tr0 + Run(lib, tr0, t, obj, created, steps[..k])
      requires stack == st0 + Fetched(t, steps[..k])
      modifies this
      ensures trace == tr0 + Run(lib, tr0, t, obj, created, steps[..k + 1])
      ensures stack == st0 + Fetched(t, steps[..k + 1])
      ensures globals == old(globals)
    {
      var s := steps[k];
      RunSnoc(lib, tr0, t, obj, created, steps, k);
      var r := GetTable(2, s.name, s.kind);
      Invoke(t, obj, created, s, r);
    }

    /** The setter call of one field line, given what its accessor returned. */
    method Invoke(t: LuaTable, obj: Handle, created: bool, s: Step, r: Read)
      requires r == ReadAs(Field(t, s.name), s.kind)
      modifies this
      ensures trace == old(trace) + Emit(lib, old(trace), t, obj, created, s)
      ensures stack == old(stack) && globals == old(globals)
    {
      if r.found && (s.how == IfCreated ==> created) {
        match s.how {
          case FitHor =>
            var ver := NativeBool(obj, BtnGetVerFit);
            Native(Call(s.fn, obj, [r.arg, BoolArg(ver)]));
          case FitVer =>
            var hor := NativeBool(obj, BtnGetHorFit);
            Native(Call(s.fn, obj, [BoolArg(hor), r.arg]));
          case _ =>
            Native(Call(s.fn, obj, [r.arg]));
        }
      }
    }

    /** Lines 160-176 of `lua_lv_obj_set`: the fourteen field lines on `obj`, in order. */
    method ObjFields(t: LuaTable, obj: Handle, created: bool)
      requires |stack| >= 2 && stack[1] == Table(t)
      modifies this
      ensures trace == old(trace) + Run(lib, old(trace), t, obj, created, ObjSteps)
      ensures stack == old(stack) + Fetched(t, ObjSteps)
      ensures globals == old(globals)
    {
      ghost var tr0 := trace;
      ghost var st0 := stack;
      assert ObjSteps[..0] == [];
      ApplyStep(ObjSteps, 0, t, obj, created, tr0, st0);
      ApplyStep(ObjSteps, 1, t, obj, created, tr0, st0);
      ApplyStep(ObjSteps, 2, t, obj, created, tr0, st0);
      ApplyStep(ObjSteps, 3, t, obj, created, tr0, st0);
      ApplyStep(ObjSteps, 4, t, obj, created, tr0, st0);
      ApplyStep(ObjSteps, 5, t, obj, created, tr0, st0);
      ApplyStep(ObjSteps, 6, t, obj, created, tr0, st0);
      ApplyStep(ObjSteps, 7, t, obj, created, tr0, st0);
      ApplyStep(ObjSteps, 8, t, obj, created, tr0, st0);
      ApplyStep(ObjSteps, 9, t, obj, created, tr0, st0);
      ApplyStep(ObjSteps, 10, t, obj, created, tr0, st0);
      ApplyStep(ObjSteps, 11, t, obj, created, tr0, st0);
      ApplyStep(ObjSteps, 12, t, obj, created, tr0, st0);
      ApplyStep(ObjSteps, 13, t, obj, created, tr0, st0);
      TakeAll(ObjSteps);
    }

    /**
     * The creation block of the setters: when argument 1 is nil, read
     * `parent` and `copy` and create the object; `lua_lv_btn_set` also writes
     * the new button over the nil in stack slot 1.
     */
    method CreateIfNil(family: Family, writeBack: bool) returns (obj: Handle, created: bool)
      requires |stack| >= 2 && stack[1].Table?
      modifies this
      ensures created == (old(stack)[0] == Nil)
      ensures obj == Target(lib, old(trace), family, old(stack)[0], old(stack)[1].t)
      ensures trace == old(trace) + Creation(family, old(stack)[0], old(stack)[1].t)
      ensures stack == (if writeBack && created then [LightUd(obj)] + old(stack)[1..] else old(stack))
        + CreationPushes(old(stack)[0], old(stack)[1].t)
      ensures globals == old(globals)
    {
      obj := ToPointer(stack[0]);
      created := false;
      if stack[0] == Nil {
        var t := stack[1].t;
        var _, parent := GetTablePtr(2, "parent");
        var _, copy := GetTablePtr(2, "copy");
        assert parent == CreateParent(t) && copy == CreateCopy(t);
        obj := NativeCreate(family, parent, copy);
        created := true;
        if writeBack {
          Push(LightUd(obj));
          Replace(1);
        }
      }
    }

    /** `lua_lv_obj_set`: create the object if argument 1 is nil, apply the found fields, return the object. */
    method ObjSet() returns (n: int)
      requires |stack| >= 2 && stack[1].Table?
      modifies this
      ensures n == 1
      ensures trace == old(trace) + ObjSetCalls(lib, old(trace), old(stack)[0], old(stack)[1].t)
      ensures stack == old(stack) + ObjSetPushes(lib, old(trace), old(stack)[0], old(stack)[1].t)
      ensures globals == old(globals)
    {
      var t := stack[1].t;
      ghost var arg1 := stack[0];
      var obj, created := CreateIfNil(ObjFamily, false);
      ghost var tr1, st1 := trace, stack;
      ObjFields(t, obj, created);
      Push(LightUd(obj));
      ObjSetComposes(lib, old(trace), old(stack), arg1, t, obj, tr1, st1, trace, stack);
      n := 1;
    }

    /** Lines 398-411 of `lua_lv_btn_set`: the fourteen button field lines on `btn`, in order. */
    method BtnFields(t: LuaTable, btn: Handle)
      requires |stack| >= 2 && stack[1] == Table(t)
      modifies this
      ensures trace == old(trace) + Run(lib, old(trace), t, btn, false, BtnSteps)
      ensures stack == old(stack) + Fetched(t, BtnSteps)
      ensures globals == old(globals)
    {
      ghost var tr0 := trace;
      ghost var st0 := stack;
      assert BtnSteps[..0] == [];
      ApplyStep(BtnSteps, 0, t, btn, false, tr0, st0);
      ApplyStep(BtnSteps, 1, t, btn, false, tr0, st0);
      ApplyStep(BtnSteps, 2, t, btn, false, tr0, st0);
      ApplyStep(BtnSteps, 3, t, btn, false, tr0, st0);
      ApplyStep(BtnSteps, 4, t, btn, false, tr0, st0);
      ApplyStep(BtnSteps, 5, t, btn, false, tr0, st0);
      ApplyStep(BtnSteps, 6, t, btn, false, tr0, st0);
      ApplyStep(BtnSteps, 7, t, btn, false, tr0, st0);
      ApplyStep(BtnSteps, 8, t, btn, false, tr0, st0);
      ApplyStep(BtnSteps, 9, t, btn, false, tr0, st0);
      ApplyStep(BtnSteps, 10, t, btn, false, tr0, st0);
      ApplyStep(BtnSteps, 11, t, btn, false, tr0, st0);
      ApplyStep(BtnSteps, 12, t, btn, false, tr0, st0);
      ApplyStep(BtnSteps, 13, t, btn, false, tr0, st0);
      TakeAll(BtnSteps);
    }

    /**
     * `lua_lv_btn_set`: create the button if argument 1 is nil and write it
     * into slot 1, run `lua_lv_obj_set` on it, apply the button fields, return the button.
     */
    method BtnSet() returns (n: int)
      requires |stack| >= 2 && stack[1].Table?
      modifies this
      ensures n == 1
      ensures trace == old(trace) + BtnSetCalls(lib, old(trace), old(stack)[0], old(stack)[1].t)
      ensures stack == [BtnSlot1(lib, old(trace), old(stack)[0], old(stack)[1].t)] + old(stack)[1..]
        + BtnSetPushes(lib, old(trace), old(stack)[0], old(stack)[1].t)
      ensures globals == old(globals)
    {
      var t := stack[1].t;
      var btn, _ := CreateIfNil(BtnFamily, true);
      ghost var arg1 := old(stack)[0];
      ghost var slot := BtnSlot1(lib, old(trace), arg1, t);
      ghost var made := Creation(BtnFamily, arg1, t);
      ghost var fetched := CreationPushes(arg1, t);
      ghost var tr1 := trace;
      ghost var st1 := stack;
      assert tr1 == old(trace) + made;
      assert st1 == [slot] + old(stack)[1..] + fetched;
      assert st1[0] == slot;
      var _ := ObjSet();
      ghost var base := ObjSetCalls(lib, tr1, slot, t);
      ghost var basePushed := ObjSetPushes(lib, tr1, slot, t);
      assert trace == tr1 + base && stack == st1 + basePushed;
      BtnFields(t, btn);
      ghost var own := Run(lib, tr1 + base, t, btn, false, BtnSteps);
      assert trace == tr1 + base + own;
      Push(LightUd(btn));
      assert BtnSetCalls(lib, old(trace), arg1, t) == made + base + own;
      Regroup3(old(trace), made, base, own);
      Regroup([slot] + old(stack)[1..], fetched, basePushed, Fetched(t, BtnSteps), [LightUd(btn)]);
      n := 1;
    }

    /** `lua_lv_ddlist_set`: apply the found fields to the list passed in; no result. */
    method DdlistSet() returns (n: int)
      requires |stack| >= 2 && stack[1].Table?
      modifies this
      ensures n == 0
      ensures trace == old(trace) + DdlistSetCalls(lib, old(trace), old(stack)[0], old(stack)[1].t)
      ensures stack == old(stack) + Fetched(old(stack)[1].t, DdlistSteps)
      ensures globals == old(globals)
    {
      var ddlist := ToPointer(stack[0]);
      var t := stack[1].t;
      ghost var tr0 := trace;
      ghost var st0 := stack;
      assert DdlistSteps[..0] == [];
      ApplyStep(DdlistSteps, 0, t, ddlist, false, tr0, st0);
      ApplyStep(DdlistSteps, 1, t, ddlist, false, tr0, st0);
      ApplyStep(DdlistSteps, 2, t, ddlist, false, tr0, st0);
      ApplyStep(DdlistSteps, 3, t, ddlist, false, tr0, st0);
      ApplyStep(DdlistSteps, 4, t, ddlist, false, tr0, st0);
      ApplyStep(DdlistSteps, 5, t, ddlist, false, tr0, st0);
      ApplyStep(DdlistSteps, 6, t, ddlist, false, tr0, st0);
      ApplyStep(DdlistSteps, 7, t, ddlist, false, tr0, st0);
      ApplyStep(DdlistSteps, 8, t, ddlist, false, tr0, st0);
      TakeAll(DdlistSteps);
      n := 0;
    }

    /** `lua_lv_ddlist_get`: returns no results and touches nothing. */
    method DdlistGet() returns (n: int)
      ensures n == 0
    {
      n := 0;
    }

    /** Where `lua_lv_obj_get_core` pushes while this state runs a getter binding. */
    function RouteOf(ctx: Context): Route
      reads ctx
    {
      if ctx.L == this then Here else if ctx.L == null then Nowhere else Elsewhere
    }

    /** The stack of the stored state, when that is another state. */
    function Theirs(ctx: Context): seq<LuaValue>
      reads ctx, ctx.L
    {
      if ctx.L != null && ctx.L != this then ctx.L.stack else []
    }

    /**
     * The body of `lua_lv_obj_get`'s loop for the name `par` on top of the
     * stack: `lua_lv_obj_get_core` pushes a recognised name's value on the
     * stored state, nil is pushed here otherwise, and the top of this stack
     * replaces the one below it. `defined` is false where C is undefined: a
     * name `lua_tostring` gives NULL for, or a recognised name with no stored state.
     */
    method ObjName(ctx: Context, obj: Handle, par: LuaValue) returns (defined: bool)
      requires |stack| >= 2 && stack[|stack| - 1] == par
      modifies this, ctx.L
      ensures var next := Turn(old(RouteOf(ctx)), NoOwn(), CoreLookup(lib, old(trace), obj),
        old(stack)[..|old(stack)| - 1], old(Theirs(ctx)), par);
        defined == next.Some? && (defined ==> stack == next.value.mine && Theirs(ctx) == next.value.theirs)
      ensures !defined ==> stack == old(stack) && Theirs(ctx) == old(Theirs(ctx))
      ensures trace == old(trace) && globals == old(globals)
      ensures ctx.L != null ==> ctx.L.trace == old(ctx.L.trace) && ctx.L.globals == old(ctx.L.globals)
    {
      ghost var mine := stack[..|stack| - 1];
      ghost var theirs := Theirs(ctx);
      ghost var next := Turn(RouteOf(ctx), NoOwn(), CoreLookup(lib, trace, obj), mine, theirs, par);
      assert stack == mine + [par];
      if !Named(par) {
        return false;
      }
      var matched := false;
      defined := true;
      if par.Str? {
        matched, defined := ctx.ObjGetCore(lib, trace, obj, par.s);
        if !defined {
          return;
        }
      }
      if !matched {
        assert next == Some(Stacks(mine + [Nil], theirs));
        Push(Nil);
        Replace(-2);
        ReplaceBelowTop(mine, par, Nil, stack);
        assert Theirs(ctx) == theirs;
      } else if ctx.L == this {
        ghost var v := CoreGet(lib, old(trace), obj, par.s).value;
        assert next == Some(Stacks(mine + [v], theirs));
        Replace(-2);
        ReplaceBelowTop(mine, par, v, stack);
        assert Theirs(ctx) == theirs;
      } else {
        ghost var v := CoreGet(lib, old(trace), obj, par.s).value;
        assert next == Some(Stacks(mine[..|mine| - 1] + [par], theirs + [v]));
        assert ctx.L.stack == theirs + [v];
        Replace(-2);
        ReplaceNameDown(mine, par, stack);
        assert Theirs(ctx) == theirs + [v];
      }
    }

    /**
     * `lua_lv_obj_get`: for each name `t[1], t[2], ...` up to the first nil,
     * the name's value replaces the name on the stack; returns the number of
     * names. The run follows `Finish`: on this state it pushes the results of
     * `ObjGetResults`, on another stored state it leaves them there instead.
     */
    method ObjGet(ctx: Context) returns (n: int, completed: bool)
      requires |stack| >= 2 && stack[1].Table?
      modifies this, ctx.L
      ensures var out := Finish(old(RouteOf(ctx)), NoOwn(), CoreLookup(lib, old(trace), ToPointer(old(stack)[0])),
        old(stack)[1].t, old(stack), old(Theirs(ctx)), 1);
        completed == out.completed && stack == out.mine && Theirs(ctx) == out.theirs
      ensures completed ==> n == ListLength(old(stack)[1].t)
      ensures var t := old(stack)[1].t;
        old(RouteOf(ctx)) == Here && (forall j :: 1 <= j <= ListLength(t) ==> Named(Item(t, j))) ==>
        completed && stack == old(stack) + ObjGetResults(lib, old(trace), ToPointer(old(stack)[0]), t)
      ensures trace == old(trace) && globals == old(globals)
      ensures ctx.L != null ==> ctx.L.trace == old(ctx.L.trace) && ctx.L.globals == old(ctx.L.globals)
    {
      var obj := ToPointer(stack[0]);
      var t := stack[1].t;
      ghost var route := RouteOf(ctx);
      ghost var own := NoOwn();
      ghost var core := CoreLookup(lib, trace, obj);
      ghost var out := Finish(route, own, core, t, stack, Theirs(ctx), 1);
      FinishFromStart(route, own, core, t, stack, Theirs(ctx));
      var parId := 1;
      completed := true;
      while true
        invariant 1 <= parId <= ListLength(t) + 1
        invariant |stack| >= 2 && (stack[1].Table? ==> stack[1] == Table(t))
        invariant Finish(route, own, core, t, stack, Theirs(ctx), parId) == out
        invariant trace == old(trace) && globals == old(globals)
        invariant ctx.L != null ==> ctx.L.trace == old(ctx.L.trace) && ctx.L.globals == old(ctx.L.globals)
        decreases ListLength(t) + 1 - parId
      {
        if !stack[1].Table? {
          completed := false;   // `lua_rawgeti` on slot 2 once a name has overwritten the list
          break;
        }
        ghost var mine := stack;
        RawGetI(2, parId);
        if stack[|stack| - 1] == Nil {
          Pop(1);
          break;
        }
        var par := stack[|stack| - 1];
        assert stack[..|stack| - 1] == mine && par == Item(t, parId);
        var defined := ObjName(ctx, obj, par);
        if !defined {
          completed := false;
          break;
        }
        parId := parId + 1;
      }
      n := parId - 1;
    }

    /**
     * The body of `lua_lv_btn_get`'s loop for the name `par` on top of the
     * stack: the button's own names push their value here; the rest are
     * handled as in `lua_lv_obj_get`.
     */
    method BtnName(ctx: Context, btn: Handle, par: LuaValue) returns (defined: bool)
      requires |stack| >= 2 && stack[|stack| - 1] == par
      modifies this, ctx.L
      ensures var next := Turn(old(RouteOf(ctx)), BtnLookup(lib, old(trace), btn), CoreLookup(lib, old(trace), btn),
        old(stack)[..|old(stack)| - 1], old(Theirs(ctx)), par);
        defined == next.Some? && (defined ==> stack == next.value.mine && Theirs(ctx) == next.value.theirs)
      ensures !defined ==> stack == old(stack) && Theirs(ctx) == old(Theirs(ctx))
      ensures trace == old(trace) && globals == old(globals)
      ensures ctx.L != null ==> ctx.L.trace == old(ctx.L.trace) && ctx.L.globals == old(ctx.L.globals)
    {
      var own := if par.Str? then BtnOwnGet(lib, trace, btn, par.s) else None;
      if Named(par) && own.Some? {
        defined := true;
        ghost var mine := stack[..|stack| - 1];
        assert stack == mine + [par];
        Push(own.value);
        Replace(-2);
        ReplaceBelowTop(mine, par, own.value, stack);
      } else {
        TurnNoOwn(RouteOf(ctx), BtnLookup(lib, trace, btn), CoreLookup(lib, trace, btn), stack[..|stack| - 1], Theirs(ctx), par);
        defined := ObjName(ctx, btn, par);
      }
    }

    /**
     * `lua_lv_btn_get`: like `lua_lv_obj_get`, answering the button's own
     * names first and passing the rest to `lua_lv_obj_get_core`.
     */
    method BtnGet(ctx: Context) returns (n: int, completed: bool)
      requires |stack| >= 2 && stack[1].Table?
      modifies this, ctx.L
      ensures var btn := ToPointer(old(stack)[0]);
        var out := Finish(old(RouteOf(ctx)), BtnLookup(lib, old(trace), btn), CoreLookup(lib, old(trace), btn),
          old(stack)[1].t, old(stack), old(Theirs(ctx)), 1);
        completed == out.completed && stack == out.mine && Theirs(ctx) == out.theirs
      ensures completed ==> n == ListLength(old(stack)[1].t)
      ensures var t := old(stack)[1].t;
        old(RouteOf(ctx)) == Here && (forall j :: 1 <= j <= ListLength(t) ==> Named(Item(t, j))) ==>
        completed && stack == old(stack) + BtnGetResults(lib, old(trace), ToPointer(old(stack)[0]), t)
      ensures trace == old(trace) && globals == old(globals)
      ensures ctx.L != null ==> ctx.L.trace == old(ctx.L.trace) && ctx.L.globals == old(ctx.L.globals)
    {
      var btn := ToPointer(stack[0]);
      var t := stack[1].t;
      ghost var route := RouteOf(ctx);
      ghost var own := BtnLookup(lib, trace, btn);
      ghost var core := CoreLookup(lib, trace, btn);
      ghost var out := Finish(route, own, core, t, stack, Theirs(ctx), 1);
      FinishFromStart(route, own, core, t, stack, Theirs(ctx));
      var parId := 1;
      completed := true;
      while true
        invariant 1 <= parId <= ListLength(t) + 1
        invariant |stack| >= 2 && (stack[1].Table? ==> stack[1] == Table(t))
        invariant Finish(route, own, core, t, stack, Theirs(ctx), parId) == out
        invariant trace == old(trace) && globals == old(globals)
        invariant ctx.L != null ==> ctx.L.trace == old(ctx.L.trace) && ctx.L.globals == old(ctx.L.globals)
        decreases ListLength(t) + 1 - parId
      {
        if !stack[1].Table? {
          completed := false;   // `lua_rawgeti` on slot 2 once a name has overwritten the list
          break;
        }
        RawGetI(2, parId);
        if stack[|stack| - 1] == Nil {
          Pop(1);
          break;
        }
        var par := stack[|stack| - 1];
        var defined := BtnName(ctx, btn, par);
        if !defined {
          completed := false;
          break;
        }
        parId := parId + 1;
      }
      n := parId - 1;
    }
  }

  /** The file-scope `static lua_State *L` and the functions that use it. */
  class Context {
    var L: LuaState?

    constructor()
      ensures L == null
    {
      L := null;
    }

    /** `lv_lua_set_context`. */
    method SetContext(l: LuaState?)
      modifies this
      ensures L == l
    {
      L := l;
    }

    /** `lv_lua_get_context`. */
    method GetContext() returns (l: LuaState?)
      ensures l == L
    {
      l := L;
    }

    /** `lv_lua_register_function`: the function becomes a Lua global; the stack is as before. */
    method RegisterFunction(cFunc: NativeFunction, luaName: string)
      requires L != null
      modifies L
      ensures L.globals == Registered(old(L.globals), [(luaName, CFunc(cFunc))])
      ensures L.stack == old(L.stack) && L.trace == old(L.trace)
    {
      L.Push(CFunc(cFunc));
      L.SetGlobal(luaName);
    }

    /** `lv_lua_register_const`: the integer becomes a Lua global; the stack is as before. */
    method RegisterConst(num: CInt, luaName: string)
      requires L != null
      modifies L
      ensures L.globals == Registered(old(L.globals), [(luaName, Num(num))])
      ensures L.stack == old(L.stack) && L.trace == old(L.trace)
    {
      L.Push(Num(num));
      L.SetGlobal(luaName);
    }

    /** `lv_lua_register_pointer`: the address becomes a Lua global; the stack is as before. */
    method RegisterPointer(p: Handle, luaName: string)
      requires L != null
      modifies L
      ensures L.globals == Registered(old(L.globals), [(luaName, LightUd(p))])
      ensures L.stack == old(L.stack) && L.trace == old(L.trace)
    {
      L.Push(LightUd(p));
      L.SetGlobal(luaName);
    }

    /**
     * `lua_lv_obj_get_core`: pushes the value of a recognised name on the
     * stored state `L` and reports whether the name matched; the widget is
     * read through the caller's view of the library (`lib` after the calls
     * `tr`). With no stored state, pushing dereferences NULL: `defined` is
     * then false for a recognised name, and nothing is pushed.
     */
    method ObjGetCore(lib: Library, tr: seq<NativeCall>, obj: Handle, par: string) returns (matched: bool, defined: bool)
      modifies L
      ensures matched == CoreGet(lib, tr, obj, par).Some?
      ensures defined <==> L != null || !matched
      ensures L != null ==> L.stack == old(L.stack) + (if matched then [CoreGet(lib, tr, obj, par).value] else [])
      ensures L != null ==> L.trace == old(L.trace) && L.globals == old(L.globals)
    {
      var v := CoreGet(lib, tr, obj, par);
      matched := v.Some?;
      defined := L != null || !matched;
      if matched && L != null {
        L.Push(v.value);
      }
    }
  }
}
