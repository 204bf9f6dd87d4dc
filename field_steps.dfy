/**
 * The shape shared by every `set` binding: a fixed list of lines, each of
 * which reads one table field with a typed accessor and, when the accessor
 * reports found, invokes one native setter with the value it read. A family's
 * setter is a table of such steps; `Run` is the trace of setter calls that a
 * table of steps produces, in order.
 */
module FieldSteps {
  import opened LuaValues
  import opened Lvgl

  /** How a found field is handed to its setter. */
  datatype Apply =
    | Direct      // setter(obj, value)
    | IfCreated   // setter(obj, value), but only when the object was created in this call
    | FitHor      // lv_btn_set_fit(obj, value, lv_btn_get_ver_fit(obj))
    | FitVer      // lv_btn_set_fit(obj, lv_btn_get_hor_fit(obj), value)

  /** One line `if(lv_lua_get_table_<kind>(L, 2, name, &res)) fn(obj, res);`. */
  datatype Step = Step(name: CStr, kind: Kind, fn: NativeFn, how: Apply)

  /** A step whose setter takes the read value alone. */
  predicate Plain(s: Step)
  {
    s.how == Direct || s.how == IfCreated
  }

  /** The value the step's accessor stores. */
  function Value(t: LuaTable, s: Step): Arg
  {
    ReadAs(Field(t, s.name), s.kind).arg
  }

  /** Whether the step's setter runs. */
  predicate Fires(t: LuaTable, created: bool, s: Step)
  {
    ReadAs(Field(t, s.name), s.kind).found && (s.how == IfCreated ==> created)
  }

  /**
   * A value of the step's kind, alone in a table under the step's name, is
   * found and handed over as itself: an integer cut to a C `int`, a string
   * to its C string.
   */
  lemma StepReadsBack(v: LuaValue, s: Step, created: bool)
    requires HasKind(v, s.kind) && (s.how == IfCreated ==> created)
    ensures var t := LuaTable(map[s.name := v], []);
      Fires(t, created, s)
      && Lift(Value(t, s)) == if v.Num? then Num(ToCInt(v.n)) else if v.Str? then Str(CText(v.s)) else v
  {
  }

  /** The calls one step makes, given the calls `tr` made before it. */
  function Emit(lib: Library, tr: seq<NativeCall>, t: LuaTable, obj: Handle, created: bool, s: Step): seq<NativeCall>
  {
    if !Fires(t, created, s) then []
    else
      var a := Value(t, s);
      var args := match s.how
        case FitHor => [a, BoolArg(lib.boolOf(tr, obj, BtnGetVerFit))]
        case FitVer => [BoolArg(lib.boolOf(tr, obj, BtnGetHorFit)), a]
        case _ => [a];
      [Call(s.fn, obj, args)]
  }

  /** The calls a table of steps makes on `obj`, after the calls `tr`. */
  function Run(lib: Library, tr: seq<NativeCall>, t: LuaTable, obj: Handle, created: bool, steps: seq<Step>): seq<NativeCall>
    decreases |steps|
  {
    if steps == [] then []
    else
      var prior := Run(lib, tr, t, obj, created, steps[..|steps| - 1]);
      prior + Emit(lib, tr + prior, t, obj, created, steps[|steps| - 1])
  }

  /** The values the steps' accessors push, one per step. */
  function Fetched(t: LuaTable, steps: seq<Step>): (r: seq<LuaValue>)
    ensures |r| == |steps|
    ensures forall i :: 0 <= i < |steps| ==> r[i] == Field(t, steps[i].name)
  {
    seq(|steps|, i requires 0 <= i < |steps| => Field(t, steps[i].name))
  }

  /** The call that step `s` accounts for: right setter, right target, a found field, the read value. */
  predicate Explains(t: LuaTable, obj: Handle, created: bool, s: Step, c: NativeCall)
  {
    && c.Call? && c.obj == obj && c.fn == s.fn && Fires(t, created, s)
    && (Plain(s) ==> c.args == [Value(t, s)])
    && (s.how == FitHor ==> |c.args| == 2 && c.args[0] == Value(t, s) && c.args[1].BoolArg?)
    && (s.how == FitVer ==> |c.args| == 2 && c.args[1] == Value(t, s) && c.args[0].BoolArg?)
  }

  /** Setters with strictly increasing `Rank` along the table: source order, each setter once. */
  predicate Ascending(steps: seq<Step>)
  {
    forall i, j :: 0 <= i < j < |steps| ==> Rank(steps[i].fn) < Rank(steps[j].fn)
  }

  /** Setter calls only, with strictly increasing `Rank`. */
  predicate InOrder(calls: seq<NativeCall>)
  {
    forall i, j :: 0 <= i < j < |calls| ==> calls[i].Call? && calls[j].Call? && Rank(calls[i].fn) < Rank(calls[j].fn)
  }

  /** No other step of the table calls the setter of step `k`. */
  predicate UniqueAt(steps: seq<Step>, k: nat)
  {
    k < |steps| && forall j :: 0 <= j < |steps| && j != k ==> steps[j].fn != steps[k].fn
  }

  /** Every call comes from a step whose field was found, and carries the value read. */
  lemma {:induction false} RunSound(lib: Library, tr: seq<NativeCall>, t: LuaTable, obj: Handle, created: bool, steps: seq<Step>)
    ensures forall c :: c in Run(lib, tr, t, obj, created, steps) ==>
      exists k :: 0 <= k < |steps| && Explains(t, obj, created, steps[k], c)
    decreases |steps|
  {
    if steps != [] {
      var n := |steps| - 1;
      var front := steps[..n];
      RunSound(lib, tr, t, obj, created, front);
      var prior := Run(lib, tr, t, obj, created, front);
      forall c | c in Run(lib, tr, t, obj, created, steps)
        ensures exists k :: 0 <= k < |steps| && Explains(t, obj, created, steps[k], c)
      {
        if c in prior {
          var k :| 0 <= k < |front| && Explains(t, obj, created, front[k], c);
          assert front[k] == steps[k];
        } else {
          assert c in Emit(lib, tr + prior, t, obj, created, steps[n]);
          assert Explains(t, obj, created, steps[n], c);
        }
      }
    }
  }

  /** Every call of a table whose setters all belong to family `f` is a setter of `f` on `obj`. */
  lemma RunFamily(lib: Library, tr: seq<NativeCall>, t: LuaTable, obj: Handle, created: bool, steps: seq<Step>, f: Family)
    requires forall k :: 0 <= k < |steps| ==> FamilyOf(steps[k].fn) == f
    ensures forall c :: c in Run(lib, tr, t, obj, created, steps) ==> c.Call? && FamilyOf(c.fn) == f && c.obj == obj
  {
    RunSound(lib, tr, t, obj, created, steps);
  }

  /** Every plain step whose field was found calls its setter with the value read. */
  lemma {:induction false} RunComplete(lib: Library, tr: seq<NativeCall>, t: LuaTable, obj: Handle, created: bool, steps: seq<Step>)
    ensures forall k :: 0 <= k < |steps| && Plain(steps[k]) && Fires(t, created, steps[k]) ==>
      Call(steps[k].fn, obj, [Value(t, steps[k])]) in Run(lib, tr, t, obj, created, steps)
    decreases |steps|
  {
    if steps != [] {
      var n := |steps| - 1;
      var front := steps[..n];
      RunComplete(lib, tr, t, obj, created, front);
      var prior := Run(lib, tr, t, obj, created, front);
      forall k | 0 <= k < |steps| && Plain(steps[k]) && Fires(t, created, steps[k])
        ensures Call(steps[k].fn, obj, [Value(t, steps[k])]) in Run(lib, tr, t, obj, created, steps)
      {
        if k < n {
          assert front[k] == steps[k];
        } else {
          assert Emit(lib, tr + prior, t, obj, created, steps[n]) == [Call(steps[k].fn, obj, [Value(t, steps[k])])];
        }
      }
    }
  }

  /** Every step whose field was found calls its setter. */
  lemma {:induction false} RunFires(lib: Library, tr: seq<NativeCall>, t: LuaTable, obj: Handle, created: bool, steps: seq<Step>)
    ensures forall k :: 0 <= k < |steps| && Fires(t, created, steps[k]) ==> steps[k].fn in Called(Run(lib, tr, t, obj, created, steps))
    decreases |steps|
  {
    if steps != [] {
      var n := |steps| - 1;
      var front := steps[..n];
      RunFires(lib, tr, t, obj, created, front);
      var prior := Run(lib, tr, t, obj, created, front);
      var last := Emit(lib, tr + prior, t, obj, created, steps[n]);
      CalledAppend(prior, last);
      forall k | 0 <= k < |steps| && Fires(t, created, steps[k])
        ensures steps[k].fn in Called(Run(lib, tr, t, obj, created, steps))
      {
        if k < n {
          assert front[k] == steps[k];
        } else {
          assert last[0] in last;
        }
      }
    }
  }

  /**
   * For a plain step with a setter of its own: the setter is called iff the
   * field was found, and every call to it carries the value read.
   */
  lemma RunGating(lib: Library, tr: seq<NativeCall>, t: LuaTable, obj: Handle, created: bool, steps: seq<Step>, k: nat)
    requires UniqueAt(steps, k) && Plain(steps[k])
    ensures var calls := Run(lib, tr, t, obj, created, steps);
      && (steps[k].fn in Called(calls) <==> Fires(t, created, steps[k]))
      && forall c :: c in calls && c.Call? && c.fn == steps[k].fn ==> c == Call(steps[k].fn, obj, [Value(t, steps[k])])
  {
    var calls := Run(lib, tr, t, obj, created, steps);
    RunSound(lib, tr, t, obj, created, steps);
    RunComplete(lib, tr, t, obj, created, steps);
    forall c | c in calls && c.Call? && c.fn == steps[k].fn
      ensures c == Call(steps[k].fn, obj, [Value(t, steps[k])]) && Fires(t, created, steps[k])
    {
      var j :| 0 <= j < |steps| && Explains(t, obj, created, steps[j], c);
      assert j == k;
    }
    if Fires(t, created, steps[k]) {
      assert Call(steps[k].fn, obj, [Value(t, steps[k])]) in calls;
    }
  }

  /** Setter calls follow the table's order, each setter at most once. */
  lemma {:induction false} RunOrder(lib: Library, tr: seq<NativeCall>, t: LuaTable, obj: Handle, created: bool, steps: seq<Step>)
    requires Ascending(steps)
    ensures InOrder(Run(lib, tr, t, obj, created, steps))
    decreases |steps|
  {
    if steps != [] {
      var n := |steps| - 1;
      var front := steps[..n];
      assert Ascending(front) by {
        forall i, j | 0 <= i < j < |front| ensures Rank(front[i].fn) < Rank(front[j].fn) {
          assert front[i] == steps[i] && front[j] == steps[j];
        }
      }
      RunOrder(lib, tr, t, obj, created, front);
      RunSound(lib, tr, t, obj, created, front);
      var prior := Run(lib, tr, t, obj, created, front);
      var last := Emit(lib, tr + prior, t, obj, created, steps[n]);
      var calls := prior + last;
      forall c | c in prior ensures c.Call? && Rank(c.fn) < Rank(steps[n].fn) {
        var k :| 0 <= k < |front| && Explains(t, obj, created, front[k], c);
        assert front[k] == steps[k];
      }
      forall i, j | 0 <= i < j < |calls|
        ensures calls[i].Call? && calls[j].Call? && Rank(calls[i].fn) < Rank(calls[j].fn)
      {
        if j >= |prior| {
          assert |last| == 1 && last[0].Call? && last[0].fn == steps[n].fn;
          assert calls[i] == prior[i] && prior[i] in prior;
          assert calls[j] == last[0];
          assert Rank(prior[i].fn) < Rank(steps[n].fn);
        } else {
          assert Rank(prior[i].fn) < Rank(prior[j].fn);
          assert calls[i] == prior[i] && calls[j] == prior[j];
        }
      }
    }
  }

  /** Only the fields the table names matter: tables that agree on them give the same calls. */
  lemma {:induction false} RunLocal(lib: Library, tr: seq<NativeCall>, t1: LuaTable, t2: LuaTable, obj: Handle, created: bool, steps: seq<Step>)
    requires forall k :: 0 <= k < |steps| ==> Field(t1, steps[k].name) == Field(t2, steps[k].name)
    ensures Run(lib, tr, t1, obj, created, steps) == Run(lib, tr, t2, obj, created, steps)
    decreases |steps|
  {
    if steps != [] {
      var n := |steps| - 1;
      var front := steps[..n];
      assert forall k :: 0 <= k < |front| ==> front[k] == steps[k];
      RunLocal(lib, tr, t1, t2, obj, created, front);
      assert Field(t1, steps[n].name) == Field(t2, steps[n].name);
    }
  }

  /** A table of plain steps never consults the library: the calls do not depend on it or on the history. */
  lemma {:induction false} RunPlain(lib1: Library, lib2: Library, tr1: seq<NativeCall>, tr2: seq<NativeCall>, t: LuaTable, obj: Handle, created: bool, steps: seq<Step>)
    requires forall k :: 0 <= k < |steps| ==> Plain(steps[k])
    ensures Run(lib1, tr1, t, obj, created, steps) == Run(lib2, tr2, t, obj, created, steps)
    decreases |steps|
  {
    if steps != [] {
      var n := |steps| - 1;
      var front := steps[..n];
      assert forall k :: 0 <= k < |front| ==> front[k] == steps[k];
      RunPlain(lib1, lib2, tr1, tr2, t, obj, created, front);
      assert Plain(steps[n]);
    }
  }

  /** A table's full prefix is the table. */
  lemma TakeAll(steps: seq<Step>)
    ensures steps[..|steps|] == steps
  {
  }

  /** Running two tables one after the other: the second runs after the first one's calls. */
  lemma {:induction false} RunAppend(lib: Library, tr: seq<NativeCall>, t: LuaTable, obj: Handle, created: bool, a: seq<Step>, b: seq<Step>)
    ensures Run(lib, tr, t, obj, created, a + b)
      == Run(lib, tr, t, obj, created, a) + Run(lib, tr + Run(lib, tr, t, obj, created, a), t, obj, created, b)
    decreases |b|
  {
    if b == [] {
      assert a + b == a;
    } else {
      var ab, b', last := a + b, b[..|b| - 1], b[|b| - 1];
      assert ab[..|ab| - 1] == a + b' && ab[|ab| - 1] == last;
      var ra := Run(lib, tr, t, obj, created, a);
      var rb' := Run(lib, tr + ra, t, obj, created, b');
      RunAppend(lib, tr, t, obj, created, a, b');
      var e := Emit(lib, tr + ra + rb', t, obj, created, last);
      assert tr + (ra + rb') == tr + ra + rb';
      assert Run(lib, tr, t, obj, created, ab) == (ra + rb') + e;
      assert Run(lib, tr + ra, t, obj, created, b) == rb' + e;
      assert (ra + rb') + e == ra + (rb' + e);
    }
  }

  /** Steps none of which has setter `fn` never call it. */
  lemma RunWithout(lib: Library, tr: seq<NativeCall>, t: LuaTable, obj: Handle, created: bool, steps: seq<Step>, fn: NativeFn)
    requires forall k :: 0 <= k < |steps| ==> steps[k].fn != fn
    ensures Only(Run(lib, tr, t, obj, created, steps), fn) == []
  {
    RunSound(lib, tr, t, obj, created, steps);
    OnlyNone(Run(lib, tr, t, obj, created, steps), fn);
  }

  /** A table in three parts runs part by part, each after the calls of the parts before it. */
  lemma RunThree(lib: Library, tr: seq<NativeCall>, t: LuaTable, obj: Handle, created: bool,
                 front: seq<Step>, mid: seq<Step>, back: seq<Step>)
    ensures var p := Run(lib, tr, t, obj, created, front);
      var pm := Run(lib, tr + p, t, obj, created, mid);
      Run(lib, tr, t, obj, created, front + mid + back) == p + pm + Run(lib, tr + p + pm, t, obj, created, back)
  {
    var p := Run(lib, tr, t, obj, created, front);
    var pm := Run(lib, tr + p, t, obj, created, mid);
    RunAppend(lib, tr, t, obj, created, front, mid);
    RunAppend(lib, tr, t, obj, created, front + mid, back);
    assert tr + (p + pm) == tr + p + pm;
  }

  /** Only the middle of a table calls `fn` when its front and back never do. */
  lemma RunOnlyMiddle(lib: Library, tr: seq<NativeCall>, t: LuaTable, obj: Handle, created: bool,
                      front: seq<Step>, mid: seq<Step>, back: seq<Step>, fn: NativeFn)
    requires forall k :: 0 <= k < |front| ==> front[k].fn != fn
    requires forall k :: 0 <= k < |back| ==> back[k].fn != fn
    ensures Only(Run(lib, tr, t, obj, created, front + mid + back), fn)
      == Only(Run(lib, tr + Run(lib, tr, t, obj, created, front), t, obj, created, mid), fn)
  {
    var p := Run(lib, tr, t, obj, created, front);
    var pm := Run(lib, tr + p, t, obj, created, mid);
    var rest := Run(lib, tr + p + pm, t, obj, created, back);
    RunThree(lib, tr, t, obj, created, front, mid, back);
    RunWithout(lib, tr, t, obj, created, front, fn);
    RunWithout(lib, tr + p + pm, t, obj, created, back, fn);
    OnlyAppend(p, pm, fn);
    OnlyAppend(p + pm, rest, fn);
  }

  /** A two-step table: the first step's calls, then the second's, made after the first. */
  lemma RunPair(lib: Library, tr: seq<NativeCall>, t: LuaTable, obj: Handle, created: bool, s1: Step, s2: Step)
    ensures var e1 := Emit(lib, tr, t, obj, created, s1);
      Run(lib, tr, t, obj, created, [s1, s2]) == e1 + Emit(lib, tr + e1, t, obj, created, s2)
  {
    assert [s1, s2][..1] == [s1];
    assert [s1][..0] == [];
    assert Run(lib, tr, t, obj, created, []) == [];
    assert tr + [] == tr;
    assert Run(lib, tr, t, obj, created, [s1]) == Emit(lib, tr, t, obj, created, s1);
  }

  /** A step's calls are all calls of its own setter. */
  lemma EmitOnly(lib: Library, tr: seq<NativeCall>, t: LuaTable, obj: Handle, created: bool, s: Step)
    ensures Only(Emit(lib, tr, t, obj, created, s), s.fn) == Emit(lib, tr, t, obj, created, s)
  {
    var e := Emit(lib, tr, t, obj, created, s);
    if e != [] {
      assert e[1..] == [];
    }
  }

  /** Running a table one more step: the bookkeeping behind each source line. */
  lemma RunSnoc(lib: Library, tr: seq<NativeCall>, t: LuaTable, obj: Handle, created: bool, steps: seq<Step>, k: nat)
    requires k < |steps|
    ensures Run(lib, tr, t, obj, created, steps[..k + 1])
      == Run(lib, tr, t, obj, created, steps[..k]) + Emit(lib, tr + Run(lib, tr, t, obj, created, steps[..k]), t, obj, created, steps[k])
    ensures Fetched(t, steps[..k + 1]) == Fetched(t, steps[..k]) + [Field(t, steps[k].name)]
  {
    assert steps[..k + 1][..k] == steps[..k];
  }
}
