/**
 * Lua values as the bindings see them through the Lua C API: the kinds of
 * value that `lua_getfield` and `lua_rawgeti` can push, tables with a
 * string-keyed part and an integer-indexed part, and the typed reads that
 * the four `lv_lua_get_table_*` accessors perform.
 */
module LuaValues {

  datatype Option<+T> = None | Some(value: T) {
    function GetOr(default: T): T
    {
      if Some? then value else default
    }
  }

  /** An opaque native address; 0 is the C null pointer. */
  type Handle = nat

  const NULL: Handle := 0

  /** Address of a C function handed to `lua_pushcfunction`. */
  type NativeFunction = nat

  const INT_MIN: int := -0x8000_0000
  const INT_MAX: int := 0x7fff_ffff

  /** `LUA_MINSTACK`: the free stack slots Lua guarantees a C function on entry. */
  const LUA_MINSTACK: nat := 20

  /** The 32-bit C `int` that the integer accessor stores its result in. */
  type CInt = x: int | INT_MIN <= x <= INT_MAX

  /** Conversion of a Lua integer to a C `int`: two's complement wrap-around. */
  function ToCInt(n: int): (r: CInt)
    ensures INT_MIN <= n <= INT_MAX ==> r == n
    ensures (n - r) % 0x1_0000_0000 == 0
  {
    var r := (n - INT_MIN) % 0x1_0000_0000 + INT_MIN;
    assert n - r == ((n - INT_MIN) / 0x1_0000_0000) * 0x1_0000_0000;
    r
  }

  /** A C string: the characters a `const char *` reaches before its terminating NUL. */
  type CStr = s: string | '\0' !in s witness ""

  /**
   * The C string `lua_tostring` hands to C code: a Lua string may hold NUL
   * characters, and C code reading it stops at the first one.
   */
  function CText(s: string): (r: CStr)
    ensures |r| <= |s| && r == s[..|r|]
    ensures |r| < |s| ==> s[|r|] == '\0'
    ensures '\0' !in s ==> r == s
  {
    if s == [] || s[0] == '\0' then "" else [s[0]] + CText(s[1..])
  }

  /**
   * `strcmp(s, name) == 0` for the buffer `s` of a Lua string and a name
   * without NUL: `s` is the name, or the name followed by a NUL.
   */
  predicate SameCName(s: string, name: string)
  {
    s == name || (|name| < |s| && s[|name|] == '\0' && s[..|name|] == name)
  }

  /** `strcmp` is equality of the C strings. */
  lemma SameCNameIsCText(s: string, name: CStr)
    ensures SameCName(s, name) <==> CText(s) == name
  {
    if |name| < |s| && s[|name|] == '\0' && s[..|name|] == name {
      assert s == name + "\0" + s[|name| + 1..];
      CTextCut(name, s[|name| + 1..]);
    }
  }

  /** `strcmp` gives the same answer on the C string of `s` as on `s`. */
  lemma SameCNameSeesCText(s: string, name: CStr)
    ensures SameCName(s, name) == SameCName(CText(s), name)
  {
    SameCNameIsCText(s, name);
    SameCNameIsCText(CText(s), name);
  }

  /** The same for every name of a set of C strings. */
  lemma SameCNamesSeeCText(s: string, names: set<string>)
    requires forall name :: name in names ==> '\0' !in name
    ensures forall name :: name in names ==> SameCName(s, name) == SameCName(CText(s), name)
  {
    forall name | name in names
      ensures SameCName(s, name) == SameCName(CText(s), name)
    {
      SameCNameSeesCText(s, name);
    }
  }

  /** On a C string, `strcmp` with any name is plain equality. */
  lemma SameCNameOfCStr(s: CStr)
    ensures forall name {:trigger SameCName(s, name)} :: SameCName(s, name) <==> s == name
  {
  }

  /** Whatever follows a NUL is invisible to C: a name with a NUL and a tail reads as the name. */
  lemma {:induction false} CTextCut(name: CStr, tail: string)
    ensures CText(name + "\0" + tail) == name
  {
    if name != "" {
      assert (name + "\0" + tail)[1..] == name[1..] + "\0" + tail;
      CTextCut(name[1..], tail);
    } else {
      assert name + "\0" + tail == "\0" + tail;
    }
  }

  datatype LuaValue =
    | Nil
    | Num(n: int)
    | Bool(b: bool)
    | LightUd(p: Handle)
    | Str(s: string)
    | Table(t: LuaTable)
    | CFunc(f: NativeFunction)

  /**
   * A Lua table: `fields` is its string-keyed part, `items[i - 1]` is `t[i]`
   * for the integer keys 1 .. |items|. A slot holding Nil is an absent key.
   */
  datatype LuaTable = LuaTable(fields: map<string, LuaValue>, items: seq<LuaValue>)

  /** `t[k]` for a string key: the value `lua_getfield` pushes, Nil when absent. */
  function Field(t: LuaTable, k: string): LuaValue
  {
    if k in t.fields then t.fields[k] else Nil
  }

  /** `t[i]` for an integer key, read without metamethods (`lua_rawgeti`). */
  function Item(t: LuaTable, i: int): LuaValue
  {
    if 1 <= i <= |t.items| then t.items[i - 1] else Nil
  }

  /** The number of leading entries of `items` that are not Nil. */
  function LeadingCount(items: seq<LuaValue>): (k: nat)
    ensures k <= |items|
    ensures forall i :: 0 <= i < k ==> items[i] != Nil
    ensures k < |items| ==> items[k] == Nil
  {
    if items == [] || items[0] == Nil then 0 else 1 + LeadingCount(items[1..])
  }

  /** The length of the name list `t[1], t[2], ...`: the index before the first nil. */
  function ListLength(t: LuaTable): (k: nat)
    ensures forall i :: 1 <= i <= k ==> Item(t, i) != Nil
    ensures Item(t, k + 1) == Nil
  {
    LeadingCount(t.items)
  }

  /** `lua_topointer` on the first argument: the address of a light userdata, NULL otherwise. */
  function ToPointer(v: LuaValue): Handle
  {
    if v.LightUd? then v.p else NULL
  }

  /** The four kinds of field an accessor asks for. */
  datatype Kind = IntKind | BoolKind | PtrKind | StrKind

  /** The kind test each accessor applies to the pushed value. */
  predicate HasKind(v: LuaValue, k: Kind)
  {
    match k
    case IntKind => v.Num?        // lua_isnumber
    case BoolKind => v.Bool?      // lua_isboolean
    case PtrKind => v.LightUd?    // lua_islightuserdata
    case StrKind => v.Str?        // lua_isstring
  }

  /** A typed C value, as stored through an accessor's `res_p` or passed to a native call. */
  datatype Arg = IntArg(i: CInt) | BoolArg(b: bool) | PtrArg(p: Handle) | StrArg(s: CStr)

  function KindOf(a: Arg): Kind
  {
    match a
    case IntArg(_) => IntKind
    case BoolArg(_) => BoolKind
    case PtrArg(_) => PtrKind
    case StrArg(_) => StrKind
  }

  /** What an accessor stores when the field is missing or of another kind: 0, false, NULL, "". */
  function Default(k: Kind): (a: Arg)
    ensures KindOf(a) == k
  {
    match k
    case IntKind => IntArg(0)
    case BoolKind => BoolArg(false)
    case PtrKind => PtrArg(NULL)
    case StrKind => StrArg("")
  }

  /** `lua_pushstring`: a NULL string pushes nil. */
  function PushString(s: Option<CStr>): (r: LuaValue)
    ensures r == Nil <==> s.None?
    ensures s.Some? ==> r == Str(s.value)
  {
    match s
    case None => Nil
    case Some(text) => Str(text)
  }

  /** The Lua value that pushing a C value produces (`lua_pushinteger`, `lua_pushboolean`, ...). */
  function Lift(a: Arg): LuaValue
  {
    match a
    case IntArg(i) => Num(i)
    case BoolArg(b) => Bool(b)
    case PtrArg(p) => LightUd(p)
    case StrArg(s) => Str(s)
  }

  /** The outcome of one accessor: its found flag and the value written to `*res_p`. */
  datatype Read = Read(found: bool, arg: Arg)

  /** What `lv_lua_get_table_<k>` makes of the pushed value `v`. */
  function ReadAs(v: LuaValue, k: Kind): (r: Read)
    ensures r.found <==> HasKind(v, k)
    ensures KindOf(r.arg) == k
    ensures !r.found ==> r.arg == Default(k)
    ensures r.found && k == IntKind ==> r.arg == IntArg(ToCInt(v.n))
    ensures r.found && k == StrKind ==> r.arg == StrArg(CText(v.s))
    ensures r.found && (k == BoolKind || k == PtrKind) ==> Lift(r.arg) == v
  {
    if !HasKind(v, k) then Read(false, Default(k))
    else
      match k
      case IntKind => Read(true, IntArg(ToCInt(v.n)))
      case BoolKind => Read(true, BoolArg(v.b))
      case PtrKind => Read(true, PtrArg(v.p))
      case StrKind => Read(true, StrArg(CText(v.s)))
  }

  /** An accessor reads back exactly the C value whose push produced the field. */
  lemma ReadLift(a: Arg)
    ensures ReadAs(Lift(a), KindOf(a)) == Read(true, a)
  {
  }

  /** The name list's length does not depend on anything after its first nil. */
  lemma {:induction false} LeadingCountPrefix(items: seq<LuaValue>, rest: seq<LuaValue>)
    requires rest == [] || rest[0] == Nil
    ensures LeadingCount(items[..LeadingCount(items)] + rest) == LeadingCount(items)
  {
    var k := LeadingCount(items);
    if k > 0 {
      assert (items[..k] + rest)[1..] == items[1..][..k - 1] + rest;
      LeadingCountPrefix(items[1..], rest);
    } else {
      assert items[..k] + rest == rest;
    }
  }
}
