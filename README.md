# lv_lua: the Lua bindings of the widget library, modelled in Dafny

`lv_core/lv_lua.c` exposes a handful of widget operations to Lua scripts. A
script calls `lv_obj_set(obj, {width = 100, hidden = true})` to configure an
object (or pass `nil` to create one first), `lv_btn_set` and `lv_ddlist_set`
for buttons and drop-down lists, and `lv_obj_get(obj, {"width", "x"})` /
`lv_btn_get` to read several properties at once. The C side keeps the Lua
state in a file-scope pointer, registers the bindings and constants as Lua
globals, and moves every value through the Lua value stack with four typed
table accessors.

The model keeps that structure and replaces the two foreign libraries by
stand-ins:

- **Lua** becomes the class `LuaRuntime.LuaState`: a value stack
  (`seq<LuaValue>`), a globals map and the primitives the C code uses
  (`lua_getfield`, `lua_rawgeti`, `lua_replace`, `lua_pop`, `lua_setglobal`,
  pushes). Values are `LuaValues.LuaValue`; a table has a string-keyed part and
  an integer-indexed part.
- **The widget library** becomes a trace: every constructor and setter call
  is appended to `LuaState.trace` as a `Lvgl.NativeCall`, and every value the
  library hands back (a created handle, a getter result) comes from a
  `Lvgl.Library` oracle as a function of the calls made before it. What a
  widget does with a call is not modelled. A string getter may answer NULL
  (`None`), which `lua_pushstring` turns into nil. Every string the library
  hands back is a C string, and an integer getter may answer any integer.
- **The file-scope `static lua_State *L`** becomes the class
  `LuaRuntime.Context`, which also holds the functions that use that global:
  the three registrars and `lua_lv_obj_get_core`. The getter bindings run on
  the state they are called with, but `lua_lv_obj_get_core` pushes on the
  stored one. The model keeps the two apart (`NameLists.Route`): the stored
  state may be the calling state, another state, or NULL.

Each setter's body is a fixed list of lines of the form "read field `name`
with the accessor of kind `k`; if found, call setter `fn`". The model writes
these lists down as data (`ObjBinding.ObjSteps`, `BtnBinding.BtnSteps`,
`DdlistBinding.DdlistSteps`, one `Step` per source line). The specification
function `FieldSteps.Run` gives the calls such a list makes. The imperative
methods (`LuaState.ObjSet`, `BtnSet`, `DdlistSet`) execute the lines one by
one and are proved to leave exactly the trace and the stack that `Run`,
`Fetched` and the family functions (`ObjSetCalls`, `BtnSetCalls`, ...)
describe. The lemmas then state what the source promises about those
functions: when creation happens, how found flags gate the calls, the call
order, and what is never called. The two batch getters are `while` loops
proved against `NameLists.Finish`, which follows the calling stack and the
stored state's stack name by name and records where C reaches undefined
behaviour. When the stored state is the calling state and every name is a
string or a number, the run completes and pushes `NameLists.Answers`: the
i-th result is the getter's value for the i-th name, or nil, and the loop
stops at the first nil.

A Lua string may hold NUL characters, but the C code only ever sees the C
string `lua_tostring` returns. `LuaValues.CText` is that prefix, up to the
first NUL. The string accessor hands it to the setters
(`lv_btn_set_lua_action`, `lv_ddlist_set_options`). The two getters compare
names with `strcmp`, modelled as `LuaValues.SameCName` on the Lua string
itself, so `"width\0tail"` reads the width.

The model fixes one build configuration: `LV_OBJ_FREE_NUM_TYPE` is defined,
and `LV_OBJ_FREE_PTR`, `USE_LV_BTN` and `USE_LV_DDLIST` are 1.

Three behaviours of the code are modelled as written and pinned by lemmas:

- `lua_lv_obj_set` calls `lv_obj_set_parent` only on an object it has just
  created (`&& now_created`, line 173). The line's own comment reads the
  other way; the model follows the code (`ObjBinding.ObjSetReparent`). Since
  `lua_lv_btn_set` hands `lua_lv_obj_set` a handle it has already made, a
  button is never re-parented (`BtnBinding.BtnSetNeverReparents`).
- All five button style fields are written to the `LV_BTN_STYLE_REL` slot
  (lines 407-411). The getter, however, reads each name's own slot (lines
  445-449), so a `style_pr` written through `lv_btn_set` is not what
  `lv_btn_get` returns for it (`BtnBinding.BtnSetStylesTargetRel`,
  `BtnBinding.BtnStyleSlotsDiffer`).
- `ver_fit` is read back through the horizontal getter (line 444)
  (`BtnBinding.BtnGetVerFitIsHorFit`).

Files: `lua_values.dfy` (values, tables, accessor semantics), `lvgl.dfy`
(native calls and the library oracle), `field_steps.dfy` (the field-line
pattern and its lemmas), `name_lists.dfy` (the batch-get protocol),
`obj_binding.dfy`, `btn_binding.dfy`, `ddlist_binding.dfy` (one module per
widget family), `runtime.dfy` (the Lua state, the bindings as methods, the
context and the registrars).

## Model

| member | source | states |
|---|---|---|
| LuaValues.ToCInt | lv_core/lv_lua.c:88 | `lua_tointeger` stored into a C `int`: unchanged inside the 32-bit range, otherwise congruent to the Lua integer modulo 2^32 |
| LuaValues.ListLength | lv_core/lv_lua.c:215-222 | the name list's length k: entries 1 .. k are all non-nil and entry k+1 is nil |
| LuaValues.ReadAs | lv_core/lv_lua.c:84-130 | an accessor reports found iff the field has the accessor's kind; when not found it stores the kind's default (0, false, NULL, ""); when found it stores the field's own value (an integer through the C `int` conversion, a string as its C string up to the first NUL) |
| LuaValues.ReadLift | lv_core/lv_lua.c:84-130 | round trip: an accessor reading a value that was pushed from a C value of its kind reports found and returns that C value |
| LuaValues.CText | lv_core/lv_lua.c:124 | the C string `lua_tostring` gives: the longest prefix without NUL, ending where the first NUL is; a string without NUL is unchanged |
| LuaValues.SameCNameIsCText | lv_core/lv_lua.c:187 | `strcmp` of a Lua string's buffer with a name succeeds iff the string's C string is that name |
| LuaValues.CTextCut | lv_core/lv_lua.c:224 | a name followed by a NUL and any tail has the name as its C string |
| LuaValues.LeadingCountPrefix | lv_core/lv_lua.c:217-222 | how many names the loop consumes depends only on the entries before the first nil |
| FieldSteps.Fetched | lv_core/lv_lua.c:86 | each field line's accessor leaves exactly one value, the table's field, on the stack |
| FieldSteps.RunSound | lv_core/lv_lua.c:160-176 | every setter call of a field list comes from a line whose field was found, goes to that line's setter on the target object and carries the value read |
| FieldSteps.RunComplete | lv_core/lv_lua.c:160-176 | every one-argument line whose field was found calls its setter with the value read |
| FieldSteps.RunFires | lv_core/lv_lua.c:398-411 | every line whose field was found calls its setter, including the two fit lines |
| FieldSteps.RunFamily | lv_core/lv_lua.c:398-411 | a list whose setters belong to one widget family calls only that family's setters, all on the target object |
| FieldSteps.RunGating | lv_core/lv_lua.c:160-176 | a line with a setter of its own calls that setter iff its field was found (and, for the parent line, the object was just created), always with the value read |
| FieldSteps.RunOrder | lv_core/lv_lua.c:160-176 | the calls follow the lines' order, with no setter twice |
| FieldSteps.RunLocal | lv_core/lv_lua.c:160-176 | keys no line reads have no effect on the calls |
| FieldSteps.RunPlain | lv_core/lv_lua.c:510-519 | lines that pass only the read value never consult the library: the calls depend only on the table and the target |
| NameLists.Answers | lv_core/lv_lua.c:215-238 | a batch get yields exactly one result per name before the first nil |
| NameLists.AnswersAt | lv_core/lv_lua.c:224-229 | the i-th result is the binding's own value for the i-th name, else the shared getter's value, else nil |
| NameLists.Turn | lv_core/lv_lua.c:224-233 | one name: undefined for an entry `lua_tostring` gives NULL for, or a shared-getter name with no stored state; a shared-getter name's value goes to the stored state and the name replaces the list entry below it; any other name's value (or nil) replaces the name |
| NameLists.Finish | lv_core/lv_lua.c:215-238 | the whole loop over both stacks: stops at the first nil, or at undefined behaviour (a name `Turn` rejects, or slot 2 no longer holding the list) |
| NameLists.FinishAnswers | lv_core/lv_lua.c:215-238 | on the calling state (or when no name needs the shared getter), with every entry a string or a number, the loop completes, pushes exactly `Answers` and leaves the stored state alone |
| NameLists.FinishCount | lv_core/lv_lua.c:238 | whatever the stored state, a completed loop returns the length of the list |
| NameLists.FinishFromStart | lv_core/lv_lua.c:215-238 | from the first name: a completed run returns the list length; on the calling state with every entry named it completes with exactly `Answers` |
| NameLists.FinishDepth | lv_core/lv_lua.c:215-238 | on the calling state a completed loop leaves exactly one value per name above the stack it started from |
| NameLists.GetStackDepth | lv_core/lv_lua.c:209-238 | called with its two arguments, a completed loop leaves 2 + k values for k names; for k of `LUA_MINSTACK` or more, the results plus the closing nil need more than the `LUA_MINSTACK` (20) guaranteed slots |
| NameLists.FinishCompletes | lv_core/lv_lua.c:215-233 | on the calling state the loop completes iff every entry is a string or a number; with no stored state, iff in addition no name needs the shared getter |
| NameLists.ElsewhereOverwritesList | lv_core/lv_lua.c:186-233 | with another state stored and only the two arguments, a first name the shared getter answers sends its value to the other state and leaves the name in slot 2, so the next `lua_rawgeti` on slot 2 is undefined |
| NameLists.AnswersStopAtNil | lv_core/lv_lua.c:217-222 | entries after the first nil are never read: cutting the list there leaves the results unchanged |
| ObjBinding.ObjStepsAscending | lv_core/lv_lua.c:160-176 | the fourteen object lines name fourteen distinct setters, in strictly increasing source order |
| ObjBinding.ObjSetStack | lv_core/lv_lua.c:179-181 | `lv_obj_set` pushes one value per accessor call (two more when it creates) and ends with the object on top: the handle passed in, or the created one |
| ObjBinding.ObjSetCreatesOnce | lv_core/lv_lua.c:144-154 | the constructor runs exactly once when argument 1 is nil and never otherwise, with `parent` and `copy` from the table or NULL when they are not light userdata |
| ObjBinding.ObjSetTargets | lv_core/lv_lua.c:160-176 | every setter call goes to the object being configured |
| ObjBinding.ObjSetGating | lv_core/lv_lua.c:160-176 | each object setter runs iff its field has the expected kind (the parent only on a just-created object), and receives the value read |
| ObjBinding.ObjSetReparent | lv_core/lv_lua.c:173 | `lv_obj_set_parent` is called iff argument 1 was nil and `parent` is a light userdata: an existing handle is never re-parented |
| ObjBinding.ObjSetOrder | lv_core/lv_lua.c:160-176 | setters run in the order width, height, x, y, free_num, hidden, click, top, drag, drag_throw, drag_parent, parent, style, free_ptr |
| ObjBinding.ObjSetIgnoresUnknownKeys | lv_core/lv_lua.c:150-176 | a key the setter does not read changes neither the native calls nor the stack |
| ObjBinding.ObjSetRepeatable | lv_core/lv_lua.c:160-176 | on an existing handle the calls depend only on the table, whatever the library state or history, and nothing is created |
| ObjBinding.Target | lv_core/lv_lua.c:144-156 | the object configured: argument 1's pointer, or the library's new handle when argument 1 is nil |
| ObjBinding.Creation | lv_core/lv_lua.c:144-154 | the constructor call, with `parent` and `copy` read from the table, made only for a nil argument 1 |
| ObjBinding.CoreGet | lv_core/lv_lua.c:185-206 | the twelve names of `lua_lv_obj_get_core`, each compared with `strcmp` and answered with its getter and push kind; None for any other name |
| ObjBinding.CoreGetSeesCText | lv_core/lv_lua.c:185-206 | the answer depends only on the name's C string: whatever follows its first NUL makes no difference |
| ObjBinding.CoreLookupCutsAtNul | lv_core/lv_lua.c:185-206 | a name followed by a NUL and any tail gets the answer of the bare name, and is recognised iff the bare name is |
| ObjBinding.CoreGetRecognises | lv_core/lv_lua.c:185-206 | `lua_lv_obj_get_core` answers a name iff its C string is one of its twelve names |
| ObjBinding.CoreGetNames | lv_core/lv_lua.c:185-206 | on a name without NUL, the answer comes exactly for the twelve names |
| ObjBinding.ObjGetMatchesSet | lv_core/lv_lua.c:185-206 | every readable name is a settable field, read with the kind the setter uses, and the only write-only fields are `top` and `parent` |
| ObjBinding.ObjGetSetRoundTrip | lv_core/lv_lua.c:187-202 | a value read with `lv_obj_get` and written back under the same name is found by the setter's accessor and handed to the setter unchanged, except that an integer is cut to a C `int` |
| ObjBinding.ObjGetExample | lv_core/lv_lua.c:209-238 | `{"width", "bogus", "height"}` yields the width, nil and the height |
| BtnBinding.BtnStepsFacts | lv_core/lv_lua.c:398-411 | the button lines call button setters only; toggle to layout each have a setter of their own; only the two fit lines call `lv_btn_set_fit`; the five style lines all call the REL-slot setter |
| BtnBinding.BtnBaseShape | lv_core/lv_lua.c:390-391 | the delegated `lua_lv_obj_set` makes only generic-object setter calls, all on the button, and never re-parents |
| BtnBinding.BtnOwnShape | lv_core/lv_lua.c:398-411 | the button's own lines make only button setter calls on the button |
| BtnBinding.BtnSetCreatesOnce | lv_core/lv_lua.c:378-391 | a button is created exactly once when argument 1 is nil and never otherwise; slot 1 then holds a handle, so the delegated object setter does not create a second object |
| BtnBinding.BtnSetNeverReparents | lv_core/lv_lua.c:386-391 | `lv_btn_set` never calls `lv_obj_set_parent`, not even on a button it has just created |
| BtnBinding.BtnSetBaseFirst | lv_core/lv_lua.c:390-411 | every setter call goes to the button, and no generic-object setter runs after a button setter |
| BtnBinding.BtnSetGating | lv_core/lv_lua.c:398-404 | toggle, state, the four actions and layout each call their setter iff the field has the expected kind, with the value read |
| BtnBinding.BtnSetFitCalls | lv_core/lv_lua.c:405-406 | `lv_btn_set_fit` is called iff `hor_fit` or `ver_fit` is a boolean, and each call carries two booleans, with one of the fields in its own position |
| BtnBinding.OwnFitCalls | lv_core/lv_lua.c:405-406 | the same for the button's own lines taken alone |
| BtnBinding.FitCalls | lv_core/lv_lua.c:405-406 | the fit calls: one for a boolean `hor_fit`, paired with the vertical fit read before it, then one for a boolean `ver_fit`, paired with the horizontal fit read after the first call |
| BtnBinding.OwnFitExact | lv_core/lv_lua.c:398-411 | the fit-setter calls of the button's own lines are exactly `FitCalls`, made after the first seven lines |
| BtnBinding.BtnSetFitExact | lv_core/lv_lua.c:378-411 | the fit-setter calls of `lv_btn_set` are exactly `FitCalls`, after the creation, the generic-object calls and the first seven button lines |
| BtnBinding.BtnSetStackDepth | lv_core/lv_lua.c:378-416 | `lv_btn_set` leaves 32 values above its arguments when it creates and 30 otherwise, more than `LUA_MINSTACK` (20) |
| BtnBinding.BtnSetStylesTargetRel | lv_core/lv_lua.c:407-411 | no style slot other than REL is ever set, and the REL setter runs iff any of the five style fields is a light userdata |
| BtnBinding.OwnStyleCalls | lv_core/lv_lua.c:407-411 | the same for the button's own lines taken alone |
| BtnBinding.BtnOwnGet | lv_core/lv_lua.c:436-449 | the button's fourteen names, each compared with `strcmp` and answered with its getter and push kind (`ver_fit` through the horizontal getter, a NULL action as nil); None for any other name |
| BtnBinding.BtnAnswerSeesCText | lv_core/lv_lua.c:434-452 | the button's own answer and the combined answer depend only on the name's C string |
| BtnBinding.BtnLookupCutsAtNul | lv_core/lv_lua.c:434-449 | a name followed by a NUL and any tail gets the button answer of the bare name, and is a button name iff the bare name is |
| BtnBinding.BtnStepAnswered | lv_core/lv_lua.c:436-449 | every field the button setter reads is answered by the button getter: nil only for an action with no Lua action attached, otherwise a C value of the setter's kind |
| BtnBinding.BtnAnswer | lv_core/lv_lua.c:436-452 | the button's own answer, else the generic getter's |
| BtnBinding.BtnGetResultsAt | lv_core/lv_lua.c:434-456 | each result of `lv_btn_get` on the calling state is `BtnAnswer`'s value for the name, or nil for an unknown name or a number |
| BtnBinding.BtnGetRecognises | lv_core/lv_lua.c:434-452 | `lv_btn_get` answers a name iff its C string is a button name or a generic-object name; the two sets are disjoint, so generic names get the generic getter's value |
| BtnBinding.BtnGetNames | lv_core/lv_lua.c:436-452 | the same on a name without NUL: answered exactly for the button names and the generic-object names |
| BtnBinding.BtnGetVerFitIsHorFit | lv_core/lv_lua.c:443-444 | `ver_fit` always reads back the same as `hor_fit`: the horizontal getter's value |
| BtnBinding.BtnGetSetRoundTrip | lv_core/lv_lua.c:436-449 | every button field the setter reads is answered by the getter; a non-nil answer has the setter's kind and written back is found and handed to the setter unchanged; nil comes only from an action with no Lua action attached, and written back sets nothing; an integer is cut to a C `int` |
| BtnBinding.BtnStyleSlotsDiffer | lv_core/lv_lua.c:445-449 | for `style_pr`, `style_tgl_rel`, `style_tgl_pr` and `style_ina` the setter writes the REL slot while the getter reads another slot |
| DdlistBinding.DdlistStepsFacts | lv_core/lv_lua.c:510-519 | the nine drop-down list lines name nine distinct list setters (each style part its own) in strictly increasing source order |
| DdlistBinding.DdlistSetNeverCreates | lv_core/lv_lua.c:499-522 | `lv_ddlist_set` never creates; every call is a list setter on the handle passed in |
| DdlistBinding.DdlistSetGating | lv_core/lv_lua.c:510-519 | each list setter runs iff its field has the expected kind, with the value read |
| DdlistBinding.DdlistSetOrder | lv_core/lv_lua.c:510-519 | setters run in the order options, selected, fix_height, hor_fit, sb_mode, anim_time, style_bg, style_sel, style_sb |
| DdlistBinding.DdlistSetRepeatable | lv_core/lv_lua.c:510-519 | the calls depend only on the handle and the table |
| LuaValues.PushString | lv_core/lv_lua.c:438-441 | `lua_pushstring` pushes the string, or nil for NULL |
| FieldSteps.Emit | lv_core/lv_lua.c:160-176 | one field line: no call unless its field is found (and, for the parent line, the object was just created); else one call of its setter on the object with the value read, the fit lines pairing it with the other fit flag read from the library |
| FieldSteps.Run | lv_core/lv_lua.c:160-176 | a list of field lines run in order, each after the calls of the lines before it |
| FieldSteps.StepReadsBack | lv_core/lv_lua.c:84-130 | a field line fires on a table holding a value of its kind under its name, and passes that value on: an integer cut to a C `int`, a string cut at its first NUL |
| FieldSteps.RunAppend | lv_core/lv_lua.c:398-411 | two lists run one after the other make the first list's calls, then the second's made after them |
| LuaRuntime.Registered | lv_core/lv_lua.c:63-79 | a sequence of registrations, each setting one global |
| LuaRuntime.RegisteredLastWins | lv_core/lv_lua.c:63-79 | after a sequence of registrations, a name holds the value of its last registration |
| LuaRuntime.RegisteredUntouched | lv_core/lv_lua.c:63-79 | a name no registration uses keeps whatever the globals held before |
| LuaRuntime.ReplaceBelowTop | lv_core/lv_lua.c:231-233 | `lua_replace(L, -2)` on a stack ending in the name and its value leaves the value where the name was |
| LuaRuntime.ReplaceNameDown | lv_core/lv_lua.c:186-233 | `lua_replace(L, -2)` when the value went to another state: the name overwrites the slot below it |
| LuaRuntime.LuaState.GetField | lv_core/lv_lua.c:86 | `lua_getfield` pushes the table's field, nil when absent |
| LuaRuntime.LuaState.RawGetI | lv_core/lv_lua.c:218 | `lua_rawgeti` pushes the list entry, nil past the end |
| LuaRuntime.LuaState.Pop | lv_core/lv_lua.c:220 | `lua_pop` removes the top values |
| LuaRuntime.LuaState.Replace | lv_core/lv_lua.c:233 | `lua_replace` moves the top value into the given slot |
| LuaRuntime.LuaState.SetGlobal | lv_core/lv_lua.c:66 | `lua_setglobal` pops the top value into the globals |
| LuaRuntime.LuaState.NativeCreate | lv_core/lv_lua.c:152 | a constructor call is appended to the trace and returns the library's handle |
| LuaRuntime.LuaState.NativeBool | lv_core/lv_lua.c:405-406 | a boolean getter answers from the library without changing anything |
| LuaRuntime.LuaState.GetTableInt | lv_core/lv_lua.c:84-94 | pushes exactly the field; found iff it is a number, storing it as a C `int`, else 0 |
| LuaRuntime.LuaState.GetTableBool | lv_core/lv_lua.c:96-106 | pushes exactly the field; found iff it is a boolean, storing it, else false |
| LuaRuntime.LuaState.GetTablePtr | lv_core/lv_lua.c:108-118 | pushes exactly the field; found iff it is a light userdata, storing its address, else NULL |
| LuaRuntime.LuaState.GetTableStr | lv_core/lv_lua.c:120-130 | pushes exactly the field; found iff it is a string, storing its C string up to the first NUL, else "" |
| LuaRuntime.LuaState.GetTable | lv_core/lv_lua.c:84-130 | the accessor of the line's kind, with the same guarantees |
| LuaRuntime.LuaState.ApplyStep | lv_core/lv_lua.c:160-176 | one field line advances the trace by one step of `Run` and the stack by one fetched value |
| LuaRuntime.LuaState.Invoke | lv_core/lv_lua.c:405-406 | the setter call of one line, including the fit lines' read of the other fit flag, matches the specification of a single step |
| LuaRuntime.LuaState.ObjFields | lv_core/lv_lua.c:160-176 | the fourteen object lines make exactly the calls of `Run` over `ObjSteps` and push one value each |
| LuaRuntime.LuaState.CreateIfNil | lv_core/lv_lua.c:144-154 | for a nil argument 1: reads `parent` and `copy` and calls the constructor once; otherwise takes the handle and changes nothing |
| LuaRuntime.LuaState.ObjSet | lv_core/lv_lua.c:140-182 | returns 1; the trace grows by exactly `ObjSetCalls` and the stack by exactly `ObjSetPushes`, ending with the object |
| LuaRuntime.LuaState.BtnFields | lv_core/lv_lua.c:398-411 | the fourteen button lines make exactly the calls of `Run` over `BtnSteps` |
| LuaRuntime.LuaState.BtnSet | lv_core/lv_lua.c:372-417 | returns 1; slot 1 holds the (possibly new) button; the trace grows by exactly `BtnSetCalls` (creation, then the object setter, then the button lines) and the stack by `BtnSetPushes`, ending with the button |
| LuaRuntime.LuaState.DdlistSet | lv_core/lv_lua.c:499-522 | returns 0; the trace grows by exactly `DdlistSetCalls` and the stack by one value per line |
| LuaRuntime.LuaState.DdlistGet | lv_core/lv_lua.c:524-527 | returns 0 and changes nothing |
| LuaRuntime.LuaState.ObjName | lv_core/lv_lua.c:224-233 | one name of `lv_obj_get`, for any stored state: both stacks become exactly `Turn`'s, or the name is undefined and nothing changes; trace and globals are unchanged |
| LuaRuntime.LuaState.ObjGet | lv_core/lv_lua.c:209-239 | for any stored state, both stacks end as `Finish` says and the loop completes iff `Finish` does, returning the list length k; on the calling state with every name a string or a number it completes with exactly the k results of `ObjGetResults` pushed; trace and globals are unchanged |
| LuaRuntime.LuaState.BtnName | lv_core/lv_lua.c:434-456 | one name of `lv_btn_get`: the button's own names push their value on the calling state; the rest as in `ObjName` |
| LuaRuntime.LuaState.BtnGet | lv_core/lv_lua.c:419-462 | as `ObjGet`, with the button's own names first: both stacks as `Finish` says; on the calling state with every name a string or a number, the k results of `BtnGetResults` |
| LuaRuntime.Context.SetContext | lv_core/lv_lua.c:44-47 | stores the Lua state the other functions use |
| LuaRuntime.Context.GetContext | lv_core/lv_lua.c:49-52 | returns the stored Lua state |
| LuaRuntime.Context.RegisterFunction | lv_core/lv_lua.c:63-67 | the function becomes a global under its Lua name; stack and trace are as before |
| LuaRuntime.Context.RegisterConst | lv_core/lv_lua.c:69-73 | the integer becomes a global under its Lua name; stack and trace are as before |
| LuaRuntime.Context.RegisterPointer | lv_core/lv_lua.c:75-79 | the address becomes a global under its Lua name; stack and trace are as before |
| LuaRuntime.Context.ObjGetCore | lv_core/lv_lua.c:185-206 | reports a match iff the name has a generic getter, and then pushes exactly that getter's value on the stored state; otherwise pushes nothing; a match with no stored state is undefined (a NULL dereference) |

## Left out

- Lua's internals are not modelled: metamethods, number/string coercion (`lua_isnumber` accepts numeric strings and `lua_isstring` accepts numbers), floating-point numbers and their conversion by `lua_tointeger`. Numbers are integers, and each kind test checks only the value's own type.
- LuaRuntime.LuaState.ObjSet, LuaRuntime.LuaState.BtnSet, LuaRuntime.LuaState.DdlistSet, LuaRuntime.LuaState.ObjGet, LuaRuntime.LuaState.BtnGet: `luaL_checktype(L, 2, LUA_TTABLE)` raising a Lua error is modelled as the precondition that argument 2 is a table. The non-local exit of a Lua error is not modelled.
- The same five methods also require at least two values on the stack. This follows from the table check: `luaL_checktype` on index 2 raises an error unless slot 2 exists and holds a table.
- LuaRuntime.LuaState.ObjName, LuaRuntime.LuaState.BtnName: a number name is modelled as matching no getter and pushing nil. `lua_tostring` also rewrites that stack entry to its decimal text in place, but the entry is replaced right after, so nothing observable is lost.
- Undefined behaviour ends a run: `ObjGet` and `BtnGet` return `completed == false` with the stacks as they were at that point. What C does after it is not modelled.
- LuaRuntime.LuaState.BtnSet: the stack has no capacity limit in the model, so the 32 or 30 pushes beyond `LUA_MINSTACK` without `lua_checkstack` succeed (`BtnSetStackDepth` states the count). In C this writes past the guaranteed stack space.
- LuaRuntime.LuaState.ObjGet, LuaRuntime.LuaState.BtnGet: the stack has no capacity limit in the model. Both loops keep one result per name on the stack and never call `lua_checkstack`, so in C a list of 20 names or more goes past the `LUA_MINSTACK` slots Lua guarantees (`GetStackDepth` states the count).
- LuaRuntime.Context.RegisterFunction, LuaRuntime.Context.RegisterConst, LuaRuntime.Context.RegisterPointer: a stored state is a precondition (`L != null`). In C, a registrar called before `lv_lua_set_context` dereferences NULL, which is undefined behaviour and is not modelled.
- Lvgl.Library.intOf: the integer getters answer any integer. The C return types they declare (a coordinate type, `uint32_t` for `free_num`, enum types) are not modelled, because the widget library's headers are not part of this model. A value read back and written to a setter is cut to a C `int` by `ToCInt`, as the round-trip lemmas state.
- The native library is one oracle per Lua state (`LuaState.lib`, `LuaState.trace`). When the shared getter answers on another stored state, it reads the widget through the calling state's library and trace, because the widget library is the same for both states.
- `lua_topointer` of a value that is neither nil nor a light userdata is NULL in the model (`ToPointer`). Lua would return the address of a full userdata, a table or a function.
- The widget library's behaviour is not modelled: setters are recorded in the trace and getters are oracle functions of the call history. The trace records the C `int` each accessor stored. Its conversion to the parameter type the widget function declares is not modelled: a coordinate type for sizes and positions, or a narrower integer, boolean or enum type for fields such as `toggle`, `state`, `layout`, `selected`, `sb_mode` and `anim_time`. The widget library's headers are not part of this model.
- Pure pass-throughs with no logic are not modelled: `lua_lv_scr_act`, `lua_lv_style_alloc`, `lua_lv_style_copy`, `lua_lv_style_anim_create`, `lua_lv_style_set_body_border_width`, `lua_lv_ddlist_create` (lines 135-138, 301-336, 490-497).
- `lv_lua_register` (lines 54-61) and the four `lv_lua_*_register` lists (lines 242-295, 338-364, 464-478, 572-580) are not modelled. They are fixed sequences of the three registrars, and a single registration and its effect on the globals are modelled instead (`Registered`, `RegisteredLastWins`).
- The `#if` build variants are fixed to one configuration: free number and free pointer present, buttons and drop-down lists compiled in. The variant without `free_num`/`free_ptr` is not modelled.
- The commented-out body of `lua_lv_ddlist_get` and the commented-out `action` line of `lua_lv_ddlist_set` are not code and are not modelled.
- `lv_core/lv_lua.h` holds only prototypes and is not part of this model.
- The methods `CreateIfNil`, `ObjFields`, `BtnFields`, `ApplyStep`, `Invoke`, `ObjName` and `BtnName` split the bodies of the C functions into parts. `CreateIfNil(family, writeBack)` covers both creation blocks; the button's block also writes the new handle over slot 1.
