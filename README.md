# Geeqie's Lua binding, modelled in Dafny

Geeqie, an image browser, lets user scripts written in Lua compute text about
the current image. `src/lua.c` exposes two host objects to the scripts as
typed handles: the image record (`FileData`) and its EXIF set (`ExifData`).
Each handle type has a fixed method table. `lua_callvalue` runs an inline
snippet or a named script file and turns the script's result, or its error,
into text.

This project models that binding layer:

- `wrappers.dfy` (`Wrappers`): `Option` (a pointer that may be NULL) and `Result` (a call that may raise a Lua error).
- `lua_values.dfy` (`LuaValues`): the image record and the two handle kinds.
  It also holds the Lua values this layer touches and the C view of a Lua string, which stops at the first NUL.
  Numbers are rendered as text the way `lua_tostring` does, and a lemma proves that this text reads back as the same number.
- `lua_binding.dfy` (`LuaBinding`): the checked unwrapping `lua_check_image` / `lua_check_exif` and the five Image getters.
  It also covers `get_exif`, the `get_datum` decision procedure, the two method tables of `lua_init`, and method dispatch through the handle's own table.
- `lua_invoke.dfy` (`LuaInvoke`): the shared interpreter as a class.
  Its constructor is `lua_init` and its method `CallValue` is `lua_callvalue`.
  Source selection and the result/error normalisation are specification functions.
- `lua_scenarios.dfy` (`LuaScenarios`): a client that reasons from the contracts of `CallMethod`, `Response` and `CallValue`.
  `return Image:get_path()` on `/tmp/a.jpg` yields `/tmp/a.jpg`, and a rejected snippet yields the error prefix.

The model takes the parts it cannot see as parameters:

- `Host.readExif` stands for `exif_read_fd`.
- `Host.parseDate` stands for `strptime` with `%Y:%m:%d %H:%M:%S` followed by `mktime`.
- `exec` stands for `luaL_dostring` / `luaL_dofile`. It returns the run's outcome and the globals it leaves behind.
- `toUtf8` stands for `g_locale_to_utf8`.
- `rcDir` stands for `get_rc_dir()`.

`exif_get_data_as_text` is modelled as a map from EXIF key to its rendered text.

Facts about the code that the model follows:

- A type's method table can be reached and changed by scripts.
  The `__metatable` field is set to the method table itself (src/lua.c:195-197, 212-214), so `getmetatable(h)` gives a script the very table behind every handle of that kind.
  The global `Image` is that same table until `lua_callvalue` first rebinds it (src/lua.c:189, 240).
  The global `Exif` stays the Exif `__index` table for the interpreter's whole life (src/lua.c:206-211), so a script that runs `Exif.get_datum = nil` breaks `get_datum` on every later handle.
  The model does not let `exec` change the metatables (see Left out).
- A script's path is always `<rc_dir>/lua/` followed by the name without its leading separators. `g_build_filename` drops the leading separators of every element after the first (src/lua.c:249-250), so "/x.lua" names the same file as "x.lua".
  The name is not normalised, so `..` parts can reach outside that directory: "../x.lua" gives `<rc_dir>/lua/../x.lua`, which is `<rc_dir>/x.lua`.
- An unknown method is not a dedicated error in the code.
  Indexing yields nil, and Lua's own "attempt to call a nil value" follows. The model names this `NoSuchMethod`.
- The NULL checks after `luaL_checkudata` (src/lua.c:49,121) and on the key (src/lua.c:136) can never fire.
  Lua raises the type error itself, and `luaL_checkstring` never returns NULL.
  `luaL_checkstring` also accepts a number as the key and converts it to its decimal text. The model does both.

## Model

| member | source | states |
|---|---|---|
| `LuaValues.CPrefix` | src/lua.c:135-147 | the C view of a Lua key is its longest NUL-free prefix: a prefix of the string that stops only at its end or at a NUL |
| `LuaValues.NumberText` | src/lua.c:135 | a number's text is a minus sign exactly for negative numbers, followed by decimal digits |
| `LuaValues.NaturalTextRoundTrip` | src/lua.c:261 | the decimal digits of a natural number denote that number |
| `LuaValues.NumberTextRoundTrip` | src/lua.c:261 | rendering a number as text loses nothing: the text reads back as the same number |
| `LuaValues.ToCText` | src/lua.c:261 | `lua_tostring` yields text exactly for strings and numbers; a string's text is exactly its C view (`CPrefix`), which equals the string when it has no NUL; a number's text reads back as that number |
| `LuaBinding.CheckUdata` | src/lua.c:47-49 | succeeds exactly on a handle of the expected kind at that argument. A non-userdata or missing argument fails with "userdata expected"; the other kind of handle fails with "<kind> expected, got userdata" |
| `LuaBinding.CheckImage` | src/lua.c:44-51 | yields the record exactly when argument 1 is an Image handle wrapping it; an Exif handle gives the "Image expected" type error |
| `LuaBinding.CheckExif` | src/lua.c:116-123 | yields the (possibly NULL) EXIF set exactly when argument 1 is an Exif handle wrapping it; an Image handle gives the "Exif expected" type error |
| `LuaBinding.CheckString` | src/lua.c:135 | a string key is taken as is; a number key becomes text that reads back as that number; anything else is a "string expected" error on that argument |
| `LuaBinding.ImageGetPath` | src/lua.c:71-78 | succeeds exactly on an Image handle and returns that record's path; otherwise a type error on argument 1 |
| `LuaBinding.ImageGetName` | src/lua.c:80-87 | succeeds exactly on an Image handle and returns that record's name; otherwise a type error on argument 1 |
| `LuaBinding.ImageGetExtension` | src/lua.c:89-96 | succeeds exactly on an Image handle and returns that record's extension; otherwise a type error on argument 1 |
| `LuaBinding.ImageGetDate` | src/lua.c:98-105 | succeeds exactly on an Image handle and returns that record's time stamp as a number; otherwise a type error on argument 1 |
| `LuaBinding.ImageGetSize` | src/lua.c:107-114 | succeeds exactly on an Image handle and returns that record's size as a number; otherwise a type error on argument 1 |
| `LuaBinding.ImageGetExif` | src/lua.c:53-69 | succeeds exactly on an Image handle and always yields an Exif-tagged handle on what the EXIF reader returned for that record, NULL included |
| `LuaBinding.Datum` | src/lua.c:136-163 | the result is nil, text or a number. An empty key or a NULL set gives nil. A number comes only for the date key and exactly when its value exists and parses. Text comes only for other non-empty keys the set holds, and it is exactly their stored text |
| `LuaBinding.ExifGetDatum` | src/lua.c:126-164 | raises only when argument 1 is not an Exif handle or the key is neither string nor number. Otherwise it never raises and returns the decision for the key; a number key never yields a number |
| `LuaBinding.ImageTableIsExact` | src/lua.c:180-188 | the Image table is exactly get_path, get_name, get_extension, get_date, get_size, get_exif, each bound to its own function, and each expects an Image handle |
| `LuaBinding.ExifTableIsExact` | src/lua.c:202-205 | the Exif table is exactly get_datum, which expects an Exif handle |
| `LuaBinding.EveryBuiltinIsBound` | src/lua.c:175-205 | every host function is reachable by its name from the table of the kind it expects |
| `LuaBinding.Invoke` | src/lua.c:71-164 | a registered function fails on argument 1 exactly when argument 1 is not a handle of its kind; on its own kind only get_datum can fail, and only on its key. On success each getter returns its record field (path, name, extension as text; date, size as numbers), get_exif the Exif handle on what the reader yields, and get_datum what `ExifGetDatum` decides |
| `LuaBinding.CallMethod` | src/lua.c:189-198 | `h:name()` fails with no-such-method exactly when h's own table lacks the name; otherwise it is the table's function applied to h and the arguments, which never raises a receiver type error |
| `LuaBinding.MethodCallsReachTheirFunctions` | src/lua.c:71-164 | for every record, EXIF set and key: `h:get_path()` … `h:get_size()` return the record's fields, `h:get_exif()` the Exif handle on what the reader yields, and `e:get_datum(key)` the `Datum` decision for that key |
| `LuaBinding.ExifHandleIsNotAnImage` | src/lua.c:62-66 | the handle get_exif returns rejects every Image method: as a method call it has no such method, and passed to the Image function it is a type error |
| `LuaInvoke.StripLeadingSeparators` | src/lua.c:250 | what remains of a name after the path builder drops its leading separators: a suffix of the name that does not start with "/", and everything dropped is "/" |
| `LuaInvoke.ScriptPath` | src/lua.c:249-250 | a named script is looked up as `<rc_dir>/lua/` followed by the name without its leading separators |
| `LuaInvoke.LeadingSeparatorsAreIgnored` | src/lua.c:249-250 | a leading "/" does not make a script name absolute: "/x" and "x" resolve to the same path |
| `LuaInvoke.SourceFor` | src/lua.c:243-254 | inline source is chosen exactly when the file name is empty; otherwise the path `<rc_dir>/lua/` followed by the name without its leading separators (not normalised, so `..` is kept) |
| `LuaInvoke.MessageText` | src/lua.c:258 | an error value prints as its C text, or as "(null)" (glibc's rendering of a NULL `%s`) when it is neither string nor number |
| `LuaInvoke.Response` | src/lua.c:256-273 | a failure gives "Error running lua script: " followed by the message, with no conversion and no warning. A success with text gives the converted text, or on conversion failure the unconverted text plus the logged warning line (prefix, conversion error, newline). The result is absent only when the script left no text |
| `LuaInvoke.ResponseAsWritten` | src/lua.c:261-262 | as written, the call is undefined exactly when the script succeeds without leaving text; in every other case it agrees with `Response` |
| `LuaInvoke.ReturnNilIsUndefinedAsWritten` | src/lua.c:261-262 | a script returning nil, a boolean, a table, a function or a handle reaches `strlen(NULL)` as written; the corrected reply is absent |
| `LuaInvoke.Interpreter.Init` | src/lua.c:169-217 | registers the global tables Image and Exif with their methods and one metatable per kind whose index is that table |
| `LuaInvoke.Interpreter.MethodFor` | src/lua.c:189-198 | looking a name up through a handle's metatable finds it exactly when the kind's table holds it, and what it finds expects that kind and carries that name |
| `LuaInvoke.Interpreter.CallValue` | src/lua.c:222-274 | every call runs the selected source with Collection rebound to an empty table and Image rebound to a handle on the record, and with all other globals as left by the previous call. It keeps the globals the run leaves, keeps the metatables, and replies as `Response` says |

## Left out

- The Lua interpreter itself (`luaL_newstate`, `luaL_openlibs`, `luaL_dostring`, `luaL_dofile`, the stack) is the `exec` parameter.
  The standard library globals that `luaL_openlibs` installs are not in the model.
- CallValue: assumes the script leaves the two metatables alone. In the code, `__metatable` hands scripts the method table itself, and the global `Exif` is the Exif method table for the interpreter's life, so a script could change either for later calls.
- The value stack is never popped in `lua_callvalue`, so the result or error of each call stays on it. The model keeps no stack; a run's outcome is the value at its top, which `exec` reports.
  Two effects follow in the code, because `luaL_dostring` and `luaL_dofile` (src/lua.c:245,251) keep all of a script's results (`LUA_MULTRET`). A script that returns no value replies with the top value left by an earlier call. On the first call, such a script makes `lua_tostring(L, -1)` read an empty stack and yield NULL, which reaches the same `strlen(NULL)` as the Finding below.
- Argument-error message text (`bad argument #1 to 'get_path' (...)`, including Lua's renumbering for method calls) is kept as structure (argument number, expected, got), not as a formatted string.
- NumberText: renders every integer in plain decimal. `lua_tostring` uses `%.14g`, which switches to exponent form from 10^14 on and which works on doubles. Time stamps and file sizes stay far below that, and Lua numbers are modelled as integers.
- MessageText: "(null)" is glibc's output for a NULL `%s`; ISO C leaves it undefined, and other C libraries may differ.
- `strptime` leniency and the local-time zone of `mktime` are inside `Host.parseDate`, and the EXIF library is inside `Host.readExif` and the `ExifData` map.
- ScriptPath: models `g_build_filename` as joining with "/" after dropping the name's leading separators. Its other rules are left out: dropping trailing separators of `rc_dir` and of inner elements, and the special case of a name made only of separators.
- Memory ownership (`g_strdup`, `g_free`, the never-freed EXIF set, the leaked conversion buffer), logging I/O (the warning is returned instead of printed), and the lack of thread safety of the single static state are not modelled.

## Findings

| source | as written | input that shows it | evidently intended | confidence | as-written member | corrected member |
|---|---|---|---|---|---|---|
| src/lua.c:261-262 | the script's result is fetched with `lua_tostring`, duplicated, and its length taken, with no check that the result was text; for a non-string, non-number result `lua_tostring` gives NULL, `g_strdup(NULL)` gives NULL and `strlen(NULL)` is undefined | inline snippet `return nil` (or `return true`, `return {}`) with an empty file name; also a first call whose script returns no value | reply with no text (NULL) and skip the locale conversion | high, not executed | `LuaInvoke.ResponseAsWritten` | `LuaInvoke.Response` |
