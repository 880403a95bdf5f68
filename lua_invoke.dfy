/**
 * The script invoker of Geeqie's Lua support: the one shared interpreter,
 * its set-up (`lua_init`) and `lua_callvalue`, which rebinds the globals
 * `Collection` and `Image`, runs an inline snippet or a file named
 * relative to the user's `lua` directory, and turns what the script left behind into text.
 */
module LuaInvoke {
  import opened Wrappers
  import opened LuaValues
  import opened LuaBinding

  /** What the runtime is asked to run. */
  datatype Source = Inline(code: CText) | ScriptFile(path: CText)

  /** How a run ended: the value on top of the stack, or the error value raised. */
  datatype Outcome = Succeeded(top: Value) | Failed(message: Value)

  /** A run of the (unmodelled) Lua runtime: its outcome and the globals it leaves behind. */
  datatype Run = Run(outcome: Outcome, globals: map<string, Value>)

  /** What `lua_callvalue` hands back (None is NULL), and the line it logs, if any. */
  datatype Reply = Reply(data: Option<CText>, warning: Option<CText>)

  const ErrorPrefix: CText := "Error running lua script: "
  // Written as two literals: the verifier does not show a literal this long free of NUL.
  const ConversionWarning: CText := "Error converting lua output " + "from locale to UTF-8: "

  /** The empty table bound to `Collection` on every call. */
  const EmptyTable: Value := Table(map[])

  /**
   * A name with its leading separators removed, as `g_build_filename` treats
   * every element after the first.
   */
  function StripLeadingSeparators(s: CText): (r: CText)
    ensures |r| <= |s| && r == s[|s| - |r|..]
    ensures r == [] || r[0] != '/'
    ensures forall i :: 0 <= i < |s| - |r| ==> s[i] == '/'
  {
    if s != [] && s[0] == '/' then StripLeadingSeparators(s[1..]) else s
  }

  /** `<rc_dir>/lua/<file>`: where a named script is looked for, with the name's leading separators dropped. */
  function ScriptPath(rcDir: CText, file: CText): (p: CText)
    ensures rcDir + "/lua/" <= p
    ensures p[|rcDir| + 5..] == StripLeadingSeparators(file)
  {
    rcDir + "/lua/" + StripLeadingSeparators(file)
  }

  /**
   * A leading separator does not make a script name absolute: "x.lua" and
   * "/x.lua" build the same path. (The name is not normalised, so `..` parts
   * still lead outside `<rc_dir>/lua`.)
   */
  lemma {:induction false} LeadingSeparatorsAreIgnored(rcDir: CText, file: CText)
    ensures ScriptPath(rcDir, "/" + file) == ScriptPath(rcDir, file)
  {
    var named: CText := "/" + file;
    assert named != [] && named[0] == '/' && named[1..] == file;
    assert StripLeadingSeparators(named) == StripLeadingSeparators(file);
  }

  /**
   * An empty file name selects the inline snippet; any other name the path
   * `<rc_dir>/lua/` followed by the name without its leading separators.
   */
  function SourceFor(file: CText, code: CText, rcDir: CText): (s: Source)
    ensures s.Inline? <==> file == ""
    ensures s.Inline? ==> s.code == code
    ensures s.ScriptFile? ==> rcDir + "/lua/" <= s.path && s.path[|rcDir| + 5..] == StripLeadingSeparators(file)
  {
    if file == "" then Inline(code) else ScriptFile(ScriptPath(rcDir, file))
  }

  /**
   * The error value as `%s` prints it: its C text, or "(null)" when it is
   * neither string nor number. "(null)" is what glibc prints for a NULL `%s`;
   * ISO C leaves that case undefined.
   */
  function MessageText(v: Value): (t: CText)
    ensures ToCText(v).Some? ==> t == ToCText(v).value
    ensures ToCText(v).None? ==> t == "(null)"
  {
    match ToCText(v)
    case Some(s) => s
    case None => "(null)"
  }

  /**
   * The reply to a run. A failure becomes the fixed prefix and the message,
   * with no conversion. A success that left a string or number becomes its
   * text converted to UTF-8, or the unconverted text plus a logged warning
   * when conversion fails. A success that left any other value gives NULL.
   */
  function Response(o: Outcome, toUtf8: CText -> Result<CText, CText>): (r: Reply)
    ensures o.Failed? ==> r.warning.None? && r.data.Some?
    ensures o.Failed? ==> ErrorPrefix <= r.data.value && r.data.value[|ErrorPrefix|..] == MessageText(o.message)
    ensures o.Succeeded? ==> (r.data.None? <==> ToCText(o.top).None?)
    ensures o.Succeeded? && ToCText(o.top).Some? && toUtf8(ToCText(o.top).value).Ok? ==>
      r == Reply(Some(toUtf8(ToCText(o.top).value).value), None)
    ensures o.Succeeded? && ToCText(o.top).Some? && toUtf8(ToCText(o.top).value).Err? ==>
      r.data == ToCText(o.top) && r.warning.Some?
      && r.warning.value == ConversionWarning + toUtf8(ToCText(o.top).value).error + "\n"
    ensures r.warning.Some? ==> o.Succeeded? && ToCText(o.top).Some? && toUtf8(ToCText(o.top).value).Err?
  {
    match o
    case Failed(message) => Reply(Some(ErrorPrefix + MessageText(message)), None)
    case Succeeded(top) =>
      match ToCText(top)
      case None => Reply(None, None)
      case Some(text) =>
        match toUtf8(text)
        case Ok(converted) => Reply(Some(converted), None)
        case Err(e) => Reply(Some(text), Some(ConversionWarning + e + "\n"))
  }

  /** What `lua_callvalue` as written does: a success leaving no text reaches `strlen(NULL)`. */
  datatype Effect = Returns(reply: Reply) | Undefined

  function ResponseAsWritten(o: Outcome, toUtf8: CText -> Result<CText, CText>): (e: Effect)
    ensures e.Undefined? <==> o.Succeeded? && ToCText(o.top).None?
    ensures e.Returns? ==> e.reply == Response(o, toUtf8)
  {
    if o.Succeeded? && ToCText(o.top).None? then Undefined else Returns(Response(o, toUtf8))
  }

  /** A script ending in `return nil` (or a boolean, table, function or handle) has no defined reply as written. */
  lemma ReturnNilIsUndefinedAsWritten(toUtf8: CText -> Result<CText, CText>, v: Value)
    requires v.Nil? || v.Boolean? || v.Table? || v.CFunction? || v.Userdata?
    ensures ResponseAsWritten(Succeeded(v), toUtf8) == Undefined
    ensures Response(Succeeded(v), toUtf8) == Reply(None, None)
  {
  }

  /** The shared Lua state `L`: its globals and the registry's metatables. */
  class Interpreter {
    var globals: map<string, Value>
    var metatables: map<string, map<string, Builtin>>

    /** The two metatables stay as `lua_init` registered them. */
    ghost predicate Valid()
      reads this
    {
      metatables == map[KindName(ImageKind) := MethodTable(ImageKind), KindName(ExifKind) := MethodTable(ExifKind)]
    }

    /**
     * `lua_init`: registers the global tables `Image` and `Exif` and a
     * metatable of the same name for each, whose `__index` is that table.
     */
    constructor Init()
      ensures Valid()
      ensures globals == map["Image" := Table(ImageMethods()), "Exif" := Table(ExifMethods())]
    {
      globals := map[];
      metatables := map[];
      new;
      globals := globals["Image" := Table(ImageMethods())];
      metatables := metatables["Image" := ImageMethods()];
      globals := globals["Exif" := Table(ExifMethods())];
      metatables := metatables["Exif" := ExifMethods()];
    }

    /** The method `h:name` resolves to through `h`'s metatable; it always expects `h`'s kind. */
    function MethodFor(h: Handle, name: string): (r: Option<Builtin>)
      reads this
      requires Valid()
      ensures r.Some? <==> name in MethodTable(h.Kind())
      ensures r.Some? ==> r.value.Receiver() == h.Kind() && r.value.Name() == name
    {
      ImageTableIsExact();
      ExifTableIsExact();
      var index := metatables[KindName(h.Kind())];
      if name in index then Some(index[name]) else None
    }

    /**
     * `lua_callvalue(fd, file, code)`: binds `Collection` to a fresh empty
     * table and `Image` to a handle on `fd`, runs the selected source with
     * `exec`, and normalises the outcome. The configuration directory, the
     * runtime and the locale conversion are passed in.
     */
    method CallValue(fd: FileData, file: CText, code: CText, rcDir: CText,
                     exec: (Source, map<string, Value>) -> Run,
                     toUtf8: CText -> Result<CText, CText>)
      returns (data: Option<CText>, warning: Option<CText>)
      requires Valid()
      modifies this
      ensures Valid()
      ensures var seen := old(globals)["Collection" := EmptyTable]["Image" := Userdata(ImageH(fd))];
        var run := exec(SourceFor(file, code, rcDir), seen);
        globals == run.globals && Reply(data, warning) == Response(run.outcome, toUtf8)
    {
      globals := globals["Collection" := EmptyTable];
      globals := globals["Image" := Userdata(ImageH(fd))];

      var source: Source;
      if file == "" {
        source := Inline(code);
      } else {
        source := ScriptFile(ScriptPath(rcDir, file));
      }
      var run := exec(source, globals);
      globals := run.globals;

      warning := None;
      match run.outcome {
        case Failed(message) =>
          data := Some(ErrorPrefix + MessageText(message));
        case Succeeded(top) =>
          data := ToCText(top);
          if data.Some? {
            var converted := toUtf8(data.value);
            if converted.Err? {
              warning := Some(ConversionWarning + converted.error + "\n");
            } else {
              data := Some(converted.value);
            }
          }
      }
    }
  }
}
