/**
 * A client of the model: what a caller of `lua_callvalue` can conclude from
 * the contracts alone, for a runtime that understands one snippet.
 */
module LuaScenarios {
  import opened Wrappers
  import opened LuaValues
  import opened LuaBinding
  import opened LuaInvoke

  /**
   * A stand-in for the Lua runtime: it evaluates the inline snippet
   * "return Image:get_path()" by a method call on the `Image` global, and
   * reports a syntax error for every other source.
   */
  function PathSnippetRuntime(host: Host): (Source, map<string, Value>) -> Run {
    (src: Source, g: map<string, Value>) =>
      if src == Inline("return Image:get_path()") && "Image" in g && g["Image"].Userdata? then
        match CallMethod(g["Image"].h, "get_path", [], host)
        case Ok(v) => Run(Succeeded(v), g)
        case Err(_) => Run(Failed(Text("attempt to call method 'get_path'")), g)
      else
        Run(Failed(Text("[string \"return (\"]:1: unexpected symbol")), g)
  }

  /** "return Image:get_path()" on an image at /tmp/a.jpg yields "/tmp/a.jpg". */
  method PathScenario(lua: Interpreter, host: Host)
    requires lua.Valid()
    modifies lua
  {
    var path: CText := "/tmp/a.jpg";
    var fd := FileData(path, "a.jpg", "jpg", 0, 0);
    var code: CText := "return Image:get_path()";
    var rcDir: CText := "/rc";
    var identity := (s: CText) => Ok(s);
    var runtime := PathSnippetRuntime(host);
    var seen := lua.globals["Collection" := EmptyTable]["Image" := Userdata(ImageH(fd))];
    assert SourceFor("", code, rcDir) == Inline(code);
    assert "Image" in seen && seen["Image"] == Userdata(ImageH(fd));
    MethodCallsReachTheirFunctions(fd, None, "", host);
    assert runtime(Inline(code), seen) == Run(Succeeded(Text(path)), seen);
    assert Response(Succeeded(Text(path)), identity) == Reply(Some(path), None);

    var data, warning := lua.CallValue(fd, "", code, rcDir, runtime, identity);
    assert data == Some(path) && warning == None;
  }

  /** A snippet the runtime rejects yields the fixed error prefix, never a failure of the call. */
  method SyntaxErrorScenario() {
    var lua := new Interpreter.Init();
    var host := Host(fd => None, text => None);
    var fd := FileData("/tmp/a.jpg", "a.jpg", "jpg", 0, 0);
    var code: CText := "return (";
    var rcDir: CText := "/rc";
    var data, warning := lua.CallValue(fd, "", code, rcDir, PathSnippetRuntime(host), s => Ok(s));
    assert data.Some? && ErrorPrefix <= data.value && warning == None;
  }
}
