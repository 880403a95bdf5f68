/**
 * The host functions that Geeqie registers with Lua: the checked unwrapping
 * of the two handle kinds, the Image getters, `get_exif`, the `get_datum`
 * decision procedure, the two method tables and the dispatch of a method
 * call `h:name(...)` through the table of the handle's own kind.
 */
module LuaBinding {
  import opened Wrappers
  import opened LuaValues

  /**
   * The collaborators the host functions call but this model does not see:
   * the EXIF reader (`exif_read_fd`) and the date parser (`strptime` with
   * "%Y:%m:%d %H:%M:%S" followed by `mktime`; None when `strptime` fails).
   */
  datatype Host = Host(readExif: FileData -> Option<ExifData>, parseDate: CText -> Option<int>)

  /** The one key whose value `get_datum` turns into a number. */
  const DateTimeOriginal: CText := "Exif.Photo.DateTimeOriginal"

  /** The methods registered for Image handles. */
  function ImageMethods(): map<string, Builtin> {
    map[
      "get_path" := GetPath,
      "get_name" := GetName,
      "get_extension" := GetExtension,
      "get_date" := GetDate,
      "get_size" := GetSize,
      "get_exif" := GetExif
    ]
  }

  /** The methods registered for Exif handles. */
  function ExifMethods(): map<string, Builtin> {
    map["get_datum" := GetDatum]
  }

  /** The `__index` table of each kind's metatable. */
  function MethodTable(k: Kind): map<string, Builtin> {
    match k
    case ImageKind => ImageMethods()
    case ExifKind => ExifMethods()
  }

  /** The Image table holds exactly the six Image methods, each under its own name. */
  lemma ImageTableIsExact()
    ensures ImageMethods().Keys == {"get_path", "get_name", "get_extension", "get_date", "get_size", "get_exif"}
    ensures forall name | name in ImageMethods() ::
      ImageMethods()[name].Name() == name && ImageMethods()[name].Receiver() == ImageKind
  {
  }

  /** The Exif table holds `get_datum` and nothing else. */
  lemma ExifTableIsExact()
    ensures ExifMethods().Keys == {"get_datum"}
    ensures forall name | name in ExifMethods() ::
      ExifMethods()[name].Name() == name && ExifMethods()[name].Receiver() == ExifKind
  {
  }

  /** Every host function is reachable, by its own name, from the table of the kind it expects. */
  lemma EveryBuiltinIsBound(b: Builtin)
    ensures b.Name() in MethodTable(b.Receiver())
    ensures MethodTable(b.Receiver())[b.Name()] == b
  {
  }

  /** Lua's type name of argument `index` (counted from 1), "no value" past the last one. */
  function ArgTypeName(args: seq<Value>, index: nat): string
    requires 1 <= index
  {
    if index <= |args| then TypeName(args[index - 1]) else "no value"
  }

  /** Argument `index` is a handle of kind `k`. */
  predicate HoldsKind(args: seq<Value>, index: nat, k: Kind)
    requires 1 <= index
  {
    index <= |args| && args[index - 1].Userdata? && args[index - 1].h.Kind() == k
  }

  /**
   * `luaL_checktype(L, index, LUA_TUSERDATA)` followed by
   * `luaL_checkudata(L, index, name)`: a value that is not userdata fails
   * with "userdata expected", a handle of the other kind with "<name> expected".
   */
  function CheckUdata(args: seq<Value>, index: nat, k: Kind): (r: Result<Handle, LuaError>)
    requires 1 <= index
    ensures r.Ok? <==> HoldsKind(args, index, k)
    ensures r.Ok? ==> args[index - 1] == Userdata(r.value)
    ensures r.Err? ==> r.error.BadArgument? && r.error.arg == index
    ensures r.Err? && index <= |args| && args[index - 1].Userdata? ==>
      r.error == BadArgument(index, KindName(k), "userdata")
    ensures r.Err? && !(index <= |args| && args[index - 1].Userdata?) ==>
      r.error == BadArgument(index, "userdata", ArgTypeName(args, index))
  {
    if index > |args| || !args[index - 1].Userdata? then
      Err(BadArgument(index, "userdata", ArgTypeName(args, index)))
    else if args[index - 1].h.Kind() != k then
      Err(BadArgument(index, KindName(k), "userdata"))
    else
      Ok(args[index - 1].h)
  }

  /** `lua_check_image`: the record behind an Image handle in argument 1, or a type error. */
  function CheckImage(args: seq<Value>): (r: Result<FileData, LuaError>)
    ensures r.Ok? <==> HoldsKind(args, 1, ImageKind)
    ensures r.Ok? ==> args[0] == Userdata(ImageH(r.value))
    ensures r.Err? && 1 <= |args| && args[0].Userdata? ==> r.error == BadArgument(1, "Image", "userdata")
    ensures r.Err? && !(1 <= |args| && args[0].Userdata?) ==> r.error.BadArgument? && r.error.expected == "userdata"
  {
    match CheckUdata(args, 1, ImageKind)
    case Ok(h) => Ok(h.fd)
    case Err(e) => Err(e)
  }

  /** `lua_check_exif`: the (possibly NULL) EXIF set behind an Exif handle in argument 1, or a type error. */
  function CheckExif(args: seq<Value>): (r: Result<Option<ExifData>, LuaError>)
    ensures r.Ok? <==> HoldsKind(args, 1, ExifKind)
    ensures r.Ok? ==> args[0] == Userdata(ExifH(r.value))
    ensures r.Err? && 1 <= |args| && args[0].Userdata? ==> r.error == BadArgument(1, "Exif", "userdata")
    ensures r.Err? && !(1 <= |args| && args[0].Userdata?) ==> r.error.BadArgument? && r.error.expected == "userdata"
  {
    match CheckUdata(args, 1, ExifKind)
    case Ok(h) => Ok(h.exif)
    case Err(e) => Err(e)
  }

  /** `luaL_checkstring`: a string as it is, a number as its decimal text; anything else is a type error. */
  function CheckString(args: seq<Value>, index: nat): (r: Result<string, LuaError>)
    requires 1 <= index
    ensures r.Ok? <==> index <= |args| && (args[index - 1].Text? || args[index - 1].Number?)
    ensures r.Ok? && args[index - 1].Text? ==> r.value == args[index - 1].s
    ensures r.Ok? && args[index - 1].Number? ==> NumberValue(r.value) == Some(args[index - 1].n)
    ensures r.Err? ==> r.error == BadArgument(index, "string", ArgTypeName(args, index))
  {
    if index <= |args| && args[index - 1].Text? then Ok(args[index - 1].s)
    else if index <= |args| && args[index - 1].Number? then
      NumberTextRoundTrip(args[index - 1].n);
      Ok(NumberText(args[index - 1].n))
    else Err(BadArgument(index, "string", ArgTypeName(args, index)))
  }

  /** `lua_image_get_path` */
  function ImageGetPath(args: seq<Value>): (r: Result<Value, LuaError>)
    ensures r.Ok? <==> HoldsKind(args, 1, ImageKind)
    ensures r.Ok? ==> r.value == Text(args[0].h.fd.path)
    ensures r.Err? ==> r.error.BadArgument? && r.error.arg == 1
    ensures r.Err? ==> CheckImage(args).Err? && r.error == CheckImage(args).error
  {
    match CheckImage(args)
    case Ok(fd) => Ok(Text(fd.path))
    case Err(e) => Err(e)
  }

  /** `lua_image_get_name` */
  function ImageGetName(args: seq<Value>): (r: Result<Value, LuaError>)
    ensures r.Ok? <==> HoldsKind(args, 1, ImageKind)
    ensures r.Ok? ==> r.value == Text(args[0].h.fd.name)
    ensures r.Err? ==> r.error.BadArgument? && r.error.arg == 1
    ensures r.Err? ==> CheckImage(args).Err? && r.error == CheckImage(args).error
  {
    match CheckImage(args)
    case Ok(fd) => Ok(Text(fd.name))
    case Err(e) => Err(e)
  }

  /** `lua_image_get_extension` */
  function ImageGetExtension(args: seq<Value>): (r: Result<Value, LuaError>)
    ensures r.Ok? <==> HoldsKind(args, 1, ImageKind)
    ensures r.Ok? ==> r.value == Text(args[0].h.fd.extension)
    ensures r.Err? ==> r.error.BadArgument? && r.error.arg == 1
    ensures r.Err? ==> CheckImage(args).Err? && r.error == CheckImage(args).error
  {
    match CheckImage(args)
    case Ok(fd) => Ok(Text(fd.extension))
    case Err(e) => Err(e)
  }

  /** `lua_image_get_date` */
  function ImageGetDate(args: seq<Value>): (r: Result<Value, LuaError>)
    ensures r.Ok? <==> HoldsKind(args, 1, ImageKind)
    ensures r.Ok? ==> r.value == Number(args[0].h.fd.date)
    ensures r.Err? ==> r.error.BadArgument? && r.error.arg == 1
    ensures r.Err? ==> CheckImage(args).Err? && r.error == CheckImage(args).error
  {
    match CheckImage(args)
    case Ok(fd) => Ok(Number(fd.date))
    case Err(e) => Err(e)
  }

  /** `lua_image_get_size` */
  function ImageGetSize(args: seq<Value>): (r: Result<Value, LuaError>)
    ensures r.Ok? <==> HoldsKind(args, 1, ImageKind)
    ensures r.Ok? ==> r.value == Number(args[0].h.fd.size)
    ensures r.Err? ==> r.error.BadArgument? && r.error.arg == 1
    ensures r.Err? ==> CheckImage(args).Err? && r.error == CheckImage(args).error
  {
    match CheckImage(args)
    case Ok(fd) => Ok(Number(fd.size))
    case Err(e) => Err(e)
  }

  /** `lua_image_get_exif`: reads the image's EXIF set and wraps it, NULL or not, as an Exif handle. */
  function ImageGetExif(args: seq<Value>, host: Host): (r: Result<Value, LuaError>)
    ensures r.Ok? <==> HoldsKind(args, 1, ImageKind)
    ensures r.Ok? ==> r.value.Userdata? && r.value.h.Kind() == ExifKind
    ensures r.Ok? ==> r.value.h.exif == host.readExif(args[0].h.fd)
    ensures r.Err? ==> r.error.BadArgument? && r.error.arg == 1
    ensures r.Err? ==> CheckImage(args).Err? && r.error == CheckImage(args).error
  {
    match CheckImage(args)
    case Ok(fd) => Ok(Userdata(ExifH(host.readExif(fd))))
    case Err(e) => Err(e)
  }

  /**
   * The decision procedure of `lua_exif_get_datum` once both arguments are
   * checked: C sees `key` only up to its first NUL; an empty key or a NULL
   * EXIF set gives nil; the date key gives the parsed time stamp or nil;
   * every other key gives the rendered text or nil when the set lacks it.
   */
  function Datum(exif: Option<ExifData>, key: string, parse: CText -> Option<int>): (r: Value)
    ensures r.Nil? || r.Text? || r.Number?
    ensures CPrefix(key) == "" || exif.None? ==> r == Nil
    ensures r.Number? ==>
      CPrefix(key) == DateTimeOriginal && exif.Some? && DateTimeOriginal in exif.value
      && parse(exif.value[DateTimeOriginal]) == Some(r.n)
    ensures (CPrefix(key) == DateTimeOriginal && exif.Some? && DateTimeOriginal in exif.value
      && parse(exif.value[DateTimeOriginal]).Some?) ==> r.Number?
    ensures r.Text? ==>
      CPrefix(key) != "" && CPrefix(key) != DateTimeOriginal && exif.Some? && CPrefix(key) in exif.value
      && r.s == exif.value[CPrefix(key)]
    ensures (CPrefix(key) != "" && CPrefix(key) != DateTimeOriginal && exif.Some? && CPrefix(key) in exif.value)
      ==> r.Text?
  {
    var k := CPrefix(key);
    if k == "" then Nil
    else if exif.None? then Nil
    else
      var value := if k in exif.value then Some(exif.value[k]) else None;
      if k == DateTimeOriginal then
        if value.Some? && parse(value.value).Some? then Number(parse(value.value).value) else Nil
      else if value.Some? then Text(value.value)
      else Nil
  }

  /**
   * `lua_exif_get_datum`: argument 1 must be an Exif handle and argument 2
   * a string or a number; then it never raises, whatever the key and the set hold.
   */
  function ExifGetDatum(args: seq<Value>, host: Host): (r: Result<Value, LuaError>)
    ensures r.Ok? <==> HoldsKind(args, 1, ExifKind) && 2 <= |args| && (args[1].Text? || args[1].Number?)
    ensures r.Ok? && args[1].Text? ==> r.value == Datum(args[0].h.exif, args[1].s, host.parseDate)
    ensures r.Ok? && args[1].Number? ==> r.value == Datum(args[0].h.exif, NumberText(args[1].n), host.parseDate)
    ensures r.Ok? && args[1].Number? ==> !r.value.Number?
    ensures r.Err? ==> r.error.BadArgument? && (r.error.arg == 1 <==> !HoldsKind(args, 1, ExifKind))
  {
    match CheckExif(args)
    case Err(e) => Err(e)
    case Ok(exif) =>
      match CheckString(args, 2)
      case Err(e) => Err(e)
      case Ok(key) =>
        assert args[1].Number? ==> key == NumberText(args[1].n) && key[0] != DateTimeOriginal[0];
        Ok(Datum(exif, key, host.parseDate))
  }

  /** Calling the host function `f` with the Lua arguments `args`. */
  function Invoke(f: Builtin, args: seq<Value>, host: Host): (r: Result<Value, LuaError>)
    ensures r.Err? ==> r.error.BadArgument?
    ensures !HoldsKind(args, 1, f.Receiver()) ==> r.Err? && r.error.arg == 1
    ensures HoldsKind(args, 1, f.Receiver()) && r.Err? ==> f == GetDatum && r.error.arg == 2
    ensures r.Ok? && f == GetPath ==> r.value == Text(args[0].h.fd.path)
    ensures r.Ok? && f == GetName ==> r.value == Text(args[0].h.fd.name)
    ensures r.Ok? && f == GetExtension ==> r.value == Text(args[0].h.fd.extension)
    ensures r.Ok? && f == GetDate ==> r.value == Number(args[0].h.fd.date)
    ensures r.Ok? && f == GetSize ==> r.value == Number(args[0].h.fd.size)
    ensures r.Ok? && f == GetExif ==> r.value == Userdata(ExifH(host.readExif(args[0].h.fd)))
    ensures f == GetDatum ==> r == ExifGetDatum(args, host)
  {
    match f
    case GetPath => ImageGetPath(args)
    case GetName => ImageGetName(args)
    case GetExtension => ImageGetExtension(args)
    case GetDate => ImageGetDate(args)
    case GetSize => ImageGetSize(args)
    case GetExif => ImageGetExif(args, host)
    case GetDatum => ExifGetDatum(args, host)
  }

  /**
   * A method call `h:name(extra...)`: the name is looked up in the table of
   * the handle's own kind (the metatable's `__index`), and the function found
   * is called with the handle as argument 1. A name the table lacks fails;
   * a name it holds never fails on the receiver.
   */
  function CallMethod(h: Handle, name: string, extra: seq<Value>, host: Host): (r: Result<Value, LuaError>)
    ensures r == Err(NoSuchMethod(name)) <==> name !in MethodTable(h.Kind())
    ensures r.Err? && r.error.BadArgument? ==> r.error.arg == 2 && h.ExifH? && name == "get_datum"
    ensures name in MethodTable(h.Kind()) ==> r == Invoke(MethodTable(h.Kind())[name], [Userdata(h)] + extra, host)
  {
    var table := MethodTable(h.Kind());
    if name in table then
      ImageTableIsExact();
      ExifTableIsExact();
      Invoke(table[name], [Userdata(h)] + extra, host)
    else
      Err(NoSuchMethod(name))
  }

  /**
   * The handle `get_exif` returns is an Exif handle: calling an Image method
   * on it fails, both as a method call and by passing it to the Image function directly.
   */
  lemma ExifHandleIsNotAnImage(fd: FileData, host: Host, name: string)
    requires name in ImageMethods()
    ensures ImageGetExif([Userdata(ImageH(fd))], host).Ok?
    ensures var x := ImageGetExif([Userdata(ImageH(fd))], host).value;
      && CallMethod(x.h, name, [], host) == Err(NoSuchMethod(name))
      && Invoke(ImageMethods()[name], [x], host) == Err(BadArgument(1, "Image", "userdata"))
  {
    ImageTableIsExact();
  }

  /**
   * What each method call computes, for every record, EXIF set and key:
   * the Image getters return the record's fields, `get_exif` wraps what the
   * EXIF reader yields, and `get_datum` runs the key through `Datum`.
   */
  lemma MethodCallsReachTheirFunctions(fd: FileData, exif: Option<ExifData>, key: string, host: Host)
    ensures CallMethod(ImageH(fd), "get_path", [], host) == Ok(Text(fd.path))
    ensures CallMethod(ImageH(fd), "get_name", [], host) == Ok(Text(fd.name))
    ensures CallMethod(ImageH(fd), "get_extension", [], host) == Ok(Text(fd.extension))
    ensures CallMethod(ImageH(fd), "get_date", [], host) == Ok(Number(fd.date))
    ensures CallMethod(ImageH(fd), "get_size", [], host) == Ok(Number(fd.size))
    ensures CallMethod(ImageH(fd), "get_exif", [], host) == Ok(Userdata(ExifH(host.readExif(fd))))
    ensures CallMethod(ExifH(exif), "get_datum", [Text(key)], host) == Ok(Datum(exif, key, host.parseDate))
  {
    ImageTableIsExact();
    ExifTableIsExact();
  }
}
