/**
 * The values that cross the boundary between Geeqie and its Lua runtime:
 * the host's image record, the two kinds of opaque handle, the Lua values
 * a script sees, and the two conversions C code applies to a Lua value
 * (reading it through a `const char *`, and `lua_tostring` of a number).
 */
module LuaValues {
  import opened Wrappers

  /** Text as C holds it: a string with no NUL character in it. */
  type CText = s: string | '\0' !in s

  /**
   * What C code sees of a Lua string through a `const char *`:
   * every character before the first NUL.
   */
  function CPrefix(s: string): (r: CText)
    ensures r <= s
    ensures |r| == |s| || s[|r|] == '\0'
  {
    if s == [] || s[0] == '\0' then [] else [s[0]] + CPrefix(s[1..])
  }

  predicate AllDigits(s: string) {
    forall i :: 0 <= i < |s| ==> '0' <= s[i] <= '9'
  }

  function DigitChar(d: nat): (c: char)
    requires d < 10
    ensures '0' <= c <= '9'
  {
    (d + '0' as int) as char
  }

  /** The decimal digits of `n`, most significant first, without leading zeros. */
  function NaturalText(n: nat): (r: CText)
    ensures 1 <= |r| && AllDigits(r)
    ensures |r| > 1 ==> r[0] != '0'
  {
    if n < 10 then [DigitChar(n)] else NaturalText(n / 10) + [DigitChar(n % 10)]
  }

  /** The number that a string of decimal digits denotes. */
  function DigitsValue(s: string): nat
    requires AllDigits(s)
  {
    if s == [] then 0 else 10 * DigitsValue(s[..|s| - 1]) + (s[|s| - 1] as int - '0' as int)
  }

  /** `lua_tostring` of a number: an optional minus sign and the decimal digits. */
  function NumberText(n: int): (r: CText)
    ensures 1 <= |r|
    ensures r[0] == '-' <==> n < 0
    ensures n < 0 ==> AllDigits(r[1..])
    ensures 0 <= n ==> AllDigits(r)
  {
    if n < 0 then "-" + NaturalText(-n) else NaturalText(n)
  }

  /** Lua's reading of a decimal numeral back into a number (the inverse of NumberText). */
  function NumberValue(s: string): Option<int> {
    if 2 <= |s| && s[0] == '-' && AllDigits(s[1..]) then Some(-(DigitsValue(s[1..]) as int))
    else if 1 <= |s| && AllDigits(s) then Some(DigitsValue(s))
    else None
  }

  lemma {:induction false} NaturalTextRoundTrip(n: nat)
    ensures DigitsValue(NaturalText(n)) == n
  {
    if n >= 10 {
      var t := NaturalText(n);
      var head := NaturalText(n / 10);
      assert t == head + [DigitChar(n % 10)];
      assert t[..|t| - 1] == head;
      NaturalTextRoundTrip(n / 10);
    }
  }

  /** Rendering a number as text loses nothing: the text reads back as the same number. */
  lemma NumberTextRoundTrip(n: int)
    ensures NumberValue(NumberText(n)) == Some(n)
  {
    if n < 0 {
      NaturalTextRoundTrip(-n);
      assert NumberText(n)[1..] == NaturalText(-n);
    } else {
      NaturalTextRoundTrip(n);
    }
  }

  /** The host's image record (`FileData`), as far as scripts can see it. */
  datatype FileData = FileData(path: CText, name: CText, extension: CText, date: int, size: int)

  /** The EXIF set of one image: each key it holds, with the text the EXIF reader renders for it. */
  type ExifData = map<CText, CText>

  /** The two registered userdata types. */
  datatype Kind = ImageKind | ExifKind

  /** The registry name of each userdata type, which is also its metatable's name. */
  function KindName(k: Kind): string {
    match k
    case ImageKind => "Image"
    case ExifKind => "Exif"
  }

  /** An opaque handle: a pointer to a host object, tagged with its metatable. */
  datatype Handle =
    | ImageH(fd: FileData)
    | ExifH(exif: Option<ExifData>)  // exif_read_fd may yield NULL
  {
    function Kind(): Kind {
      match this
      case ImageH(_) => ImageKind
      case ExifH(_) => ExifKind
    }
  }

  /** The host functions registered in the method tables. */
  datatype Builtin = GetPath | GetName | GetExtension | GetDate | GetSize | GetExif | GetDatum
  {
    /** The name a script calls it by. */
    function Name(): string {
      match this
      case GetPath => "get_path"
      case GetName => "get_name"
      case GetExtension => "get_extension"
      case GetDate => "get_date"
      case GetSize => "get_size"
      case GetExif => "get_exif"
      case GetDatum => "get_datum"
    }

    /** The kind of handle it expects as its first argument. */
    function Receiver(): Kind {
      if this == GetDatum then ExifKind else ImageKind
    }
  }

  /** The Lua values this layer produces or inspects. */
  datatype Value =
    | Nil
    | Boolean(b: bool)
    | Number(n: int)
    | Text(s: string)
    | Userdata(h: Handle)
    | Table(fields: map<string, Builtin>)
    | CFunction(f: Builtin)

  /** Lua's name for the type of a value. */
  function TypeName(v: Value): string {
    match v
    case Nil => "nil"
    case Boolean(_) => "boolean"
    case Number(_) => "number"
    case Text(_) => "string"
    case Userdata(_) => "userdata"
    case Table(_) => "table"
    case CFunction(_) => "function"
  }

  /**
   * What C code receives from `lua_tostring`: strings and numbers become
   * text (a string only up to its first NUL), every other value NULL.
   */
  function ToCText(v: Value): (r: Option<CText>)
    ensures r.Some? <==> v.Text? || v.Number?
    ensures v.Text? ==> r.value == CPrefix(v.s)
    ensures v.Text? ==> (r.value == v.s <==> '\0' !in v.s)
    ensures v.Number? ==> NumberValue(r.value) == Some(v.n)
  {
    match v
    case Text(s) => Some(CPrefix(s))
    case Number(n) => NumberTextRoundTrip(n); Some(NumberText(n))
    case _ => None
  }

  /** A Lua error raised by a host function. */
  datatype LuaError =
    | BadArgument(arg: nat, expected: string, got: string)  // luaL_typerror
    | NoSuchMethod(name: string)                             // calling a method the handle's table lacks
}
