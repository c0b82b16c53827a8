/** The few JavaScript value semantics the pages depend on: truthiness (`||`,
    `if (x)`), property access, conversion with `String(...)` (which joins an
    array's elements with ","), and `String.prototype.trim`. */
module JsValues {

  import opened Wrappers

  /** A JavaScript value as it arrives in a parsed response body. Numbers are
      modelled as integers. */
  datatype JsValue =
    | Undefined
    | Null
    | Bool(b: bool)
    | Num(n: int)
    | Str(s: string)
    | Arr(elems: seq<JsValue>)
    | Obj(props: map<string, JsValue>)

  /** ToBoolean: undefined, null, false, 0 and "" are falsy; every array and
      object is truthy. */
  function Truthy(v: JsValue): (b: bool)
    ensures !b <==> v == Undefined || v == Null || v == Bool(false) || v == Num(0) || v == Str("")
  {
    match v
    case Undefined => false
    case Null => false
    case Bool(b) => b
    case Num(n) => n != 0
    case Str(s) => s != ""
    case Arr(_) => true
    case Obj(_) => true
  }

  /** Property access `v.name`: reading a property of undefined or null throws
      a TypeError (None); an absent property reads as undefined. */
  function Property(v: JsValue, name: string): (r: Option<JsValue>)
    ensures r.None? <==> v.Undefined? || v.Null?
    ensures v.Obj? && name in v.props ==> r == Some(v.props[name])
    ensures v.Obj? && name !in v.props ==> r == Some(Undefined)
  {
    match v
    case Undefined => None
    case Null => None
    case Obj(props) => Some(if name in props then props[name] else Undefined)
    case _ => Some(Undefined)
  }

  function Digit(d: nat): (c: char)
    requires d < 10
    ensures '0' <= c <= '9'
  {
    ('0' as int + d) as char
  }

  /** The decimal numeral of a natural number. */
  function Natural(n: nat): (s: string)
    ensures s != []
    ensures forall i | 0 <= i < |s| :: '0' <= s[i] <= '9'
  {
    if n < 10 then [Digit(n)] else Natural(n / 10) + [Digit(n % 10)]
  }

  /** `String(n)` for an integer n. */
  function Decimal(n: int): (s: string)
    ensures s != [] && (s[0] == '-' <==> n < 0)
  {
    if n < 0 then "-" + Natural(-n) else Natural(n)
  }

  /** `String(v)`. An array is converted by `join(",")`, in which undefined
      and null elements become "". */
  function ToStr(v: JsValue): (s: string)
    ensures v.Str? ==> s == v.s
    ensures v.Num? ==> s != "" && (s[0] == '-' <==> v.n < 0)
    ensures v.Arr? && |v.elems| == 0 ==> s == ""
    // only a string or an array can convert to the empty string
    ensures s == "" ==> v == Str("") || v.Arr?
    decreases v
  {
    match v
    case Undefined => "undefined"
    case Null => "null"
    case Bool(b) => if b then "true" else "false"
    case Num(n) => Decimal(n)
    case Str(s) => s
    case Arr(elems) => JoinElems(elems)
    case Obj(_) => "[object Object]"
  }

  /** `elems.join(",")` */
  function JoinElems(elems: seq<JsValue>): string
    decreases elems
  {
    if |elems| == 0 then ""
    else
      var first := if elems[0].Undefined? || elems[0].Null? then "" else ToStr(elems[0]);
      if |elems| == 1 then first else first + "," + JoinElems(elems[1..])
  }

  /** `String(v || "")`, the normalisation the recipe page applies to every
      `ingredients` value it receives. */
  function Coerce(v: JsValue): (s: string)
    ensures !Truthy(v) ==> s == ""
    ensures v.Str? ==> s == v.s
    ensures v.Num? ==> (s == "" <==> v.n == 0)
    ensures v.Bool? ==> (s == "" <==> !v.b)
  {
    ToStr(if Truthy(v) then v else Str(""))
  }

  /** Strings joined with ",", as `parts.join(",")` does for an array of
      strings. */
  function Join(parts: seq<string>): string
  {
    if |parts| == 0 then ""
    else if |parts| == 1 then parts[0]
    else parts[0] + "," + Join(parts[1..])
  }

  function StrValues(parts: seq<string>): (vs: seq<JsValue>)
    ensures |vs| == |parts|
    ensures forall i | 0 <= i < |parts| :: vs[i] == Str(parts[i])
  {
    if |parts| == 0 then [] else [Str(parts[0])] + StrValues(parts[1..])
  }

  /** An array of strings converts to the strings joined with ",". */
  lemma {:induction false} CoerceStringArray(parts: seq<string>)
    ensures Coerce(Arr(StrValues(parts))) == Join(parts)
  {
    JoinStrValues(parts);
  }

  lemma {:induction false} JoinStrValues(parts: seq<string>)
    ensures JoinElems(StrValues(parts)) == Join(parts)
  {
    if |parts| > 1 {
      JoinStrValues(parts[1..]);
      assert StrValues(parts)[1..] == StrValues(parts[1..]);
    }
  }

  /** WhiteSpace and LineTerminator code points, the characters `trim`
      removes (ECMAScript, String.prototype.trim). */
  predicate IsWhiteSpace(c: char)
  {
    var n := c as int;
    n == 0x09 || n == 0x0A || n == 0x0B || n == 0x0C || n == 0x0D || n == 0x20
    || n == 0xA0 || n == 0x1680 || (0x2000 <= n <= 0x200A)
    || n == 0x2028 || n == 0x2029 || n == 0x202F || n == 0x205F
    || n == 0x3000 || n == 0xFEFF
  }

  /** Every character is white space: `s.trim()` is "" exactly then. */
  predicate IsBlank(s: string)
  {
    forall i | 0 <= i < |s| :: IsWhiteSpace(s[i])
  }

  function TrimStart(s: string): (r: string)
    ensures |r| <= |s| && r == s[|s| - |r|..]
    ensures forall i | 0 <= i < |s| - |r| :: IsWhiteSpace(s[i])
    ensures r != [] ==> !IsWhiteSpace(r[0])
  {
    if |s| > 0 && IsWhiteSpace(s[0]) then TrimStart(s[1..]) else s
  }

  function TrimEnd(s: string): (r: string)
    ensures |r| <= |s| && r == s[..|r|]
    ensures forall i | |r| <= i < |s| :: IsWhiteSpace(s[i])
    ensures r != [] ==> !IsWhiteSpace(r[|r| - 1])
  {
    if |s| > 0 && IsWhiteSpace(s[|s| - 1]) then TrimEnd(s[..|s| - 1]) else s
  }

  /** `s.trim()`: the result is empty exactly for a blank string, and
      otherwise starts and ends with a character that is not white space. */
  function Trim(s: string): (r: string)
    ensures |r| <= |s|
    ensures r == [] <==> IsBlank(s)
    ensures r != [] ==> !IsWhiteSpace(r[0]) && !IsWhiteSpace(r[|r| - 1])
  {
    var t := TrimStart(s);
    assert t == [] ==> IsBlank(s);
    TrimEnd(t)
  }

  /** `trim` removes exactly the white space around a core: whatever white
      space pads a string on either side, trimming returns the core. */
  lemma {:induction false} TrimPadded(before: string, core: string, after: string)
    requires IsBlank(before) && IsBlank(after)
    requires core != [] ==> !IsWhiteSpace(core[0]) && !IsWhiteSpace(core[|core| - 1])
    ensures Trim(before + core + after) == core
  {
    var s := before + core + after;
    if core == [] {
      assert IsBlank(s);
    } else {
      TrimStartPadded(before, core + after);
      assert before + (core + after) == s;
      TrimEndPadded(core, after);
    }
  }

  lemma {:induction false} TrimStartPadded(before: string, rest: string)
    requires IsBlank(before)
    requires rest != [] && !IsWhiteSpace(rest[0])
    ensures TrimStart(before + rest) == rest
  {
    if before != [] {
      TrimStartPadded(before[1..], rest);
      assert (before + rest)[1..] == before[1..] + rest;
    }
  }

  lemma {:induction false} TrimEndPadded(rest: string, after: string)
    requires IsBlank(after)
    requires rest != [] && !IsWhiteSpace(rest[|rest| - 1])
    ensures TrimEnd(rest + after) == rest
  {
    if after != [] {
      var s := rest + after;
      TrimEndPadded(rest, after[..|after| - 1]);
      assert s[..|s| - 1] == rest + after[..|after| - 1];
    }
  }

  /** Trimming twice is trimming once. */
  lemma TrimIdempotent(s: string)
    ensures Trim(Trim(s)) == Trim(s)
  {
    var t := Trim(s);
    TrimPadded([], t, []);
    assert [] + t + [] == t;
  }
}
