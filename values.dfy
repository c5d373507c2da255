/** JSON-shaped values as the handlers see them after `json.loads`, the flat
    attribute maps the table stores, and the few Python string operations the
    handlers rely on (truthiness, `len`, `str`, `repr`, `startswith`, `', '.join`,
    slicing). */
module Values {

  datatype Option<+T> = None | Some(value: T)

  datatype Result<+T, +E> = Ok(value: T) | Err(error: E)

  /** A parsed JSON value. Floating-point numbers are not part of the model. */
  datatype Value =
    | Null
    | Bool(b: bool)
    | Int(i: int)
    | Str(s: string)
    | List(items: seq<Value>)
    | Obj(fields: map<string, Value>)

  /** A stored item or a response object: attribute name to value. */
  type Record = map<string, Value>

  /** Python truthiness (`if x:` / `not x`) of a JSON value. */
  predicate Truthy(v: Value) {
    match v
    case Null => false
    case Bool(b) => b
    case Int(i) => i != 0
    case Str(s) => s != ""
    case List(xs) => xs != []
    case Obj(m) => m != map[]
  }

  /** `d.get(key, default)`. */
  function Get(r: Record, key: string, default: Value): Value {
    if key in r then r[key] else default
  }

  /** Python `len(v)`; `None` stands for the TypeError that `len` raises on
      None, booleans and numbers. */
  function Len(v: Value): Option<nat> {
    match v
    case Str(s) => Some(|s|)
    case List(xs) => Some(|xs|)
    case Obj(m) => Some(|m|)
    case _ => None
  }

  predicate StartsWith(s: string, prefix: string) {
    |prefix| <= |s| && s[..|prefix|] == prefix
  }

  /** `sub` occurs in `s` starting at index `i`. */
  predicate OccursAt(s: string, sub: string, i: int) {
    0 <= i <= |s| - |sub| && s[i..i + |sub|] == sub
  }

  /** Python `sub in s` for strings: `sub` occurs somewhere in `s`. */
  predicate Contains(s: string, sub: string) {
    exists i :: 0 <= i <= |s| - |sub| && OccursAt(s, sub, i)
  }

  /** Python `s in v` for a string `s`: key membership for an object,
      element membership for an array, substring for a string; `None` stands
      for the TypeError raised on null, booleans and numbers. */
  function In(s: string, v: Value): Option<bool> {
    match v
    case Obj(m) => Some(s in m)
    case List(xs) => Some(Str(s) in xs)
    case Str(t) => Some(Contains(t, s))
    case _ => None
  }

  /** Python `s.replace(target, replacement)`: every non-overlapping occurrence of `target`,
      scanning from the left, is replaced. */
  function Replace(s: string, target: string, replacement: string): string
    requires target != []
    decreases |s|
  {
    if s == [] then []
    else if StartsWith(s, target) then replacement + Replace(s[|target|..], target, replacement)
    else [s[0]] + Replace(s[1..], target, replacement)
  }

  /** A string in which `target` does not occur is left as it is. */
  lemma {:induction false} ReplaceAbsent(s: string, target: string, replacement: string)
    requires target != [] && !Contains(s, target)
    ensures Replace(s, target, replacement) == s
    decreases |s|
  {
    if s != [] {
      AbsentNotAtFront(s, target);
      AbsentFromTail(s, target);
      ReplaceAbsent(s[1..], target, replacement);
    }
  }

  lemma AbsentNotAtFront(s: string, target: string)
    requires !Contains(s, target)
    ensures !StartsWith(s, target)
  {
    assert !OccursAt(s, target, 0);
    if |target| <= |s| {
      assert s[0..|target|] == s[..|target|];
    }
  }

  lemma AbsentFromTail(s: string, target: string)
    requires s != [] && !Contains(s, target)
    ensures !Contains(s[1..], target)
  {
    forall i | 0 <= i <= |s[1..]| - |target|
      ensures !OccursAt(s[1..], target, i)
    {
      assert s[1..][i..i + |target|] == s[i + 1..i + 1 + |target|];
      assert !OccursAt(s, target, i + 1);
    }
  }

  /** Iterating `v` in a loop whose body looks a string key up in each
      element: an array gives its elements, an empty string or object gives
      none. A non-empty string or object yields strings, on which the lookup
      raises at once, and null, booleans and numbers are not iterable: `None`
      stands for the exception. */
  function ElementsForLookup(v: Value): Option<seq<Value>> {
    match v
    case List(xs) => Some(xs)
    case Str(s) => if s == "" then Some([]) else None
    case Obj(m) => if m == map[] then Some([]) else None
    case _ => None
  }

  /** `sep.join(xs)`. */
  function Join(xs: seq<string>, sep: string): string {
    if xs == [] then ""
    else if |xs| == 1 then xs[0]
    else xs[0] + sep + Join(xs[1..], sep)
  }

  /** Python slice `s[:n]`. */
  function Take(s: string, n: nat): (t: string)
    ensures |t| == if |s| < n then |s| else n
    ensures StartsWith(s, t)
  {
    if |s| <= n then s else s[..n]
  }

  function DigitChar(d: nat): char
    requires d < 10
  {
    "0123456789"[d]
  }

  function NatToDecimal(n: nat): (s: string)
    ensures |s| >= 1
    decreases n
  {
    if n < 10 then [DigitChar(n)] else NatToDecimal(n / 10) + [DigitChar(n % 10)]
  }

  predicate AllDigits(s: string) {
    forall i :: 0 <= i < |s| ==> '0' <= s[i] <= '9'
  }

  /** The value of a string of ASCII decimal digits. */
  function DecimalValue(s: string): nat
    requires AllDigits(s)
  {
    if s == [] then 0
    else DecimalValue(s[..|s| - 1]) * 10 + (s[|s| - 1] as int - '0' as int)
  }

  /** Python `int(s)` on a string: an optional sign and at least one ASCII
      digit; anything else raises ValueError (`None`). */
  function ParseInt(s: string): Option<int> {
    if s != [] && (s[0] == '-' || s[0] == '+') then
      if |s| > 1 && AllDigits(s[1..]) then
        Some(if s[0] == '-' then 0 - DecimalValue(s[1..]) as int else DecimalValue(s[1..]))
      else None
    else if s != [] && AllDigits(s) then Some(DecimalValue(s))
    else None
  }

  /** Python `str(v)` as an f-string renders it. Scalars are rendered as
      Python does; arrays and objects get a fixed placeholder. */
  function Render(v: Value): string {
    match v
    case Null => "None"
    case Bool(b) => if b then "True" else "False"
    case Int(i) => if i < 0 then "-" + NatToDecimal(-i) else NatToDecimal(i)
    case Str(s) => s
    case List(_) => "[...]"
    case Obj(_) => "{...}"
  }

  lemma {:induction false} DecimalOfNat(n: nat)
    ensures AllDigits(NatToDecimal(n)) && NatToDecimal(n)[0] != '-' && NatToDecimal(n)[0] != '+'
    ensures DecimalValue(NatToDecimal(n)) == n
    decreases n
  {
    if n >= 10 {
      DecimalOfNat(n / 10);
      var s := NatToDecimal(n);
      assert s[..|s| - 1] == NatToDecimal(n / 10);
    }
  }

  /** `int(str(i)) == i`: parsing undoes rendering for every integer. */
  lemma ParseRenderedInt(i: int)
    ensures ParseInt(Render(Int(i))) == Some(i)
  {
    if i < 0 {
      DecimalOfNat(-i);
      ParseNegative(NatToDecimal(-i));
    } else {
      DecimalOfNat(i);
      ParseUnsigned(NatToDecimal(i));
    }
  }

  lemma ParseUnsigned(digits: string)
    requires digits != [] && AllDigits(digits) && digits[0] != '-' && digits[0] != '+'
    ensures ParseInt(digits) == Some(DecimalValue(digits))
  {
  }

  lemma ParseNegative(digits: string)
    requires digits != [] && AllDigits(digits)
    ensures ParseInt("-" + digits) == Some(0 - DecimalValue(digits) as int)
  {
    assert ("-" + digits)[1..] == digits;
  }

  /** The quote `repr` puts around a string: a double quote when the string
      holds a single quote and no double quote, a single quote otherwise. */
  function ReprQuote(s: string): char {
    if '\'' in s && '"' !in s then '"' else '\''
  }

  function HexDigit(d: nat): char
    requires d < 16
  {
    "0123456789abcdef"[d]
  }

  /** How `repr` writes one character inside quotes `q`: the quote itself
      and the backslash are escaped, tab, newline and carriage return get
      their short escapes, other control characters and DEL are written
      `\xNN`; every other character stands for itself. */
  function ReprChar(c: char, q: char): string {
    if c == q || c == '\\' then ['\\', c]
    else if c == '\t' then "\\t"
    else if c == '\n' then "\\n"
    else if c == '\r' then "\\r"
    else if c < ' ' || c as int == 0x7f then "\\x" + [HexDigit(c as int / 16), HexDigit(c as int % 16)]
    else [c]
  }

  function ReprBody(s: string, q: char): string
    decreases |s|
  {
    if s == [] then [] else ReprBody(s[..|s| - 1], q) + ReprChar(s[|s| - 1], q)
  }

  /** Python `repr(s)` for a string, as a KeyError and the ValueError of
      `int()` print their argument. */
  function Repr(s: string): string {
    var q := ReprQuote(s);
    [q] + ReprBody(s, q) + [q]
  }

  /** A character `repr` writes as itself inside single quotes. */
  predicate PlainChar(c: char) {
    ' ' <= c && c as int != 0x7f && c != '\'' && c != '\\'
  }

  lemma ReprCharPlain(c: char, q: char)
    requires c != q && c != '\\' && ' ' <= c && c as int != 0x7f
    ensures ReprChar(c, q) == [c]
  {
  }

  lemma {:induction false} ReprBodyPlain(s: string)
    requires forall i :: 0 <= i < |s| ==> PlainChar(s[i])
    ensures ReprBody(s, '\'') == s
    decreases |s|
  {
    if s != [] {
      var init, c := s[..|s| - 1], s[|s| - 1];
      assert forall i :: 0 <= i < |init| ==> init[i] == s[i];
      ReprBodyPlain(init);
      ReprCharPlain(c, '\'');
      assert s == init + [c];
    }
  }

  /** A string of plain characters is printed between single quotes as it is. */
  lemma ReprOfPlain(s: string)
    requires forall i :: 0 <= i < |s| ==> PlainChar(s[i])
    ensures Repr(s) == "'" + s + "'"
  {
    assert forall i :: 0 <= i < |s| ==> s[i] != '\'';
    ReprBodyPlain(s);
  }

  lemma {:induction false} ReprBodyDouble(s: string)
    requires '"' !in s
    requires forall i :: 0 <= i < |s| ==> s[i] == '\'' || PlainChar(s[i])
    ensures ReprBody(s, '"') == s
    decreases |s|
  {
    if s != [] {
      var init, c := s[..|s| - 1], s[|s| - 1];
      assert forall i :: 0 <= i < |init| ==> init[i] == s[i];
      ReprBodyDouble(init);
      ReprCharPlain(c, '"');
      assert s == init + [c];
    }
  }

  /** A single quote in a string without double quotes switches `repr` to
      double quotes, and the single quotes are then written unescaped. */
  lemma ReprSwitchesQuote(s: string)
    requires '\'' in s && '"' !in s
    requires forall i :: 0 <= i < |s| ==> s[i] == '\'' || PlainChar(s[i])
    ensures Repr(s) == "\"" + s + "\""
  {
    ReprBodyDouble(s);
  }
}
