/** Environment-variable helpers of tryit/x.py: a truthiness classifier for
    strings, key normalisation, and fetch/set/boolean access to the process
    environment, which is modelled as a map from names to values. */
module EnvVars {
  import opened Text
  import opened Options

  // ---------------------------------------------------------------------------
  // Python's int() on strings, restricted to ASCII
  // ---------------------------------------------------------------------------

  predicate IsDigit(c: char) { '0' <= c <= '9' }

  function DigitValue(c: char): nat
    requires IsDigit(c)
  {
    c as int - '0' as int
  }

  function DigitChar(d: nat): (c: char)
    requires d < 10
    ensures IsDigit(c) && DigitValue(c) == d
  {
    ('0' as int + d) as char
  }

  /** The body `int()` accepts after the sign: decimal digits, where a single
      underscore may stand between two digits (`"1_000"`). With a digit at
      each end, "no two underscores in a row" says exactly that. */
  predicate IsNumeral(s: string) {
    && DigitsOrUnderscores(s)
    && s != []
    && IsDigit(s[0])
    && IsDigit(s[|s| - 1])
    && forall i, j | 0 <= i < |s| && 0 <= j < |s| && j == i + 1 :: s[i] == '_' ==> s[j] != '_'
  }

  predicate DigitsOrUnderscores(s: string) {
    forall i :: 0 <= i < |s| ==> IsDigit(s[i]) || s[i] == '_'
  }

  /** The value of a numeral; underscores carry no value. */
  function NumeralValue(s: string): nat
    requires DigitsOrUnderscores(s)
    decreases |s|
  {
    if s == [] then 0
    else if s[|s| - 1] == '_' then NumeralValue(s[..|s| - 1])
    else 10 * NumeralValue(s[..|s| - 1]) + DigitValue(s[|s| - 1])
  }

  /** The whitespace `int()` skips around the number in an ASCII string: tab,
      line feed, vertical tab, form feed, carriage return and space. Unlike
      `str.isspace`, the separator controls 28..31 are not among them. */
  predicate IsIntSpace(c: char) {
    (9 <= c as int <= 13) || c == ' '
  }

  /** The string without the whitespace `int()` skips at either end. */
  function StripIntSpace(s: string): string
    decreases |s|
  {
    if s != [] && IsIntSpace(s[0]) then StripIntSpace(s[1..])
    else if s != [] && IsIntSpace(s[|s| - 1]) then StripIntSpace(s[..|s| - 1])
    else s
  }

  lemma IntStripUnchanged(s: string)
    requires s == [] || (!IsIntSpace(s[0]) && !IsIntSpace(s[|s| - 1]))
    ensures StripIntSpace(s) == s
  {
  }

  /** CPython's default bound on the number of decimal digits `int()` reads
      from a string and `str()` writes for an integer: beyond it both raise
      `ValueError` ("Exceeds the limit (4300 digits) for integer string
      conversion"). */
  const MaxStrDigits: nat := 4300

  /** The number of digits in a numeral; its underscores do not count. */
  function DigitCount(s: string): (n: nat)
    ensures n <= |s|
  {
    if s == [] then 0 else (if s[0] == '_' then 0 else 1) + DigitCount(s[1..])
  }

  lemma {:induction false} DigitCountOfDigits(s: string)
    requires forall i :: 0 <= i < |s| ==> IsDigit(s[i])
    ensures DigitCount(s) == |s|
  {
    if s != [] {
      DigitCountOfDigits(s[1..]);
    }
  }

  /** `int(s)`: surrounding whitespace, then an optional sign, then a numeral
      of at most `MaxStrDigits` digits. `None` stands for the `ValueError`
      that `int()` raises. */
  function ParseInt(s: string): Option<int> {
    var t := StripIntSpace(s);
    if t == [] then None
    else
      var negative := t[0] == '-';
      var body := if t[0] == '-' || t[0] == '+' then t[1..] else t;
      if IsNumeral(body) && DigitCount(body) <= MaxStrDigits then
        var n: int := NumeralValue(body);
        Some(if negative then -n else n)
      else None
  }

  /** `is_truthy(s)` (tryit/x.py:5-25): an integer is truthy iff it is not zero;
      any other string iff its lower-case form is "true", "yes" or "1". */
  function IsTruthy(s: string): (r: bool)
    ensures ParseInt(s).Some? ==> (r <==> ParseInt(s).value != 0)
    ensures ParseInt(s).None? ==> (r <==> Lower(s) == "true" || Lower(s) == "yes")
  {
    OneIsAnInteger(s);
    match ParseInt(s)
    case Some(n) => n != 0
    case None =>
      var l := Lower(s);
      l == "true" || l == "yes" || l == "1"
  }

  /** The "1" alternative of `is_truthy` can never be reached: the only string
      whose lower-case form is "1" is "1" itself, and `int()` accepts it. */
  lemma OneIsAnInteger(s: string)
    ensures Lower(s) == "1" ==> ParseInt(s) == Some(1)
  {
    if Lower(s) == "1" {
      assert Lower(s)[0] == LowerChar(s[0]) == '1';
      assert s == "1";
      assert StripIntSpace(s) == "1";
      assert IsNumeral("1");
      assert DigitCount("1") == 1 + DigitCount([]);
      assert NumeralValue("1") == 10 * NumeralValue([]) + 1;
    }
  }

  /** The doctests of tryit/x.py:16-20: "123" is truthy, "false" is not. */
  lemma TruthyExamples()
    ensures IsTruthy("123")
    ensures !IsTruthy("false")
  {
    ParsesAs123();
    FalseIsNoInteger();
  }

  lemma FalseIsNoInteger()
    ensures ParseInt("false").None?
  {
    NotAnInteger("false");
  }

  /** The other test cases of tryit/y.py:6-11: "yes" is truthy, "0" is not. */
  lemma TruthyTestCases()
    ensures IsTruthy("yes")
    ensures !IsTruthy("0")
  {
    NotAnInteger("yes");
    LowerOfLowerCase("yes");
    assert StripIntSpace("0") == "0";
    assert DigitCount("0") == 1 + DigitCount([]);
    assert NumeralValue("0") == 0;
  }

  lemma ParsesAs123()
    ensures ParseInt("123") == Some(123)
  {
    assert StripIntSpace("123") == "123";
    assert IsNumeral("123");
    DigitCountOfDigits("123");
    assert "123"[..2] == "12" && "12"[..1] == "1" && "1"[..0] == [];
    assert NumeralValue("123") == 123;
  }

  /** A string without upper-case letters is its own lower-case form. */
  lemma LowerOfLowerCase(s: string)
    requires forall i :: 0 <= i < |s| ==> !IsAsciiUpper(s[i])
    ensures Lower(s) == s
  {
  }

  /** A word whose first character is a letter is no integer. */
  lemma NotAnInteger(s: string)
    requires s != [] && (IsAsciiLower(s[0]) || IsAsciiUpper(s[0]))
    requires !IsIntSpace(s[|s| - 1])
    ensures ParseInt(s).None?
  {
    IntStripUnchanged(s);
  }

  /** A separator control is whitespace to `str.isspace` but not to `int()`:
      `is_truthy("\x1c1")` is false. */
  lemma SeparatorIsNoIntSpace()
    ensures IsSpace(28 as char) && !IsIntSpace(28 as char)
    ensures ParseInt([28 as char, '1']).None?
    ensures !IsTruthy([28 as char, '1'])
  {
    var s := [28 as char, '1'];
    IntStripUnchanged(s);
    assert !IsNumeral(s);
  }

  // ---------------------------------------------------------------------------
  // str(value) for the values the scripts store
  // ---------------------------------------------------------------------------

  /** A Python value passed to `set_env_var`: a string, an integer or a bool. */
  datatype PyValue = PyStr(s: string) | PyInt(i: int) | PyBool(b: bool)

  /** Decimal digits of a natural number, most significant first. */
  function NatDigits(n: nat): (r: string)
    ensures r != [] && forall i :: 0 <= i < |r| ==> IsDigit(r[i])
    decreases n
  {
    if n < 10 then [DigitChar(n)] else NatDigits(n / 10) + [DigitChar(n % 10)]
  }

  function Abs(i: int): nat { if i < 0 then -i else i }

  function Pow10(k: nat): (r: nat)
    ensures 1 <= r
    ensures 1 <= k ==> 10 <= r
  {
    if k == 0 then 1 else 10 * Pow10(k - 1)
  }

  /** `str(value)`, where it returns: see `StrRaises`. */
  function Str(v: PyValue): string {
    match v
    case PyStr(s) => s
    case PyInt(i) => if i < 0 then "-" + NatDigits(-i) else NatDigits(i)
    case PyBool(b) => if b then "True" else "False"
  }

  /** `str(value)` raises `ValueError` for an integer whose decimal form has
      more than `MaxStrDigits` digits, not counting the sign. */
  predicate StrRaises(v: PyValue) {
    v.PyInt? && |NatDigits(Abs(v.i))| > MaxStrDigits
  }

  /** A natural number has at most `k` decimal digits iff it is below 10^k. */
  lemma {:induction false} NatDigitsLength(n: nat, k: nat)
    requires 1 <= k
    ensures |NatDigits(n)| <= k <==> n < Pow10(k)
    decreases n
  {
    if n >= 10 {
      assert |NatDigits(n)| == |NatDigits(n / 10)| + 1;
      if k > 1 {
        NatDigitsLength(n / 10, k - 1);
        assert Pow10(k) == 10 * Pow10(k - 1);
      }
    }
  }

  /** `str(i)` raises exactly for the integers of magnitude at least
      10^MaxStrDigits. */
  lemma DigitLimitBound(i: int)
    ensures StrRaises(PyInt(i)) <==> Abs(i) >= Pow10(MaxStrDigits)
  {
    NatDigitsLength(Abs(i), MaxStrDigits);
  }

  lemma {:induction false} NatDigitsValue(n: nat)
    ensures IsNumeral(NatDigits(n))
    ensures NumeralValue(NatDigits(n)) == n
    decreases n
  {
    var r := NatDigits(n);
    if n >= 10 {
      NatDigitsValue(n / 10);
      assert r[..|r| - 1] == NatDigits(n / 10);
    }
  }

  /** `int(str(i)) == i`: the decimal form of an integer that `str()` writes
      parses back to it. */
  lemma IntRoundTrip(i: int)
    ensures !StrRaises(PyInt(i)) ==> ParseInt(Str(PyInt(i))) == Some(i)
  {
    if StrRaises(PyInt(i)) {
      return;
    }
    if i < 0 {
      NegativeRoundTrip(i);
    } else {
      NaturalRoundTrip(i);
    }
  }

  lemma NaturalRoundTrip(i: int)
    requires 0 <= i && |NatDigits(i)| <= MaxStrDigits
    ensures ParseInt(Str(PyInt(i))) == Some(i)
  {
    var t := NatDigits(i);
    assert Str(PyInt(i)) == t;
    NatDigitsValue(i);
    DigitCountOfDigits(t);
    IntStripUnchanged(t);
  }

  lemma NegativeRoundTrip(i: int)
    requires i < 0 && |NatDigits(-i)| <= MaxStrDigits
    ensures ParseInt(Str(PyInt(i))) == Some(i)
  {
    NegativeStr(i);
    NatDigitsValue(-i);
    DigitCountOfDigits(NatDigits(-i));
    MinusNumeral(Str(PyInt(i)), NatDigits(-i), -i);
  }

  lemma NegativeStr(i: int)
    requires i < 0
    ensures Str(PyInt(i)) == "-" + NatDigits(-i)
  {
  }

  /** A minus sign before a numeral negates its value. */
  lemma MinusNumeral(t: string, d: string, n: nat)
    requires t == "-" + d && IsNumeral(d) && NumeralValue(d) == n
    requires DigitCount(d) <= MaxStrDigits
    ensures ParseInt(t) == Some(-(n as int))
  {
    assert t[0] == '-' && t[1..] == d && t[|t| - 1] == d[|d| - 1];
    IntStripUnchanged(t);
  }

  // ---------------------------------------------------------------------------
  // Keys and the environment
  // ---------------------------------------------------------------------------

  /** `s.replace(from, to)` for one character, position by position. */
  function ReplaceChar(s: string, from: char, to: char): (r: string)
    ensures |r| == |s|
    ensures forall i :: 0 <= i < |s| ==> r[i] == (if s[i] == from then to else s[i])
  {
    seq(|s|, i requires 0 <= i < |s| => if s[i] == from then to else s[i])
  }

  /** The position-by-position form is `str.replace` with one-character
      pattern and replacement. */
  lemma {:induction false} ReplaceCharIsReplace(s: string, from: char, to: char)
    ensures ReplaceChar(s, from, to) == ReplaceAll(s, [from], [to])
    decreases |s|
  {
    if s != [] {
      ReplaceCharIsReplace(s[1..], from, to);
      assert s[..1] == [from] <==> s[0] == from;
      assert ReplaceChar(s, from, to) == [if s[0] == from then to else s[0]] + ReplaceChar(s[1..], from, to);
    }
  }

  /** `key.upper().replace(" ", "_").replace("-", "_")` (tryit/x.py:48, 64). */
  function NormaliseKey(key: string): string {
    ReplaceChar(ReplaceChar(Upper(key), ' ', '_'), '-', '_')
  }

  predicate IsNormalKey(k: string) {
    forall i :: 0 <= i < |k| ==> k[i] != ' ' && k[i] != '-' && !IsAsciiLower(k[i])
  }

  /** A normalised key has no space, no dash and no lower-case ASCII letter, and
      each of its characters comes from the key's own character at that place. */
  lemma NormaliseKeyShape(key: string)
    ensures |NormaliseKey(key)| == |key|
    ensures IsNormalKey(NormaliseKey(key))
    ensures forall i :: 0 <= i < |key| ==>
      NormaliseKey(key)[i] == (if key[i] == ' ' || key[i] == '-' then '_' else UpperChar(key[i]))
  {
  }

  /** A key already in normal form is left alone, so normalising is idempotent. */
  lemma NormalKeyFixed(k: string)
    requires IsNormalKey(k)
    ensures NormaliseKey(k) == k
  {
    assert Upper(k) == k;
  }

  lemma NormaliseIdempotent(key: string)
    ensures NormaliseKey(NormaliseKey(key)) == NormaliseKey(key)
  {
    NormaliseKeyShape(key);
    NormalKeyFixed(NormaliseKey(key));
  }

  /** `fetch_env_var(key, default)` (tryit/x.py:28-49): the value under the
      normalised key, or the default when it is absent. */
  function FetchEnvVar(env: map<string, string>, key: string, default: string): string {
    var k := NormaliseKey(key);
    if k in env then env[k] else default
  }

  /** `boolean_env_var(key)` (tryit/x.py:68-85). */
  function BooleanEnvVar(env: map<string, string>, key: string): bool {
    IsTruthy(FetchEnvVar(env, key, ""))
  }

  /** An unset variable is false. */
  lemma UnsetIsFalse(env: map<string, string>, key: string)
    requires NormaliseKey(key) !in env
    ensures !BooleanEnvVar(env, key)
  {
    assert StripIntSpace("") == "";
    assert Lower("") == "";
  }

  /** The process environment, `os.environ`. */
  const Nul: char := 0 as char

  /** Why `set_env_var` fails: `str(value)` refuses an integer with too many
      digits (`ValueError`, `DigitLimit`), or `os.environ[k] = v` refuses the
      assignment: a NUL in the name or the value (`ValueError: embedded null
      byte`), an `=` in the name (`ValueError: illegal environment variable
      name`), or an empty name, which `setenv` rejects (`OSError`, EINVAL). */
  datatype EnvError = DigitLimit | EmbeddedNull | IllegalName | EmptyName

  /** The checks `os.environ[k] = v` makes, in the order it makes them. */
  function SetEnvError(k: string, v: string): Option<EnvError> {
    if Nul in k || Nul in v then Some(EmbeddedNull)
    else if '=' in k then Some(IllegalName)
    else if k == [] then Some(EmptyName)
    else None
  }

  /** The failure of `set_env_var(key, value)`: `str(value)` is evaluated
      before `os.environ` is touched. */
  function SetEnvVarError(key: string, value: PyValue): Option<EnvError> {
    if StrRaises(value) then Some(DigitLimit) else SetEnvError(NormaliseKey(key), Str(value))
  }

  class Environ {
    var vars: map<string, string>

    constructor (initial: map<string, string>)
      ensures vars == initial
    {
      vars := initial;
    }

    /** `set_env_var(key, value)` (tryit/x.py:52-65): writes `str(value)` under the
        normalised key and changes no other entry, unless `str()` refuses the
        value or `os.environ` refuses the name or the value, in which case
        nothing changes. */
    method SetEnvVar(key: string, value: PyValue) returns (err: Option<EnvError>)
      modifies this
      ensures err == SetEnvVarError(key, value)
      ensures err.None? ==> vars == old(vars)[NormaliseKey(key) := Str(value)]
      ensures err.Some? ==> vars == old(vars)
    {
      var k := NormaliseKey(key);
      if StrRaises(value) {
        return Some(DigitLimit);
      }
      var v := Str(value);
      err := SetEnvError(k, v);
      if err.None? {
        vars := vars[k := v];
      }
    }
  }

  /** Read in terms of the caller's own key and value, `set_env_var` fails for
      an integer of magnitude at least 10^MaxStrDigits, then for a NUL anywhere
      in the key or in a string value, then for an `=` in the key, then for an
      empty key. */
  lemma SetEnvErrorOfKey(key: string, value: PyValue)
    ensures SetEnvVarError(key, value) ==
      if value.PyInt? && Abs(value.i) >= Pow10(MaxStrDigits) then Some(DigitLimit)
      else if Nul in key || (value.PyStr? && Nul in value.s) then Some(EmbeddedNull)
      else if '=' in key then Some(IllegalName)
      else if key == [] then Some(EmptyName)
      else None
  {
    if value.PyInt? {
      DigitLimitBound(value.i);
    }
    NormaliseKeyShape(key);
    var k := NormaliseKey(key);
    KeepsChar(key, k, Nul);
    KeepsChar(key, k, '=');
    assert Nul !in Str(value) <== !value.PyStr? by {
      if value.PyInt? && value.i < 0 {
        assert Str(value) == "-" + NatDigits(-value.i);
      }
    }
  }

  /** A character that normalisation neither produces nor consumes is in the
      normalised key exactly where it was in the key. */
  lemma KeepsChar(key: string, k: string, c: char)
    requires c != ' ' && c != '-' && c != '_' && !IsAsciiLower(c) && !IsAsciiUpper(c)
    requires |k| == |key|
    requires forall i :: 0 <= i < |key| ==>
      k[i] == (if key[i] == ' ' || key[i] == '-' then '_' else UpperChar(key[i]))
    ensures c in k <==> c in key
  {
    if c in key {
      var i :| 0 <= i < |key| && key[i] == c;
      assert k[i] == c;
    }
    if c in k {
      var i :| 0 <= i < |k| && k[i] == c;
      assert key[i] == c;
    }
  }

  /** Reading back through any spelling of the key that normalises the same way
      returns what was set, and every other key keeps its value. */
  lemma SetThenFetch(env: map<string, string>, key: string, other: string, value: PyValue, default: string)
    ensures NormaliseKey(other) == NormaliseKey(key) ==>
      FetchEnvVar(env[NormaliseKey(key) := Str(value)], other, default) == Str(value)
    ensures NormaliseKey(other) != NormaliseKey(key) ==>
      FetchEnvVar(env[NormaliseKey(key) := Str(value)], other, default) == FetchEnvVar(env, other, default)
  {
  }

  /** Round trip through `set_env_var` and `boolean_env_var`: an integer reads
      back as truthy iff it is non-zero, a bool reads back as itself, and a
      string as its own truthiness. */
  lemma SetThenBoolean(env: map<string, string>, key: string, value: PyValue)
    ensures value.PyInt? && !StrRaises(value) ==> BooleanEnvVar(env[NormaliseKey(key) := Str(value)], key) == (value.i != 0)
    ensures value.PyBool? ==> BooleanEnvVar(env[NormaliseKey(key) := Str(value)], key) == value.b
    ensures value.PyStr? ==> BooleanEnvVar(env[NormaliseKey(key) := Str(value)], key) == IsTruthy(value.s)
  {
    match value
    case PyInt(i) =>
      IntRoundTrip(i);
    case PyBool(b) =>
      assert StripIntSpace("True") == "True";
      assert !IsNumeral("True");
      assert Lower("True") == "true";
      assert StripIntSpace("False") == "False";
      assert !IsNumeral("False");
      assert Lower("False") == "false";
    case PyStr(s) =>
  }

  /** The digit bound on both sides: `is_truthy` of 4301 ones is false, since
      `int()` refuses the string and it is none of the words, and
      `set_env_var("K", 10**4300)` fails in `str()`. */
  lemma DigitLimitExamples()
    ensures !IsTruthy(seq(MaxStrDigits + 1, _ => '1'))
    ensures SetEnvVarError("K", PyInt(Pow10(MaxStrDigits))) == Some(DigitLimit)
  {
    var s: string := seq(MaxStrDigits + 1, _ => '1');
    IntStripUnchanged(s);
    DigitCountOfDigits(s);
    assert ParseInt(s).None?;
    LowerOfLowerCase(s);
    DigitLimitBound(Pow10(MaxStrDigits));
  }
}
