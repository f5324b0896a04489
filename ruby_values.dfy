/** Ruby values as the services and the job handle them: hashes with symbol
    or string keys, JSON scalars other than floats, arrays, and the truthiness, `||`,
    `blank?`, `to_s` and `[]` rules of Ruby and ActiveSupport. */
module RubyValues {

  /** A hash key: a symbol literal (`:company_id`) or a string (`"fluid_shop"`, the keys of parsed JSON). */
  datatype Key = Sym(name: string) | Str(text: string)

  datatype Value =
    | Nil
    | Bool(b: bool)
    | Int(i: int)
    | Text(s: string)
    | Symbol(name: string)
    | List(items: seq<Value>)
    | Hash(entries: map<Key, Value>)

  /** The three exception classes the code rescues by name; every other
      StandardError (TypeError, NoMethodError, KeyError, timeouts, ...) is `StandardError`. */
  datatype Exception =
    | ResponseError(message: string)   // HTTParty::ResponseError
    | ParserError(message: string)     // JSON::ParserError
    | StandardError(message: string)

  /** The outcome of Ruby code that either returns a value or raises. */
  datatype Result<+T> = Ok(value: T) | Raise(error: Exception)

  datatype Option<+T> = None | Some(value: T)

  /** Only `nil` and `false` are falsy in Ruby. */
  predicate Truthy(v: Value) {
    !v.Nil? && v != Bool(false)
  }

  /** Ruby's `v || fallback`. */
  function Or(v: Value, fallback: Value): Value {
    if Truthy(v) then v else fallback
  }

  /** `hash[key]`: the stored value, or `nil` for a missing key. */
  function Get(h: map<Key, Value>, k: Key): Value {
    if k in h then h[k] else Nil
  }

  /** `[[:space:]]`: the characters ActiveSupport's `String#blank?` skips. */
  predicate IsSpace(c: char) {
    c == ' ' || c == '\t' || c == '\n' || c == '\U{B}' || c == '\U{C}' || c == '\r'
    || c == '\U{85}' || c == '\U{A0}' || c == '\U{1680}' || '\U{2000}' <= c <= '\U{200A}'
    || c == '\U{2028}' || c == '\U{2029}' || c == '\U{202F}' || c == '\U{205F}' || c == '\U{3000}'
  }

  predicate BlankText(s: string) {
    forall i :: 0 <= i < |s| ==> IsSpace(s[i])
  }

  /** ActiveSupport's `blank?`: nil, false, empty or whitespace-only text, empty collections. */
  predicate Blank(v: Value) {
    match v
    case Nil => true
    case Bool(b) => !b
    case Int(_) => false
    case Text(s) => BlankText(s)
    case Symbol(n) => n == ""
    case List(items) => items == []
    case Hash(entries) => entries == map[]
  }

  predicate Present(v: Value) {
    !Blank(v)
  }

  /** `hash.compact`: drops the entries whose value is nil (and only those; `false` stays). */
  function Compact(h: map<Key, Value>): (r: map<Key, Value>)
    ensures forall k :: k in r <==> k in h && h[k] != Nil
    ensures forall k :: k in r ==> r[k] == h[k]
  {
    map k | k in h && h[k] != Nil :: h[k]
  }

  // ---------------------------------------------------------------------
  // Integer#to_s and its inverse

  predicate IsDigit(c: char) {
    '0' <= c <= '9'
  }

  function DigitChar(d: nat): (c: char)
    requires d < 10
    ensures IsDigit(c) && c as int - '0' as int == d
  {
    ('0' as int + d) as char
  }

  /** Decimal text of a natural number, most significant digit first. */
  function NatToDecimal(n: nat): (s: string)
    ensures |s| > 0
    ensures forall i :: 0 <= i < |s| ==> IsDigit(s[i])
    ensures n < 10 <==> |s| == 1
  {
    if n < 10 then [DigitChar(n)] else NatToDecimal(n / 10) + [DigitChar(n % 10)]
  }

  /** `Integer#to_s`. */
  function IntToDecimal(i: int): string {
    if i < 0 then "-" + NatToDecimal(-i) else NatToDecimal(i)
  }

  function ParseNat(s: string): nat {
    if s == [] then 0
    else
      var c := s[|s| - 1];
      ParseNat(s[..|s| - 1]) * 10 + (if IsDigit(c) then c as int - '0' as int else 0)
  }

  /** Reads back what `IntToDecimal` writes (the partner of `Integer#to_s`). */
  function ParseInt(s: string): int {
    if |s| > 0 && s[0] == '-' then 0 - ParseNat(s[1..]) as int else ParseNat(s)
  }

  lemma {:induction false} ParseNatInvertsNatToDecimal(n: nat)
    ensures ParseNat(NatToDecimal(n)) == n
  {
    if n >= 10 {
      var s := NatToDecimal(n);
      assert s[..|s| - 1] == NatToDecimal(n / 10);
      ParseNatInvertsNatToDecimal(n / 10);
    }
  }

  /** `Integer#to_s` loses nothing: the text reads back as the same integer. */
  lemma IntToDecimalRoundTrip(i: int)
    ensures ParseInt(IntToDecimal(i)) == i
  {
    if i < 0 {
      var s := IntToDecimal(i);
      assert s[1..] == NatToDecimal(-i);
      ParseNatInvertsNatToDecimal(-i);
    } else {
      ParseNatInvertsNatToDecimal(i);
    }
  }

  /** Distinct integers have distinct decimal text. */
  lemma IntToDecimalInjective(i: int, j: int)
    requires IntToDecimal(i) == IntToDecimal(j)
    ensures i == j
  {
    IntToDecimalRoundTrip(i);
    IntToDecimalRoundTrip(j);
  }

  /** Prefixing the same text keeps decimal texts apart: `"company_#{id}"` names one id. */
  lemma PrefixedDecimalInjective(prefix: string, i: int, j: int)
    requires prefix + IntToDecimal(i) == prefix + IntToDecimal(j)
    ensures i == j
  {
    assert IntToDecimal(i) == (prefix + IntToDecimal(i))[|prefix|..];
    assert IntToDecimal(j) == (prefix + IntToDecimal(j))[|prefix|..];
    IntToDecimalInjective(i, j);
  }

  // ---------------------------------------------------------------------
  // to_s, class names in error messages, and `[]`

  /** `to_s` of a scalar. Arrays and hashes are rendered as "" (see README). */
  function ToS(v: Value): string {
    match v
    case Nil => ""
    case Bool(b) => if b then "true" else "false"
    case Int(i) => IntToDecimal(i)
    case Text(s) => s
    case Symbol(n) => n
    case List(_) => ""
    case Hash(_) => ""
  }

  /** How Ruby names a value's class in "no implicit conversion of X into Y". */
  function ClassName(v: Value): string {
    match v
    case Nil => "nil"
    case Bool(b) => if b then "true" else "false"
    case Int(_) => "Integer"
    case Text(_) => "String"
    case Symbol(_) => "Symbol"
    case List(_) => "Array"
    case Hash(_) => "Hash"
  }

  function KeyClassName(k: Key): string {
    if k.Sym? then "Symbol" else "String"
  }

  predicate TextAt(s: string, part: string, i: nat) {
    i + |part| <= |s| && s[i..i + |part|] == part
  }

  /** Ruby's `s.include?(part)`. */
  predicate ContainsText(s: string, part: string) {
    exists i: nat | i <= |s| :: TextAt(s, part, i)
  }

  /** `receiver[key]` for the receivers a parsed payload can hold. A hash
      looks the key up; a string (or symbol) given a string key returns that
      substring or nil; nil and booleans have no `[]`; every other case is a
      TypeError because the key is not an integer index. */
  function Index(receiver: Value, key: Key): (r: Result<Value>)
    ensures receiver.Hash? ==> r == Ok(Get(receiver.entries, key))
    ensures r.Ok? ==> receiver.Hash? || (key.Str? && (receiver.Text? || receiver.Symbol?))
  {
    match receiver
    case Hash(entries) => Ok(Get(entries, key))
    case Nil => Raise(StandardError("undefined method '[]' for nil"))
    case Bool(b) => Raise(StandardError("undefined method '[]' for " + (if b then "true" else "false")))
    case Text(s) =>
      if key.Str? then Ok(if ContainsText(s, key.text) then Text(key.text) else Nil)
      else Raise(StandardError("no implicit conversion of Symbol into Integer"))
    case Symbol(n) =>
      if key.Str? then Ok(if ContainsText(n, key.text) then Text(key.text) else Nil)
      else Raise(StandardError("no implicit conversion of Symbol into Integer"))
    case _ => Raise(StandardError("no implicit conversion of " + KeyClassName(key) + " into Integer"))
  }

  // ---------------------------------------------------------------------
  // Array#map with a block that may raise

  /** How many leading items the block gets through before one raises
      (all of them when none does). */
  function FirstRaise<T, U>(f: T -> Result<U>, items: seq<T>): (n: nat)
    ensures n <= |items|
    ensures forall j :: 0 <= j < n ==> f(items[j]).Ok?
    ensures n < |items| ==> f(items[n]).Raise?
  {
    if items == [] || f(items[0]).Raise? then 0 else 1 + FirstRaise(f, items[1..])
  }

  /** `items.map(&f)`: the results in order, or the first exception raised. */
  function MapOrRaise<T, U>(f: T -> Result<U>, items: seq<T>): (r: Result<seq<U>>)
    ensures r.Ok? <==> FirstRaise(f, items) == |items|
    ensures r.Ok? ==> |r.value| == |items|
    ensures r.Ok? ==> forall j :: 0 <= j < |items| ==> r.value[j] == f(items[j]).value
    ensures r.Raise? ==> r.error == f(items[FirstRaise(f, items)]).error
  {
    if items == [] then Ok([])
    else
      match f(items[0])
      case Raise(e) => Raise(e)
      case Ok(v) =>
        match MapOrRaise(f, items[1..])
        case Raise(e) => Raise(e)
        case Ok(vs) => Ok([v] + vs)
  }
}
