/** The Python built-ins that the modelled backend relies on: JSON values and
    their truthiness, `str()` of a value, the decimal text of an int,
    `str.split` / `str.join` on one separator, and `list.remove`. */
module Builtins {

  datatype Option<T> = None | Some(value: T) {
    function GetOr(default: T): T
    {
      match this
      case Some(v) => v
      case None => default
    }
  }

  /** A JSON value as the web framework hands it to a handler. Floats, lists
      and objects are never looked into by the modelled code: they travel as
      `Other`, carrying the text `str()` gives them and their truthiness. */
  datatype Value =
    | Null
    | Bool(b: bool)
    | Int(i: int)
    | Str(s: string)
    | Other(text: string, truthy: bool)

  /** Python's truth test (`if v:`, `not v`, `a or b`): `None`, `False`, `0`
      and `""` are falsy, every other int, string and `True` truthy, and any
      other value carries its own truthiness. */
  predicate Truthy(v: Value)
    ensures Truthy(v) <==>
      && v != Null && v != Bool(false) && v != Int(0) && v != Str("")
      && (v.Other? ==> v.truthy)
  {
    match v
    case Null => false
    case Bool(b) => b
    case Int(i) => i != 0
    case Str(s) => s != ""
    case Other(_, t) => t
  }

  /** `d.get(key, default)` on a JSON object. */
  function Get(d: map<string, Value>, key: string, default: Value): (v: Value)
    ensures key in d ==> v == d[key]
    ensures key !in d ==> v == default
  {
    if key in d then d[key] else default
  }

  // ---------------------------------------------------------------------------
  // Decimal text of integers, as `str(i)` and f-strings write it

  predicate IsDigits(s: string)
  {
    forall i :: 0 <= i < |s| ==> '0' <= s[i] <= '9'
  }

  function DigitChar(d: nat): (c: char)
    requires d < 10
    ensures '0' <= c <= '9'
  {
    (48 + d) as char
  }

  function DigitValue(c: char): (d: nat)
    requires '0' <= c <= '9'
    ensures d < 10
  {
    c as int - 48
  }

  /** The shortest decimal numeral of `n`. */
  function NatToDecimal(n: nat): (s: string)
    ensures 1 <= |s| && IsDigits(s)
    ensures n >= 10 <==> |s| > 1
    ensures n > 0 ==> s[0] != '0'
    decreases n
  {
    if n < 10 then [DigitChar(n)] else NatToDecimal(n / 10) + [DigitChar(n % 10)]
  }

  /** The number a string of decimal digits denotes. */
  function DecimalValue(s: string): nat
    requires IsDigits(s)
    decreases |s|
  {
    if s == [] then 0 else DecimalValue(s[..|s| - 1]) * 10 + DigitValue(s[|s| - 1])
  }

  /** Reading back the numeral of `n` gives `n`: numerals of distinct
      numbers are distinct. */
  lemma {:induction false} DecimalRoundTrip(n: nat)
    ensures DecimalValue(NatToDecimal(n)) == n
  {
    var s := NatToDecimal(n);
    if n >= 10 {
      var p := NatToDecimal(n / 10);
      assert s == p + [DigitChar(n % 10)];
      assert s[..|s| - 1] == p;
      DecimalRoundTrip(n / 10);
    }
  }

  lemma DecimalInjective(m: nat, n: nat)
    requires NatToDecimal(m) == NatToDecimal(n)
    ensures m == n
  {
    DecimalRoundTrip(m);
    DecimalRoundTrip(n);
  }

  /** `str(i)` for an int: an optional minus sign, then the digits, with no
      leading zero. */
  function IntToDecimal(i: int): (s: string)
    ensures |s| >= 1
    ensures s[0] == '-' <==> i < 0
    ensures i >= 0 ==> IsDigits(s)
    ensures i > 0 ==> s[0] != '0'
    ensures i < 0 ==> |s| >= 2 && IsDigits(s[1..]) && s[1] != '0'
    ensures i >= 0 ==> DecimalValue(s) == i
    ensures i < 0 ==> DecimalValue(s[1..]) == -i
  {
    if i < 0 then
      var d := NatToDecimal(-i);
      DecimalRoundTrip(-i);
      assert ("-" + d)[1..] == d;
      "-" + d
    else
      DecimalRoundTrip(i);
      NatToDecimal(i)
  }

  /** Different ints are written differently. */
  lemma IntToDecimalInjective(a: int, b: int)
    requires IntToDecimal(a) == IntToDecimal(b)
    ensures a == b
  {
    if a < 0 {
      assert IntToDecimal(a)[1..] == NatToDecimal(-a);
      assert IntToDecimal(b)[1..] == NatToDecimal(-b);
      DecimalInjective(-a, -b);
    } else {
      DecimalInjective(a, b);
    }
  }

  /** `str(v)`, which is also what an f-string interpolates: `None`,
      `True`/`False`, the decimal numeral of an int, a string itself, and
      the textual form carried by any other value. */
  function PyStr(v: Value): (s: string)
    ensures v.Null? ==> s == "None"
    ensures v.Bool? ==> s == (if v.b then "True" else "False")
    ensures v.Str? ==> s == v.s
    ensures v.Int? ==> s == IntToDecimal(v.i)
    ensures v.Other? ==> s == v.text
  {
    match v
    case Null => "None"
    case Bool(b) => if b then "True" else "False"
    case Int(i) => IntToDecimal(i)
    case Str(s) => s
    case Other(text, _) => text
  }

  // ---------------------------------------------------------------------------
  // `s.split(sep)` and `sep.join(parts)` for a one-character separator

  /** `s.split(sep)`: the pieces between separators, empty pieces kept, so
      the result is never empty (`"".split(",") == [""]`). */
  function Split(s: string, sep: char): (parts: seq<string>)
    ensures |parts| >= 1
    ensures forall i :: 0 <= i < |parts| ==> sep !in parts[i]
    decreases |s|
  {
    if s == [] then [""]
    else
      var rest := Split(s[1..], sep);
      if s[0] == sep then [""] + rest
      else
        assert sep !in [s[0]] + rest[0];
        [[s[0]] + rest[0]] + rest[1..]
  }

  /** `sep.join(parts)` for a non-empty list of pieces. */
  function Join(parts: seq<string>, sep: char): string
    requires |parts| >= 1
    decreases |parts|
  {
    if |parts| == 1 then parts[0] else parts[0] + [sep] + Join(parts[1..], sep)
  }

  /** Splitting loses nothing: joining the pieces again gives back `s`. */
  lemma {:induction false} JoinSplit(s: string, sep: char)
    ensures Join(Split(s, sep), sep) == s
    decreases |s|
  {
    if s != [] {
      var rest := Split(s[1..], sep);
      var parts := Split(s, sep);
      JoinSplit(s[1..], sep);
      assert s == [s[0]] + s[1..];
      if s[0] == sep {
        assert parts == [""] + rest;
        assert parts[1..] == rest;
        assert Join(parts, sep) == "" + [sep] + Join(rest, sep);
      } else {
        assert parts == [[s[0]] + rest[0]] + rest[1..];
        if |rest| == 1 {
          assert Join(parts, sep) == [s[0]] + rest[0];
        } else {
          assert parts[1..] == rest[1..];
          assert Join(parts, sep) == [s[0]] + rest[0] + [sep] + Join(rest[1..], sep);
          assert Join(rest, sep) == rest[0] + [sep] + Join(rest[1..], sep);
        }
      }
    }
  }

  /** One step of `Split`: a leading non-separator joins the first piece. */
  lemma SplitCons(c: char, u: string, sep: char)
    requires c != sep
    ensures Split([c] + u, sep) == [[c] + Split(u, sep)[0]] + Split(u, sep)[1..]
  {
    var s := [c] + u;
    assert s[0] == c && s[1..] == u;
  }

  /** One step of `Split`: a leading separator ends an empty first piece. */
  lemma SplitSep(u: string, sep: char)
    ensures Split([sep] + u, sep) == [""] + Split(u, sep)
  {
    var s := [sep] + u;
    assert s[0] == sep && s[1..] == u;
  }

  /** A separator-free prefix fuses with the first piece of what follows. */
  lemma {:induction false} SplitPrefix(a: string, t: string, sep: char)
    requires sep !in a
    ensures Split(a + t, sep) == [a + Split(t, sep)[0]] + Split(t, sep)[1..]
    decreases |a|
  {
    var rt := Split(t, sep);
    if a != [] {
      assert sep !in a[1..] && a[0] != sep by { assert a == [a[0]] + a[1..]; }
      SplitPrefix(a[1..], t, sep);
      assert a + t == [a[0]] + (a[1..] + t);
      SplitCons(a[0], a[1..] + t, sep);
      assert [a[0]] + (a[1..] + rt[0]) == a + rt[0];
    } else {
      assert a + t == t && a + rt[0] == rt[0];
      assert rt == [rt[0]] + rt[1..];
    }
  }

  /** The other direction: splitting the join of separator-free pieces gives
      back the pieces. */
  lemma {:induction false} SplitJoin(parts: seq<string>, sep: char)
    requires |parts| >= 1
    requires forall i :: 0 <= i < |parts| ==> sep !in parts[i]
    ensures Split(Join(parts, sep), sep) == parts
    decreases |parts|
  {
    if |parts| == 1 {
      SplitPrefix(parts[0], "", sep);
      assert parts[0] + "" == parts[0];
      assert [parts[0]] == parts;
    } else {
      var tail := Join(parts[1..], sep);
      SplitJoin(parts[1..], sep);
      var t := [sep] + tail;
      SplitSep(tail, sep);
      var st := [""] + parts[1..];
      assert st[0] == "" && st[1..] == parts[1..];
      SplitPrefix(parts[0], t, sep);
      assert Join(parts, sep) == parts[0] + t;
      assert parts[0] + "" == parts[0];
      assert parts == [parts[0]] + parts[1..];
    }
  }

  // ---------------------------------------------------------------------------
  // `list.remove(x)` with its ValueError caught

  /** The position of the first occurrence of `x`. */
  function IndexOf<T(==)>(s: seq<T>, x: T): (k: nat)
    requires x in s
    ensures k < |s| && s[k] == x && x !in s[..k]
  {
    if s[0] == x then 0
    else
      var k := IndexOf(s[1..], x);
      assert s[..k + 1] == [s[0]] + s[1..][..k];
      k + 1
  }

  /** `try: s.remove(x) except ValueError: pass`: drop the first occurrence
      of `x`, or leave `s` alone when `x` is absent. */
  function RemoveFirst<T(==)>(s: seq<T>, x: T): (r: seq<T>)
    ensures x !in s ==> r == s
    ensures x in s ==> |r| == |s| - 1
  {
    if s == [] then []
    else if s[0] == x then s[1..]
    else
      assert s == [s[0]] + s[1..];
      [s[0]] + RemoveFirst(s[1..], x)
  }

  /** Slicing a list with one more element at the front. */
  lemma ConsSlices<T>(a: T, t: seq<T>, k: nat)
    requires k < |t|
    ensures ([a] + t)[..k + 1] == [a] + t[..k]
    ensures ([a] + t)[k + 2..] == t[k + 1..]
  {
  }

  /** Exactly the first occurrence goes; everything else keeps its order. */
  lemma {:induction false} RemoveFirstAt<T>(s: seq<T>, x: T)
    requires x in s
    ensures RemoveFirst(s, x) == s[..IndexOf(s, x)] + s[IndexOf(s, x) + 1..]
  {
    if s[0] == x {
      assert s[..0] == [];
    } else {
      var a, t := s[0], s[1..];
      assert s == [a] + t;
      RemoveFirstAt(t, x);
      var k := IndexOf(t, x);
      ConsSlices(a, t, k);
      assert RemoveFirst(s, x) == [a] + (t[..k] + t[k + 1..]);
    }
  }

  /** One occurrence of `x` fewer, and nothing else lost. */
  lemma {:induction false} RemoveFirstMultiset<T>(s: seq<T>, x: T)
    ensures multiset(RemoveFirst(s, x)) == multiset(s) - multiset{x}
  {
    if x in s {
      var k := IndexOf(s, x);
      RemoveFirstAt(s, x);
      var a, b := s[..k], s[k + 1..];
      assert s == a + [x] + b;
      assert multiset(s) == multiset(a) + multiset{x} + multiset(b);
      assert multiset(RemoveFirst(s, x)) == multiset(a) + multiset(b);
    } else {
      assert x !in multiset(s);
      assert multiset(s) - multiset{x} == multiset(s);
    }
  }
}
