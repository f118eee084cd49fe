/**
 * The slice of Python semantics the layers rely on: dynamically typed
 * arguments checked with `isinstance` and truthiness, `str()` of the values
 * that appear in description strings, `int()` of a float, sequence slicing
 * with negative and out-of-range bounds, and `os.path.join`.
 */
module Python {

  /** A Python argument value. A float carries the text Python prints for it. */
  datatype Value =
    | NoneV
    | BoolV(b: bool)
    | IntV(i: int)
    | FloatV(f: real, text: string)
    | StrV(s: string)
    | ListV(items: seq<Value>)
    | TupleV(items: seq<Value>)
    | ArrayV(text: string)
    | ObjectV(text: string)

  /** Python truthiness (`if v:`). */
  predicate Truthy(v: Value)
  {
    match v
    case NoneV => false
    case BoolV(b) => b
    case IntV(i) => i != 0
    case FloatV(f, _) => f != 0.0
    case StrV(s) => s != []
    case ListV(items) => items != []
    case TupleV(items) => items != []
    case ArrayV(_) => true
    case ObjectV(_) => true
  }

  /** `isinstance(v, int)`: a bool is an int in Python. */
  predicate IsInt(v: Value) { v.IntV? || v.BoolV? }

  /** `isinstance(v, float)` */
  predicate IsFloat(v: Value) { v.FloatV? }

  /** `isinstance(v, int) or isinstance(v, float)` */
  predicate IsNumber(v: Value) { IsInt(v) || IsFloat(v) }

  /** `isinstance(v, str)` */
  predicate IsStr(v: Value) { v.StrV? }

  /** The integer an int (or bool) stands for. */
  function AsInt(v: Value): int
    requires IsInt(v)
  {
    if v.IntV? then v.i else if v.b then 1 else 0
  }

  /** The number an int, bool or float stands for. */
  function AsReal(v: Value): real
    requires IsNumber(v)
  {
    if v.FloatV? then v.f else AsInt(v) as real
  }

  /** The guard `if name and not isinstance(name, str): raise` lets `v` through. */
  predicate FalsyOrStr(v: Value) { !Truthy(v) || IsStr(v) }

  function Digit(d: nat): char
    requires d < 10
  {
    "0123456789"[d]
  }

  function NatToString(n: nat): (s: string)
    ensures |s| >= 1
  {
    if n < 10 then [Digit(n)] else NatToString(n / 10) + [Digit(n % 10)]
  }

  /** `str(i)` for an int. */
  function IntToString(i: int): (s: string)
    ensures |s| >= 1
  {
    if i < 0 then "-" + NatToString(-i) else NatToString(i)
  }

  /** `str(v)`, as an f-string renders it. */
  function Show(v: Value): string
    decreases v, 2
  {
    match v
    case NoneV => "None"
    case BoolV(b) => if b then "True" else "False"
    case IntV(i) => IntToString(i)
    case FloatV(_, text) => text
    case StrV(s) => s
    case ListV(items) => "[" + ReprItems(v, 0) + "]"
    case TupleV(items) => "(" + ReprItems(v, 0) + (if |items| == 1 then ",)" else ")")
    case ArrayV(text) => text
    case ObjectV(text) => text
  }

  /** `repr(v)`: how an element of a list or tuple is printed. */
  function Repr(v: Value): string
    decreases v, 3
  {
    if v.StrV? then "'" + v.s + "'" else Show(v)
  }

  function ReprItems(v: Value, k: nat): string
    requires v.ListV? || v.TupleV?
    requires k <= |v.items|
    decreases v, 1, |v.items| - k
  {
    if k == |v.items| then ""
    else (if k > 0 then ", " else "") + Repr(v.items[k]) + ReprItems(v, k + 1)
  }

  /** `int(x)` of a float: truncation toward zero. */
  function Trunc(x: real): (r: int)
    ensures 0.0 <= x ==> 0 <= r && r as real <= x < r as real + 1.0
    ensures x < 0.0 ==> r <= 0 && r as real - 1.0 < x <= r as real
  {
    if x >= 0.0 then x.Floor else -((-x).Floor)
  }

  /** A slice bound after Python's normalisation: negative counts from the end, then clamped. */
  function SliceBound(x: int, len: nat): (r: nat)
    ensures r <= len
    ensures 0 <= x <= len ==> r == x
  {
    if x < 0 then (if x + len < 0 then 0 else x + len) else if x > len then len else x
  }

  /** `s[a:b]` for a list, with Python's bounds handling. */
  function Slice<T>(s: seq<T>, a: int, b: int): (r: seq<T>)
    ensures |r| <= |s|
    ensures 0 <= a <= b <= |s| ==> r == s[a..b]
  {
    var i := SliceBound(a, |s|);
    var j := SliceBound(b, |s|);
    if i <= j then s[i..j] else []
  }

  /** `s[:b]` */
  function SliceTo<T>(s: seq<T>, b: int): (r: seq<T>)
    ensures 0 <= b <= |s| ==> r == s[..b]
  {
    Slice(s, 0, b)
  }

  /** `s[a:]` */
  function SliceFrom<T>(s: seq<T>, a: int): (r: seq<T>)
    ensures 0 <= a <= |s| ==> r == s[a..]
  {
    Slice(s, a, |s|)
  }

  /** `os.path.join(a, b)` on POSIX. */
  function PathJoin(a: string, b: string): (r: string)
    ensures |b| > 0 && b[0] == '/' ==> r == b
    ensures (|b| == 0 || b[0] != '/') && |a| > 0 && a[|a| - 1] != '/' ==> r == a + "/" + b
  {
    if |b| > 0 && b[0] == '/' then b
    else if |a| == 0 || a[|a| - 1] == '/' then a + b
    else a + "/" + b
  }

  /** Different digits print as different characters. */
  lemma DigitInjective(a: nat, b: nat)
    requires a < 10 && b < 10 && a != b
    ensures Digit(a) != Digit(b)
  {
    var digits := "0123456789";
    assert forall i, j :: 0 <= i < j < 10 ==> digits[i] < digits[j];
  }

  /** `str(n)` tells naturals apart: different numbers print differently. */
  lemma {:induction false} NatToStringInjective(a: nat, b: nat)
    requires a != b
    ensures NatToString(a) != NatToString(b)
    decreases a + b
  {
    if a < 10 && b < 10 {
      DigitInjective(a, b);
      assert NatToString(a)[0] != NatToString(b)[0];
    } else if a >= 10 && b >= 10 {
      var sa, sb := NatToString(a), NatToString(b);
      if a / 10 != b / 10 {
        NatToStringInjective(a / 10, b / 10);
        if |sa| == |sb| {
          assert sa[..|sa| - 1] == NatToString(a / 10);
          assert sb[..|sb| - 1] == NatToString(b / 10);
        }
      } else {
        assert a % 10 != b % 10;
        DigitInjective(a % 10, b % 10);
        assert sa[|sa| - 1] != sb[|sb| - 1];
      }
    }
  }

  /**
   * Joining one directory with two names that agree on being absolute gives
   * the same path only for the same name.
   */
  lemma PathJoinInjective(a: string, b1: string, b2: string)
    requires |b1| > 0 && |b2| > 0 && (b1[0] == '/' <==> b2[0] == '/')
    requires b1 != b2
    ensures PathJoin(a, b1) != PathJoin(a, b2)
  {
    if b1[0] != '/' {
      var sep := if |a| == 0 || a[|a| - 1] == '/' then a else a + "/";
      assert PathJoin(a, b1) == sep + b1 && PathJoin(a, b2) == sep + b2;
      assert (sep + b1)[|sep|..] == b1 && (sep + b2)[|sep|..] == b2;
    }
  }
}
