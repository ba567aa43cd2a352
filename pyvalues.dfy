/** The Python 2 values the wrapper stores in its attributes, with the two
    operations it applies to them: `==` (where a bool is the integer 0 or 1)
    and `str()`. */
module PyValues {
  import opened Common

  /** `VObject` is any other object (the ctypes restore structure), equal
      only to itself. */
  datatype PyValue =
    | VNone
    | VBool(b: bool)
    | VInt(i: int)
    | VStr(s: string)
    | VList(items: seq<PyValue>)
    | VObject(id: nat)

  predicate IsNumber(v: PyValue)
  {
    v.VBool? || v.VInt?
  }

  /** The integer value of a number: True is 1, False is 0. */
  function NumValue(v: PyValue): int
    requires IsNumber(v)
  {
    if v.VBool? then (if v.b then 1 else 0) else v.i
  }

  /** Python 2 `a == b` on these values. */
  predicate PyEq(a: PyValue, b: PyValue)
    decreases a
  {
    if IsNumber(a) && IsNumber(b) then NumValue(a) == NumValue(b)
    else match a
      case VNone => b.VNone?
      case VStr(s) => b.VStr? && b.s == s
      case VList(xs) =>
        b.VList? && |xs| == |b.items| && forall i :: 0 <= i < |xs| ==> PyEq(xs[i], b.items[i])
      case VObject(id) => b.VObject? && b.id == id
      case _ => false
  }

  /** Every value equals itself. */
  lemma {:induction false} PyEqReflexive(a: PyValue)
    ensures PyEq(a, a)
    decreases a
  {
    if a.VList? {
      forall i | 0 <= i < |a.items|
        ensures PyEq(a.items[i], a.items[i])
      {
        PyEqReflexive(a.items[i]);
      }
    }
  }

  /** `==` only differs from identity of values in the numbers: a bool and
      an int are equal when their integer values are. */
  lemma PyEqOnScalars(a: PyValue, b: PyValue)
    requires !a.VList? && !b.VList?
    ensures PyEq(a, b) <==> a == b || (IsNumber(a) && IsNumber(b) && NumValue(a) == NumValue(b))
  {
  }

  /** Python 2 `str()`. The items of a list are shown by `repr`. */
  function Str(v: PyValue): string
    decreases v, 1
  {
    match v
    case VNone => "None"
    case VBool(b) => if b then "True" else "False"
    case VInt(i) => IntToString(i)
    case VStr(s) => s
    case VList(xs) => "[" + JoinWith(", ", seq(|xs|, i requires 0 <= i < |xs| => Repr(xs[i]))) + "]"
    case VObject(id) => "<object " + NatToString(id) + ">"
  }

  function Repr(v: PyValue): string
    decreases v, 2
  {
    if v.VStr? then ReprStr(v.s) else Str(v)
  }

  /** `repr()` of a Python 2 `str`, whose characters are bytes: single
      quotes, or double quotes when the string holds a single quote and no
      double quote. */
  function ReprStr(s: string): string
  {
    var q := if '\'' in s && '"' !in s then '"' else '\'';
    [q] + Escaped(s, q) + [q]
  }

  function HexDigit(n: nat): char
    requires n < 16
  {
    if n < 10 then '0' + n as char else 'a' + (n - 10) as char
  }

  /** How `repr` writes one byte inside quotes `q`: the quote and the
      backslash behind a backslash, tab, newline and return as `\t`, `\n`,
      `\r`, other bytes below 32 or from 127 on as `\x` and two hex digits;
      the remaining printable bytes stand for themselves. */
  function EscapeChar(c: char, q: char): string
  {
    if Plain(c, q) then [c]
    else if c == q || c == '\\' then ['\\', c]
    else if c == '\t' then "\\t"
    else if c == '\n' then "\\n"
    else if c == '\r' then "\\r"
    else ['\\', 'x', HexDigit(c as int / 16 % 16), HexDigit(c as int % 16)]
  }

  function Escaped(s: string, q: char): string
  {
    if |s| == 0 then "" else Escaped(s[..|s| - 1], q) + EscapeChar(s[|s| - 1], q)
  }

  /** A printable character that needs no escape. */
  predicate Plain(c: char, q: char)
  {
    ' ' <= c < '\U{7f}' && c != q && c != '\\'
  }

  /** Escaping leaves a string of plain characters as it is, so `repr` of
      such a string is the string between two quotes. */
  lemma {:induction false} EscapedPlain(s: string, q: char)
    requires forall i :: 0 <= i < |s| ==> Plain(s[i], q)
    ensures Escaped(s, q) == s
  {
    if |s| > 0 {
      var n := |s| - 1;
      assert forall i :: 0 <= i < n ==> s[..n][i] == s[i];
      EscapedPlain(s[..n], q);
      assert s[..n] + [s[n]] == s;
    }
  }

  /** `str()` tells integers apart, so two int attributes that print alike
      hold the same number. */
  lemma StrIntInjective(i: int, j: int)
    requires Str(VInt(i)) == Str(VInt(j))
    ensures i == j
  {
    if i < 0 && j < 0 {
      assert NatToString(-i) == Str(VInt(i))[1..] == Str(VInt(j))[1..] == NatToString(-j);
      NatToStringInjective(-i, -j);
    } else if i >= 0 && j >= 0 {
      NatToStringInjective(i, j);
    } else {
      IntToStringSign(i);
      IntToStringSign(j);
      assert false;
    }
  }

  /** Python truth value. */
  predicate Truthy(v: PyValue)
  {
    match v
    case VNone => false
    case VBool(b) => b
    case VInt(i) => i != 0
    case VStr(s) => |s| > 0
    case VList(xs) => |xs| > 0
    case VObject(_) => true
  }
}
