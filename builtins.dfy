/** The pieces of Python the stores rely on: the exceptions they raise,
    list indexing and `list.pop` with negative positions, `str(n)` for
    non-negative integers and `str.split(sep)[0]`. */
module Builtins {

  /** The exception classes raised by the stores and the widgets. */
  datatype Error = IndexError | ValueError | KeyError | LookupError | AttributeError | AssertionError

  /** A Python argument or value that may be `None`. */
  datatype Option<+T> = None | Some(value: T) {
    function GetOr(default: T): T {
      match this
      case Some(v) => v
      case None => default
    }
  }

  /** A computed value, or the exception raised while computing it. */
  datatype Result<+T> = Ok(value: T) | Err(error: Error)

  /** How a call that changes state ended: normally, or by raising. */
  datatype Outcome = Pass | Fail(error: Error)

  /** The position that `xs[i]` (and `xs.pop(i)`) addresses in a list of
      length `n`: a negative `i` counts from the end; `None` where Python
      raises IndexError. */
  function Position(n: nat, i: int): (p: Option<nat>)
    ensures p.Some? <==> -(n as int) <= i < n
    ensures p.Some? ==> p.value < n && p.value == i % n
  {
    if 0 <= i < n then Some(i) else if -(n as int) <= i < 0 then Some(n + i) else None
  }

  /** `xs` after `xs.pop(p)`: the entry at `p` is gone, the others keep their order. */
  function RemoveAt<T>(xs: seq<T>, p: nat): (r: seq<T>)
    requires p < |xs|
    ensures |r| == |xs| - 1
    ensures forall j :: 0 <= j < p ==> r[j] == xs[j]
    ensures forall j :: p <= j < |r| ==> r[j] == xs[j + 1]
    ensures p == |xs| - 1 ==> r == xs[..p]
  {
    xs[..p] + xs[p + 1..]
  }

  /** Popping loses exactly the entry popped. */
  lemma RemoveAtMultiset<T>(xs: seq<T>, p: nat)
    requires p < |xs|
    ensures multiset(RemoveAt(xs, p)) + multiset{xs[p]} == multiset(xs)
  {
    assert xs == xs[..p] + [xs[p]] + xs[p + 1..];
  }

  /** The property getter `xs[index] if index != -1 else None` that every
      store uses for its active entry. */
  function Selected<T>(xs: seq<T>, index: int): (r: Result<Option<T>>)
    ensures r == Ok(None) <==> index == -1
    ensures r.Err? <==> index != -1 && Position(|xs|, index).None?
    ensures r.Err? ==> r.error == IndexError
    ensures 0 <= index < |xs| ==> r == Ok(Some(xs[index]))
    ensures index < -1 && -(|xs| as int) <= index ==> r == Ok(Some(xs[|xs| + index]))
  {
    if index == -1 then Ok(None)
    else match Position(|xs|, index)
      case None => Err(IndexError)
      case Some(p) => Ok(Some(xs[p]))
  }

  /** The name getter: `names[index] if index != -1 else ""`. */
  function SelectedName(names: seq<string>, index: int): (r: Result<string>)
    ensures index == -1 ==> r == Ok("")
    ensures r.Err? <==> Selected(names, index).Err?
    ensures 0 <= index < |names| ==> r == Ok(names[index])
  {
    match Selected(names, index)
    case Err(e) => Err(e)
    case Ok(None) => Ok("")
    case Ok(Some(name)) => Ok(name)
  }

  predicate IsDigits(s: string) {
    forall i :: 0 <= i < |s| ==> '0' <= s[i] <= '9'
  }

  function DigitChar(d: nat): (c: char)
    requires d < 10
    ensures '0' <= c <= '9' && c as int - '0' as int == d
  {
    ('0' as int + d) as char
  }

  /** `str(n)` for a non-negative integer: its decimal digits, without leading zeros. */
  function NatToString(n: nat): (s: string)
    ensures |s| >= 1 && IsDigits(s)
    ensures s[0] == '0' ==> n == 0
  {
    if n < 10 then [DigitChar(n)] else NatToString(n / 10) + [DigitChar(n % 10)]
  }

  /** The number a string of decimal digits denotes (`int(s)`). */
  function DigitsValue(s: string): (r: nat)
    requires IsDigits(s)
    ensures r == 0 <==> forall i :: 0 <= i < |s| ==> s[i] == '0'
    ensures |s| == 1 ==> r == s[0] as int - '0' as int
  {
    assert forall i :: 0 <= i < |s| - 1 ==> s[..|s| - 1][i] == s[i];
    if s == [] then 0 else DigitsValue(s[..|s| - 1]) * 10 + (s[|s| - 1] as int - '0' as int)
  }

  /** `int(str(n)) == n`. */
  lemma {:induction false} DigitsValueOfNatToString(n: nat)
    ensures DigitsValue(NatToString(n)) == n
  {
    if n >= 10 {
      var s := NatToString(n);
      assert s[..|s| - 1] == NatToString(n / 10);
      DigitsValueOfNatToString(n / 10);
    }
  }

  /** Different numbers print differently, which is what makes the names
      minted from a counter unique. */
  lemma NatToStringInjective(a: nat, b: nat)
    ensures NatToString(a) == NatToString(b) <==> a == b
  {
    if NatToString(a) == NatToString(b) {
      DigitsValueOfNatToString(a);
      DigitsValueOfNatToString(b);
    }
  }

  /** `s.split(sep)[0]`: the text before the first `sep`, or all of `s`. */
  function BeforeFirst(s: string, sep: char): (r: string)
    ensures r <= s
    ensures sep !in r
    ensures |r| < |s| ==> s[|r|] == sep
  {
    if s == [] || s[0] == sep then [] else [s[0]] + BeforeFirst(s[1..], sep)
  }
}
