/** Small shared types: optional values, Python exception classes, and the few
    list operations that the driver performs on its waiter list. */
module Prelude {
  datatype Option<+T> = None | Some(value: T)

  type Bytes = seq<bv8>

  type Header = (string, string)

  /** The exception classes that the bindings and the asyncio layer raise. */
  datatype Exc =
    | ValueError
    | KeyError
    | ConnectionError
    | RuntimeError
    | OSError
    | TimeoutError
    | CancelledError

  /** The decimal rendering used when a number is spliced into a message. */
  function Decimal(n: nat): string
  {
    if n < 10 then ["0123456789"[n]] else Decimal(n / 10) + ["0123456789"[n % 10]]
  }

  /** The value of a string of decimal digits. */
  function Digits(s: string): Option<nat>
  {
    if s == "" then Some(0)
    else
      var last := s[|s| - 1];
      var rest := Digits(s[..|s| - 1]);
      if rest.None? || !('0' <= last <= '9') then None
      else Some(10 * rest.value + (last as int - '0' as int))
  }

  predicate IsSpace(c: char) { c == ' ' || '\t' <= c <= '\r' }

  function Trim(s: string): string
  {
    if s == "" then s else if IsSpace(s[0]) then Trim(s[1..])
    else if IsSpace(s[|s| - 1]) then Trim(s[..|s| - 1]) else s
  }

  /** Reading a 32-bit number: spaces around it and one sign are allowed, overflow is an error. */
  function ParseInt(s: string): Option<int>
  {
    var t := Trim(s);
    if t == "" then None
    else
      var signed := t[0] == '-' || t[0] == '+';
      var digits := if signed then t[1..] else t;
      var value := Digits(digits);
      if digits == "" || value.None? then None
      else
        var magnitude: int := value.value;
        var v := if t[0] == '-' then -magnitude else magnitude;
        if -0x8000_0000 <= v < 0x8000_0000 then Some(v) else None
  }

  lemma {:induction false} DigitsOfDecimal(n: nat)
    ensures Digits(Decimal(n)) == Some(n) && Decimal(n) != ""
    ensures '0' <= Decimal(n)[0] <= '9' && '0' <= Decimal(n)[|Decimal(n)| - 1] <= '9'
  {
    var s := Decimal(n);
    if n < 10 {
      assert s[..0] == "";
    } else {
      DigitsOfDecimal(n / 10);
      assert s[..|s| - 1] == Decimal(n / 10);
    }
  }

  /** What is written in decimal is read back. */
  lemma ParseIntOfDecimal(n: nat)
    requires n < 0x8000_0000
    ensures ParseInt(Decimal(n)) == Some(n)
  {
    DigitsOfDecimal(n);
    assert Trim(Decimal(n)) == Decimal(n);
  }

  ghost predicate NoDuplicates<T(!new)>(xs: seq<T>)
  {
    forall i, j :: 0 <= i < j < |xs| ==> xs[i] != xs[j]
  }

  lemma HeadIsMember<T>(xs: seq<T>)
    ensures xs == [] || xs[0] in xs
  {}

  /** list.remove: drops the first occurrence. */
  function Remove<T(==)>(xs: seq<T>, x: T): seq<T>
  {
    if xs == [] then [] else if xs[0] == x then xs[1..] else [xs[0]] + Remove(xs[1..], x)
  }

  lemma {:induction false} RemoveKeeps<T(!new)>(xs: seq<T>, x: T)
    requires NoDuplicates(xs)
    ensures NoDuplicates(Remove(xs, x))
    ensures forall y :: y in Remove(xs, x) <==> y in xs && y != x
  {
    if xs != [] {
      RemoveKeeps(xs[1..], x);
      assert xs == [xs[0]] + xs[1..];
      if xs[0] == x {
        assert x !in xs[1..];
      } else {
        assert xs[0] !in xs[1..];
        assert forall y :: y in Remove(xs, x) <==> y == xs[0] || y in Remove(xs[1..], x);
        var r := Remove(xs[1..], x);
        forall i, j | 0 <= i < j < |[xs[0]] + r| ensures ([xs[0]] + r)[i] != ([xs[0]] + r)[j] {
          assert ([xs[0]] + r)[j] == r[j - 1];
          assert r[j - 1] in r;
        }
      }
    }
  }
}
