/**
 Shared vocabulary of the ShareRent front end model: optional values with
 JavaScript truthiness, the toast notification record, and ASCII character
 helpers used by the display rules.
 */
module Wrappers {

  /** A value that may be absent (`null`/`undefined` in the source). */
  datatype Option<+T> = None | Some(value: T) {

    /** The encapsulated value, or `default` when absent. */
    function GetOr(default: T): T {
      match this
      case Some(v) => v
      case None => default
    }
  }

  /** JavaScript truthiness of an optional string: present and non-empty. */
  predicate Truthy(s: Option<string>) {
    s.Some? && s.value != ""
  }

  /** `a || b` on optional strings: `a` when truthy, otherwise `b`. */
  function OrElse(a: Option<string>, b: string): (r: string)
    ensures Truthy(a) ==> r == a.value
    ensures !Truthy(a) ==> r == b
  {
    if Truthy(a) then a.value else b
  }
}

/** The toast notifications the pages emit, reduced to the data they carry. */
module Notify {

  datatype Variant = Default | Destructive

  datatype Toast = Toast(title: string, description: string, variant: Variant)
}

/** ASCII character classes and case mapping. */
module Ascii {

  predicate IsUpper(c: char) {
    'A' <= c <= 'Z'
  }

  predicate IsLower(c: char) {
    'a' <= c <= 'z'
  }

  /**
   The characters matched by the regular-expression class `\s` within ASCII:
   space, and tab, line feed, vertical tab, form feed, carriage return (9 to 13).
   */
  predicate IsSpace(c: char) {
    c == ' ' || '\t' <= c <= '\r'
  }

  function ToLower(c: char): (r: char)
    ensures IsUpper(c) ==> IsLower(r) && r as int == c as int + 32
    ensures !IsUpper(c) ==> r == c
    ensures !IsUpper(r) && (IsSpace(r) <==> IsSpace(c))
  {
    if IsUpper(c) then (c as int + 32) as char else c
  }

  function ToUpper(c: char): (r: char)
    ensures IsLower(c) ==> IsUpper(r) && r as int == c as int - 32
    ensures !IsLower(c) ==> r == c
    ensures !IsLower(r)
  {
    if IsLower(c) then (c as int - 32) as char else c
  }

  /** `String.prototype.toLowerCase` on ASCII text. */
  function Lower(s: string): (r: string)
    ensures |r| == |s|
    ensures forall i :: 0 <= i < |s| ==> r[i] == ToLower(s[i])
  {
    if s == [] then [] else [ToLower(s[0])] + Lower(s[1..])
  }
}

/** Facts about Euclidean remainder used by the cyclic indices. */
module Modular {

  /** `a % n` is the remainder of any division of `a` by `n` with remainder in [0,n). */
  lemma ModUnique(a: int, n: int, q: int, r: int)
    requires n > 0 && 0 <= r < n && a == q * n + r
    ensures a % n == r
  {
    var d := q - a / n;
    assert d * n == a % n - r;
    if d > 0 {
      MulMonotone(d, n);
    } else if d < 0 {
      MulMonotone(-d, n);
    }
  }

  /** Adding one moves the remainder up by one, wrapping from `n - 1` to 0. */
  lemma ModStep(x: int, n: int)
    requires n > 0
    ensures 0 <= x % n < n
    ensures (x + 1) % n == if x % n == n - 1 then 0 else x % n + 1
  {
    var p, q := x % n, x / n;
    assert x == q * n + p;
    if p == n - 1 {
      ModUnique(x + 1, n, q + 1, 0);
    } else {
      ModUnique(x + 1, n, q, p + 1);
    }
  }

  lemma MulMonotone(d: int, n: int)
    requires d >= 1 && n > 0
    ensures d * n >= n
  {
  }
}
