/** The few JavaScript value semantics the pages rely on: null-or-value,
    the `{ error }` result of an awaited provider call, string `.length`
    (counted in UTF-16 code units), the `\d` character class and the
    truthiness of an optional string. */
module Js {

  /** `T | null` (and `undefined`, which the pages treat alike). */
  datatype Option<+T> = None | Some(value: T)

  /** What an awaited provider call resolves to: `error` is null, or an
      error object whose `message` is shown to the user. */
  datatype Outcome = Ok | Err(message: string)

  /** UTF-16 code units needed for one character. */
  function CodeUnits(c: char): (n: nat)
    ensures 1 <= n <= 2
    ensures n == 1 <==> c as int < 0x1_0000
  {
    if c as int < 0x1_0000 then 1 else 2
  }

  /** JavaScript's `s.length`: characters outside the Basic Multilingual
      Plane count twice. */
  function Length(s: string): (n: nat)
    ensures |s| <= n <= 2 * |s|
    ensures n == 0 <==> s == []
  {
    if s == [] then 0 else CodeUnits(s[0]) + Length(s[1..])
  }

  /** Every character of `s` is a single UTF-16 code unit. */
  predicate InBmp(s: string) {
    forall i :: 0 <= i < |s| ==> s[i] as int < 0x1_0000
  }

  lemma {:induction false} LengthInBmp(s: string)
    requires InBmp(s)
    ensures Length(s) == |s|
  {
    if s != [] {
      assert InBmp(s[1..]) by {
        forall i | 0 <= i < |s[1..]| ensures s[1..][i] as int < 0x1_0000 {
          assert s[1..][i] == s[i + 1];
        }
      }
      LengthInBmp(s[1..]);
    }
  }

  /** The regular-expression class `\d` without the `u` flag: ASCII digits only. */
  predicate IsDigit(c: char) {
    '0' <= c <= '9'
  }

  predicate AllDigits(s: string) {
    forall i :: 0 <= i < |s| ==> IsDigit(s[i])
  }

  /** `o` is truthy in JavaScript: defined and not the empty string. */
  predicate Truthy(o: Option<string>) {
    o.Some? && o.value != ""
  }
}
