/** String helpers with the semantics the TypeScript source relies on. */
module Text {

  /** `toLowerCase` on one character; only the ASCII letters are folded. */
  function LowerChar(c: char): char {
    if 'A' <= c <= 'Z' then (c as int + 32) as char else c
  }

  /** `String.prototype.toLowerCase`, restricted to ASCII case folding. */
  function ToLower(s: string): string {
    seq(|s|, i requires 0 <= i < |s| => LowerChar(s[i]))
  }

  /** Lower-casing twice is lower-casing once, so case-insensitive equality is stable. */
  lemma ToLowerIdempotent(s: string)
    ensures ToLower(ToLower(s)) == ToLower(s)
  {
    forall i | 0 <= i < |s|
      ensures ToLower(ToLower(s))[i] == ToLower(s)[i]
    {
      assert ToLower(s)[i] == LowerChar(s[i]);
    }
  }

  /** `sub` occurs in `s` starting at index `i`. */
  predicate OccursAt(s: string, sub: string, i: int) {
    0 <= i <= |s| - |sub| && s[i..i + |sub|] == sub
  }

  /** `s.includes(sub)`. */
  predicate Contains(s: string, sub: string) {
    exists i :: 0 <= i <= |s| && OccursAt(s, sub, i)
  }

  /** `parts.join(sep)`: the empty list joins to the empty string. */
  function Join(parts: seq<string>, sep: string): string
    decreases |parts|
  {
    if |parts| == 0 then ""
    else if |parts| == 1 then parts[0]
    else parts[0] + sep + Join(parts[1..], sep)
  }

  /** A join of non-empty parts is empty exactly when there are no parts. */
  lemma {:induction false} JoinEmptyIff(parts: seq<string>, sep: string)
    requires forall i :: 0 <= i < |parts| ==> parts[i] != ""
    ensures Join(parts, sep) == "" <==> parts == []
  {
    if |parts| == 1 {
      assert Join(parts, sep) == parts[0];
    } else if |parts| > 1 {
      assert |Join(parts, sep)| >= |parts[0]| > 0;
    }
  }

  /**
   * Lexicographic order on strings. Timestamps are the fixed-width ISO-8601
   * text of `Date.toISOString`, for which this order is chronological order.
   */
  predicate LexLe(a: string, b: string)
    decreases |a|
  {
    a == [] || (b != [] && (a[0] < b[0] || (a[0] == b[0] && LexLe(a[1..], b[1..]))))
  }

  lemma {:induction false} LexLeReflexive(a: string)
    ensures LexLe(a, a)
    decreases |a|
  {
    if a != [] {
      LexLeReflexive(a[1..]);
    }
  }

  lemma {:induction false} LexLeTotal(a: string, b: string)
    ensures LexLe(a, b) || LexLe(b, a)
    decreases |a|
  {
    if a != [] && b != [] && a[0] == b[0] {
      LexLeTotal(a[1..], b[1..]);
    }
  }

  lemma {:induction false} LexLeTransitive(a: string, b: string, c: string)
    requires LexLe(a, b) && LexLe(b, c)
    ensures LexLe(a, c)
    decreases |a|
  {
    if a != [] && b != [] && c != [] && a[0] == b[0] && b[0] == c[0] {
      LexLeTransitive(a[1..], b[1..], c[1..]);
    }
  }
}
