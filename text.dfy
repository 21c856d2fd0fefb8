/** String predicates used by the scripts' filters, and Python's `or` on an
    optional string (where both `None` and `""` are false). */
module Text {
  import opened Wrappers

  /** `s.startswith(prefix)` */
  predicate StartsWith(s: string, prefix: string) {
    |prefix| <= |s| && s[..|prefix|] == prefix
  }

  /** `sub in s` for strings */
  predicate Contains(s: string, sub: string) {
    StartsWith(s, sub) || (|s| > 0 && Contains(s[1..], sub))
  }

  /** Python truthiness of an optional string. */
  predicate Truthy(x: Option<string>) {
    x.Some? && x.value != ""
  }

  /** `x or y` where both sides are optional strings. */
  function Or(x: Option<string>, y: Option<string>): Option<string> {
    if Truthy(x) then x else y
  }

  /** `x or d` where the fallback is a plain string. */
  function OrElse(x: Option<string>, d: string): string {
    if Truthy(x) then x.value else d
  }

  lemma {:induction false} ContainsAt(s: string, sub: string, i: nat)
    requires i + |sub| <= |s| && s[i..i + |sub|] == sub
    ensures Contains(s, sub)
  {
    if i > 0 {
      assert s[1..][i - 1..i - 1 + |sub|] == s[i..i + |sub|];
      ContainsAt(s[1..], sub, i - 1);
    }
  }
}
