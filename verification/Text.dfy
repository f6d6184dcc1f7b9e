/** Text helpers of the request handlers: trimming, and the NUL-joined keys of the server's tables. */
module Text {

  /** `unicode.IsSpace`. */
  predicate IsSpace(c: char) {
    '\t' <= c <= '\r' || c == ' ' || c == '\U{0085}' || c == '\U{00A0}' || c == '\U{1680}'
    || '\U{2000}' <= c <= '\U{200A}' || c == '\U{2028}' || c == '\U{2029}' || c == '\U{202F}'
    || c == '\U{205F}' || c == '\U{3000}'
  }

  function TrimLeft(s: string): string {
    if s != "" && IsSpace(s[0]) then TrimLeft(s[1..]) else s
  }

  function TrimRight(s: string): string {
    if s != "" && IsSpace(s[|s| - 1]) then TrimRight(s[..|s| - 1]) else s
  }

  function TrimSpace(s: string): string { TrimRight(TrimLeft(s)) }

  function TrimDashes(s: string): string {
    if s != "" && s[0] == '-' then TrimDashes(s[1..])
    else if s != "" && s[|s| - 1] == '-' then TrimDashes(s[..|s| - 1])
    else s
  }

  const NUL: char := '\0'

  /** `fileKey` and `operationKey`. */
  function JoinKey(account: string, space: string, name: string): string {
    account + [NUL] + space + [NUL] + name
  }

  /** The text before the first NUL. */
  function Head(s: string): string {
    if s == "" || s[0] == NUL then "" else [s[0]] + Head(s[1..])
  }

  lemma {:induction false} HeadOfJoined(a: string, x: string)
    requires NUL !in a
    ensures Head(a + [NUL] + x) == a
  {
    var s := a + [NUL] + x;
    if a == "" {
      assert s[0] == NUL;
    } else {
      assert s[1..] == a[1..] + [NUL] + x;
      HeadOfJoined(a[1..], x);
    }
  }

  /** A NUL-free head is determined by the text it starts. */
  lemma HeadInjective(a: string, x: string, b: string, y: string)
    requires NUL !in a && NUL !in b
    requires a + [NUL] + x == b + [NUL] + y
    ensures a == b && x == y
  {
    HeadOfJoined(a, x);
    HeadOfJoined(b, y);
    assert x == (a + [NUL] + x)[|a| + 1..] && y == (b + [NUL] + y)[|b| + 1..];
  }

  /** For NUL-free account and space ids the joined text determines its three parts, so a table keyed by
      the text is a table keyed by the triple. */
  lemma JoinKeyInjective(a: string, s: string, n: string, a': string, s': string, n': string)
    requires NUL !in a && NUL !in a' && NUL !in s && NUL !in s'
    requires JoinKey(a, s, n) == JoinKey(a', s', n')
    ensures a == a' && s == s' && n == n'
  {
    assert JoinKey(a, s, n) == a + [NUL] + (s + [NUL] + n);
    assert JoinKey(a', s', n') == a' + [NUL] + (s' + [NUL] + n');
    HeadInjective(a, s + [NUL] + n, a', s' + [NUL] + n');
    HeadInjective(s, n, s', n');
  }
}
