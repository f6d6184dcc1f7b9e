/** Names of conflict copies: `nextConflictPathLocked` (internal/server/store.go) and `conflictLocalPath`
    (internal/client/sync.go).  The search over numbered candidates is shown to stop by counting. */
module ConflictNames {
  import opened Paths

  /** A time of day formatted as `20060102-150405`: digits and a dash. */
  predicate IsStamp(s: string) { forall i | 0 <= i < |s| :: '0' <= s[i] <= '9' || s[i] == '-' }
  type Stamp = s: string | IsStamp(s) witness ""

  predicate SafeChar(c: char) {
    'a' <= c <= 'z' || 'A' <= c <= 'Z' || '0' <= c <= '9' || c == '-' || c == '_'
  }

  function SafeDevice(device: string): (s: string)
    ensures forall i | 0 <= i < |s| :: SafeChar(s[i])
  {
    seq(|device|, i requires 0 <= i < |device| => if SafeChar(device[i]) then device[i] else '-')
  }

  /** `filepath.Ext`, scanning left from position `i`. */
  function ExtFrom(path: string, i: nat): (ext: string)
    requires i <= |path|
    requires '/' !in path[i..]
    ensures '/' !in ext && |ext| <= |path| && path == path[..|path| - |ext|] + ext
  {
    if i == 0 || path[i - 1] == '/' then ""
    else if path[i - 1] == '.' then
      assert path[i - 1..] == [path[i - 1]] + path[i..];
      path[i - 1..]
    else
      assert path[i - 1..] == [path[i - 1]] + path[i..];
      ExtFrom(path, i - 1)
  }

  function Ext(path: string): string { ExtFrom(path, |path|) }

  function Stem(path: string): string { path[..|path| - |Ext(path)|] }

  // ---------------------------------------------------------------- decimal numerals

  function Digit(d: nat): char requires d < 10 { '0' + d as char }

  function Decimal(n: nat): (s: string)
    ensures |s| > 0 && forall i | 0 <= i < |s| :: '0' <= s[i] <= '9'
  {
    if n < 10 then [Digit(n)] else Decimal(n / 10) + [Digit(n % 10)]
  }

  lemma {:induction false} DecimalInjective(m: nat, n: nat)
    requires m != n
    ensures Decimal(m) != Decimal(n)
  {
    var a, b := Decimal(m), Decimal(n);
    assert m % 10 == a[|a| - 1] as int - '0' as int;
    assert n % 10 == b[|b| - 1] as int - '0' as int;
    if m >= 10 && n >= 10 && m % 10 == n % 10 {
      DecimalInjective(m / 10, n / 10);
      assert Decimal(m / 10) == a[..|a| - 1] && Decimal(n / 10) == b[..|b| - 1];
    }
  }

  // ---------------------------------------------------------------- candidates

  function MarkTail(device: string, stamp: string): string {
    " from " + (SafeDevice(device) + (" at " + (stamp + ")")))
  }

  /** The text inserted before the extension by the `i`-th candidate; the first carries no number. */
  function Mark(device: string, stamp: string, i: nat): string {
    if i < 2 then " (conflict" + MarkTail(device, stamp)
    else " (conflict " + (Decimal(i) + MarkTail(device, stamp))
  }

  function Candidate(path: string, device: string, stamp: string, i: nat): string {
    Stem(path) + Mark(device, stamp, i) + Ext(path)
  }

  lemma MarkInjective(device: string, stamp: string, i: nat, j: nat)
    requires 1 <= i < j
    ensures Mark(device, stamp, i) != Mark(device, stamp, j)
  {
    var a, b := Mark(device, stamp, i), Mark(device, stamp, j);
    var n := 11;
    assert b[n] == Decimal(j)[0];
    if i >= 2 {
      assert a[n..n + |Decimal(i)|] == Decimal(i);
      assert b[n..n + |Decimal(j)|] == Decimal(j);
      DecimalInjective(i, j);
    } else {
      assert a[n] == 'f';
    }
  }

  /** Different counters give different names. */
  lemma CandidateInjective(path: string, device: string, stamp: string, i: nat, j: nat)
    requires 1 <= i < j
    ensures Candidate(path, device, stamp, i) != Candidate(path, device, stamp, j)
  {
    var a, b := Mark(device, stamp, i), Mark(device, stamp, j);
    var n := |Stem(path)|;
    assert a == Candidate(path, device, stamp, i)[n..n + |a|];
    assert b == Candidate(path, device, stamp, j)[n..n + |b|];
    MarkInjective(device, stamp, i, j);
  }

  /** If the first `n` candidates are all taken, at least `n` names are. */
  lemma {:induction false} Pigeonhole(used: set<string>, path: string, device: string, stamp: string, n: nat)
    requires forall j | 1 <= j <= n :: Candidate(path, device, stamp, j) in used
    ensures n <= |used|
  {
    if n > 0 {
      var c := Candidate(path, device, stamp, n);
      forall j | 1 <= j <= n - 1 ensures Candidate(path, device, stamp, j) in used - {c} {
        CandidateInjective(path, device, stamp, j, n);
      }
      Pigeonhole(used - {c}, path, device, stamp, n - 1);
    }
  }

  /** The least counter from `i` on whose candidate is not used. */
  function FirstFree(used: set<string>, path: string, device: string, stamp: string, i: nat): (k: nat)
    requires i >= 1
    requires forall j | 1 <= j < i :: Candidate(path, device, stamp, j) in used
    ensures i <= k <= |used| + 1
    ensures Candidate(path, device, stamp, k) !in used
    ensures forall j | 1 <= j < k :: Candidate(path, device, stamp, j) in used
    decreases |used| + 1 - i
  {
    Pigeonhole(used, path, device, stamp, i - 1);
    if Candidate(path, device, stamp, i) !in used then i
    else
      Pigeonhole(used, path, device, stamp, i);
      FirstFree(used, path, device, stamp, i + 1)
  }

  /** `nextConflictPathLocked`, given the set of paths in use. */
  function NextConflictPath(used: set<string>, path: string, device: string, stamp: string): (name: string)
    ensures name !in used
  {
    Candidate(path, device, stamp, FirstFree(used, path, device, stamp, 1))
  }

  // ---------------------------------------------------------------- where the copies live

  lemma SplitWithTail(a: string, b: string)
    requires '/' !in b
    ensures Split(a + b) == Split(a)[..|Split(a)| - 1] + [Last(Split(a)) + b]
  {
    SplitAppend(a, b);
    SplitPlain(b);
  }

  /** Putting a mark between the stem and the extension keeps the directory and a clean path. */
  lemma MarkedNameIsSibling(path: string, mark: string)
    requires IsClean(path)
    requires '/' !in mark && '\\' !in mark && |mark| > 3
    ensures var name := Stem(path) + mark + Ext(path);
            IsClean(name)
            && Split(name)[..|Split(name)| - 1] == Split(path)[..|Split(path)| - 1]
  {
    var stem, ext := Stem(path), Ext(path);
    var name := stem + mark + ext;
    SplitWithTail(stem, ext);
    assert path == stem + ext;
    SplitWithTail(stem, mark + ext);
    assert name == stem + (mark + ext);
    var dirs := Split(stem)[..|Split(stem)| - 1];
    assert Split(path)[..|Split(path)| - 1] == dirs;
    assert Split(name)[..|Split(name)| - 1] == dirs;
    forall i | 0 <= i < |Split(name)| ensures SafePart(Split(name)[i]) {
      if i < |dirs| { assert Split(name)[i] == Split(path)[i]; }
    }
  }

  predicate Plain(s: string) { '/' !in s && '\\' !in s }

  lemma PlainAppend(a: string, b: string)
    requires Plain(a) && Plain(b)
    ensures Plain(a + b)
  {
  }

  lemma TailIsPlain(device: string, stamp: Stamp)
    ensures Plain(MarkTail(device, stamp))
  {
  }

  lemma MarkIsPlain(device: string, stamp: Stamp, i: nat)
    ensures Plain(Mark(device, stamp, i)) && |Mark(device, stamp, i)| > 3
  {
  }

  /** A conflict copy is stored under a clean path, beside the file it copies. */
  lemma ConflictPathIsSibling(used: set<string>, path: string, device: string, stamp: Stamp)
    requires IsClean(path)
    ensures var name := NextConflictPath(used, path, device, stamp);
            IsClean(name)
            && Split(name)[..|Split(name)| - 1] == Split(path)[..|Split(path)| - 1]
  {
    var i := FirstFree(used, path, device, stamp, 1);
    MarkIsPlain(device, stamp, i);
    MarkedNameIsSibling(path, Mark(device, stamp, i));
  }

  // ---------------------------------------------------------------- the client's copies

  function LocalMark(device: string, stamp: string): string { " (local conflict" + MarkTail(device, stamp) }

  /** `conflictLocalPath`, below the client's root. */
  function LocalConflictName(path: string, device: string, stamp: string): string {
    Stem(path) + LocalMark(device, stamp) + Ext(path)
  }

  /** The client's copy, too, is kept under a clean path beside the file. */
  lemma LocalConflictNameIsSibling(path: string, device: string, stamp: Stamp)
    requires IsClean(path)
    ensures var name := LocalConflictName(path, device, stamp);
            IsClean(name)
            && Split(name)[..|Split(name)| - 1] == Split(path)[..|Split(path)| - 1]
  {
    hide MarkTail;
    TailIsPlain(device, stamp);
    PlainAppend(" (local conflict", MarkTail(device, stamp));
    MarkedNameIsSibling(path, LocalMark(device, stamp));
  }
}
