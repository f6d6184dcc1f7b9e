/** Slash-separated relative paths: `CleanRel` (internal/fileutil/fileutil.go) together with the parts of
    the path library it and the server rely on (`Split`, `Join`, `Clean`, `Dir`, `Ext`), as functions. */
module Paths {
  import opened Model

  // ---------------------------------------------------------------- splitting and joining

  function Split(s: string): (parts: seq<string>)
    ensures |parts| > 0
    ensures forall i | 0 <= i < |parts| :: '/' !in parts[i]
  {
    if s == "" then [""]
    else
      var rest := Split(s[1..]);
      if s[0] == '/' then [""] + rest else [[s[0]] + rest[0]] + rest[1..]
  }

  function Join(parts: seq<string>): string {
    if parts == [] then ""
    else if |parts| == 1 then parts[0]
    else parts[0] + "/" + Join(parts[1..])
  }

  lemma {:induction false} JoinSplit(s: string)
    ensures Join(Split(s)) == s
  {
    if s != "" {
      JoinSplit(s[1..]);
      var rest := Split(s[1..]);
      if s[0] == '/' {
        assert ([""] + rest)[1..] == rest;
        assert s == "/" + s[1..];
      } else {
        assert s == [s[0]] + s[1..];
        assert ([[s[0]] + rest[0]] + rest[1..])[1..] == rest[1..];
      }
    }
  }

  /** The pieces of two texts put side by side: the last piece of the one meets the first of the other. */
  function Glue(a: seq<string>, b: seq<string>): seq<string>
    requires |a| > 0 && |b| > 0
  {
    a[..|a| - 1] + [a[|a| - 1] + b[0]] + b[1..]
  }

  lemma {:induction false} SplitAppend(a: string, b: string)
    ensures Split(a + b) == Glue(Split(a), Split(b))
  {
    if a == "" {
      assert a + b == b;
      assert Glue([""], Split(b)) == Split(b) by { assert "" + Split(b)[0] == Split(b)[0]; }
    } else {
      SplitAppend(a[1..], b);
      assert (a + b)[1..] == a[1..] + b;
      GlueFirst(a[0], Split(a[1..]), Split(b));
    }
  }

  lemma GlueFirst(c: char, a: seq<string>, b: seq<string>)
    requires |a| > 0 && |b| > 0
    ensures Glue([""] + a, b) == [""] + Glue(a, b)
    ensures Glue([[c] + a[0]] + a[1..], b) == [[c] + Glue(a, b)[0]] + Glue(a, b)[1..]
  {
    var g, h := Glue(a, b), [[c] + a[0]] + a[1..];
    assert |Glue(h, b)| == |g|;
    if |a| == 1 {
      assert [c] + a[0] + b[0] == [c] + (a[0] + b[0]);
    } else {
      assert h[..|h| - 1] == [[c] + a[0]] + a[1..|a| - 1];
    }
  }

  lemma {:induction false} SplitPlain(a: string)
    requires '/' !in a
    ensures Split(a) == [a]
  {
    if a != "" {
      SplitPlain(a[1..]);
      assert a == [a[0]] + a[1..];
    }
  }

  lemma {:induction false} SplitJoin(parts: seq<string>)
    requires |parts| > 0
    requires forall i | 0 <= i < |parts| :: '/' !in parts[i]
    ensures Split(Join(parts)) == parts
  {
    SplitPlain(parts[0]);
    if |parts| == 1 {
      assert parts == [parts[0]];
    } else {
      var tail := Join(parts[1..]);
      SplitJoin(parts[1..]);
      SplitAppend(parts[0], "/" + tail);
      assert ("/" + tail)[1..] == tail;
      assert parts[0] + "/" + tail == parts[0] + ("/" + tail);
      assert Split("/" + tail) == [""] + parts[1..];
      assert Glue([parts[0]], [""] + parts[1..]) == parts by { assert parts[0] + "" == parts[0]; }
    }
  }

  // ---------------------------------------------------------------- Clean and CleanRel

  /** The segments left by lexical cleaning: empty and "." segments go, ".." takes its predecessor. */
  function Resolve(parts: seq<string>, stack: seq<string>, rooted: bool): seq<string> {
    if parts == [] then stack
    else if parts[0] == "" || parts[0] == "." then Resolve(parts[1..], stack, rooted)
    else if parts[0] == ".." then
      if stack != [] && stack[|stack| - 1] != ".." then Resolve(parts[1..], stack[..|stack| - 1], rooted)
      else if rooted then Resolve(parts[1..], stack, rooted)
      else Resolve(parts[1..], stack + [".."], rooted)
    else Resolve(parts[1..], stack + [parts[0]], rooted)
  }

  predicate HasPrefix(s: string, prefix: string) { prefix <= s }

  /** `filepath.Clean` on a Unix path. */
  function Clean(path: string): string {
    var rooted := HasPrefix(path, "/");
    var out := Join(Resolve(Split(path), [], rooted));
    if rooted then "/" + out else if out == "" then "." else out
  }

  function Normalize(path: string): (n: string)
    ensures |n| == |path|
    ensures forall i | 0 <= i < |path| :: n[i] == if path[i] == '\\' then '/' else path[i]
  {
    seq(|path|, i requires 0 <= i < |path| => if path[i] == '\\' then '/' else path[i])
  }

  predicate SafePart(part: string) { part != "" && part != "." && part != ".." }

  predicate SafeParts(parts: seq<string>) { forall i | 0 <= i < |parts| :: SafePart(parts[i]) }

  function CleanRel(path: string): Result<string> {
    if path == "" then Err("empty path")
    else
      var normalized := Normalize(path);
      if HasPrefix(normalized, "/") || HasPrefix(path, "/") then Err("absolute paths are not allowed")
      else if !SafeParts(Split(normalized)) then Err("unsafe path segment")
      else
        var clean := Clean(normalized);
        if clean == "." || clean == "/" then Err("invalid path") else Ok(clean)
  }

  /** What every path stored by the server looks like. */
  predicate IsClean(path: string) { '\\' !in path && SafeParts(Split(path)) }

  lemma {:induction false} ResolveSafe(parts: seq<string>, stack: seq<string>, rooted: bool)
    requires SafeParts(parts)
    ensures Resolve(parts, stack, rooted) == stack + parts
  {
    if parts != [] {
      assert SafePart(parts[0]);
      assert SafeParts(parts[1..]) by {
        forall i | 0 <= i < |parts[1..]| ensures SafePart(parts[1..][i]) { assert parts[1..][i] == parts[i + 1]; }
      }
      ResolveSafe(parts[1..], stack + [parts[0]], rooted);
      assert stack + [parts[0]] + parts[1..] == stack + parts;
    }
  }

  lemma SafeIsRelative(path: string)
    requires SafeParts(Split(path))
    ensures path != "" && !HasPrefix(path, "/") && path != "."
  {
    assert SafePart(Split(path)[0]);
    SplitPlain(".");
    if path != "" && path[0] != '/' {
      assert !HasPrefix(path, "/");
    }
  }

  /** `filepath.Clean` does nothing to a path whose segments `CleanRel` accepts. */
  lemma CleanIdentity(path: string)
    requires SafeParts(Split(path))
    ensures Clean(path) == path
  {
    SafeIsRelative(path);
    ResolveSafe(Split(path), [], false);
    assert [] + Split(path) == Split(path);
    JoinSplit(path);
  }

  /** `CleanRel` accepts exactly the paths whose segments are safe once backslashes are read as slashes,
      and returns that reading unchanged. */
  lemma CleanRelCharacterized(path: string)
    ensures CleanRel(path).Ok? <==> SafeParts(Split(Normalize(path)))
    ensures CleanRel(path).Ok? ==> CleanRel(path).value == Normalize(path) && IsClean(CleanRel(path).value)
  {
    var n := Normalize(path);
    if SafeParts(Split(n)) {
      SafeIsRelative(n);
      CleanIdentity(n);
      assert n[0] != '/';
      assert path[0] != '/';
    }
  }

  /** The stored paths are the fixed points of `CleanRel`. */
  lemma CleanRelFixpoint(path: string)
    ensures IsClean(path) <==> CleanRel(path) == Ok(path)
  {
    CleanRelCharacterized(path);
    if '\\' !in path { assert Normalize(path) == path; }
  }

  lemma CleanRelIdempotent(path: string)
    ensures CleanRel(path).Ok? ==> CleanRel(CleanRel(path).value) == CleanRel(path)
  {
    CleanRelCharacterized(path);
    if CleanRel(path).Ok? { CleanRelFixpoint(CleanRel(path).value); }
  }

  // ---------------------------------------------------------------- parents

  function Last(parts: seq<string>): string requires |parts| > 0 { parts[|parts| - 1] }

  /** `filepath.Dir`: clean what stands before the last segment. */
  function Dir(path: string): string {
    var last := Last(Split(path));
    if |last| <= |path| then Clean(path[..|path| - |last|]) else "."
  }

  /** The proper ancestors of a clean path, outermost first. */
  function Ancestors(path: string): seq<string> {
    var parts := Split(path);
    seq(|parts| - 1, i requires 0 <= i < |parts| - 1 => Join(parts[..i + 1]))
  }

  /** `p` lies strictly below directory `d`. */
  predicate Under(p: string, d: string) { |d| < |p| && p[..|d|] == d && p[|d|] == '/' }

  lemma NoCharInJoin(parts: seq<string>, c: char)
    requires c != '/'
    ensures c in Join(parts) <==> exists i :: 0 <= i < |parts| && c in parts[i]
  {
  }

  lemma JoinIsClean(parts: seq<string>)
    requires |parts| > 0 && SafeParts(parts)
    requires forall i | 0 <= i < |parts| :: '/' !in parts[i] && '\\' !in parts[i]
    ensures IsClean(Join(parts))
  {
    SplitJoin(parts);
    NoCharInJoin(parts, '\\');
  }

  lemma PartsOfClean(path: string)
    requires IsClean(path)
    ensures forall i | 0 <= i < |Split(path)| :: '\\' !in Split(path)[i]
  {
    JoinSplit(path);
    NoCharInJoin(Split(path), '\\');
  }

  lemma {:induction false} JoinConcat(a: seq<string>, b: seq<string>)
    requires |a| > 0 && |b| > 0
    ensures Join(a + b) == Join(a) + "/" + Join(b)
  {
    if |a| == 1 {
      assert (a + b)[1..] == b;
    } else {
      assert (a + b)[1..] == a[1..] + b;
      JoinConcat(a[1..], b);
    }
  }

  /** Every ancestor of a stored path is itself a path the server may store, strictly above it. */
  lemma AncestorsClean(path: string, i: nat)
    requires IsClean(path) && i < |Ancestors(path)|
    ensures IsClean(Ancestors(path)[i]) && Under(path, Ancestors(path)[i])
  {
    var parts := Split(path);
    PartsOfClean(path);
    JoinIsClean(parts[..i + 1]);
    JoinSplit(path);
    JoinConcat(parts[..i + 1], parts[i + 1..]);
    assert parts[..i + 1] + parts[i + 1..] == parts;
  }

  lemma {:induction false} ResolveAppendEmpty(parts: seq<string>, stack: seq<string>)
    requires SafeParts(parts)
    ensures Resolve(parts + [""], stack, false) == stack + parts
  {
    if parts == [] {
      assert parts + [""] == [""];
      assert [""][1..] == [];
    } else {
      assert SafePart(parts[0]);
      assert forall i | 0 <= i < |parts[1..]| :: parts[1..][i] == parts[i + 1];
      assert (parts + [""])[1..] == parts[1..] + [""];
      ResolveAppendEmpty(parts[1..], stack + [parts[0]]);
      assert stack + [parts[0]] + parts[1..] == stack + parts;
    }
  }

  lemma {:induction false} SplitTrailingSlash(s: string)
    ensures Split(s + "/") == Split(s) + [""]
  {
    if s == "" {
      assert (s + "/")[1..] == "";
    } else {
      SplitTrailingSlash(s[1..]);
      assert (s + "/")[1..] == s[1..] + "/";
    }
  }

  /** A path of several segments is its directory, a slash, and its last segment. */
  lemma SplitOffLast(path: string)
    requires |Split(path)| > 1
    ensures var init, last := Split(path)[..|Split(path)| - 1], Last(Split(path));
            path == Join(init) + "/" + last && Split(Join(init) + "/") == init + [""]
  {
    var parts := Split(path);
    var init := parts[..|parts| - 1];
    JoinSplit(path);
    assert init + parts[|parts| - 1..] == parts;
    JoinConcat(init, parts[|parts| - 1..]);
    SplitTrailingSlash(Join(init));
    SplitJoin(init);
  }

  /** `filepath.Dir` of a stored path drops its last segment, and is "." at the top. */
  lemma DirOfClean(path: string)
    requires IsClean(path)
    ensures |Split(path)| == 1 ==> Dir(path) == "."
    ensures |Split(path)| > 1 ==>
              Dir(path) == Join(Split(path)[..|Split(path)| - 1])
              && Dir(path) != "." && Dir(path) != "/" && Dir(path) != ""
  {
    hide IsClean, Dir, Clean, Join;
    if |Split(path)| == 1 { DirAtTop(path); } else { DirBelow(path); }
  }

  lemma DirAtTop(path: string)
    requires |Split(path)| == 1
    ensures Dir(path) == "."
  {
    JoinSplit(path);
    assert path[..0] == "";
    assert Resolve([""], [], false) == Resolve([""][1..], [], false);
  }

  lemma DirBelow(path: string)
    requires IsClean(path) && |Split(path)| > 1
    ensures Dir(path) == Join(Split(path)[..|Split(path)| - 1])
    ensures Dir(path) != "." && Dir(path) != "/" && Dir(path) != ""
  {
    hide Resolve, Join;
    var parts := Split(path);
    var init := parts[..|parts| - 1];
    SplitOffLast(path);
    var head := Join(init) + "/";
    assert path[..|path| - |Last(parts)|] == head;
    ResolveAppendEmpty(init, []);
    assert [] + init == init;
    SplitJoin(init);
    SafeIsRelative(Join(init));
    assert head[0] == Join(init)[0] != '/';
  }

  /** The loop of `ensureParentDirsLocked` over the segments of the directory visits the ancestors in order. */
  lemma AncestorStep(path: string, i: nat)
    requires IsClean(path) && i < |Split(path)| - 1
    ensures var parts := Split(Dir(path));
            parts == Split(path)[..|Split(path)| - 1] && |parts| == |Ancestors(path)|
            && Ancestors(path)[i] == (if i == 0 then parts[0] else Join(parts[..i]) + "/" + parts[i])
            && (i > 0 ==> Join(parts[..i]) != "")
            && Ancestors(path)[i] == Join(parts[..i + 1])
  {
    var all := Split(path);
    var init := all[..|all| - 1];
    DirOfClean(path);
    SplitJoin(init);
    assert init[..i + 1] == all[..i + 1];
    if i == 0 {
      assert init[..1] == [init[0]] && Join([init[0]]) == init[0];
    } else {
      assert init[..i] + [init[i]] == init[..i + 1];
      JoinConcat(init[..i], [init[i]]);
      SplitJoin(init[..i]);
      SafeIsRelative(Join(init[..i]));
    }
  }

  lemma SplitAtSlash(a: string, b: string)
    ensures Split(a + "/" + b) == Split(a) + Split(b)
  {
    assert a + "/" + b == a + ("/" + b);
    assert ("/" + b)[1..] == b;
    SplitAppend(a, "/" + b);
    assert Last(Split(a)) + "" == Last(Split(a));
  }

  /** A path is clean exactly when what stands before and after any of its slashes is. */
  lemma CleanAtSlash(a: string, b: string)
    ensures IsClean(a + "/" + b) <==> IsClean(a) && IsClean(b)
  {
    SplitAtSlash(a, b);
    var x, y := Split(a), Split(b);
    assert forall i | 0 <= i < |x| :: (x + y)[i] == x[i];
    assert forall i | 0 <= i < |y| :: (x + y)[|x| + i] == y[i];
  }
}
