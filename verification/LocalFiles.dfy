/** The tree of files below a client's root, and the file-system calls the engine makes on it.
    Paths are relative to the root, which is always a directory and is not a node. */
module LocalFiles {
  import opened Model
  import opened Paths

  datatype Node = DirNode | FileNode(data: Bytes, mtime: int)

  type Tree = map<string, Node>

  /** The proper ancestors of a path, as the texts before its slashes. */
  function Above(p: string): set<string> {
    set i | 0 <= i < |p| && p[i] == '/' :: p[..i]
  }

  lemma AboveIsUnder(p: string, d: string)
    ensures d in Above(p) <==> Under(p, d)
  {
  }

  lemma UnderTransitive(a: string, b: string, c: string)
    requires Under(a, b) && Under(b, c)
    ensures Under(a, c)
  {
  }

  /** Everything above a node is a directory. */
  ghost predicate WellFormed(t: Tree) {
    forall p, d | p in t && d in Above(p) :: d in t && t[d].DirNode?
  }

  predicate IsFile(t: Tree, p: string) { p in t && t[p].FileNode? }

  predicate IsDir(t: Tree, p: string) { p in t && t[p].DirNode? }

  /** A regular file stands where a directory would have to be. */
  predicate BlockedAbove(t: Tree, p: string) { exists d :: d in Above(p) && IsFile(t, d) }

  datatype StatResult = Found(node: Node) | Missing | Blocked

  function Stat(t: Tree, p: string): StatResult {
    if p in t then Found(t[p]) else if BlockedAbove(t, p) then Blocked else Missing
  }

  /** How a call ended; `NotExist` and `NotEmpty` are the errors the engine tells apart. */
  datatype Outcome = Done | NotExist | NotEmpty | Failed

  /** `os.MkdirAll` over a set of directories that contains the ancestors of its members. */
  function MakeDirs(t: Tree, dirs: set<string>): (Tree, Outcome) {
    if exists d :: d in dirs && IsFile(t, d) then (t, Failed)
    else (t + map d | d in dirs && d !in t :: DirNode, Done)
  }

  function MkdirAll(t: Tree, p: string): (Tree, Outcome) { MakeDirs(t, Above(p) + {p}) }

  function EnsureParent(t: Tree, p: string): (Tree, Outcome) { MakeDirs(t, Above(p)) }

  predicate HasChildren(t: Tree, p: string) { exists q :: q in t && Under(q, p) }

  /** `os.Remove`: takes regular files and empty directories. */
  function Remove(t: Tree, p: string): (Tree, Outcome) {
    match Stat(t, p)
    case Missing => (t, NotExist)
    case Blocked => (t, Failed)
    case Found(node) => if node.DirNode? && HasChildren(t, p) then (t, NotEmpty) else (t - {p}, Done)
  }

  predicate Within(p: string, d: string) { p == d || Under(p, d) }

  /** Where `q`, at or below `to`, stood before `from` was moved to `to`. */
  function Back(q: string, from: string, to: string): string
    requires |to| <= |q|
  {
    from + q[|to|..]
  }

  /** `q` is filled by the move. */
  predicate Arrives(t: Tree, from: string, to: string, q: string) { Within(q, to) && Back(q, from, to) in t }

  /** The tree once everything at and below `from` stands at and below `to`. */
  function MoveTree(t: Tree, from: string, to: string): Tree {
    var arrived := set p | p in t && Within(p, from) :: to + p[|from|..];
    (map p | p in t && !Within(p, from) :: t[p])
    + (map q | q in arrived && Arrives(t, from, to, q) :: t[Back(q, from, to)])
  }

  /** `os.Rename`, which refuses every existing directory as the new name. */
  function Rename(t: Tree, from: string, to: string): (Tree, Outcome) {
    match Stat(t, from)
    case Missing => (t, NotExist)
    case Blocked => (t, Failed)
    case Found(node) =>
      if IsDir(t, to) then (t, Failed)
      else if from == to then (t, Done)
      else if Under(to, from) || BlockedAbove(t, to) then (t, Failed)
      else if exists d :: d in Above(to) && d !in t then (t, NotExist)
      else if IsFile(t, to) && node.DirNode? then (t, Failed)
      else (MoveTree(t, from, to), Done)
  }

  /** `AtomicWrite` of what the callback produced: make the parent, write beside, rename into place. */
  function AtomicWrite(t: Tree, p: string, content: Result<Bytes>, now: int): (Tree, Outcome) {
    var (t1, made) := EnsureParent(t, p);
    if !made.Done? then (t1, Failed)
    else if content.Err? then (t1, Failed)
    else if IsDir(t1, p) then (t1, Failed)
    else (t1[p := FileNode(content.value, now)], Done)
  }

  /** `os.Chtimes` on a file. */
  function SetTime(t: Tree, p: string, time: int): Tree {
    if IsFile(t, p) then t[p := FileNode(t[p].data, time)] else t
  }

  /** The bytes of the regular files. */
  function FilesOf(t: Tree): map<string, Bytes> {
    map p | p in t && t[p].FileNode? :: t[p].data
  }

  // ---------------------------------------------------------------- facts

  lemma AboveAbove(p: string, d: string, e: string)
    requires d in Above(p) && e in Above(d)
    ensures e in Above(p)
  {
    AboveIsUnder(p, d);
    AboveIsUnder(d, e);
    UnderTransitive(p, d, e);
    AboveIsUnder(p, e);
  }

  lemma MakeDirsWellFormed(t: Tree, dirs: set<string>)
    requires WellFormed(t) && forall d, e | d in dirs && e in Above(d) :: e in dirs
    ensures WellFormed(MakeDirs(t, dirs).0)
  {
    var (t', made) := MakeDirs(t, dirs);
    if made.Done? {
      forall p, d | p in t' && d in Above(p) ensures d in t' && t'[d].DirNode? {
        if p in t {
          assert d in t && t[d].DirNode?;
        } else {
          assert p in dirs && d in dirs && !IsFile(t, d);
        }
      }
    }
  }

  lemma ParentsClosed(p: string)
    ensures forall d, e | d in Above(p) && e in Above(d) :: e in Above(p)
  {
    forall d, e | d in Above(p) && e in Above(d) ensures e in Above(p) { AboveAbove(p, d, e); }
  }

  lemma MkdirAllWellFormed(t: Tree, p: string)
    requires WellFormed(t)
    ensures WellFormed(MkdirAll(t, p).0)
  {
    ParentsClosed(p);
    MakeDirsWellFormed(t, Above(p) + {p});
  }

  lemma EnsureParentWellFormed(t: Tree, p: string)
    requires WellFormed(t)
    ensures WellFormed(EnsureParent(t, p).0)
  {
    ParentsClosed(p);
    MakeDirsWellFormed(t, Above(p));
  }

  lemma RemoveWellFormed(t: Tree, p: string)
    requires WellFormed(t)
    ensures WellFormed(Remove(t, p).0)
  {
  }

  lemma WriteWellFormed(t: Tree, p: string, content: Result<Bytes>, now: int)
    requires WellFormed(t)
    ensures WellFormed(AtomicWrite(t, p, content, now).0)
  {
    ParentsClosed(p);
    MakeDirsWellFormed(t, Above(p));
    var t1 := EnsureParent(t, p).0;
    if EnsureParent(t, p).1.Done? {
      var t' := AtomicWrite(t, p, content, now).0;
      forall q, d | q in t' && d in Above(q) ensures d in t' && t'[d].DirNode? {
        if q == p {
          AboveIsUnder(p, d);
          assert d in Above(p);
        } else {
          assert q in t1;
        }
      }
    }
  }

  /** What the move leaves where. */
  lemma MovedAt(t: Tree, from: string, to: string, q: string)
    ensures var t' := MoveTree(t, from, to);
            if Arrives(t, from, to, q) then q in t' && t'[q] == t[Back(q, from, to)]
            else if Within(q, from) then q !in t'
            else (q in t' <==> q in t) && (q in t ==> t'[q] == t[q])
  {
    if Arrives(t, from, to, q) {
      var p := Back(q, from, to);
      assert p[..|from|] == from;
      assert Within(p, from) by { if q != to { assert p[|from|] == q[|to|]; } }
      assert to + p[|from|..] == q;
    }
  }

  /** A rename that changes anything moves what is there to a place that is free, or takes the place of a file. */
  lemma RenameMoves(t: Tree, from: string, to: string)
    ensures var t' := Rename(t, from, to).0;
            t' == t
            || (t' == MoveTree(t, from, to) && from in t && !Within(to, from) && !IsDir(t, to)
                && forall e | e in Above(to) :: IsDir(t, e))
  {
  }

  lemma RenameWellFormed(t: Tree, from: string, to: string)
    requires WellFormed(t)
    ensures WellFormed(Rename(t, from, to).0)
  {
    hide Rename, MoveTree;
    RenameMoves(t, from, to);
    var t' := Rename(t, from, to).0;
    if t' != t {
      forall q, d | q in t' && d in Above(q) ensures d in t' && t'[d].DirNode? {
        MovedAt(t, from, to, q);
        MovedAt(t, from, to, d);
        AboveIsUnder(q, d);
        MovedParent(t, from, to, q, d);
      }
    }
  }

  lemma MovedParent(t: Tree, from: string, to: string, q: string, d: string)
    requires WellFormed(t) && from in t && !Within(to, from) && !IsDir(t, to)
    requires forall e | e in Above(to) :: IsDir(t, e)
    requires Under(q, d)
    requires Arrives(t, from, to, q) || (q in t && !Within(q, from))
    ensures if Arrives(t, from, to, q) && Within(d, to) then Arrives(t, from, to, d) && IsDir(t, Back(d, from, to))
            else !Within(d, from) && !Arrives(t, from, to, d) && IsDir(t, d)
  {
    if Arrives(t, from, to, q) {
      if Within(d, to) {
        var p, e := Back(q, from, to), Back(d, from, to);
        assert Under(p, e) by { assert p[..|e|] == from + q[..|d|][|to|..]; }
        AboveIsUnder(p, e);
      } else {
        assert Under(to, d) by { assert to == q[..|to|]; }
        AboveIsUnder(to, d);
        if Within(d, from) {
          if d != from { UnderTransitive(to, d, from); }
          assert false;
        }
      }
    } else {
      AboveIsUnder(q, d);
      assert IsDir(t, d);
      if Within(d, from) {
        if d != from { UnderTransitive(q, d, from); }
        assert false;
      }
      if Within(d, to) {
        if d != to { UnderTransitive(q, d, to); }
        AboveIsUnder(q, to);
        assert false;
      }
    }
  }
}
