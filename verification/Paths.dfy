/** Path helpers: parent directories, creating a directory with its parents, and splitting path lists. */
module Paths {

  /** The position of the last slash, or -1. */
  function LastSlash(path: string): (p: int)
    ensures -1 <= p < |path|
    ensures p >= 0 ==> path[p] == '/'
    ensures forall i | p < i < |path| :: path[i] != '/'
  {
    if path == "" then -1
    else if path[|path| - 1] == '/' then |path| - 1
    else LastSlash(path[..|path| - 1])
  }

  /** A path without a slash is its own base directory. */
  function BaseDir(path: string): string {
    var p := LastSlash(path);
    if p == 0 then "/" else if p > 0 then path[..p] else path
  }

  /** The base directory is shorter exactly for the paths that have a slash and are not the root. */
  lemma {:induction false} BaseDirShorterIff(path: string)
    ensures |BaseDir(path)| < |path| <==> '/' in path && path != "/"
  {
    var p := LastSlash(path);
    if '/' in path {
      var i :| 0 <= i < |path| && path[i] == '/';
      assert p >= 0;
      if p == 0 && |path| == 1 {
        assert path == [path[0]];
      }
    }
  }

  /** The path after n steps to the base directory. */
  function Chain(path: string, n: nat): string
    decreases n
  {
    if n == 0 then path else Chain(BaseDir(path), n - 1)
  }

  /** The path itself, what comes before one of its slashes, or the root of an absolute path. */
  predicate Above(path: string, q: string) {
    || q == path
    || (q == "/" && path != "" && path[0] == '/')
    || (0 < |q| < |path| && q == path[..|q|] && path[|q|] == '/')
  }

  lemma AboveBase(path: string, q: string)
    requires q != path
    ensures Above(path, q) ==> |BaseDir(path)| < |path|
    ensures Above(path, q) <==> Above(BaseDir(path), q) && BaseDir(path) != path
  {
    var p := LastSlash(path);
    if p < 0 {
      assert BaseDir(path) == path;
    }
  }

  lemma {:induction false} ChainIsAbove(path: string, n: nat)
    ensures Above(path, Chain(path, n))
    decreases n
  {
    if n > 0 {
      ChainIsAbove(BaseDir(path), n - 1);
      if Chain(path, n) != path {
        AboveBase(path, Chain(path, n));
      }
    }
  }

  lemma {:induction false} AboveIsReached(path: string, q: string) returns (n: nat)
    requires Above(path, q)
    ensures Chain(path, n) == q
    decreases |path|
  {
    if q == path {
      n := 0;
    } else {
      AboveBase(path, q);
      n := AboveIsReached(BaseDir(path), q);
      n := n + 1;
    }
  }

  /**
   Going from a path to its base directories gets to one that exists, for any text as the path, iff the path
   or a directory above it does. Otherwise `mkpath` calls itself for ever.
   */
  lemma RecursionEndsIff(existing: set<string>, path: string)
    ensures (exists n: nat :: Chain(path, n) in existing) <==> exists q :: q in existing && Above(path, q)
  {
    if n: nat :| Chain(path, n) in existing {
      ChainIsAbove(path, n);
    }
    if q :| q in existing && Above(path, q) {
      var n := AboveIsReached(path, q);
    }
  }

  /** A path without a slash is its own base directory: where it does not exist, the recursion never ends. */
  lemma RecursionForEver(n: nat)
    ensures Chain("accounts", n) !in {"/"}
  {
    RecursionEndsIff({"/"}, "accounts");
    assert LastSlash("accounts") == -1;
  }

  // ---------------------------------------------------------------- what a path names

  /** A directory: the names on the way to it from the root. */
  type Place = seq<string>

  function LastName(path: string): string {
    path[LastSlash(path) + 1..]
  }

  /** Empty parts and "." stay where they are. */
  predicate Real(name: string) {
    name != "" && name != "."
  }

  /** The directory a path names, seen from the working directory. */
  function Where(cwd: Place, path: string): Place
    decreases |path|
  {
    var p := LastSlash(path);
    var up := if p < 0 then cwd else if p == 0 then [] else Where(cwd, path[..p]);
    if Real(LastName(path)) then up + [LastName(path)] else up
  }

  /** The place of a path, name by name: empty names and "." add nothing, and a leading slash starts at the root. */
  lemma WhereStep(cwd: Place, front: string, name: string)
    requires '/' !in name
    ensures Where(cwd, name) == if name == "" || name == "." then cwd else cwd + [name]
    ensures Where(cwd, front + "/" + name)
         == (if front == "" then [] else Where(cwd, front)) + if name == "" || name == "." then [] else [name]
  {
    var path := front + "/" + name;
    assert LastSlash(name) == -1 && name[0..] == name;
    assert path[|front|] == '/' && LastSlash(path) == |front|;
    assert path[|front| + 1..] == name && path[..|front|] == front;
  }

  lemma WhereBase(cwd: Place, path: string)
    requires BaseDir(path) != path
    ensures Where(cwd, path)
         == Where(cwd, BaseDir(path)) + if Real(LastName(path)) then [LastName(path)] else []
  {
    var p := LastSlash(path);
    if p == 0 {
      assert LastName("/") == "";
    }
  }

  /** Every directory's parent is a directory. */
  ghost predicate Closed(dirs: set<Place>) {
    forall d | d in dirs && d != [] :: d[..|d| - 1] in dirs
  }

  lemma {:induction false} AboveIsPrefix(cwd: Place, path: string, q: string)
    requires Above(path, q)
    ensures Where(cwd, q) <= Where(cwd, path)
    decreases |path|
  {
    if q != path {
      AboveBase(path, q);
      WhereBase(cwd, path);
      AboveIsPrefix(cwd, BaseDir(path), q);
    }
  }

  lemma {:induction false} AboveExists(cwd: Place, dirs: set<Place>, path: string, q: string)
    requires Closed(dirs) && Where(cwd, path) in dirs && Above(path, q)
    ensures Where(cwd, q) in dirs
    decreases |path|
  {
    if q != path {
      AboveBase(path, q);
      WhereBase(cwd, path);
      if Real(LastName(path)) {
        assert Where(cwd, path)[..|Where(cwd, path)| - 1] == Where(cwd, BaseDir(path));
      }
      AboveExists(cwd, dirs, BaseDir(path), q);
    }
  }

  /** Making the directory can be asked of the system: the path ends in a name, and the system allows it. */
  predicate Allowed(cwd: Place, denied: set<Place>, path: string) {
    Real(LastName(path)) && Where(cwd, path) !in denied
  }

  /** Whatever is missing on the way to the path, itself included, can be made. */
  ghost predicate CanMake(cwd: Place, dirs: set<Place>, denied: set<Place>, path: string) {
    forall q | Above(path, q) && Where(cwd, q) !in dirs :: Allowed(cwd, denied, q)
  }

  /** The path or something above it exists, so that the recursion ends. */
  ghost predicate Rooted(cwd: Place, dirs: set<Place>, path: string) {
    exists q :: Above(path, q) && Where(cwd, q) in dirs
  }

  /** Every absolute path is rooted. */
  lemma AbsoluteIsRooted(cwd: Place, dirs: set<Place>, path: string)
    requires [] in dirs && path != "" && path[0] == '/'
    ensures Rooted(cwd, dirs, path)
  {
    assert LastName("/") == "";
    assert Above(path, "/") && Where(cwd, "/") == [];
  }

  lemma AboveStep(path: string, parent: string)
    requires parent == BaseDir(path) && |parent| < |path|
    ensures forall q :: Above(path, q) <==> q == path || Above(parent, q)
  {
    forall q ensures Above(path, q) <==> q == path || Above(parent, q) {
      if q != path {
        AboveBase(path, q);
      }
    }
  }

  lemma RootedBase(cwd: Place, dirs: set<Place>, path: string)
    requires Where(cwd, path) !in dirs && Rooted(cwd, dirs, path)
    ensures |BaseDir(path)| < |path| && Rooted(cwd, dirs, BaseDir(path))
  {
    var q :| Above(path, q) && Where(cwd, q) in dirs;
    AboveBase(path, q);
  }

  /** A path that does not exist can be made iff its base directory can and it is allowed itself. */
  lemma CanMakeStep(cwd: Place, dirs: set<Place>, denied: set<Place>, path: string, parent: string)
    requires Where(cwd, path) !in dirs
    requires forall q :: Above(path, q) <==> q == path || Above(parent, q)
    ensures CanMake(cwd, dirs, denied, path) <==> Allowed(cwd, denied, path) && CanMake(cwd, dirs, denied, parent)
  {
    if Allowed(cwd, denied, path) && CanMake(cwd, dirs, denied, parent) {
      forall q | Above(path, q) && Where(cwd, q) !in dirs ensures Allowed(cwd, denied, q) {
      }
    }
    if CanMake(cwd, dirs, denied, path) {
      assert Above(path, path);
      forall q | Above(parent, q) && Where(cwd, q) !in dirs ensures Allowed(cwd, denied, q) {
        assert Above(path, q);
      }
    }
  }

  /** One step up from a path that does not exist. */
  lemma CanMakeBase(cwd: Place, dirs: set<Place>, denied: set<Place>, path: string)
    requires Where(cwd, path) !in dirs && Rooted(cwd, dirs, path)
    ensures |BaseDir(path)| < |path| && Rooted(cwd, dirs, BaseDir(path))
    ensures forall q :: Above(path, q) <==> q == path || Above(BaseDir(path), q)
    ensures CanMake(cwd, dirs, denied, path)
         <==> Allowed(cwd, denied, path) && CanMake(cwd, dirs, denied, BaseDir(path))
  {
    RootedBase(cwd, dirs, path);
    AboveStep(path, BaseDir(path));
    CanMakeStep(cwd, dirs, denied, path, BaseDir(path));
  }

  /** After a call for the path: exactly the missing parts have been made for which all that is missing could be. */
  ghost predicate MadeFor(cwd: Place, before: set<Place>, denied: set<Place>, path: string, after: set<Place>) {
    forall d :: d in after <==>
      d in before || exists q :: Above(path, q) && CanMake(cwd, before, denied, q) && Where(cwd, q) == d
  }

  lemma MadeNothing(cwd: Place, dirs: set<Place>, denied: set<Place>, path: string)
    requires Closed(dirs) && Where(cwd, path) in dirs
    ensures CanMake(cwd, dirs, denied, path) && MadeFor(cwd, dirs, denied, path, dirs)
  {
    forall q | Above(path, q) ensures Where(cwd, q) in dirs {
      AboveExists(cwd, dirs, path, q);
    }
  }

  lemma MadeOneMore(cwd: Place, before: set<Place>, denied: set<Place>, path: string, after: set<Place>)
    requires Where(cwd, path) !in before && Rooted(cwd, before, path)
    requires MadeFor(cwd, before, denied, BaseDir(path), after)
    ensures MadeFor(cwd, before, denied, path,
                    if CanMake(cwd, before, denied, path) then after + {Where(cwd, path)} else after)
  {
    CanMakeBase(cwd, before, denied, path);
    var all := if CanMake(cwd, before, denied, path) then after + {Where(cwd, path)} else after;
    forall d
      ensures d in all <==>
        d in before || exists q :: Above(path, q) && CanMake(cwd, before, denied, q) && Where(cwd, q) == d
    {
      if q :| Above(path, q) && CanMake(cwd, before, denied, q) && Where(cwd, q) == d {
        assert q == path || Above(BaseDir(path), q);
      }
      if d in after && d !in before {
        var q :| Above(BaseDir(path), q) && CanMake(cwd, before, denied, q) && Where(cwd, q) == d;
        assert Above(path, q);
      }
      assert Above(path, path);
    }
  }

  class FileSystem {
    const cwd: Place
    var dirs: set<Place>
    /** The directories the system refuses to make. */
    const denied: set<Place>

    constructor (cwd: Place, dirs: set<Place>, denied: set<Place>)
      ensures this.cwd == cwd && this.dirs == dirs && this.denied == denied
    {
      this.cwd, this.dirs, this.denied := cwd, dirs, denied;
    }

    /** The system call: fails for what exists, for what has no parent, and where it is refused. */
    method MkDir(path: string) returns (ok: bool)
      modifies this
      ensures
        var d := Where(cwd, path);
        && ok == (d !in old(dirs) && d != [] && d[..|d| - 1] in old(dirs) && d !in denied)
        && dirs == if ok then old(dirs) + {d} else old(dirs)
    {
      var d := Where(cwd, path);
      ok := d !in dirs && d != [] && d[..|d| - 1] in dirs && d !in denied;
      if ok {
        dirs := dirs + {d};
      }
    }

    /**
     Makes a directory after its parents, and succeeds iff all that is missing can be made. In any case
     exactly those missing parts are made for which that holds, so that every directory keeps its parent.
     */
    method MkPath(path: string) returns (ok: bool)
      requires Closed(dirs) && Rooted(cwd, dirs, path)
      modifies this
      ensures Closed(dirs)
      ensures ok <==> CanMake(cwd, old(dirs), denied, path)
      ensures MadeFor(cwd, old(dirs), denied, path, dirs)
      ensures ok ==> Where(cwd, path) in dirs
      decreases |path|
    {
      if Where(cwd, path) in dirs {
        MadeNothing(cwd, dirs, denied, path);
        return true;
      }
      ghost var before := dirs;
      CanMakeBase(cwd, before, denied, path);
      ok := MkPath(BaseDir(path));
      NotYetMade(cwd, before, denied, dirs, path);
      MadeOneMore(cwd, before, denied, path, dirs);
      if ok {
        ok := MkDir(path);
      }
    }
  }

  /** After its base directory has been made, a path can be made iff it ends in a name and is not refused. */
  lemma NotYetMade(cwd: Place, before: set<Place>, denied: set<Place>, dirs: set<Place>, path: string)
    requires BaseDir(path) != path && Where(cwd, path) !in before
    requires MadeFor(cwd, before, denied, BaseDir(path), dirs)
    ensures Real(LastName(path)) ==>
      Where(cwd, path) !in dirs && Where(cwd, path) != []
          && Where(cwd, path)[..|Where(cwd, path)| - 1] == Where(cwd, BaseDir(path))
    ensures !Real(LastName(path)) ==> Where(cwd, path) == Where(cwd, BaseDir(path))
  {
    WhereBase(cwd, path);
    if Real(LastName(path)) && Where(cwd, path) in dirs {
      var q :| Above(BaseDir(path), q) && CanMake(cwd, before, denied, q) && Where(cwd, q) == Where(cwd, path);
      AboveIsPrefix(cwd, BaseDir(path), q);
    }
  }

  /** With a slash at the end a missing directory is made all the same, but the call reports a failure. */
  lemma TrailingSlash()
    ensures Where([], "/a/") == Where([], "/a")
    ensures CanMake([], {[]}, {}, "/a") && !CanMake([], {[]}, {}, "/a/")
    ensures Above("/a/", "/a")
  {
    assert LastSlash("/a") == 0 && LastSlash("/a/") == 2;
    assert LastName("/a") == "a" && LastName("/a/") == "" && LastName("/") == "";
    assert "/a/"[..2] == "/a";
    assert Above("/a/", "/a/");
    forall q | Above("/a", q) ensures q == "/a" || q == "/" {
    }
  }

  // ---------------------------------------------------------------- lists of paths

  /** The parts with a colon between each two. */
  function Join(parts: seq<string>): string
    requires parts != []
  {
    if |parts| == 1 then parts[0] else Join(parts[..|parts| - 1]) + ":" + parts[|parts| - 1]
  }

  ghost predicate ColonFree(parts: seq<string>) {
    forall i | 0 <= i < |parts| :: ':' !in parts[i]
  }

  /** The parts between the colons of a path list. */
  ghost predicate Parts(parts: seq<string>, list: string) {
    parts != [] && ColonFree(parts) && Join(parts) == list
  }

  /** A path list has only one such sequence of parts. */
  lemma {:induction false} SplitUnique(a: seq<string>, b: seq<string>, list: string)
    requires Parts(a, list) && Parts(b, list)
    ensures a == b
    decreases |a|
  {
    var m, n := |a| - 1, |b| - 1;
    if m > 0 { assert Join(a)[|Join(a[..m])|] == ':'; }
    if n > 0 { assert Join(b)[|Join(b[..n])|] == ':'; }
    if m == 0 || n == 0 {
      assert a == [a[0]] && b == [b[0]];
    } else {
      LastPartEqual(Join(a[..m]), a[m], Join(b[..n]), b[n]);
      SplitUnique(a[..m], b[..n], Join(a[..m]));
      assert a == a[..m] + [a[m]] && b == b[..n] + [b[n]];
    }
  }

  lemma LastPartEqual(x: string, a: string, y: string, b: string)
    requires x + ":" + a == y + ":" + b && ':' !in a && ':' !in b
    ensures x == y && a == b
  {
    var s := x + ":" + a;
    assert s[|x|] == ':' && s[|y|] == ':';
    forall i | |x| < i < |s| ensures s[i] != ':' {
      assert s[i] == a[i - |x| - 1];
    }
    forall i | |y| < i < |s| ensures s[i] != ':' {
      assert s[i] == b[i - |y| - 1];
    }
    assert x == s[..|x|] && y == s[..|y|];
    assert a == s[|x| + 1..] && b == s[|y| + 1..];
  }

  method FindColon(s: string) returns (pos: nat)
    ensures pos <= |s| && ':' !in s[..pos] && (pos < |s| ==> s[pos] == ':')
  {
    pos := 0;
    while pos < |s| && s[pos] != ':'
      invariant pos <= |s| && ':' !in s[..pos]
    {
      pos := pos + 1;
    }
  }

  function Expanded(expand: string -> string, parts: seq<string>): seq<string> {
    seq(|parts|, i requires 0 <= i < |parts| => expand(parts[i]))
  }

  /** Cuts the list at its colons, eating it from the front, and makes every part absolute. */
  method ExtractPathStr(list: string, expand: string -> string) returns (paths: seq<string>)
    ensures exists parts :: Parts(parts, list) && paths == Expanded(expand, parts)
  {
    var token := list;
    ghost var parts := [];
    paths := [];
    var pos := FindColon(token);
    while pos < |token|
      invariant 0 <= pos <= |token| && ':' !in token[..pos] && (pos < |token| ==> token[pos] == ':')
      invariant Cut(list, parts, token) && paths == Expanded(expand, parts)
      decreases |token|
    {
      CutOnce(list, parts, token, pos, expand);
      paths := paths + [expand(token[..pos])];
      parts := parts + [token[..pos]];
      token := token[pos + 1..];
      pos := FindColon(token);
    }
    assert token[..pos] == token;
    PartAppend(parts, token, expand);
    paths := paths + [expand(token)];
    parts := parts + [token];
    assert Parts(parts, list);
  }

  /** The parts cut off so far, and the rest of the list. */
  ghost predicate Cut(list: string, parts: seq<string>, token: string) {
    ColonFree(parts) && list == if parts == [] then token else Join(parts) + ":" + token
  }

  lemma PartAppend(parts: seq<string>, part: string, expand: string -> string)
    requires ColonFree(parts) && ':' !in part
    ensures ColonFree(parts + [part])
    ensures Expanded(expand, parts + [part]) == Expanded(expand, parts) + [expand(part)]
    ensures Join(parts + [part]) == if parts == [] then part else Join(parts) + ":" + part
  {
    assert (parts + [part])[..|parts|] == parts;
  }

  lemma CutOnce(list: string, parts: seq<string>, token: string, pos: nat, expand: string -> string)
    requires Cut(list, parts, token) && pos < |token| && token[pos] == ':' && ':' !in token[..pos]
    ensures Cut(list, parts + [token[..pos]], token[pos + 1..])
    ensures Expanded(expand, parts + [token[..pos]]) == Expanded(expand, parts) + [expand(token[..pos])]
  {
    PartAppend(parts, token[..pos], expand);
    assert token == token[..pos] + ":" + token[pos + 1..];
  }
}
