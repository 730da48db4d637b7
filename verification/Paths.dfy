// The lexical path check (api/security.py:81-111, api/config.py:161-168), with
// POSIX normpath written out. Two leading slashes stay two, three or more become
// one: section 4.13 of IEEE Std 1003.1-2017, Base Definitions.
module Paths {
  import opened Protocol
  import opened Sequences

  // The parts between the slashes, empty ones included.
  function Split(s: string): (parts: seq<string>)
    ensures parts != []
    ensures forall i :: 0 <= i < |parts| ==> '/' !in parts[i]
  {
    if s == "" then [""]
    else if s[0] == '/' then [""] + Split(s[1..])
    else
      var rest := Split(s[1..]);
      [[s[0]] + rest[0]] + rest[1..]
  }

  // The parts with a slash between any two.
  function Join(parts: seq<string>): string {
    if parts == [] then ""
    else if |parts| == 1 then parts[0]
    else parts[0] + "/" + Join(parts[1..])
  }

  function LeadingSlashes(path: string): (n: nat)
    ensures n <= 2 && n <= |path|
  {
    if !("/" <= path) then 0
    else if "//" <= path && !("///" <= path) then 2
    else 1
  }

  // One turn of normpath's loop; `done` is new_comps.
  function Turn(part: string, rooted: bool, done: seq<string>): seq<string> {
    if part == "" || part == "." then done
    else if part != ".." || (!rooted && done == []) || (done != [] && done[|done| - 1] == "..") then done + [part]
    else if done != [] then done[..|done| - 1]
    else done
  }

  function Resolve(parts: seq<string>, rooted: bool, done: seq<string>): seq<string> {
    if parts == [] then done else Resolve(parts[1..], rooted, Turn(parts[0], rooted, done))
  }

  function Components(path: string): seq<string> {
    Resolve(Split(path), LeadingSlashes(path) > 0, [])
  }

  function Slashes(n: nat): (s: string)
    ensures |s| == n && forall i :: 0 <= i < n ==> s[i] == '/'
  {
    seq(n, _ => '/')
  }

  // posixpath.normpath
  function Normpath(path: string): string {
    if path == "" then "."
    else
      var r := Slashes(LeadingSlashes(path)) + Join(Components(path));
      if r == "" then "." else r
  }

  // Without the slashes at the end.
  function StripSlashes(s: string): string {
    if s != "" && s[|s| - 1] == '/' then StripSlashes(s[..|s| - 1]) else s
  }

  datatype PathError = Invalid | Relative | Traversal | Outside

  datatype Checked = Accepted(path: string) | Rejected(reason: PathError)

  // normalize_and_validate_path
  function Check(path: string, allowedRoot: string): Checked {
    if path == "" || '\0' in path then Rejected(Invalid)
    else if !("/" <= path) then Rejected(Relative)
    else
      var normalized := Normpath(path);
      if ".." in Split(normalized) then Rejected(Traversal)
      else
        var root := Normpath(allowedRoot);
        if normalized == root || StripSlashes(root) + "/" <= normalized then Accepted(normalized)
        else Rejected(Outside)
  }

  // ---------------------------------------------------------------------------
  // Split and join
  // ---------------------------------------------------------------------------

  // A component of a normalised absolute path.
  predicate Plain(part: string) {
    part != "" && part != "." && part != ".." && '/' !in part
  }

  predicate AllPlain(parts: seq<string>) {
    forall i :: 0 <= i < |parts| ==> Plain(parts[i])
  }

  lemma {:induction false} SplitAtSlash(s: string, t: string)
    ensures Split(s + "/" + t) == Split(s) + Split(t)
  {
    var all := s + "/" + t;
    if s == "" {
      assert all[1..] == t;
    } else {
      assert all[0] == s[0] && all[1..] == s[1..] + "/" + t;
      SplitAtSlash(s[1..], t);
    }
  }

  lemma {:induction false} SplitWord(part: string)
    requires '/' !in part
    ensures Split(part) == [part]
  {
    if part == "" {
    } else {
      assert part[0] in part;
      assert forall c :: c in part[1..] ==> c in part;
      SplitWord(part[1..]);
      assert [part[0]] + part[1..] == part;
    }
  }

  lemma {:induction false} SplitJoin(parts: seq<string>)
    requires parts != [] && AllPlain(parts)
    ensures Split(Join(parts)) == parts
  {
    SplitWord(parts[0]);
    if |parts| == 1 {
    } else {
      SplitJoin(parts[1..]);
      SplitAtSlash(parts[0], Join(parts[1..]));
      assert parts == [parts[0]] + parts[1..];
    }
  }

  lemma {:induction false} JoinAppend(a: seq<string>, b: seq<string>)
    requires a != [] && b != []
    ensures Join(a + b) == Join(a) + "/" + Join(b)
  {
    if |a| == 1 {
      assert (a + b)[1..] == b;
    } else {
      JoinAppend(a[1..], b);
      assert (a + b)[1..] == a[1..] + b;
    }
  }

  function Empties(n: nat): (r: seq<string>)
    ensures |r| == n && forall i :: 0 <= i < n ==> r[i] == ""
  {
    seq(n, _ => "")
  }

  lemma OneMore(n: nat)
    requires n > 0
    ensures Slashes(n) == "/" + Slashes(n - 1) && Empties(n) == [""] + Empties(n - 1)
  {}

  lemma {:induction false} SplitSlashes(n: nat, t: string)
    ensures Split(Slashes(n) + t) == Empties(n) + Split(t)
  {
    if n == 0 {
      assert Slashes(0) + t == t;
    } else {
      var rest := Slashes(n - 1) + t;
      OneMore(n);
      SplitSlashes(n - 1, t);
      SplitFront(rest);
      Regroup("/", Slashes(n - 1), t);
      Regroup([""], Empties(n - 1), Split(t));
    }
  }

  lemma SplitFront(s: string)
    ensures Split("/" + s) == [""] + Split(s)
  {
    assert ("/" + s)[1..] == s;
  }

  // The parts of a normalised absolute path.
  lemma SplitNormal(n: nat, parts: seq<string>)
    requires AllPlain(parts)
    ensures Split(Slashes(n) + Join(parts)) == Empties(n) + if parts == [] then [""] else parts
  {
    SplitSlashes(n, Join(parts));
    if parts != [] { SplitJoin(parts); }
  }

  // ---------------------------------------------------------------------------
  // Normalisation
  // ---------------------------------------------------------------------------

  lemma {:induction false} ResolvePlain(parts: seq<string>, done: seq<string>)
    requires AllPlain(done) && forall i :: 0 <= i < |parts| ==> '/' !in parts[i]
    ensures AllPlain(Resolve(parts, true, done))
  {
    if parts == [] {
    } else {
      ResolvePlain(parts[1..], Turn(parts[0], true, done));
    }
  }

  lemma {:induction false} EmptiesDrop(n: nat, done: seq<string>)
    ensures Resolve(Empties(n), true, done) == done
  {
    if n == 0 {
    } else {
      EmptiesDrop(n - 1, done);
      assert Empties(n)[1..] == Empties(n - 1);
    }
  }

  lemma ResolveKeeps(n: nat, parts: seq<string>, done: seq<string>)
    requires AllPlain(parts)
    ensures Resolve(Empties(n) + parts, true, done) == done + parts
  {
    ResolveThen(Empties(n), parts, true, done);
    EmptiesDrop(n, done);
    PlainStays(parts, true, done);
    hide *;
  }

  // ---------------------------------------------------------------------------
  // What the components of a path are. These laws reduce any list of parts: empty
  // parts and "." drop out, a ".." takes the plain part before it, at the front of
  // a rooted path it drops out and at the front of another it stays; plain parts
  // are left as they are.
  // ---------------------------------------------------------------------------

  lemma {:induction false} ResolveThen(xs: seq<string>, ys: seq<string>, rooted: bool, done: seq<string>)
    ensures Resolve(xs + ys, rooted, done) == Resolve(ys, rooted, Resolve(xs, rooted, done))
  {
    if xs == [] {
      assert xs + ys == ys;
    } else {
      assert (xs + ys)[0] == xs[0] && (xs + ys)[1..] == xs[1..] + ys;
      ResolveThen(xs[1..], ys, rooted, Turn(xs[0], rooted, done));
    }
  }

  lemma DotDotTakes(xs: seq<string>, a: string, ys: seq<string>, rooted: bool)
    requires Plain(a)
    ensures Resolve(xs + [a, ".."] + ys, rooted, []) == Resolve(xs + ys, rooted, [])
  {
    var done := Resolve(xs, rooted, []);
    ResolveThen(xs, ys, rooted, []);
    ResolveThen(xs + [a, ".."], ys, rooted, []);
    ResolveThen(xs, [a, ".."], rooted, []);
    assert Turn("..", rooted, done + [a]) == done;
    TwoTurns(a, "..", rooted, done);
  }

  lemma TwoTurns(a: string, b: string, rooted: bool, done: seq<string>)
    ensures Resolve([a, b], rooted, done) == Turn(b, rooted, Turn(a, rooted, done))
    ensures Resolve([a], rooted, done) == Turn(a, rooted, done)
  {
    assert [a, b][1..] == [b] && [b][1..] == [];
    assert Resolve([b], rooted, Turn(a, rooted, done)) == Turn(b, rooted, Turn(a, rooted, done));
  }

  lemma EmptyPartsDrop(xs: seq<string>, a: string, ys: seq<string>, rooted: bool)
    requires a == "" || a == "."
    ensures Resolve(xs + [a] + ys, rooted, []) == Resolve(xs + ys, rooted, [])
  {
    ResolveThen(xs, ys, rooted, []);
    ResolveThen(xs + [a], ys, rooted, []);
    ResolveThen(xs, [a], rooted, []);
    TwoTurns(a, a, rooted, Resolve(xs, rooted, []));
  }

  lemma LeadingDotDot(ys: seq<string>)
    ensures Resolve([".."] + ys, true, []) == Resolve(ys, true, [])
  {
    assert ([".."] + ys)[1..] == ys;
  }

  // Leading ".." of a path that is not rooted, and plain parts after them, stay.
  lemma {:induction false} ResolvedStays(n: nat, parts: seq<string>, done: seq<string>)
    requires AllPlain(parts) && forall i :: 0 <= i < |done| ==> done[i] == ".."
    ensures Resolve(DotDots(n) + parts, false, done) == done + DotDots(n) + parts
    decreases n
  {
    if n == 0 {
      assert DotDots(0) + parts == parts;
      PlainStays(parts, false, done);
    } else {
      assert (DotDots(n) + parts)[1..] == DotDots(n - 1) + parts;
      ResolvedStays(n - 1, parts, done + [".."]);
      assert done + [".."] + DotDots(n - 1) == done + DotDots(n);
    }
  }

  lemma {:induction false} PlainStays(parts: seq<string>, rooted: bool, done: seq<string>)
    requires AllPlain(parts)
    ensures Resolve(parts, rooted, done) == done + parts
  {
    if parts == [] {
    } else {
      PlainStays(parts[1..], rooted, done + [parts[0]]);
      assert done + [parts[0]] + parts[1..] == done + parts;
    }
  }

  function DotDots(n: nat): (r: seq<string>)
    ensures |r| == n && forall i :: 0 <= i < n ==> r[i] == ".."
  {
    seq(n, _ => "..")
  }

  // The same for paths as strings.
  lemma PathLaws(x: string, a: string, y: string)
    requires Plain(a)
    ensures Components(x + "/" + (a + "/../" + y)) == Components(x + "/" + y)
    ensures Components(x + "/" + (a + "/..")) == Components(x + "/")
    ensures Components(x + "/" + ("./" + y)) == Components(x + "/" + y)
    ensures Components(x + "/" + ("/" + y)) == Components(x + "/" + y)
    ensures Components("/../" + y) == Components("/" + y)
  {
    hide Components;
    DotDotInPath(x, a, y);
    DotDotAtEnd(x, a);
    EmptyInPath(x, y);
    DotDotAtRoot(y);
  }

  lemma RootedParts(y: string)
    ensures Components("/" + y) == Resolve(Split(y), true, [])
  {
    SplitFront(y);
    assert ([""] + Split(y))[1..] == Split(y);
    hide Split;
  }

  lemma DotDotAtRoot(y: string)
    ensures Components("/../" + y) == Components("/" + y)
  {
    var up := "..";
    assert "/../" + y == "/" + (up + "/" + y);
    SplitAtSlash(up, y);
    SplitWord(up);
    RootedParts(up + "/" + y);
    RootedParts(y);
    LeadingDotDot(Split(y));
    hide *;
  }

  // Whether a path is rooted shows in what stands before its first inner slash.
  lemma SameRoot(x: string, y: string, z: string)
    ensures LeadingSlashes(x + "/" + y) > 0 <==> LeadingSlashes(x + "/" + z) > 0
  {
    assert (x + "/" + y)[0] == (x + "/" + z)[0];
  }

  lemma DotDotInPath(x: string, a: string, y: string)
    requires Plain(a)
    ensures Components(x + "/" + (a + "/../" + y)) == Components(x + "/" + y)
  {
    SplitClimb(x, a, y);
    SplitAtSlash(x, y);
    SameRoot(x, a + "/../" + y, y);
    DotDotTakes(Split(x), a, Split(y), LeadingSlashes(x + "/" + y) > 0);
    hide Split, Resolve, LeadingSlashes;
  }

  lemma SplitClimb(x: string, a: string, y: string)
    requires '/' !in a
    ensures Split(x + "/" + (a + "/../" + y)) == Split(x) + [a, ".."] + Split(y)
  {
    var up := "..";
    SplitTwoWords(x, a, up, y);
    assert a + "/../" + y == a + "/" + (up + "/" + y);
    hide *;
  }

  lemma SplitTwoWords(x: string, a: string, b: string, y: string)
    requires '/' !in a && '/' !in b
    ensures Split(x + "/" + (a + "/" + (b + "/" + y))) == Split(x) + [a, b] + Split(y)
  {
    hide Split;
    SplitWord(a);
    SplitWord(b);
    SplitAtSlash(b, y);
    SplitAtSlash(a, b + "/" + y);
    SplitAtSlash(x, a + "/" + (b + "/" + y));
    assert Split(x) + ([a] + ([b] + Split(y))) == Split(x) + [a, b] + Split(y);
  }

  lemma DotDotAtEnd(x: string, a: string)
    requires Plain(a)
    ensures Components(x + "/" + (a + "/..")) == Components(x + "/")
  {
    var inner := a + "/..";
    assert inner == a + "/" + ".." && x + "/" == x + "/" + "";
    SplitAtSlash(x, inner);
    SplitAtSlash(a, "..");
    SplitAtSlash(x, "");
    SplitWord(a);
    SplitWord("..");
    assert Split(x + "/" + inner) == Split(x) + [a, ".."] + [];
    SameRoot(x, inner, "");
    var rooted := LeadingSlashes(x + "/") > 0;
    DotDotTakes(Split(x), a, [], rooted);
    EmptyPartsDrop(Split(x), "", [], rooted);
    assert Split(x) + [""] == Split(x) + [""] + [];
  }

  lemma EmptyInPath(x: string, y: string)
    ensures Components(x + "/" + ("./" + y)) == Components(x + "/" + y)
    ensures Components(x + "/" + ("/" + y)) == Components(x + "/" + y)
  {
    var rooted := LeadingSlashes(x + "/" + y) > 0;
    assert "./" + y == "." + "/" + y && "/" + y == "" + "/" + y;
    SplitAtSlash(x, "./" + y);
    SplitAtSlash(".", y);
    SplitWord(".");
    SplitAtSlash(x, "/" + y);
    SplitAtSlash("", y);
    SplitAtSlash(x, y);
    SameRoot(x, "./" + y, y);
    SameRoot(x, "/" + y, y);
    assert Split(x + "/" + ("./" + y)) == Split(x) + ["."] + Split(y);
    assert Split(x + "/" + ("/" + y)) == Split(x) + [""] + Split(y);
    EmptyPartsDrop(Split(x), ".", Split(y), rooted);
    EmptyPartsDrop(Split(x), "", Split(y), rooted);
  }

  // How many slashes count: exactly two stay two, any other number is one.
  lemma LeadingSlashesMean(path: string)
    ensures LeadingSlashes(path) == 0 <==> path == "" || path[0] != '/'
    ensures LeadingSlashes(path) == 2 <==>
      |path| >= 2 && path[0] == '/' && path[1] == '/' && (|path| == 2 || path[2] != '/')
    ensures LeadingSlashes(path) == 1 <==> path != "" && path[0] == '/' && LeadingSlashes(path) != 2
  {}

  // A relative path keeps the ".." it begins with, or comes to begin with; one
  // that comes to nothing is ".".
  lemma RelativeClimbs(a: string, b: string)
    requires Plain(a) && Plain(b)
    ensures Components(a + "/" + "..") == [] && Components(a + "/" + (".." + "/" + (".." + "/" + b))) == ["..", b]
  {
    var up := "..";
    SplitWord(a);
    SplitWord(b);
    SplitWord(up);
    SplitAtSlash(a, up);
    SplitAtSlash(up, b);
    SplitAtSlash(up, up + "/" + b);
    SplitAtSlash(a, up + "/" + (up + "/" + b));
    assert a[0] in a;
    ResolvedClimb(a, b);
  }

  lemma ResolvedClimb(a: string, b: string)
    requires Plain(a) && Plain(b)
    ensures Resolve([a] + [".."], false, []) == [] && Resolve([a] + ([".."] + ([".."] + [b])), false, []) == ["..", b]
  {
    var none: seq<string> := [];
    DotDotTakes(none, a, none, false);
    assert [a] + [".."] == none + [a, ".."] + none && none + none == none;
    DotDotTakes(none, a, ["..", b], false);
    assert [a] + ([".."] + ([".."] + [b])) == none + [a, ".."] + ["..", b] && none + ["..", b] == ["..", b];
    ResolvedStays(1, [b], none);
    assert DotDots(1) + [b] == ["..", b] && none + DotDots(1) + [b] == ["..", b];
  }

  // The string is made of slashes and components; nothing at all is ".".
  lemma NormpathMeans(path: string)
    ensures path == "" ==> Normpath(path) == "."
    ensures path != "" && LeadingSlashes(path) == 0 ==>
      Normpath(path) == if Join(Components(path)) == "" then "." else Join(Components(path))
  {
    assert Slashes(0) + Join(Components(path)) == Join(Components(path));
  }

  lemma AbsoluteNormal(path: string)
    requires "/" <= path
    ensures AllPlain(Components(path))
    ensures Normpath(path) == Slashes(LeadingSlashes(path)) + Join(Components(path))
    ensures "/" <= Normpath(path)
  {
    ResolvePlain(Split(path), []);
  }

  // Normalisation is a projection: it keeps the components and the leading
  // slashes, and a second pass changes nothing.
  lemma NormpathIdempotent(path: string)
    requires "/" <= path
    ensures LeadingSlashes(Normpath(path)) == LeadingSlashes(path)
    ensures Components(Normpath(path)) == Components(path)
    ensures Normpath(Normpath(path)) == Normpath(path)
  {
    AbsoluteNormal(path);
    var n, parts := LeadingSlashes(path), Components(path);
    var normal := Normpath(path);
    SplitNormal(n, parts);
    NormalSlashes(n, parts);
    if parts == [] {
      assert Empties(n) + [""] == Empties(n + 1) + [];
      ResolveKeeps(n + 1, [], []);
    } else {
      ResolveKeeps(n, parts, []);
    }
  }

  lemma NormalSlashes(n: nat, parts: seq<string>)
    requires 1 <= n <= 2 && AllPlain(parts)
    ensures LeadingSlashes(Slashes(n) + Join(parts)) == n
  {
    var s := Slashes(n) + Join(parts);
    assert s[0] == '/' && (n == 2 ==> s[1] == '/');
    if parts != [] {
      assert parts[0][0] in parts[0];
      assert s[n] == Join(parts)[0] == parts[0][0];
    }
  }

  // ---------------------------------------------------------------------------
  // The string test is component containment
  // ---------------------------------------------------------------------------

  // The path lies under the root, or is it, component by component.
  ghost predicate Contains(root: string, path: string) {
    Components(root) <= Components(path) && (Components(root) == [] || LeadingSlashes(root) == LeadingSlashes(path))
  }

  predicate Passes(normalized: string, root: string) {
    normalized == root || StripSlashes(root) + "/" <= normalized
  }

  // A normalised root ends in a slash only when it is nothing but slashes.
  lemma StrippedRoot(n: nat, parts: seq<string>)
    requires 1 <= n <= 2 && AllPlain(parts)
    ensures StripSlashes(Slashes(n) + Join(parts)) == if parts == [] then "" else Slashes(n) + Join(parts)
  {
    var s := Slashes(n) + Join(parts);
    if parts == [] {
      assert s[..|s| - 1] == Slashes(n - 1);
      assert n == 2 ==> Slashes(1)[..0] == "";
    } else {
      JoinEndsInPart(parts);
      assert s[|s| - 1] == Join(parts)[|Join(parts)| - 1];
    }
  }

  lemma {:induction false} JoinEndsInPart(parts: seq<string>)
    requires parts != [] && AllPlain(parts)
    ensures Join(parts) != "" && Join(parts)[|Join(parts)| - 1] != '/'
  {
    var last := parts[0];
    if |parts| == 1 {
      assert last[|last| - 1] in last;
    } else {
      JoinEndsInPart(parts[1..]);
    }
  }

  // Empty parts in front cannot be mistaken for components.
  lemma SameFront(n: nat, m: nat, parts: seq<string>, root: seq<string>, rest: seq<string>)
    requires AllPlain(parts) && AllPlain(root) && root != [] && rest != []
    requires Empties(n) + (if parts == [] then [""] else parts) == Empties(m) + root + rest
    ensures n == m && root <= parts
  {
    var left := Empties(n) + (if parts == [] then [""] else parts);
    var right := Empties(m) + root + rest;
    assert right[m] == root[0] && left[m] == right[m];
    assert forall i :: 0 <= i < m ==> right[i] == "";
    assert forall i :: 0 <= i < |parts| ==> left[n + i] == parts[i];
    assert parts != [] ==> left[n + 0] == parts[0];
    forall i | 0 <= i < |root| ensures i < |parts| && root[i] == parts[i] {
      assert right[m + i] == root[i] && left[n + i] == right[m + i];
    }
  }

  lemma PassesIffContains(path: string, root: string)
    requires "/" <= path && "/" <= root
    ensures Passes(Normpath(path), Normpath(root)) <==> Contains(root, path)
  {
    AbsoluteNormal(path);
    AbsoluteNormal(root);
    var n, parts := LeadingSlashes(path), Components(path);
    var m, rootParts := LeadingSlashes(root), Components(root);
    var p, r := Normpath(path), Normpath(root);
    StrippedRoot(m, rootParts);
    if rootParts != [] {
      if Passes(p, r) { PassedIsContained(n, parts, m, rootParts); }
      if Contains(root, path) { ContainedPasses(n, parts, rootParts); }
    }
  }

  lemma PassedIsContained(n: nat, parts: seq<string>, m: nat, root: seq<string>)
    requires 1 <= n <= 2 && 1 <= m <= 2 && AllPlain(parts) && AllPlain(root) && root != []
    requires var p := Slashes(n) + Join(parts); var r := Slashes(m) + Join(root); p == r || r + "/" <= p
    ensures n == m && root <= parts
  {
    var p, r := Slashes(n) + Join(parts), Slashes(m) + Join(root);
    if p == r {
      SameNormal(n, parts, m, root);
    } else {
      assert p == r + "/" + p[|r| + 1..];
      BelowNormal(n, parts, m, root, p[|r| + 1..]);
    }
  }

  lemma BelowNormal(n: nat, parts: seq<string>, m: nat, root: seq<string>, t: string)
    requires AllPlain(parts) && AllPlain(root) && root != []
    requires Slashes(n) + Join(parts) == (Slashes(m) + Join(root)) + "/" + t
    ensures n == m && root <= parts
  {
    SplitNormal(n, parts);
    SplitNormal(m, root);
    SplitAtSlash(Slashes(m) + Join(root), t);
    SameFront(n, m, parts, root, Split(t));
  }

  // Normal forms are unique.
  lemma SameNormal(n: nat, parts: seq<string>, m: nat, root: seq<string>)
    requires 1 <= n <= 2 && 1 <= m <= 2 && AllPlain(parts) && AllPlain(root) && root != []
    requires Slashes(n) + Join(parts) == Slashes(m) + Join(root)
    ensures n == m && parts == root
  {
    SplitNormal(n, parts);
    SplitNormal(m, root);
    NormalSlashes(n, parts);
    NormalSlashes(m, root);
    var all := if parts == [] then [""] else parts;
    assert (Empties(n) + all)[n..] == all && (Empties(n) + root)[n..] == root;
    assert all[0] == root[0] != "";
  }

  lemma ContainedPasses(n: nat, parts: seq<string>, root: seq<string>)
    requires root != [] && root <= parts
    ensures var p := Slashes(n) + Join(parts); var r := Slashes(n) + Join(root); p == r || r + "/" <= p
  {
    var rest := parts[|root|..];
    assert parts == root + rest;
    if rest == [] {
      assert parts == root;
    } else {
      JoinAppend(root, rest);
      assert Slashes(n) + (Join(root) + "/" + Join(rest)) == Slashes(n) + Join(root) + "/" + Join(rest);
    }
  }

  // A path that starts with a slash never resolves to one with a ".." in it.
  lemma TraversalTestNeverFires(path: string, root: string)
    ensures Check(path, root) != Rejected(Traversal)
  {
    if "/" <= path {
      AbsoluteNormal(path);
      SplitNormal(LeadingSlashes(path), Components(path));
    }
  }

  // Which paths pass, for every root a configuration can hold.
  lemma AcceptedIff(path: string, root: string)
    requires "/" <= root
    ensures Check(path, root).Accepted? <==> "/" <= path && '\0' !in path && Contains(root, path)
    ensures Check(path, root).Accepted? ==> Check(path, root).path == Normpath(path)
    ensures Check(path, root) == Rejected(Outside) <==> "/" <= path && '\0' !in path && !Contains(root, path)
  {
    TraversalTestNeverFires(path, root);
    if "/" <= path { PassesIffContains(path, root); }
  }

  // What passed is in normal form, under the root, and passes again unchanged.
  lemma AcceptedIsFixedPoint(path: string, root: string)
    requires "/" <= root && Check(path, root).Accepted?
    ensures var r := Check(path, root).path;
      && Normpath(r) == r && Check(r, root) == Accepted(r)
      && AllPlain(Components(r)) && Contains(root, r)
      && r == Slashes(LeadingSlashes(r)) + Join(Components(r))
  {
    AcceptedIff(path, root);
    NormpathIdempotent(path);
    AbsoluteNormal(path);
    AcceptedIff(Normpath(path), root);
    NormalHasNoNul(path);
  }

  // The other rejections.
  lemma RejectedMeans(path: string, root: string)
    ensures Check(path, root) == Rejected(Invalid) <==> path == "" || '\0' in path
    ensures Check(path, root) == Rejected(Relative) <==> path != "" && '\0' !in path && path[0] != '/'
  {}

  // A ".." that leads out of the root is seen.
  lemma EscapeIsOutside()
    ensures Check("/a/../b", "/a") == Rejected(Outside) && Check("/a/../b", "/b") == Accepted("/b")
  {
    hide Resolve, Split, Check, Normpath;
    EscapeComponents();
    var path := "/a/../b";
    assert '\0' !in path && "/" <= path && "/" <= "/a" && "/" <= "/b";
    AcceptedIff(path, "/a");
    AcceptedIff(path, "/b");
    assert ["a"][0] != ["b"][0];
  }

  lemma EscapeComponents()
    ensures Components("/a") == ["a"] && Components("/b") == ["b"] && Components("/a/../b") == ["b"]
    ensures Normpath("/a/../b") == "/b"
    ensures LeadingSlashes("/a/../b") == LeadingSlashes("/a") == LeadingSlashes("/b") == 1
  {
    hide Resolve, Split, Components;
    assert "/a/../b" == "" + "/" + ("a" + "/../" + "b") && "/b" == "" + "/" + "b";
    PathLaws("", "a", "b");
    NormalComponents(1, ["a"]);
    NormalComponents(1, ["b"]);
    assert Slashes(1) + Join(["a"]) == "/a" && Slashes(1) + Join(["b"]) == "/b";
    AbsoluteNormal("/a/../b");
  }

  // The root is stored normalised; checking against it is checking against the
  // one the administrator wrote.
  lemma StoredRootAgrees(path: string, root: string)
    requires "/" <= root
    ensures Check(path, Normpath(root)) == Check(path, root)
  {
    NormpathIdempotent(root);
  }

  ghost predicate Without(parts: seq<string>, c: char) {
    forall i :: 0 <= i < |parts| ==> c !in parts[i]
  }

  lemma {:induction false} SplitKeepsChars(s: string, c: char)
    requires c !in s
    ensures Without(Split(s), c)
  {
    if s == "" {
    } else {
      assert s[0] in s && forall d :: d in s[1..] ==> d in s;
      SplitKeepsChars(s[1..], c);
    }
  }

  lemma {:induction false} ResolveKeepsChars(parts: seq<string>, rooted: bool, done: seq<string>, c: char)
    requires Without(parts, c) && Without(done, c)
    ensures Without(Resolve(parts, rooted, done), c)
  {
    if parts == [] {
    } else {
      ResolveKeepsChars(parts[1..], rooted, Turn(parts[0], rooted, done), c);
    }
  }

  lemma {:induction false} JoinKeepsChars(parts: seq<string>, c: char)
    requires c != '/' && Without(parts, c)
    ensures c !in Join(parts)
  {
    if |parts| <= 1 {
    } else {
      JoinKeepsChars(parts[1..], c);
    }
  }

  lemma NormalHasNoNul(path: string)
    requires "/" <= path && '\0' !in path
    ensures '\0' !in Normpath(path)
  {
    SplitKeepsChars(path, '\0');
    ResolveKeepsChars(Split(path), true, [], '\0');
    JoinKeepsChars(Components(path), '\0');
    AbsoluteNormal(path);
  }

  // ---------------------------------------------------------------------------
  // The playbooks' own check
  // ---------------------------------------------------------------------------

  // `^root(/|$)` on the canonical path agrees with the API's check for every
  // root with a component. For a root that is only slashes the API accepts
  // everything and the playbooks nothing but the root itself.
  lemma PlaybookAgreesIff(canonical: string, root: string)
    requires "/" <= root && "/" <= canonical && '\0' !in canonical
    requires Normpath(canonical) == canonical && LeadingSlashes(canonical) == 1
    ensures (UnderRoot(canonical, Normpath(root)) <==> Check(canonical, root).Accepted?)
      <==> Components(root) != [] || (LeadingSlashes(root) == 1 && canonical == "/")
  {
    AcceptedIff(canonical, root);
    PassesIffContains(canonical, root);
    AbsoluteNormal(root);
    StrippedRoot(LeadingSlashes(root), Components(root));
    if Components(root) == [] {
      assert Normpath(root) == Slashes(LeadingSlashes(root));
      AbsoluteNormal(canonical);
      OneSlash(Components(canonical));
      assert Normpath(root)[0] == '/' && (|Normpath(root)| == 1 ==> Normpath(root) == "/");
    }
  }

  lemma NormalComponents(n: nat, parts: seq<string>)
    requires 1 <= n <= 2 && AllPlain(parts)
    ensures var path := Slashes(n) + Join(parts); Components(path) == parts && Normpath(path) == path
  {
    var path := Slashes(n) + Join(parts);
    SplitNormal(n, parts);
    NormalSlashes(n, parts);
    if parts == [] {
      assert Empties(n) + [""] == Empties(n + 1) + [];
      ResolveKeeps(n + 1, [], []);
    } else {
      ResolveKeeps(n, parts, []);
    }
    AbsoluteNormal(path);
  }

  // For instance "/a" under the root "/".
  lemma SlashRootAtSamplePath()
    ensures Check("/a", "/") == Accepted("/a") && !UnderRoot("/a", Normpath("/"))
  {
    var none: seq<string> := [];
    assert Slashes(1) + Join(["a"]) == "/a" && Slashes(1) + Join(none) == "/";
    NormalComponents(1, ["a"]);
    NormalComponents(1, none);
    hide Components, Normpath, Check;
    AcceptedIff("/a", "/");
  }

  lemma OneSlash(parts: seq<string>)
    requires AllPlain(parts)
    ensures !("//" <= Slashes(1) + Join(parts)) && (Slashes(1) + Join(parts) == "/" <==> parts == [])
  {
    if parts != [] {
      assert parts[0][0] in parts[0];
      assert (Slashes(1) + Join(parts))[1] == parts[0][0];
    }
  }
}
