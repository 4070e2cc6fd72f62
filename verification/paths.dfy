/** Path handling of the terminal (src/hooks/useTerminal.js): `resolvePath`
    turns a command argument into a filesystem key relative to the current
    directory, and `getDisplayPath` abbreviates the home directory to `~`. */
module Paths {
  import opened Text
  import opened FileSystem

  /** `s.split('/').filter(p => p)`: the non-empty components of a path. */
  function Segments(s: string): (r: seq<string>)
    ensures Components(r)
  {
    NonEmpty(Split(s, '/'))
  }

  /** Non-empty strings free of `/`: what splitting a path can produce. */
  predicate Components(xs: seq<string>) {
    forall i :: 0 <= i < |xs| ==> xs[i] != [] && '/' !in xs[i]
  }

  /** Components that need no further normalisation. */
  predicate Clean(segs: seq<string>) {
    forall i :: 0 <= i < |segs| ==> segs[i] != [] && '/' !in segs[i] && segs[i] != "." && segs[i] != ".."
  }

  /** An absolute path with no empty, `.` or `..` component and no trailing
      slash except for the root itself. */
  predicate Canonical(p: string) {
    Clean(Segments(p)) && p == "/" + Join(Segments(p), "/")
  }

  /** The loop of `resolvePath`: `..` pops the last component when there is
      one, `.` is skipped, anything else is pushed. */
  function Walk(stack: seq<string>, parts: seq<string>): (r: seq<string>)
    requires Components(parts)
    ensures Components(stack) ==> Components(r)
    ensures Clean(stack) ==> Clean(r)
    decreases |parts|
  {
    if |parts| == 0 then stack
    else if parts[0] == ".." then Walk(if |stack| > 0 then stack[..|stack| - 1] else stack, parts[1..])
    else if parts[0] == "." then Walk(stack, parts[1..])
    else Walk(stack + [parts[0]], parts[1..])
  }

  /** `resolvePath`: an argument starting with `/` is taken verbatim;
      anything else is walked from the current directory and rendered as
      an absolute path. */
  function Resolve(path: string, cwd: string): (r: string)
    ensures StartsWith(path, "/") ==> r == path
    ensures |r| > 0 && r[0] == '/'
    ensures !StartsWith(path, "/") && Clean(Segments(cwd)) ==>
      Canonical(r) && Segments(r) == Walk(Segments(cwd), Segments(path))
  {
    if StartsWith(path, "/") then path
    else
      var stack := Walk(Segments(cwd), Segments(path));
      RenderedSegments(stack);
      "/" + Join(stack, "/")
  }

  /** Rendering components as an absolute path and reading the components
      back gives them unchanged. */
  lemma RenderedSegments(stack: seq<string>)
    requires Components(stack)
    ensures Segments("/" + Join(stack, "/")) == stack
  {
    var j := Join(stack, "/");
    assert "/" + j == [] + ['/'] + j;
    SplitConcat([], j, '/');
    assert Split([], '/') == [""];
    if |stack| == 0 {
      assert Split(j, '/') == [""];
    } else {
      SplitJoin(stack, '/');
    }
    NonEmptyConcat([""], Split(j, '/'));
  }

  /** Resolving is idempotent: its result is absolute, so resolving it again
      leaves it alone. */
  lemma ResolveIdempotent(path: string, cwd: string)
    ensures Resolve(Resolve(path, cwd), cwd) == Resolve(path, cwd)
  {
    var r := Resolve(path, cwd);
    assert r[..1] == "/";
  }

  /** A string of `..` components only. */
  predicate AllParent(parts: seq<string>) {
    forall i :: 0 <= i < |parts| ==> parts[i] == ".."
  }

  /** At least as many `..` as there are components empties the stack and
      never goes further. */
  lemma {:induction false} WalkUpToRoot(stack: seq<string>, parts: seq<string>)
    requires Components(parts)
    requires AllParent(parts) && |parts| >= |stack|
    ensures Walk(stack, parts) == []
    decreases |parts|
  {
    if |parts| > 0 {
      var next := if |stack| > 0 then stack[..|stack| - 1] else stack;
      WalkUpToRoot(next, parts[1..]);
    }
  }

  /** A relative path of `..` components deeper than the current directory
      resolves to the root, not above it. */
  lemma ResolveUpToRoot(path: string, cwd: string)
    requires !StartsWith(path, "/") && Clean(Segments(cwd))
    requires AllParent(Segments(path)) && |Segments(path)| >= |Segments(cwd)|
    ensures Resolve(path, cwd) == "/"
  {
    WalkUpToRoot(Segments(cwd), Segments(path));
  }

  /** A single word without `/` is one component. */
  lemma SegmentsOfWord(x: string)
    requires x != [] && forall i :: 0 <= i < |x| ==> x[i] != '/'
    ensures Segments(x) == [x]
  {
    SplitNoSep(x, '/');
  }

  /** Entering a sub-directory and then `..` comes back to where one was. */
  lemma ParentOfChild(x: string, cwd: string)
    requires Canonical(cwd)
    requires Clean([x])
    ensures Resolve("..", Resolve(x, cwd)) == cwd
  {
    assert [x][0] == x;
    assert forall i :: 0 <= i < |x| ==> x[i] != '/' by {
      forall i | 0 <= i < |x| ensures x[i] != '/' { assert x[i] in x; }
    }
    SegmentsOfWord(x);
    SegmentsOfWord("..");
    var segs := Segments(cwd);
    assert Walk(segs, [x]) == Walk(segs + [x], []) by { assert [x][1..] == []; }
    var child := Resolve(x, cwd);
    assert Segments(child) == segs + [x];
    assert Walk(segs + [x], [".."]) == Walk(segs, []) by {
      assert [".."][1..] == [];
      assert (segs + [x])[..|segs|] == segs;
    }
  }

  /** `.` names the current directory. */
  lemma DotIsHere(cwd: string)
    requires Canonical(cwd)
    ensures Resolve(".", cwd) == cwd
  {
    SegmentsOfWord(".");
  }

  /** `..` at the root stays at the root. */
  lemma ParentOfRoot()
    ensures Resolve("..", Root) == Root
  {
    SegmentsOfWord("..");
    RenderedSegments([]);
    assert Root == "/" + Join([], "/");
  }

  /** The four directories of the tree are canonical paths. */
  lemma DirKeysCanonical()
    ensures Canonical(Root) && Canonical(HomeParent) && Canonical(Home) && Canonical(ProjectsDir)
  {
    RootCanonical();
    HomeParentCanonical();
    HomeCanonical();
    ProjectsDirCanonical();
  }

  lemma RootCanonical()
    ensures Canonical(Root)
  {
    assert Root == "/" + Join([], "/");
    RenderedSegments([]);
  }

  lemma HomeParentCanonical()
    ensures Canonical(HomeParent)
  {
    assert HomeParent == "/" + Join(["home"], "/");
    RenderedSegments(["home"]);
  }

  lemma HomeCanonical()
    ensures Canonical(Home)
  {
    assert Join(["home", "prasanth"], "/") == "home" + "/" + Join(["prasanth"], "/");
    assert Home == "/" + Join(["home", "prasanth"], "/");
    NameClean("home");
    NameClean("prasanth");
    CleanConcat(["home"], ["prasanth"]);
    RenderedCanonical(Home, ["home", "prasanth"]);
  }

  lemma ProjectsDirCanonical()
    ensures Canonical(ProjectsDir)
  {
    ProjectsDirJoin();
    NameClean("home");
    NameClean("prasanth");
    NameClean("projects");
    CleanConcat(["home"], ["prasanth"]);
    CleanConcat(["home", "prasanth"], ["projects"]);
    RenderedCanonical(ProjectsDir, ["home", "prasanth", "projects"]);
  }

  lemma ProjectsDirJoin()
    ensures ProjectsDir == "/" + Join(["home", "prasanth", "projects"], "/")
  {
    var j := Join(["home", "prasanth", "projects"], "/");
    assert j == "home" + "/" + Join(["prasanth", "projects"], "/");
    assert Join(["prasanth", "projects"], "/") == "prasanth" + "/" + Join(["projects"], "/");
  }

  /** Clean components rendered as an absolute path give a canonical path. */
  lemma RenderedCanonical(p: string, segs: seq<string>)
    requires Clean(segs) && p == "/" + Join(segs, "/")
    ensures Canonical(p)
  {
    RenderedSegments(segs);
  }

  lemma CleanConcat(a: seq<string>, b: seq<string>)
    requires Clean(a) && Clean(b)
    ensures Clean(a + b)
  {
    assert forall i :: 0 <= i < |b| ==> (a + b)[|a| + i] == b[i];
  }

  /** A name of three or more characters without `/` is a clean component. */
  lemma NameClean(x: string)
    requires |x| > 2 && forall i :: 0 <= i < |x| ==> x[i] != '/'
    ensures Clean([x])
  {
    assert [x][0] == x;
  }

  /** `getDisplayPath`: a path starting with the home directory shows it as
      `~`; any other path is shown as it is. */
  function DisplayPath(cwd: string): (r: string)
    ensures StartsWith(cwd, Home) ==> |r| > 0 && r[0] == '~' && Home + r[1..] == cwd
    ensures !StartsWith(cwd, Home) ==> r == cwd
  {
    if StartsWith(cwd, Home) then "~" + cwd[|Home|..] else cwd
  }

  /** Reading a displayed path back: a leading `~` stands for the home
      directory. */
  function ExpandDisplay(d: string): string {
    if |d| > 0 && d[0] == '~' then Home + d[1..] else d
  }

  /** The displayed form of an absolute path names the same path. */
  lemma DisplayRoundTrip(cwd: string)
    requires |cwd| > 0 && cwd[0] == '/'
    ensures ExpandDisplay(DisplayPath(cwd)) == cwd
  {
  }

  /** How the four directories are shown in the prompt. */
  lemma DisplayOfDirs()
    ensures DisplayPath(Home) == "~"
    ensures DisplayPath(ProjectsDir) == "~/projects"
    ensures DisplayPath(HomeParent) == HomeParent && DisplayPath(Root) == Root
  {
    assert ProjectsDir[..|Home|] == Home;
    assert ProjectsDir[|Home|..] == "/projects";
  }
}
