/** The commands of the terminal hook (src/hooks/useTerminal.js): `ls`,
    `cd` and `cat` over the virtual filesystem, `history`, and the
    informational commands built from the profile. The source renders each
    result as HTML; here a result is a tagged value holding the text the
    markup shows. */
module Shell {
  import opened Text
  import opened FileSystem
  import opened Paths

  datatype Quote = Quote(quote: string, author: string)

  /** One name of a directory listing; `isDir` selects the directory style
      and the trailing `/`. */
  datatype ListEntry = ListEntry(name: string, isDir: bool)

  /** A project as the `projects` command shows it: the link is shown
      without its scheme. */
  datatype ProjectCard = ProjectCard(name: string, description: string, link: string, shownLink: string)

  datatype Output =
    | Listing(entries: seq<ListEntry>)
    | FileText(content: string)
    | Error(message: string)
    | HelpText(commands: seq<string>)
    | AboutCard(about: string)
    | SocialLinks(linkedin: string, github: string, instagram: string)
    | SkillList(lines: seq<string>)
    | ProjectList(cards: seq<ProjectCard>)
    | HistoryLines(lines: seq<string>)
    | SystemInfo(name: string, role: string, github: string, contact: string,
                 location: string, status: string, motto: Quote)
    | Notice(text: string)

  /** The first argument when it is present and non-empty (a truthy
      `args[0]`). */
  function Operand(args: seq<string>): (r: Option<string>)
    ensures r.Some? <==> |args| > 0 && args[0] != ""
    ensures r.Some? ==> r.value == args[0]
  {
    if |args| > 0 && args[0] != "" then Some(args[0]) else None
  }

  // ---------------------------------------------------------------- ls

  /** The directory `ls` lists: the resolved operand, or the current
      directory when there is none. */
  function LsTarget(cwd: string, args: seq<string>): string {
    match Operand(args)
    case Some(a) => Resolve(a, cwd)
    case None => cwd
  }

  /** One listing entry per child, in the directory's order; a child is
      styled as a directory when its own key holds a directory. */
  function Entries(fs: FileMap, dir: string, names: seq<string>): (r: seq<ListEntry>)
    ensures |r| == |names|
    ensures forall i :: 0 <= i < |names| ==> r[i].name == names[i]
    ensures forall i :: 0 <= i < |names| ==> (r[i].isDir <==> IsDir(fs, ChildKey(dir, names[i])))
  {
    seq(|names|, i requires 0 <= i < |names| => ListEntry(names[i], IsDir(fs, ChildKey(dir, names[i]))))
  }

  /** `ls [path]`: the entries of a directory, or an error naming the
      operand (`.` when there is none). */
  function Ls(fs: FileMap, cwd: string, args: seq<string>): (r: Output)
    ensures r.Listing? || r.Error?
    ensures r.Listing? ==> (IsDir(fs, LsTarget(cwd, args))
      && r.entries == Entries(fs, LsTarget(cwd, args), fs[LsTarget(cwd, args)].children))
    ensures r.Listing? <==> IsDir(fs, LsTarget(cwd, args))
    ensures r.Error? ==> (!IsDir(fs, LsTarget(cwd, args))
      && r.message == "ls: cannot access '" + (if Operand(args).Some? then args[0] else ".") + "': No such file or directory")
  {
    var path := LsTarget(cwd, args);
    if IsDir(fs, path) then Listing(Entries(fs, path, fs[path].children))
    else Error("ls: cannot access '" + (match Operand(args) case Some(a) => a case None => ".") + "': No such file or directory")
  }

  /** How one entry is printed: directories carry a trailing `/`. */
  function Shown(e: ListEntry): (r: string)
    ensures |r| == |e.name| + (if e.isDir then 1 else 0) && r[..|e.name|] == e.name
  {
    if e.isDir then e.name + "/" else e.name
  }

  /** The printed listing: the shown names separated by two spaces. When
      no name is empty or holds a space, the words of the line are the
      shown names, in order, so the listing can be read back. */
  function RenderListing(es: seq<ListEntry>): (r: string)
    ensures (forall i :: 0 <= i < |es| ==> es[i].name != [] && ' ' !in es[i].name) ==>
      Tokens(r) == ShownNames(es)
  {
    if forall i :: 0 <= i < |es| ==> es[i].name != [] && ' ' !in es[i].name then
      PlainShownNames(es);
      TokensJoinWide(ShownNames(es));
      Join(ShownNames(es), "  ")
    else
      Join(ShownNames(es), "  ")
  }

  function ShownNames(es: seq<ListEntry>): (r: seq<string>)
    ensures |r| == |es|
    ensures forall i :: 0 <= i < |es| ==> r[i] == Shown(es[i])
  {
    seq(|es|, i requires 0 <= i < |es| => Shown(es[i]))
  }

  /** Names without spaces stay without spaces once shown. */
  lemma PlainShownNames(es: seq<ListEntry>)
    requires forall i :: 0 <= i < |es| ==> es[i].name != [] && ' ' !in es[i].name
    ensures forall i :: 0 <= i < |es| ==> ShownNames(es)[i] != [] && ' ' !in ShownNames(es)[i]
  {
    var names := ShownNames(es);
    forall i | 0 <= i < |names| ensures names[i] != [] && ' ' !in names[i] {
      var e := es[i];
      if e.isDir {
        assert names[i] == e.name + "/";
        assert forall k :: 0 <= k < |names[i]| ==> names[i][k] != ' ' by {
          forall k | 0 <= k < |names[i]| ensures names[i][k] != ' ' {
            if k < |e.name| { assert names[i][k] == e.name[k]; assert e.name[k] in e.name; }
          }
        }
      }
    }
  }

  /** `ls .` lists the current directory, as `ls` alone does. */
  lemma LsDot(fs: FileMap, cwd: string)
    requires Canonical(cwd)
    ensures Ls(fs, cwd, ["."]) == Ls(fs, cwd, [])
  {
    DotIsHere(cwd);
  }

  /** The home directory of the built tree lists its three text files and
      the `projects` directory. */
  lemma LsHome(p: Profile)
    ensures Ls(Build(p), Home, []) == Listing([
      ListEntry("about.txt", false), ListEntry("skills.txt", false),
      ListEntry("social.txt", false), ListEntry("projects", true)])
  {
    var fs := Build(p);
    BuildFixedDirs(p);
    BuildDirs(p);
    FixedChildKeys();
    var es := Entries(fs, Home, ["about.txt", "skills.txt", "social.txt", "projects"]);
    assert !IsDir(fs, AboutFile) && !IsDir(fs, SkillsFile) && !IsDir(fs, SocialFile);
    assert es[3] == ListEntry("projects", true);
  }

  // ---------------------------------------------------------------- cd

  /** The new current directory, and the error to show when there is one. */
  datatype CdResult = CdResult(cwd: string, out: Option<Output>)

  /** The path `cd` resolves: its operand, or the home directory. */
  function CdTarget(args: seq<string>): string {
    match Operand(args)
    case Some(a) => a
    case None => Home
  }

  /** `cd [dir]`: moves to the resolved directory when there is one;
      otherwise stays put and reports the operand as given. */
  function Cd(fs: FileMap, cwd: string, args: seq<string>): (r: CdResult)
    ensures r.out.None? <==> IsDir(fs, Resolve(CdTarget(args), cwd))
    ensures r.out.None? ==> r.cwd == Resolve(CdTarget(args), cwd) && IsDir(fs, r.cwd)
    ensures r.out.Some? ==> (r.cwd == cwd
      && r.out.value == Error("cd: no such file or directory: " + CdTarget(args)))
  {
    var target := CdTarget(args);
    var path := Resolve(target, cwd);
    if IsDir(fs, path) then CdResult(path, None)
    else CdResult(cwd, Some(Error("cd: no such file or directory: " + target)))
  }

  /** `cd` keeps the current directory a directory of the tree. */
  lemma CdStaysInDirs(fs: FileMap, cwd: string, args: seq<string>)
    requires IsDir(fs, cwd)
    ensures IsDir(fs, Cd(fs, cwd, args).cwd)
  {
  }

  /** `cd` alone goes home, wherever one is. */
  lemma CdHome(p: Profile, cwd: string)
    ensures Cd(Build(p), cwd, []) == CdResult(Home, None)
  {
    assert StartsWith(Home, "/");
  }

  /** Into a sub-directory and back out with `cd ..` returns to where one
      started. */
  lemma CdThereAndBack(fs: FileMap, cwd: string, x: string)
    requires Canonical(cwd) && IsDir(fs, cwd) && Clean([x])
    requires Cd(fs, cwd, [x]).out.None?
    ensures Cd(fs, Cd(fs, cwd, [x]).cwd, [".."]) == CdResult(cwd, None)
  {
    assert [x][0] == x;
    ParentOfChild(x, cwd);
  }

  // ---------------------------------------------------------------- cat

  /** `cat <file>`: the content of a file node; a directory, a missing key
      and a missing operand each have their own error. */
  function Cat(fs: FileMap, cwd: string, args: seq<string>): (r: Output)
    ensures r.FileText? || r.Error?
    ensures Operand(args).None? ==> r == Error("cat: missing operand")
    ensures r.FileText? <==> Operand(args).Some? && IsFile(fs, Resolve(args[0], cwd))
    ensures r.FileText? ==> r.content == fs[Resolve(args[0], cwd)].content
    ensures Operand(args).Some? && IsDir(fs, Resolve(args[0], cwd)) ==>
      r == Error("cat: " + args[0] + ": Is a directory")
    ensures Operand(args).Some? && Resolve(args[0], cwd) !in fs ==>
      r == Error("cat: " + args[0] + ": No such file or directory")
  {
    match Operand(args)
    case None => Error("cat: missing operand")
    case Some(target) =>
      var path := Resolve(target, cwd);
      if path in fs && fs[path].File? then FileText(fs[path].content)
      else if path in fs && fs[path].Dir? then Error("cat: " + target + ": Is a directory")
      else Error("cat: " + target + ": No such file or directory")
  }

  /** From home, the three text files read back the profile's text. */
  lemma CatFixedFiles(p: Profile)
    ensures Cat(Build(p), Home, ["about.txt"]) == FileText(p.about)
    ensures Cat(Build(p), Home, ["skills.txt"]) == FileText(SkillsText(p.skills))
    ensures Cat(Build(p), Home, ["social.txt"]) == FileText(SocialText(p))
  {
    CatAbout(p);
    CatSkills(p);
    CatSocial(p);
  }

  lemma CatAbout(p: Profile)
    ensures Cat(Build(p), Home, ["about.txt"]) == FileText(p.about)
  {
    BuildFixedFiles(p);
    HomeNamesResolve();
  }

  lemma CatSkills(p: Profile)
    ensures Cat(Build(p), Home, ["skills.txt"]) == FileText(SkillsText(p.skills))
  {
    BuildFixedFiles(p);
    HomeNamesResolve();
  }

  lemma CatSocial(p: Profile)
    ensures Cat(Build(p), Home, ["social.txt"]) == FileText(SocialText(p))
  {
    BuildFixedFiles(p);
    HomeNamesResolve();
  }

  /** The names listed in home resolve, from home, to their keys. */
  lemma HomeNamesResolve()
    ensures Resolve("about.txt", Home) == AboutFile
    ensures Resolve("skills.txt", Home) == SkillsFile
    ensures Resolve("social.txt", Home) == SocialFile
    ensures Resolve("projects", Home) == ProjectsDir
  {
    HomeNamesClean();
    FixedChildKeys();
    ResolveFileInHome("about.txt");
    ResolveFileInHome("skills.txt");
    ResolveFileInHome("social.txt");
    ResolveFileInHome("projects");
  }

  lemma HomeNamesClean()
    ensures Clean(["about.txt"]) && Clean(["skills.txt"]) && Clean(["social.txt"]) && Clean(["projects"])
  {
    NameClean("about.txt");
    NameClean("skills.txt");
    NameClean("social.txt");
    NameClean("projects");
  }

  /** A plain name resolves, from home, to its key under home. */
  lemma ResolveFileInHome(x: string)
    requires Clean([x])
    ensures Resolve(x, Home) == ChildKey(Home, x)
  {
    HomeCanonical();
    assert |Home| == 14 && |Root| == 1;
    ResolveChild(x, Home);
  }

  /** A plain name resolves, from a directory other than the root, to the
      directory, a slash and the name. */
  lemma ResolveChild(x: string, cwd: string)
    requires Canonical(cwd) && cwd != Root && Clean([x])
    ensures Resolve(x, cwd) == cwd + "/" + x
  {
    assert [x][0] == x;
    assert forall i :: 0 <= i < |x| ==> x[i] != '/' by {
      forall i | 0 <= i < |x| ensures x[i] != '/' { assert x[i] in x; }
    }
    assert x[0] != '/';
    SegmentsOfWord(x);
    var segs := Segments(cwd);
    assert |segs| > 0;
    assert Walk(segs, [x]) == Walk(segs + [x], []) by { assert [x][1..] == []; }
    JoinSnoc(segs, x, "/");
    calc {
      Resolve(x, cwd);
      "/" + Join(segs + [x], "/");
      "/" + (Join(segs, "/") + "/" + x);
      cwd + "/" + x;
    }
  }

  lemma {:induction false} JoinSnoc(xs: seq<string>, x: string, sep: string)
    requires |xs| > 0
    ensures Join(xs + [x], sep) == Join(xs, sep) + sep + x
    decreases |xs|
  {
    var ys := xs + [x];
    assert ys[0] == xs[0];
    if |xs| == 1 {
      assert ys[1..] == [x];
      assert Join(ys, sep) == xs[0] + sep + Join([x], sep);
    } else {
      assert ys[1..] == xs[1..] + [x];
      JoinSnoc(xs[1..], x, sep);
      assert Join(ys, sep) == xs[0] + sep + (Join(xs[1..], sep) + sep + x);
    }
  }

  /** A project file read by its absolute key shows the project's page,
      for the last project of that file name. */
  lemma CatProject(p: Profile, i: nat, cwd: string)
    requires i < |p.projects| && LastOfItsName(p.projects, i)
    ensures Cat(Build(p), cwd, [ProjectPath(p.projects[i])]) == FileText(ProjectContent(p.projects[i]))
  {
    var key := ProjectPath(p.projects[i]);
    assert Build(p)[key] == File(ProjectContent(p.projects[i])) by {
      BuildProjectFiles(p);
    }
    assert StartsWith(key, "/");
    CatAbsolute(Build(p), cwd, key);
  }

  /** An absolute path to a file reads that file from anywhere. */
  lemma CatAbsolute(fs: FileMap, cwd: string, path: string)
    requires StartsWith(path, "/") && path in fs && fs[path].File?
    ensures Cat(fs, cwd, [path]) == FileText(fs[path].content)
  {
  }

  /** `cat` on a directory is refused. */
  lemma CatDirectory(p: Profile)
    ensures Cat(Build(p), Home, ["projects"]) == Error("cat: " + "projects" + ": Is a directory")
  {
    HomeNamesResolve();
    BuildFixedDirs(p);
  }

  // ----------------------------------------------------------- history

  /** `history`: the recorded lines numbered from 1, in the order they are
      stored (most recent first). */
  function HistoryOutput(h: seq<string>): (r: Output)
    ensures r.HistoryLines? && |r.lines| == |h|
    ensures forall i :: 0 <= i < |h| ==> r.lines[i] == HistoryLine(i + 1, h[i])
  {
    HistoryLines(seq(|h|, i requires 0 <= i < |h| => HistoryLine(i + 1, h[i])))
  }

  function HistoryLine(n: nat, cmd: string): string {
    Decimal(n) + ": " + cmd
  }

  /** Index of the first `:` of `s`, or `|s|` when there is none. */
  function ColonAt(s: string): (r: nat)
    ensures r <= |s|
    ensures forall k :: 0 <= k < r ==> s[k] != ':'
    ensures r < |s| ==> s[r] == ':'
  {
    if |s| == 0 then 0
    else if s[0] == ':' then 0
    else 1 + ColonAt(s[1..])
  }

  /** The number in front of a history line. */
  function EntryNumber(line: string): nat {
    ParseDecimal(line[..ColonAt(line)])
  }

  /** The command after the `: ` of a history line. */
  function EntryCommand(line: string): string {
    var k := ColonAt(line);
    if k + 2 <= |line| then line[k + 2..] else ""
  }

  /** Each printed history line reads back as its number and its command. */
  lemma HistoryLineRoundTrip(n: nat, cmd: string)
    ensures EntryNumber(HistoryLine(n, cmd)) == n
    ensures EntryCommand(HistoryLine(n, cmd)) == cmd
  {
    var line := HistoryLine(n, cmd);
    var d := Decimal(n);
    assert line == d + (": " + cmd);
    ColonAfterDigits(d, ": " + cmd);
    assert line[..|d|] == d;
    assert line[|d| + 2..] == cmd;
    DecimalRoundTrip(n);
  }

  lemma ColonAfterDigits(d: string, rest: string)
    requires forall i :: 0 <= i < |d| ==> '0' <= d[i] <= '9'
    requires |rest| > 0 && rest[0] == ':'
    ensures ColonAt(d + rest) == |d|
  {
    var s := d + rest;
    var k := ColonAt(s);
    assert s[|d|] == ':';
  }

  /** The `history` listing numbers the lines 1, 2, ... and keeps each
      line's text. */
  lemma HistoryReadBack(h: seq<string>, i: nat)
    requires i < |h|
    ensures EntryNumber(HistoryOutput(h).lines[i]) == i + 1
    ensures EntryCommand(HistoryOutput(h).lines[i]) == h[i]
  {
    HistoryLineRoundTrip(i + 1, h[i]);
  }

  // ------------------------------------------------ informational output

  /** The words `help` advertises, in its order. */
  const HelpCommands: seq<string> := [
    "about", "social", "skills", "projects", "neofetch", "ls", "cd", "cat",
    "ai", "ai interview", "sudo hire", "clear", "history"]

  function AboutOutput(p: Profile): (r: Output)
    ensures r.AboutCard? && r.about == p.about
  {
    AboutCard(p.about)
  }

  /** `social`: the three profile links as the command links them. */
  function SocialOutput(p: Profile): (r: Output)
    ensures r.SocialLinks?
    ensures r.linkedin == LinkedInUrl + p.linkedinUser
    ensures r.github == GitHubUrl + p.githubUser
    ensures r.instagram == InstagramUrl + p.instagramUser
  {
    SocialLinks(LinkedInUrl + p.linkedinUser, GitHubUrl + p.githubUser, InstagramUrl + p.instagramUser)
  }

  const LinkedInUrl: string := "https://www.linkedin.com/in/"
  const GitHubUrl: string := "https://github.com/"
  const InstagramUrl: string := "https://www.instagram.com/"

  /** The GitHub and Instagram links of `social` are the ones `social.txt`
      lists after their labels. */
  lemma SocialAgreesWithFile(p: Profile)
    ensures GitHubPrefix == "GitHub: " + GitHubUrl
    ensures InstagramPrefix == "Instagram: " + InstagramUrl
    ensures SocialOutput(p).github == GitHubPrefix[|"GitHub: "|..] + p.githubUser
    ensures SocialOutput(p).instagram == InstagramPrefix[|"Instagram: "|..] + p.instagramUser
  {
    GitHubPrefixParts();
    InstagramPrefixParts();
    DropPrefix("GitHub: ", GitHubUrl);
    DropPrefix("Instagram: ", InstagramUrl);
  }

  lemma GitHubPrefixParts()
    ensures GitHubPrefix == "GitHub: " + GitHubUrl
  {
  }

  lemma InstagramPrefixParts()
    ensures InstagramPrefix == "Instagram: " + InstagramUrl
  {
  }

  lemma DropPrefix(a: string, b: string)
    ensures (a + b)[|a|..] == b
  {
  }

  /** `skills`: one line per category, its items separated by commas. */
  function SkillsOutput(skills: seq<Skill>): (r: Output)
    ensures r.SkillList? && |r.lines| == |skills|
    ensures forall i :: 0 <= i < |skills| ==>
      && StartsWith(r.lines[i], skills[i].category + ": ")
      && r.lines[i][|skills[i].category| + 2..] == Join(skills[i].items, ", ")
  {
    SkillList(seq(|skills|, i requires 0 <= i < |skills| => SkillLine(skills[i])))
  }

  function SkillLine(s: Skill): string {
    s.category + ": " + Join(s.items, ", ")
  }

  /** `projects`: one card per project, in order. */
  function ProjectsOutput(ps: seq<Project>): (r: Output)
    ensures r.ProjectList? && |r.cards| == |ps|
    ensures forall i :: 0 <= i < |ps| ==> (r.cards[i].name == ps[i].name
      && r.cards[i].description == ps[i].description && r.cards[i].link == ps[i].link
      && r.cards[i].shownLink == RemoveFirst(ps[i].link, "https://"))
  {
    ProjectList(seq(|ps|, i requires 0 <= i < |ps| => Card(ps[i])))
  }

  function Card(p: Project): ProjectCard {
    ProjectCard(p.name, p.description, p.link, RemoveFirst(p.link, "https://"))
  }

  /** `s.replace(pat, '')` with a string pattern: the first occurrence,
      if any, is cut out. */
  function RemoveFirst(s: string, pat: string): (r: string)
    requires |pat| > 0
    ensures r == s <==> Absent(s, pat)
    ensures |r| == (if Absent(s, pat) then |s| else |s| - |pat|)
  {
    var i := FindFrom(s, pat, 0);
    if i < |s| then s[..i] + s[i + |pat|..] else s
  }

  predicate OccursAt(s: string, pat: string, i: nat)
    requires i + |pat| <= |s|
  {
    s[i..i + |pat|] == pat
  }

  /** `pat` occurs at `i` and nowhere before. */
  predicate FirstAt(s: string, pat: string, i: nat) {
    i + |pat| <= |s| && OccursAt(s, pat, i)
    && forall j :: 0 <= j < i ==> !OccursAt(s, pat, j)
  }

  predicate Absent(s: string, pat: string) {
    forall i :: 0 <= i && i + |pat| <= |s| ==> !OccursAt(s, pat, i)
  }

  /** The search of `indexOf` from position `from`: the first place at or
      after it where `pat` occurs, or `|s|` when there is none. */
  function FindFrom(s: string, pat: string, from: nat): (r: nat)
    requires |pat| > 0 && from <= |s|
    ensures from <= r <= |s|
    ensures forall j :: from <= j < r && j + |pat| <= |s| ==> !OccursAt(s, pat, j)
    ensures r < |s| ==> r + |pat| <= |s| && OccursAt(s, pat, r)
    ensures r == |s| ==> forall j :: from <= j && j + |pat| <= |s| ==> !OccursAt(s, pat, j)
    decreases |s| - from
  {
    if from + |pat| > |s| then |s|
    else if OccursAt(s, pat, from) then from
    else FindFrom(s, pat, from + 1)
  }

  /** `RemoveFirst` leaves a string without the pattern alone. */
  lemma RemoveFirstAbsent(s: string, pat: string)
    requires |pat| > 0 && Absent(s, pat)
    ensures RemoveFirst(s, pat) == s
  {
  }

  /** When the pattern occurs, `RemoveFirst` cuts out exactly its first
      occurrence. */
  lemma RemoveFirstPresent(s: string, pat: string)
    requires |pat| > 0 && !Absent(s, pat)
    ensures exists i: nat :: FirstAt(s, pat, i) && RemoveFirst(s, pat) == s[..i] + s[i + |pat|..]
  {
    var i := FindFrom(s, pat, 0);
    assert FirstAt(s, pat, i);
  }

  /** A link that starts with `https://` is shown without it. */
  lemma ShownLinkOfHttps(rest: string)
    ensures RemoveFirst("https://" + rest, "https://") == rest
  {
    assert ("https://" + rest)[..|"https://"|] == "https://";
  }

  /** `neofetch`: the profile's system-information card and a motto. */
  function NeofetchOutput(p: Profile, motto: Quote): (r: Output)
    ensures r.SystemInfo? && r.name == p.name && r.role == p.role && r.contact == p.email
    ensures r.github == "github.com/" + p.githubUser && r.motto == motto
    ensures r.location == p.location && r.status == p.status
  {
    SystemInfo(p.name, p.role, "github.com/" + p.githubUser, p.email, p.location, p.status, motto)
  }

  /** The motto `neofetch` draws: `quotes[Math.floor(Math.random() *
      quotes.length)]`, with the draw given as `roll`. An empty list has
      nothing to draw. */
  function PickQuote(quotes: seq<Quote>, roll: nat): (r: Option<Quote>)
    ensures r.None? <==> |quotes| == 0
    ensures r.Some? ==> r.value in quotes
  {
    if |quotes| == 0 then None else Some(quotes[roll % |quotes|])
  }

  /** Every quote can be drawn. */
  lemma EveryQuoteReachable(quotes: seq<Quote>, i: nat)
    requires i < |quotes|
    ensures PickQuote(quotes, i) == Some(quotes[i])
  {
    assert i % |quotes| == i;
  }

  /** The `about` card and `cat about.txt` from home show the same text. */
  lemma AboutMatchesFile(p: Profile)
    ensures Cat(Build(p), Home, ["about.txt"]) == FileText(AboutOutput(p).about)
  {
    CatFixedFiles(p);
  }
}
