/** The virtual filesystem the terminal browses (`createFileSystem` in
    src/data/filesystem.js): a map from absolute path strings to directory
    and file nodes, built from the profile data. */
module FileSystem {
  import opened Text

  datatype Node = Dir(children: seq<string>) | File(content: string)

  type FileMap = map<string, Node>

  datatype Skill = Skill(category: string, items: seq<string>)

  datatype Project = Project(name: string, description: string, link: string)

  /** The fields of `profileData` the terminal reads. */
  datatype Profile = Profile(
    name: string,
    role: string,
    email: string,
    githubUser: string,
    linkedinUser: string,
    instagramUser: string,
    about: string,
    skills: seq<Skill>,
    projects: seq<Project>,
    location: string,
    status: string)

  const Root: string := "/"
  const HomeParent: string := "/home"
  const Home: string := "/home/prasanth"
  const ProjectsDir: string := "/home/prasanth/projects"
  const AboutFile: string := "/home/prasanth/about.txt"
  const SkillsFile: string := "/home/prasanth/skills.txt"
  const SocialFile: string := "/home/prasanth/social.txt"

  predicate IsDir(fs: FileMap, path: string) {
    path in fs && fs[path].Dir?
  }

  predicate IsFile(fs: FileMap, path: string) {
    path in fs && fs[path].File?
  }

  /** The key of entry `name` of directory `dir`, as `ls` builds it: the
      root contributes no prefix of its own. */
  function ChildKey(dir: string, name: string): string {
    (if dir == Root then "" else dir) + "/" + name
  }

  /** Every name listed in a directory has a node of its own. */
  predicate Closed(fs: FileMap) {
    forall d | d in fs && fs[d].Dir? :: EntriesPresent(fs, d)
  }

  predicate EntriesPresent(fs: FileMap, d: string)
    requires IsDir(fs, d)
  {
    forall i :: 0 <= i < |fs[d].children| ==> ChildKey(d, fs[d].children[i]) in fs
  }

  /** A project's file name: its display name lower-cased, each space made
      a hyphen, with `.md` appended. */
  function ProjectFileName(p: Project): (r: string)
    ensures |r| == |p.name| + 3 && r[|p.name|..] == ".md"
    ensures ' ' !in r
    ensures forall i :: 0 <= i < |r| ==> !LowersToAscii(r[i])
    ensures forall i :: 0 <= i < |p.name| && p.name[i] != ' ' ==> r[i] == LowerChar(p.name[i])
    ensures forall i :: 0 <= i < |p.name| && p.name[i] == ' ' ==> r[i] == '-'
  {
    HyphenateSpaces(ToLower(p.name)) + ".md"
  }

  function ProjectFileNames(ps: seq<Project>): (r: seq<string>)
    ensures |r| == |ps|
    ensures forall i :: 0 <= i < |ps| ==> r[i] == ProjectFileName(ps[i])
  {
    seq(|ps|, i requires 0 <= i < |ps| => ProjectFileName(ps[i]))
  }

  function ProjectKey(fileName: string): string {
    ProjectsDir + "/" + fileName
  }

  /** The key a project's file is stored under. */
  function ProjectPath(p: Project): string {
    ProjectKey(ProjectFileName(p))
  }

  /** The keys the projects write, one per distinct file name. */
  function ProjectPaths(ps: seq<Project>): (r: set<string>)
    ensures forall i :: 0 <= i < |ps| ==> ProjectPath(ps[i]) in r
    ensures forall k :: k in r ==> exists i :: 0 <= i < |ps| && ProjectPath(ps[i]) == k
    decreases |ps|
  {
    if |ps| == 0 then {}
    else
      var rest := ProjectPaths(ps[1..]);
      assert forall i :: 1 <= i < |ps| ==> ps[i] == ps[1..][i - 1];
      assert forall k :: k in rest ==> exists i :: 1 <= i < |ps| && ProjectPath(ps[i]) == k by {
        forall k | k in rest ensures exists i :: 1 <= i < |ps| && ProjectPath(ps[i]) == k {
          var j :| 0 <= j < |ps| - 1 && ProjectPath(ps[1..][j]) == k;
          assert ProjectPath(ps[j + 1]) == k;
        }
      }
      {ProjectPath(ps[0])} + rest
  }

  /** The Markdown body of a project's file: a title line, a blank line, the
      description, a blank line and the link. */
  function ProjectContent(p: Project): string {
    "# " + p.name + "\n" + "\n" + p.description + "\n" + "\n" + "Link: " + p.link
  }

  /** One category of `skills.txt`: the category, a colon, then its items
      each on a line introduced by two spaces and a dash. */
  function SkillSection(s: Skill): string {
    s.category + ":" + "\n" + Bullet + Join(s.items, "\n" + Bullet)
  }

  const Bullet: string := "  - "

  function SkillSections(skills: seq<Skill>): (r: seq<string>)
    ensures |r| == |skills|
    ensures forall i :: 0 <= i < |skills| ==> r[i] == SkillSection(skills[i])
  {
    seq(|skills|, i requires 0 <= i < |skills| => SkillSection(skills[i]))
  }

  function SkillsText(skills: seq<Skill>): string {
    Join(SkillSections(skills), "\n" + "\n")
  }

  function SocialText(p: Profile): string {
    LinkedInPrefix + p.linkedinUser
    + "\n" + GitHubPrefix + p.githubUser
    + "\n" + InstagramPrefix + p.instagramUser
  }

  const LinkedInPrefix: string := "LinkedIn: https://linkedin.com/in/"
  const GitHubPrefix: string := "GitHub: https://github.com/"
  const InstagramPrefix: string := "Instagram: https://www.instagram.com/"

  /** The fixed part of the tree, before the project files are added. */
  function BaseTree(p: Profile): (r: FileMap)
    ensures r.Keys == {Root, HomeParent, Home, AboutFile, SkillsFile, SocialFile, ProjectsDir}
  {
    map[
      Root := Dir(["home"]),
      HomeParent := Dir(["prasanth"]),
      Home := Dir(["about.txt", "skills.txt", "social.txt", "projects"]),
      AboutFile := File(p.about),
      SkillsFile := File(SkillsText(p.skills)),
      SocialFile := File(SocialText(p)),
      ProjectsDir := Dir(ProjectFileNames(p.projects))
    ]
  }

  /** No later project in `ps` writes the same key as project `i`. */
  predicate LastOfItsName(ps: seq<Project>, i: nat)
    requires i < |ps|
  {
    forall j :: i < j < |ps| ==> ProjectPath(ps[j]) != ProjectPath(ps[i])
  }

  /** The `forEach` over the projects: each writes its file node in turn. */
  function AddProjects(fs: FileMap, ps: seq<Project>): (r: FileMap)
    ensures forall k :: k in fs ==> k in r
    ensures forall k :: k in fs && fs[k].File? ==> r[k].File?
    ensures forall i :: 0 <= i < |ps| ==> ProjectPath(ps[i]) in r && r[ProjectPath(ps[i])].File?
    decreases |ps|
  {
    if |ps| == 0 then fs
    else
      var r := AddProjects(fs[ProjectPath(ps[0]) := File(ProjectContent(ps[0]))], ps[1..]);
      assert forall i :: 1 <= i < |ps| ==> ps[i] == ps[1..][i - 1];
      r
  }

  /** The `forEach` adds exactly one key per project file name. */
  lemma {:induction false} AddProjectsKeys(fs: FileMap, ps: seq<Project>)
    ensures AddProjects(fs, ps).Keys == fs.Keys + ProjectPaths(ps)
    decreases |ps|
  {
    if |ps| > 0 {
      AddProjectsKeys(fs[ProjectPath(ps[0]) := File(ProjectContent(ps[0]))], ps[1..]);
    }
  }

  /** Nodes at keys no project writes are left as they were. */
  lemma {:induction false} AddProjectsKeepsOthers(fs: FileMap, ps: seq<Project>, k: string)
    requires k in fs && k !in ProjectPaths(ps)
    ensures k in AddProjects(fs, ps) && AddProjects(fs, ps)[k] == fs[k]
    decreases |ps|
  {
    if |ps| > 0 {
      AddProjectsKeepsOthers(fs[ProjectPath(ps[0]) := File(ProjectContent(ps[0]))], ps[1..], k);
    }
  }

  /** The `forEach` never creates or replaces a directory. */
  lemma {:induction false} AddProjectsKeepsDirs(fs: FileMap, ps: seq<Project>, k: string)
    requires k in AddProjects(fs, ps) && AddProjects(fs, ps)[k].Dir?
    ensures k in fs && AddProjects(fs, ps)[k] == fs[k]
    decreases |ps|
  {
    if |ps| > 0 {
      AddProjectsKeepsDirs(fs[ProjectPath(ps[0]) := File(ProjectContent(ps[0]))], ps[1..], k);
    }
  }

  /** A project no later project shares a file name with keeps its node:
      on a clash the later project wins. */
  lemma {:induction false} AddProjectsLastWins(fs: FileMap, ps: seq<Project>, i: nat)
    requires i < |ps| && LastOfItsName(ps, i)
    ensures ProjectPath(ps[i]) in AddProjects(fs, ps)
    ensures AddProjects(fs, ps)[ProjectPath(ps[i])] == File(ProjectContent(ps[i]))
    decreases |ps|
  {
    var key := ProjectPath(ps[0]);
    var fs' := fs[key := File(ProjectContent(ps[0]))];
    if i == 0 {
      AddProjectsKeepsOthers(fs', ps[1..], key);
    } else {
      assert ps[1..][i - 1] == ps[i];
      assert LastOfItsName(ps[1..], i - 1) by {
        forall j | i - 1 < j < |ps| - 1 ensures ProjectPath(ps[1..][j]) != ProjectPath(ps[1..][i - 1]) {
          assert ps[1..][j] == ps[j + 1];
        }
      }
      AddProjectsLastWins(fs', ps[1..], i - 1);
    }
  }

  /** `createFileSystem`: the fixed tree, then the project files. */
  function Build(p: Profile): (fs: FileMap)
    ensures IsDir(fs, Root) && IsDir(fs, HomeParent) && IsDir(fs, Home) && IsDir(fs, ProjectsDir)
  {
    BuildFixedDirs(p);
    AddProjects(BaseTree(p), p.projects)
  }

  lemma BaseTreeDirs(p: Profile)
    ensures var base := BaseTree(p);
      && Root in base && base[Root] == Dir(["home"])
      && HomeParent in base && base[HomeParent] == Dir(["prasanth"])
      && Home in base && base[Home] == Dir(["about.txt", "skills.txt", "social.txt", "projects"])
      && ProjectsDir in base && base[ProjectsDir] == Dir(ProjectFileNames(p.projects))
  {
  }

  lemma BaseTreeFiles(p: Profile)
    ensures var base := BaseTree(p);
      && AboutFile in base && base[AboutFile] == File(p.about)
      && SkillsFile in base && base[SkillsFile] == File(SkillsText(p.skills))
      && SocialFile in base && base[SocialFile] == File(SocialText(p))
  {
  }

  lemma BaseTreeOnlyDirs(p: Profile, k: string)
    requires k in BaseTree(p) && BaseTree(p)[k].Dir?
    ensures k == Root || k == HomeParent || k == Home || k == ProjectsDir
  {
  }

  /** The four directories of the fixed tree, with their listings. */
  lemma BuildFixedDirs(p: Profile)
    ensures var fs := AddProjects(BaseTree(p), p.projects);
      && Root in fs && fs[Root] == Dir(["home"])
      && HomeParent in fs && fs[HomeParent] == Dir(["prasanth"])
      && Home in fs && fs[Home] == Dir(["about.txt", "skills.txt", "social.txt", "projects"])
      && ProjectsDir in fs && fs[ProjectsDir] == Dir(ProjectFileNames(p.projects))
  {
    var base := BaseTree(p);
    BaseTreeDirs(p);
    FixedKeysNotWritten(p.projects);
    AddProjectsKeepsOthers(base, p.projects, Root);
    AddProjectsKeepsOthers(base, p.projects, HomeParent);
    AddProjectsKeepsOthers(base, p.projects, Home);
    AddProjectsKeepsOthers(base, p.projects, ProjectsDir);
  }

  /** `about.txt`, `skills.txt` and `social.txt` hold the profile's text. */
  lemma BuildFixedFiles(p: Profile)
    ensures var fs := Build(p);
      && AboutFile in fs && fs[AboutFile] == File(p.about)
      && SkillsFile in fs && fs[SkillsFile] == File(SkillsText(p.skills))
      && SocialFile in fs && fs[SocialFile] == File(SocialText(p))
  {
    var base := BaseTree(p);
    BaseTreeFiles(p);
    FixedKeysNotWritten(p.projects);
    AddProjectsKeepsOthers(base, p.projects, AboutFile);
    AddProjectsKeepsOthers(base, p.projects, SkillsFile);
    AddProjectsKeepsOthers(base, p.projects, SocialFile);
  }

  /** The four fixed directories are the only directories of the tree. */
  lemma BuildDirs(p: Profile)
    ensures forall k :: IsDir(Build(p), k) <==> k == Root || k == HomeParent || k == Home || k == ProjectsDir
  {
    var fs := Build(p);
    forall k | IsDir(fs, k)
      ensures k == Root || k == HomeParent || k == Home || k == ProjectsDir
    {
      AddProjectsKeepsDirs(BaseTree(p), p.projects, k);
      BaseTreeOnlyDirs(p, k);
    }
  }

  /** Each project has a file in `projects/` under its derived name; the
      node holds the last project of that name. */
  lemma BuildProjectFiles(p: Profile)
    ensures forall i :: 0 <= i < |p.projects| ==> ProjectPath(p.projects[i]) in Build(p)
    ensures forall i :: 0 <= i < |p.projects| && LastOfItsName(p.projects, i) ==>
      Build(p)[ProjectPath(p.projects[i])] == File(ProjectContent(p.projects[i]))
    ensures Build(p).Keys == BaseTree(p).Keys + ProjectPaths(p.projects)
  {
    var base := BaseTree(p);
    AddProjectsKeys(base, p.projects);
    forall i | 0 <= i < |p.projects| && LastOfItsName(p.projects, i)
      ensures Build(p)[ProjectPath(p.projects[i])] == File(ProjectContent(p.projects[i]))
    {
      AddProjectsLastWins(base, p.projects, i);
    }
  }

  /** Project keys are longer than every fixed key, so no project file can
      replace a node of the fixed tree. */
  lemma FixedKeysNotWritten(ps: seq<Project>)
    ensures forall k :: k in ProjectPaths(ps) ==> |k| >= |ProjectsDir| + 4
    ensures Root !in ProjectPaths(ps) && HomeParent !in ProjectPaths(ps) && Home !in ProjectPaths(ps)
    ensures ProjectsDir !in ProjectPaths(ps) && AboutFile !in ProjectPaths(ps)
    ensures SkillsFile !in ProjectPaths(ps) && SocialFile !in ProjectPaths(ps)
  {
    assert |ProjectsDir| == 23 && |SkillsFile| == 25 && |SocialFile| == 25 && |AboutFile| == 24;
  }

  /** Every directory entry of the built tree resolves to a node. */
  lemma BuildClosed(p: Profile)
    ensures Closed(Build(p))
  {
    var fs := Build(p);
    BuildDirs(p);
    BuildFixedDirs(p);
    FixedChildKeys();
    forall d | IsDir(fs, d) ensures EntriesPresent(fs, d) {
      if d == Root || d == HomeParent {
        BuildFixedDirs(p);
      } else if d == Home {
        BuildFixedFiles(p);
      } else {
        BuildProjectFiles(p);
        forall i | 0 <= i < |p.projects|
          ensures ChildKey(ProjectsDir, ProjectFileNames(p.projects)[i]) in fs
        {
          assert ChildKey(ProjectsDir, ProjectFileNames(p.projects)[i]) == ProjectPath(p.projects[i]);
        }
      }
    }
  }

  lemma FixedChildKeys()
    ensures ChildKey(Root, "home") == HomeParent
    ensures ChildKey(HomeParent, "prasanth") == Home
    ensures ChildKey(Home, "about.txt") == AboutFile
    ensures ChildKey(Home, "skills.txt") == SkillsFile
    ensures ChildKey(Home, "social.txt") == SocialFile
    ensures ChildKey(Home, "projects") == ProjectsDir
  {
  }

  /** Two projects whose names give the same file name: the directory lists
      the name twice, and the single node holds the second project. */
  lemma CollidingProjects(p: Profile)
    requires |p.projects| == 2
    requires ProjectFileName(p.projects[0]) == ProjectFileName(p.projects[1])
    ensures var f := ProjectFileName(p.projects[1]);
      Build(p)[ProjectsDir] == Dir([f, f])
      && ProjectKey(f) in Build(p)
      && Build(p)[ProjectKey(f)] == File(ProjectContent(p.projects[1]))
  {
    BuildFixedDirs(p);
    BuildProjectFiles(p);
    assert LastOfItsName(p.projects, 1);
    assert ProjectFileNames(p.projects) == [ProjectFileName(p.projects[1]), ProjectFileName(p.projects[1])];
  }

  /** `skills.txt` read line by line: for each category a `category:` line
      and one `  - item` line per item, categories separated by one blank
      line. A category with no items still gets one bare `  - ` line. */
  function SkillLines(skills: seq<Skill>): seq<string>
    decreases |skills|
  {
    if |skills| == 0 then [""]
    else if |skills| == 1 then SectionLines(skills[0])
    else SectionLines(skills[0]) + [""] + SkillLines(skills[1..])
  }

  function SectionLines(s: Skill): seq<string> {
    [s.category + ":"]
    + (if |s.items| == 0 then [Bullet]
       else seq(|s.items|, j requires 0 <= j < |s.items| => Bullet + s.items[j]))
  }

  predicate NoNewline(s: string) {
    '\n' !in s
  }

  predicate SkillsSingleLine(skills: seq<Skill>) {
    forall i :: 0 <= i < |skills| ==>
      NoNewline(skills[i].category)
      && forall j :: 0 <= j < |skills[i].items| ==> NoNewline(skills[i].items[j])
  }

  /** Splitting a join whose separator is a newline followed by `pre`, with
      `pre` also in front: every piece comes out with `pre` in front. */
  lemma {:induction false} SplitPrefixedJoin(pre: string, xs: seq<string>)
    requires |xs| > 0 && NoNewline(pre)
    requires forall j :: 0 <= j < |xs| ==> NoNewline(xs[j])
    ensures Split(pre + Join(xs, "\n" + pre), '\n')
      == seq(|xs|, j requires 0 <= j < |xs| => pre + xs[j])
    decreases |xs|
  {
    if |xs| == 1 {
      SplitNoSep(pre + xs[0], '\n');
    } else {
      var rest := Join(xs[1..], "\n" + pre);
      assert pre + Join(xs, "\n" + pre) == (pre + xs[0]) + ['\n'] + (pre + rest);
      SplitConcat(pre + xs[0], pre + rest, '\n');
      SplitNoSep(pre + xs[0], '\n');
      SplitPrefixedJoin(pre, xs[1..]);
    }
  }

  lemma SectionSplit(s: Skill)
    requires NoNewline(s.category)
    requires forall j :: 0 <= j < |s.items| ==> NoNewline(s.items[j])
    ensures Split(SkillSection(s), '\n') == SectionLines(s)
  {
    var body := Bullet + Join(s.items, "\n" + Bullet);
    assert SkillSection(s) == (s.category + ":") + ['\n'] + body;
    SplitConcat(s.category + ":", body, '\n');
    SplitNoSep(s.category + ":", '\n');
    if |s.items| == 0 {
      assert body == Bullet;
      SplitNoSep(Bullet, '\n');
    } else {
      SplitPrefixedJoin(Bullet, s.items);
    }
  }

  /** Reading `skills.txt` line by line gives the layout of `SkillLines`. */
  lemma {:induction false} SkillsTextLines(skills: seq<Skill>)
    requires SkillsSingleLine(skills)
    ensures Split(SkillsText(skills), '\n') == SkillLines(skills)
    decreases |skills|
  {
    var sections := SkillSections(skills);
    if |skills| == 0 {
      assert SkillsText(skills) == "";
    } else if |skills| == 1 {
      assert SkillsText(skills) == SkillSection(skills[0]);
      SectionSplit(skills[0]);
    } else {
      assert sections[1..] == SkillSections(skills[1..]);
      var rest := SkillsText(skills[1..]);
      var first := SkillSection(skills[0]);
      assert SkillsText(skills) == first + ['\n'] + ([] + ['\n'] + rest);
      SplitConcat(first, [] + ['\n'] + rest, '\n');
      SplitConcat([], rest, '\n');
      SectionSplit(skills[0]);
      SkillsSingleLineTail(skills);
      SkillsTextLines(skills[1..]);
    }
  }

  lemma SkillsSingleLineTail(skills: seq<Skill>)
    requires |skills| > 0 && SkillsSingleLine(skills)
    ensures SkillsSingleLine(skills[1..])
  {
    forall i | 0 <= i < |skills| - 1 ensures skills[1..][i] == skills[i + 1] { }
  }

  /** A project's file read line by line: title, blank, description, blank,
      link. */
  lemma ProjectContentLines(p: Project)
    requires NoNewline(p.name) && NoNewline(p.description) && NoNewline(p.link)
    ensures Split(ProjectContent(p), '\n') == ["# " + p.name, "", p.description, "", "Link: " + p.link]
  {
    var a := "# " + p.name;
    var b := p.description;
    var c := "Link: " + p.link;
    assert ProjectContent(p) == a + ['\n'] + ([] + ['\n'] + (b + ['\n'] + ([] + ['\n'] + c)));
    SplitConcat(a, [] + ['\n'] + (b + ['\n'] + ([] + ['\n'] + c)), '\n');
    SplitConcat([], b + ['\n'] + ([] + ['\n'] + c), '\n');
    SplitConcat(b, [] + ['\n'] + c, '\n');
    SplitConcat([], c, '\n');
    SplitNoSep(a, '\n');
    SplitNoSep(b, '\n');
    SplitNoSep(c, '\n');
  }

  lemma PrefixesSingleLine()
    ensures NoNewline(LinkedInPrefix) && NoNewline(GitHubPrefix) && NoNewline(InstagramPrefix)
  {
    LiteralSingleLine(LinkedInPrefix);
    LiteralSingleLine(GitHubPrefix);
    LiteralSingleLine(InstagramPrefix);
  }

  lemma LiteralSingleLine(s: string)
    requires forall i :: 0 <= i < |s| ==> s[i] != '\n'
    ensures NoNewline(s)
  {
  }

  /** `social.txt` read line by line: one line per network. */
  lemma SocialTextLines(p: Profile)
    requires NoNewline(p.linkedinUser) && NoNewline(p.githubUser) && NoNewline(p.instagramUser)
    ensures Split(SocialText(p), '\n') == [
      LinkedInPrefix + p.linkedinUser, GitHubPrefix + p.githubUser, InstagramPrefix + p.instagramUser]
  {
    var a := LinkedInPrefix + p.linkedinUser;
    var b := GitHubPrefix + p.githubUser;
    var c := InstagramPrefix + p.instagramUser;
    assert SocialText(p) == a + ['\n'] + (b + ['\n'] + c);
    SplitConcat(a, b + ['\n'] + c, '\n');
    SplitConcat(b, c, '\n');
    PrefixesSingleLine();
    SplitNoSep(a, '\n');
    SplitNoSep(b, '\n');
    SplitNoSep(c, '\n');
  }
}
