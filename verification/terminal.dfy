/** The terminal window (src/components/Terminal.jsx) as a state machine:
    `processCommand` runs one command line, `handleKeyDown` routes a key
    press, and `handleHireResponse` drives the two questions of the hiring
    wizard. A step yields the next session and, at most, one signal to the
    page around the terminal. */
module Terminal {
  import opened Text
  import opened FileSystem
  import opened Paths
  import opened Shell

  /** `hireMode`: off, waiting for a name, or waiting for an organisation. */
  datatype HireStage = Off | AskName | AskOrg

  /** One block of the terminal's scroll-back. */
  datatype Entry = Welcome | Echo(prompt: string, line: string) | Printed(out: Output)

  /** What a step asks of the page: nothing, to show or hide the terminal,
      or to open a mail draft. */
  datatype Signal = Quiet | ToggleTerminal | Mail(to: string, subject: string, body: string)

  datatype Session = Session(
    cwd: string,
    history: seq<string>,
    historyIndex: int,
    input: string,
    aiChat: bool,
    interview: bool,
    hire: HireStage,
    hireName: Option<string>,
    screen: seq<Entry>)

  /** The fixed data: the profile the tree and the info commands are built
      from, and the mottos `neofetch` draws from. */
  datatype Env = Env(profile: Profile, quotes: seq<Quote>)

  datatype Step = Step(s: Session, signal: Signal)

  /** Key presses and input changes, plus a command sent by a desktop
      icon. `roll` is the random draw `neofetch` would make. */
  datatype Event =
    | Enter(roll: nat)
    | ArrowUp
    | ArrowDown
    | Change(value: string)
    | External(line: string, roll: nat)

  /** The tree is built once when the terminal mounts. */
  function Fs(env: Env): (fs: FileMap)
    ensures IsDir(fs, Home)
  {
    Build(env.profile)
  }

  /** A fresh terminal: at home, nothing typed, only the welcome block. */
  function Init(): (s: Session)
    ensures s.history == [] && s.historyIndex == -1 && s.screen == [Welcome]
    ensures !s.aiChat && !s.interview && s.hire == Off
    ensures s.cwd == Home && DisplayPath(s.cwd) == "~" && s.input == "" && s.hireName.None?
  {
    Session(Home, [], -1, "", false, false, Off, None, [Welcome])
  }

  // --------------------------------------------------------- messages

  const AskNameText: string := "What is your full name?"
  const AskOrgText: string := "What is your organization's name?"
  const InterviewStartText: string := "Starting mock interview... Type 'exit' to end the session."
  const ChatStartText: string := "Starting AI chat session... Type 'exit' to end."
  const BackendNoteText: string := "Note: AI integration requires backend setup."
  const ChatEndedText: string := "AI chat session ended."
  const InterviewEndedText: string := "Interview session ended."
  const UnlockedText: string := "Initializing hiring sequence...\n>> Congratulations, you just unlocked your best hire!"
  const MailSubject: string := "Hiring Inquiry from Your Interactive Portfolio"
  const MailOpening: string := "Hello Prasanth,\n\nMy name is "
  const MailClosing: string := ".\n\nI came across your impressive interactive terminal portfolio and was very impressed with your skills and projects.\n\nI would like to discuss a potential opportunity with you. Please let me know your availability for a brief chat.\n\nBest regards,"

  function NotFoundText(line: string): string {
    "Command not found: " + line + ". Type 'help' for a list of commands."
  }

  function ThanksText(name: string, org: string): string {
    "Thank you, " + name + " from " + org + ". I appreciate you taking the first step to hire me."
  }

  function MailBody(name: string, org: string): string {
    MailOpening + name + " from " + org + MailClosing
  }

  // ---------------------------------------------------- classification

  datatype Command =
    | ClearCmd | LsCmd | CdCmd | CatCmd | ToggleCmd
    | HelpCmd | SocialCmd | AboutCmd | SkillsCmd | ProjectsCmd | HistoryCmd | NeofetchCmd
    | HireCmd | InterviewCmd | ChatCmd
    | Unknown

  /** The words that name a command on their own. */
  predicate IsCommandWord(w: string) {
    w == "clear" || w == "ls" || w == "cd" || w == "cat" || w == "terminal" || w == "term"
    || w == "help" || w == "social" || w == "about" || w == "skills" || w == "projects"
    || w == "history" || w == "neofetch" || w == "ai"
  }

  /** The branch `processCommand` takes for a lower-cased command word and
      its arguments, tried in the source's order. Only the word is
      lower-cased: `sudo HIRE` and `ai INTERVIEW` are not recognised. */
  function Classify(name: string, args: seq<string>): (c: Command)
    ensures c == Unknown <==> !IsCommandWord(name) && !(name == "sudo" && |args| > 0 && args[0] == "hire")
    ensures c == HireCmd <==> name == "sudo" && |args| > 0 && args[0] == "hire"
    ensures c == InterviewCmd <==> name == "ai" && |args| > 0 && args[0] == "interview"
    ensures c == ChatCmd <==> name == "ai" && !(|args| > 0 && args[0] == "interview")
    ensures name == "clear" <==> c == ClearCmd
    ensures name == "ls" <==> c == LsCmd
    ensures name == "cd" <==> c == CdCmd
    ensures name == "cat" <==> c == CatCmd
    ensures name in {"terminal", "term"} <==> c == ToggleCmd
    ensures name == "help" <==> c == HelpCmd
    ensures name == "social" <==> c == SocialCmd
    ensures name == "about" <==> c == AboutCmd
    ensures name == "skills" <==> c == SkillsCmd
    ensures name == "projects" <==> c == ProjectsCmd
    ensures name == "history" <==> c == HistoryCmd
    ensures name == "neofetch" <==> c == NeofetchCmd
  {
    if name == "clear" then ClearCmd
    else if name == "ls" then LsCmd
    else if name == "cd" then CdCmd
    else if name == "cat" then CatCmd
    else if name == "terminal" || name == "term" then ToggleCmd
    else if name == "help" then HelpCmd
    else if name == "social" then SocialCmd
    else if name == "about" then AboutCmd
    else if name == "skills" then SkillsCmd
    else if name == "projects" then ProjectsCmd
    else if name == "history" then HistoryCmd
    else if name == "neofetch" then NeofetchCmd
    else if name == "sudo" && |args| > 0 && args[0] == "hire" then HireCmd
    else if name == "ai" then (if |args| > 0 && args[0] == "interview" then InterviewCmd else ChatCmd)
    else Unknown
  }

  // ---------------------------------------------- prototype lookup

  /** Members every object inherits from `Object.prototype` whose names are
      already lower case, so a lower-cased command word can equal them. */
  predicate InheritedName(w: string) {
    w == "constructor" || w == "__proto__"
  }

  /** Where the dispatch of `processCommand` as written sends a word: a
      command, or an inherited member of the command table. */
  datatype Dispatch = Runs(c: Command) | InheritedMember(name: string)

  /** The dispatch as written: the table lookup between `term` and `sudo`
      is a plain property read, so it also finds inherited members, which
      are truthy and get printed instead of "command not found". */
  function DispatchAsWritten(name: string, args: seq<string>): (d: Dispatch)
    ensures d.InheritedMember? <==> InheritedName(name)
    ensures !InheritedName(name) ==> d == Runs(Classify(name, args))
  {
    if name == "clear" || name == "ls" || name == "cd" || name == "cat" || name == "terminal" || name == "term" then
      Runs(Classify(name, args))
    else if InheritedName(name) then InheritedMember(name)
    else Runs(Classify(name, args))
  }

  /** `constructor` is no command, yet the dispatch as written does not
      report it; the model's dispatch reports it as not found. */
  lemma ConstructorIsNotFound()
    ensures DispatchAsWritten("constructor", []) == InheritedMember("constructor")
    ensures Classify("constructor", []) == Unknown
    ensures DispatchAsWritten("__proto__", []) == InheritedMember("__proto__")
    ensures Classify("__proto__", []) == Unknown
  {
  }

  // --------------------------------------------------------- commands

  function Print(s: Session, o: Output): (r: Session)
    ensures r.screen == s.screen + [Printed(o)]
    ensures r == s.(screen := r.screen)
  {
    s.(screen := s.screen + [Printed(o)])
  }

  /** `processCommand`: a blank line is ignored; any other line is recorded
      in the history (most recent first), echoed after the prompt of the
      directory it was typed in, and then run. */
  function ProcessCommand(env: Env, s: Session, line: string, roll: nat): (r: Step)
    ensures Trim(line) == [] ==> r == Step(s, Quiet)
    ensures Trim(line) != [] ==> r.s.history == [line] + s.history && r.s.historyIndex == -1
    ensures Trim(line) != [] ==> (r.s.screen == [Welcome]
      || (|r.s.screen| > |s.screen| && r.s.screen[..|s.screen| + 1] == s.screen + [Echo(DisplayPath(s.cwd), line)]))
    ensures r.s.input == s.input && r.s.hireName == s.hireName
    ensures !r.signal.Mail?
    ensures r.s.cwd == s.cwd || IsDir(Fs(env), r.s.cwd)
  {
    var t := Trim(line);
    if t == [] then Step(s, Quiet)
    else
      FirstToken(t);
      var toks := Tokens(t);
      var args := toks[1..];
      var s1 := s.(history := [line] + s.history, historyIndex := -1,
                   screen := s.screen + [Echo(DisplayPath(s.cwd), line)]);
      Run(env, s, s1, Classify(ToLower(toks[0]), args), args, line, roll)
  }

  /** The block a printing command shows, if any: the filesystem
      commands read the directory the line was typed in, `history` the
      history before the line. `neofetch` with no motto to draw fails
      before it prints. */
  function Printout(env: Env, s: Session, c: Command, args: seq<string>, line: string, roll: nat): (r: Option<Output>)
    ensures r.None? <==> (c in {ClearCmd, CdCmd, ToggleCmd, HireCmd, InterviewCmd, ChatCmd}
                          || (c == NeofetchCmd && |env.quotes| == 0))
    ensures c == LsCmd ==> r == Some(Ls(Fs(env), s.cwd, args))
    ensures c == CatCmd ==> r == Some(Cat(Fs(env), s.cwd, args))
    ensures c == HistoryCmd ==> r == Some(HistoryOutput(s.history))
    ensures c == NeofetchCmd && r.Some? ==> r.value.SystemInfo? && r.value.motto in env.quotes
    ensures c == Unknown ==> r == Some(Error(NotFoundText(line)))
    ensures c == HelpCmd ==> r == Some(HelpText(HelpCommands))
    ensures c == AboutCmd ==> r == Some(AboutOutput(env.profile))
    ensures c == SocialCmd ==> r == Some(SocialOutput(env.profile))
    ensures c == SkillsCmd ==> r == Some(SkillsOutput(env.profile.skills))
    ensures c == ProjectsCmd ==> r == Some(ProjectsOutput(env.profile.projects))
    ensures c == NeofetchCmd && |env.quotes| > 0 ==>
      r == Some(NeofetchOutput(env.profile, env.quotes[roll % |env.quotes|]))
  {
    var p := env.profile;
    match c
    case LsCmd => Some(Ls(Fs(env), s.cwd, args))
    case CatCmd => Some(Cat(Fs(env), s.cwd, args))
    case HelpCmd => Some(HelpText(HelpCommands))
    case SocialCmd => Some(SocialOutput(p))
    case AboutCmd => Some(AboutOutput(p))
    case SkillsCmd => Some(SkillsOutput(p.skills))
    case ProjectsCmd => Some(ProjectsOutput(p.projects))
    case HistoryCmd => Some(HistoryOutput(s.history))
    case NeofetchCmd =>
      (match PickQuote(env.quotes, roll)
       case None => None
       case Some(q) => Some(NeofetchOutput(p, q)))
    case Unknown => Some(Error(NotFoundText(line)))
    case _ => None
  }

  function PrintAll(s: Session, o: Option<Output>): (r: Session)
    ensures |r.screen| >= |s.screen| && r.screen[..|s.screen|] == s.screen
    ensures r == s.(screen := r.screen)
    ensures o.Some? ==> r.screen == s.screen + [Printed(o.value)]
    ensures o.None? ==> r == s
  {
    match o
    case Some(x) => Print(s, x)
    case None => s
  }

  /** The branch of `processCommand` after the echo; `s` is the session
      before the line, `s1` the one with the line recorded and echoed. */
  function Run(env: Env, s: Session, s1: Session, c: Command, args: seq<string>, line: string, roll: nat): (r: Step)
    ensures r.s.history == s1.history && r.s.historyIndex == s1.historyIndex
    ensures r.s.input == s1.input && r.s.hireName == s1.hireName
    ensures c == ClearCmd ==> r.s.screen == [Welcome]
    ensures c != ClearCmd ==> (|r.s.screen| >= |s1.screen| && r.s.screen[..|s1.screen|] == s1.screen)
    ensures c != CdCmd ==> r.s.cwd == s1.cwd
    ensures c == CdCmd ==> r.s.cwd == Cd(Fs(env), s.cwd, args).cwd
    ensures r.signal == (if c == ToggleCmd then ToggleTerminal else Quiet)
    ensures r.s.hire == (if c == HireCmd then AskName else s1.hire)
    ensures r.s.aiChat == (c == ChatCmd || s1.aiChat)
    ensures r.s.interview == (c == InterviewCmd || s1.interview)
    ensures c == CdCmd ==> r.s.screen == PrintAll(s1, Cd(Fs(env), s.cwd, args).out).screen
    ensures c == ToggleCmd ==> r.s == s1
    ensures c == HireCmd ==> r.s.screen == s1.screen + [Printed(Notice(AskNameText))]
    ensures c == InterviewCmd ==>
      r.s.screen == s1.screen + [Printed(Notice(InterviewStartText)), Printed(Notice(BackendNoteText))]
    ensures c == ChatCmd ==>
      r.s.screen == s1.screen + [Printed(Notice(ChatStartText)), Printed(Notice(BackendNoteText))]
    ensures c !in {ClearCmd, CdCmd, ToggleCmd, HireCmd, InterviewCmd, ChatCmd} ==>
      r.s == PrintAll(s1, Printout(env, s, c, args, line, roll))
  {
    if c == ClearCmd then Step(s1.(screen := [Welcome]), Quiet)
    else if c == CdCmd then
      var res := Cd(Fs(env), s.cwd, args);
      Step(PrintAll(s1.(cwd := res.cwd), res.out), Quiet)
    else if c == ToggleCmd then Step(s1, ToggleTerminal)
    else if c == HireCmd then Step(Print(s1.(hire := AskName), Notice(AskNameText)), Quiet)
    else if c == InterviewCmd then
      Step(Print(Print(s1.(interview := true), Notice(InterviewStartText)), Notice(BackendNoteText)), Quiet)
    else if c == ChatCmd then
      Step(Print(Print(s1.(aiChat := true), Notice(ChatStartText)), Notice(BackendNoteText)), Quiet)
    else Step(PrintAll(s1, Printout(env, s, c, args, line, roll)), Quiet)
  }

  /** `handleHireResponse`: the first answer is kept as the name, the
      second completes the wizard with a mail draft to the profile's
      address. The two-second timer before the draft opens is collapsed
      into the step. */
  function HireResponse(env: Env, s: Session, response: string): (r: Step)
    ensures s.hire == Off ==> r == Step(s, Quiet)
    ensures s.hire == AskName ==> r.s.hire == AskOrg && r.s.hireName == Some(response) && r.signal == Quiet
    ensures s.hire == AskOrg ==> (r.s.hire == Off && r.s.hireName == None
      && r.signal == Mail(env.profile.email, MailSubject, MailBody(HireName(s), response)))
    ensures s.hire != Off ==> |r.s.screen| > |s.screen| && r.s.screen[..|s.screen|] == s.screen
    ensures s.hire == AskName ==> r.s.screen == s.screen + [Printed(Notice(AskOrgText))]
    ensures s.hire == AskOrg ==>
      r.s.screen == s.screen + [Printed(Notice(ThanksText(HireName(s), response))), Printed(Notice(UnlockedText))]
    ensures r.s.history == s.history && r.s.historyIndex == s.historyIndex && r.s.cwd == s.cwd
    ensures r.s.input == s.input && r.s.aiChat == s.aiChat && r.s.interview == s.interview
  {
    match s.hire
    case Off => Step(s, Quiet)
    case AskName => Step(Print(s.(hireName := Some(response), hire := AskOrg), Notice(AskOrgText)), Quiet)
    case AskOrg =>
      var name := HireName(s);
      var s1 := Print(Print(s, Notice(ThanksText(name, response))), Notice(UnlockedText));
      Step(s1.(hire := Off, hireName := None), Mail(env.profile.email, MailSubject, MailBody(name, response)))
  }

  /** The thank-you notice names the visitor and their organisation. */
  lemma ThanksNamesBoth(name: string, org: string)
    ensures var t := ThanksText(name, org);
      && |t| >= 17 + |name| + |org|
      && t[11..11 + |name|] == name
      && t[17 + |name|..17 + |name| + |org|] == org
  {
  }

  /** The stored name, or what `${undefined}` renders when there is none. */
  function HireName(s: Session): string {
    match s.hireName
    case Some(n) => n
    case None => "undefined"
  }

  /** The history index stays on an entry of the history, or at -1. */
  predicate IndexInRange(s: Session) {
    -1 <= s.historyIndex < |s.history|
  }

  /** The typed text lower-cased and trimmed is `exit`. */
  predicate IsExit(input: string) {
    Trim(ToLower(input)) == "exit"
  }

  /** `exit` in any mix of cases with only white space around it. */
  predicate ExitSpelled(input: string) {
    exists i, j :: 0 <= i <= j <= |input| && ExitAt(input, i, j)
  }

  predicate ExitAt(input: string, i: nat, j: nat)
    requires i <= j <= |input|
  {
    AllSpace(input[..i]) && ToLower(input[i..j]) == "exit" && AllSpace(input[j..])
  }

  /** The exit test accepts exactly `exit` in any mix of cases with any
      white space around it. */
  lemma IsExitMeans(input: string)
    ensures IsExit(input) <==> ExitSpelled(input)
  {
    if IsExit(input) {
      ExitShape(input);
    }
    if ExitSpelled(input) {
      ExitFromSpelling(input);
    }
  }

  lemma ExitFromSpelling(input: string)
    requires ExitSpelled(input)
    ensures IsExit(input)
  {
    var i, j :| 0 <= i <= j <= |input| && ExitAt(input, i, j);
    var pre, w, post := input[..i], input[i..j], input[j..];
    assert input == pre + w + post;
    ExitIgnoresCaseAndBlanks(pre, w, post);
  }

  lemma ExitIgnoresCaseAndBlanks(pre: string, w: string, post: string)
    requires AllSpace(pre) && AllSpace(post) && ToLower(w) == "exit"
    ensures IsExit(pre + w + post)
  {
    ToLowerConcat(pre + w, post);
    ToLowerConcat(pre, w);
    ToLowerSpaces(pre);
    ToLowerSpaces(post);
    TrimFlanked(pre, "exit", post);
  }

  lemma ExitShape(input: string)
    requires IsExit(input)
    ensures ExitSpelled(input)
  {
    var l := ToLower(input);
    var a := SkipSpaces(l, 0);
    var b := SkipSpacesBack(l, a, |l|);
    assert l[a..b] == "exit";
    forall k | 0 <= k < a || b <= k < |l| ensures IsJsSpace(input[k]) {
      ToLowerKeepsSpaces(input, k);
    }
    SpacesOutside(input, a, b);
    ToLowerSlice(input, a, b);
    assert ExitAt(input, a, b);
  }

  /** Enter in `handleKeyDown`: `exit` ends an AI chat, then an
      interview; otherwise an active hiring wizard takes the line; only
      then is it run as a command. The input is cleared in every case. */
  function Submit(env: Env, s: Session, roll: nat): (r: Step)
    ensures r.s.input == ""
    ensures s.aiChat && IsExit(s.input) ==>
      r == Step(Print(s.(aiChat := false), Notice(ChatEndedText)).(input := ""), Quiet)
    ensures !(s.aiChat && IsExit(s.input)) && s.interview && IsExit(s.input) ==>
      r == Step(Print(s.(interview := false), Notice(InterviewEndedText)).(input := ""), Quiet)
    ensures r.s.history == s.history || (s.hire == Off && r.s.history == [s.input] + s.history)
    ensures r.s.historyIndex == s.historyIndex || r.s.historyIndex == -1
  {
    if s.aiChat && IsExit(s.input) then
      Step(Print(s.(aiChat := false), Notice(ChatEndedText)).(input := ""), Quiet)
    else if s.interview && IsExit(s.input) then
      Step(Print(s.(interview := false), Notice(InterviewEndedText)).(input := ""), Quiet)
    else if s.hire != Off then
      var st := HireResponse(env, s, s.input);
      Step(st.s.(input := ""), st.signal)
    else
      var st := ProcessCommand(env, s, s.input, roll);
      Step(st.s.(input := ""), st.signal)
  }

  /** The arrow keys: up moves to an older entry while there is one, down
      to a newer one or, past the newest, back to an empty line. The
      recalled entry is placed in the input. */
  function Recall(s: Session, up: bool): (r: Session)
    requires IndexInRange(s)
    ensures IndexInRange(r)
    ensures r == s.(historyIndex := r.historyIndex, input := r.input)
    ensures r.historyIndex >= 0 && r.historyIndex != s.historyIndex ==> r.input == s.history[r.historyIndex]
    ensures up ==> r.historyIndex == (if s.historyIndex < |s.history| - 1 then s.historyIndex + 1 else s.historyIndex)
    ensures up && r.historyIndex == s.historyIndex ==> r.input == s.input
    ensures !up ==> r.historyIndex == (if s.historyIndex > 0 then s.historyIndex - 1 else -1)
    ensures !up && r.historyIndex == -1 ==> r.input == ""
  {
    if up then
      if s.historyIndex < |s.history| - 1 then
        var n := s.historyIndex + 1;
        s.(historyIndex := n, input := s.history[n])
      else s
    else
      if s.historyIndex > 0 then
        var n := s.historyIndex - 1;
        s.(historyIndex := n, input := s.history[n])
      else s.(historyIndex := -1, input := "")
  }

  /** `handleKeyDown` and `handleInputChange`, plus a command sent by a
      desktop icon, which runs as if typed but leaves the input alone. */
  function KeyDown(env: Env, s: Session, ev: Event): (r: Step)
    requires IndexInRange(s)
    ensures IndexInRange(r.s)
    ensures ev.Change? ==> r == Step(s.(input := ev.value), Quiet)
    ensures (ev.ArrowUp? || ev.ArrowDown?) ==> r.signal == Quiet && r.s.history == s.history
    ensures r.s.history == s.history || (|r.s.history| == |s.history| + 1 && r.s.history[1..] == s.history)
  {
    match ev
    case Enter(roll) => Submit(env, s, roll)
    case ArrowUp => Step(Recall(s, true), Quiet)
    case ArrowDown => Step(Recall(s, false), Quiet)
    case Change(v) => Step(s.(input := v), Quiet)
    case External(line, roll) => ProcessCommand(env, s, line, roll)
  }

  // -------------------------------------------------------- invariants

  /** What every reachable session satisfies: the directory exists, the
      history index is in range, a stored name accompanies the second
      question of the wizard, and the welcome block heads the screen. */
  predicate Inv(env: Env, s: Session) {
    && IsDir(Fs(env), s.cwd)
    && IndexInRange(s)
    && (s.hire == AskOrg ==> s.hireName.Some?)
    && |s.screen| > 0 && s.screen[0] == Welcome
  }

  lemma InitInv(env: Env)
    ensures Inv(env, Init())
  {
  }

  lemma ProcessCommandInv(env: Env, s: Session, line: string, roll: nat)
    requires Inv(env, s)
    ensures Inv(env, ProcessCommand(env, s, line, roll).s)
  {
    var r := ProcessCommand(env, s, line, roll);
    if Trim(line) != [] && r.s.screen != [Welcome] {
      assert r.s.screen[0] == r.s.screen[..|s.screen| + 1][0];
    }
  }

  lemma HireResponseInv(env: Env, s: Session, response: string)
    requires Inv(env, s)
    ensures Inv(env, HireResponse(env, s, response).s)
  {
    var r := HireResponse(env, s, response);
    if s.hire != Off {
      assert r.s.screen[0] == r.s.screen[..|s.screen|][0];
    }
  }

  /** Every event keeps the invariant. */
  lemma KeyDownInv(env: Env, s: Session, ev: Event)
    requires Inv(env, s)
    ensures Inv(env, KeyDown(env, s, ev).s)
  {
    match ev
    case Enter(roll) =>
      if s.aiChat && IsExit(s.input) {
      } else if s.interview && IsExit(s.input) {
      } else if s.hire != Off {
        HireResponseInv(env, s, s.input);
      } else {
        ProcessCommandInv(env, s, s.input, roll);
      }
    case External(line, roll) => ProcessCommandInv(env, s, line, roll);
    case ArrowUp =>
    case ArrowDown =>
    case Change(v) =>
  }

  /** A run of events from `s`: the final session and the signals raised,
      in order. */
  function Replay(env: Env, s: Session, evs: seq<Event>): (r: (Session, seq<Signal>))
    requires IndexInRange(s)
    ensures IndexInRange(r.0)
    decreases |evs|
  {
    if |evs| == 0 then (s, [])
    else
      var st := KeyDown(env, s, evs[0]);
      var rest := Replay(env, st.s, evs[1..]);
      (rest.0, (if st.signal == Quiet then [] else [st.signal]) + rest.1)
  }

  /** Every session reachable from a fresh terminal satisfies the
      invariant. */
  lemma {:induction false} ReplayInv(env: Env, s: Session, evs: seq<Event>)
    requires Inv(env, s)
    ensures Inv(env, Replay(env, s, evs).0)
    decreases |evs|
  {
    if |evs| > 0 {
      KeyDownInv(env, s, evs[0]);
      ReplayInv(env, KeyDown(env, s, evs[0]).s, evs[1..]);
    }
  }

  /** `a` ends `b`. */
  predicate IsSuffix(a: seq<string>, b: seq<string>) {
    |a| <= |b| && b[|b| - |a|..] == a
  }

  lemma SuffixTrans(a: seq<string>, b: seq<string>, c: seq<string>)
    requires IsSuffix(a, b) && IsSuffix(b, c)
    ensures IsSuffix(a, c)
  {
    assert c[|c| - |a|..] == c[|c| - |b|..][|b| - |a|..];
  }

  /** The history only ever grows at its front: an earlier history is
      always a suffix of a later one. */
  lemma {:induction false} ReplayHistorySuffix(env: Env, s: Session, evs: seq<Event>)
    requires IndexInRange(s)
    ensures IsSuffix(s.history, Replay(env, s, evs).0.history)
    decreases |evs|
  {
    if |evs| == 0 {
      assert s.history[0..] == s.history;
    } else {
      var st := KeyDown(env, s, evs[0]);
      ReplayHistorySuffix(env, st.s, evs[1..]);
      assert IsSuffix(s.history, st.s.history) by {
        assert s.history[0..] == s.history;
      }
      SuffixTrans(s.history, st.s.history, Replay(env, st.s, evs[1..]).0.history);
    }
  }
}
