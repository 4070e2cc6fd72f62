/** Properties of whole interactions with the terminal: what a user who
    types a sequence of lines and keys sees, proved from the step
    functions. */
module Scenarios {
  import opened Text
  import opened FileSystem
  import opened Paths
  import opened Shell
  import opened Terminal

  // ------------------------------------------------------ plain lines

  /** A word of lower-case ASCII letters. */
  predicate LowerWord(w: string) {
    |w| > 0 && forall i :: 0 <= i < |w| ==> 'a' <= w[i] <= 'z'
  }

  /** Proof helper: a lower-case word is its own lower case and holds no space. */
  lemma LowerWordFacts(w: string)
    requires LowerWord(w)
    ensures ToLower(w) == w && w != [] && ' ' !in w
    ensures !IsJsSpace(w[0]) && !IsJsSpace(w[|w| - 1])
  {
    ToLowerNoop(w);
  }

  /** A line of lower-case words joined by single spaces is its own trim
      and tokenises into its words. */
  lemma PlainLine(words: seq<string>)
    requires |words| > 0 && forall i :: 0 <= i < |words| ==> LowerWord(words[i])
    ensures var line := Join(words, " ");
      |line| > 0 && Trim(line) == line && Tokens(line) == words
  {
    forall i | 0 <= i < |words| ensures words[i] != [] && ' ' !in words[i] {
      LowerWordFacts(words[i]);
    }
    TokensJoin(words);
    JoinEnds(words, " ");
    LowerWordFacts(words[0]);
    LowerWordFacts(words[|words| - 1]);
    TrimNoop(Join(words, " "));
  }

  /** Proof helper: a join of non-empty strings starts with the first and ends with the
      last. */
  lemma {:induction false} JoinEnds(xs: seq<string>, sep: string)
    requires |xs| > 0 && forall i :: 0 <= i < |xs| ==> xs[i] != []
    ensures var j := Join(xs, sep);
      |j| > 0 && j[0] == xs[0][0] && j[|j| - 1] == xs[|xs| - 1][|xs[|xs| - 1]| - 1]
    decreases |xs|
  {
    if |xs| > 1 {
      JoinEnds(xs[1..], sep);
      var rest := Join(xs[1..], sep);
      assert Join(xs, sep) == xs[0] + sep + rest;
      assert xs[1..][|xs[1..]| - 1] == xs[|xs| - 1];
    }
  }

  /** A plain line is recorded, echoed and dispatched on its first word,
      with the remaining words as arguments. */
  lemma ProcessPlainLine(env: Env, s: Session, line: string, words: seq<string>, roll: nat)
    requires |words| > 0 && forall i :: 0 <= i < |words| ==> LowerWord(words[i])
    requires line == Join(words, " ")
    ensures ProcessCommand(env, s, line, roll) == Run(env, s,
      s.(history := [line] + s.history, historyIndex := -1,
         screen := s.screen + [Echo(DisplayPath(s.cwd), line)]),
      Classify(words[0], words[1..]), words[1..], line, roll)
  {
    PlainLine(words);
    LowerWordFacts(words[0]);
  }

  /** Proof helper: joining one word gives the word. */
  lemma OneWord(w: string)
    ensures Join([w], " ") == w
  {
  }

  /** Proof helper: joining two words puts one space between them. */
  lemma TwoWords(a: string, b: string)
    ensures Join([a, b], " ") == a + " " + b
  {
    assert [a, b][1..] == [b];
  }

  /** A line of one lower-case word runs that word with no arguments. */
  lemma WordLine(env: Env, s: Session, w: string, roll: nat)
    requires LowerWord(w)
    ensures ProcessCommand(env, s, w, roll) == Run(env, s,
      s.(history := [w] + s.history, historyIndex := -1,
         screen := s.screen + [Echo(DisplayPath(s.cwd), w)]),
      Classify(w, []), [], w, roll)
  {
    OneWord(w);
    assert [w][0] == w && [w][1..] == [];
    ProcessPlainLine(env, s, w, [w], roll);
  }

  /** Enter in plain mode runs the typed line and clears the input. */
  lemma EnterRuns(env: Env, s: Session, roll: nat)
    requires IndexInRange(s) && !s.aiChat && !s.interview && s.hire == Off
    ensures var st := ProcessCommand(env, s, s.input, roll);
      KeyDown(env, s, Enter(roll)) == Step(st.s.(input := ""), st.signal)
  {
  }

  /** Enter while the wizard asks a question hands the line to it. */
  lemma EnterAnswers(env: Env, s: Session, roll: nat)
    requires IndexInRange(s) && !s.aiChat && !s.interview && s.hire != Off
    ensures var st := HireResponse(env, s, s.input);
      KeyDown(env, s, Enter(roll)) == Step(st.s.(input := ""), st.signal)
  {
  }

  // ---------------------------------------------------------- wizard

  /** `sudo hire` starts the wizard at its first question. */
  lemma SudoHire(env: Env, s: Session, roll: nat)
    ensures var r := ProcessCommand(env, s, "sudo hire", roll);
      && r.s.hire == AskName && r.signal == Quiet
      && r.s.history == ["sudo hire"] + s.history && r.s.historyIndex == -1
      && r.s.aiChat == s.aiChat && r.s.interview == s.interview
  {
    TwoWords("sudo", "hire");
    assert LowerWord("sudo") && LowerWord("hire");
    assert ["sudo", "hire"][1..] == ["hire"];
    ProcessPlainLine(env, s, "sudo hire", ["sudo", "hire"], roll);
  }

  /** `sudo hire`, a name, then an organisation: the wizard asks twice and
      finishes with a mail draft to the profile's address naming both
      answers. Only the command line enters the history; the answers do
      not. */
  lemma HireWizard(env: Env, name: string, org: string)
    ensures var s1 := KeyDown(env, Init().(input := "sudo hire"), Enter(0)).s;
      var s2 := KeyDown(env, s1.(input := name), Enter(0)).s;
      var st := KeyDown(env, s2.(input := org), Enter(0));
      && s1.hire == AskName
      && s2.hire == AskOrg && s2.hireName == Some(name)
      && st.signal == Mail(env.profile.email, MailSubject, MailBody(name, org))
      && st.s.hire == Off && st.s.hireName == None
      && st.s.history == ["sudo hire"]
  {
    var s0 := Init().(input := "sudo hire");
    SudoHire(env, s0, 0);
    EnterRuns(env, s0, 0);
    var s1 := KeyDown(env, s0, Enter(0)).s;
    EnterAnswers(env, s1.(input := name), 0);
    var s2 := KeyDown(env, s1.(input := name), Enter(0)).s;
    EnterAnswers(env, s2.(input := org), 0);
  }

  /** The wizard's question for the organisation comes with the name
      stored, so the mail never falls back to `undefined` on a reachable
      session. */
  lemma WizardNameKnown(env: Env, s: Session, org: string)
    requires Inv(env, s) && s.hire == AskOrg
    ensures HireResponse(env, s, org).signal == Mail(env.profile.email, MailSubject, MailBody(s.hireName.value, org))
  {
  }

  // ------------------------------------------------------------ modes

  /** `exit` in any case and with surrounding blanks ends an AI chat; the
      line is not recorded. */
  lemma ChatExit(env: Env, s: Session, roll: nat)
    requires IndexInRange(s) && s.aiChat
    ensures KeyDown(env, s.(input := " EXIT "), Enter(roll)).s
      == Print(s.(aiChat := false, input := " EXIT "), Notice(ChatEndedText)).(input := "")
  {
    var low := ToLower(" EXIT ");
    assert low == " exit ";
    TrimSpacedExit();
  }

  /** Outside an AI chat, `exit` in any mix of cases with any white space
      around it ends an interview with one notice; the line is not
      recorded and the wizard and directory are untouched. */
  lemma InterviewExit(env: Env, s: Session, pre: string, w: string, post: string, roll: nat)
    requires IndexInRange(s) && s.interview && !s.aiChat
    requires AllSpace(pre) && AllSpace(post) && ToLower(w) == "exit"
    ensures var t := s.(input := pre + w + post);
      var r := KeyDown(env, t, Enter(roll));
      && r == Step(Print(t.(interview := false), Notice(InterviewEndedText)).(input := ""), Quiet)
      && r.s.history == s.history && r.s.cwd == s.cwd && r.s.hire == s.hire
  {
    ExitIgnoresCaseAndBlanks(pre, w, post);
  }

  /** Proof helper: ` exit ` trims to `exit`. */
  lemma TrimSpacedExit()
    ensures Trim(" exit ") == "exit"
  {
    var s := " exit ";
    var a := SkipSpaces(s, 0);
    assert a == 1 by {
      assert IsJsSpace(s[0]) && !IsJsSpace(s[1]);
      assert SkipSpaces(s, 1) == 1;
    }
    var b := SkipSpacesBack(s, a, |s|);
    assert b == 5 by {
      assert IsJsSpace(s[5]) && !IsJsSpace(s[4]);
      assert SkipSpacesBack(s, 1, 5) == 5;
    }
    assert s[1..5] == "exit";
  }

  /** In an AI chat any line but `exit` still runs as a command. */
  lemma ChatRunsCommands(env: Env, s: Session, roll: nat)
    requires IndexInRange(s) && s.aiChat && !IsExit(s.input) && !s.interview && s.hire == Off
    ensures var st := ProcessCommand(env, s, s.input, roll);
      KeyDown(env, s, Enter(roll)) == Step(st.s.(input := ""), st.signal)
  {
  }

  /** While the wizard waits for an answer, a typed line is an answer and
      never a command: nothing is recorded. */
  lemma WizardTakesLines(env: Env, s: Session, roll: nat)
    requires IndexInRange(s) && s.hire != Off && !s.aiChat && !s.interview
    ensures KeyDown(env, s, Enter(roll)).s.history == s.history
  {
  }

  /** A blank line in plain mode only clears the input. */
  lemma BlankEnter(env: Env, s: Session, roll: nat)
    requires IndexInRange(s) && s.hire == Off && AllSpace(s.input)
    ensures KeyDown(env, s, Enter(roll)) == Step(s.(input := ""), Quiet)
  {
    var low := ToLower(s.input);
    assert AllSpace(low) by {
      forall i | 0 <= i < |low| ensures IsJsSpace(low[i]) {
        assert low[i] == s.input[i];
      }
    }
    assert Trim(low) == [];
  }

  // ---------------------------------------------------------- history

  /** Enter records the line; the up arrow then brings it back first. */
  lemma RecallLatest(env: Env, s: Session, roll: nat)
    requires IndexInRange(s) && !s.aiChat && !s.interview && s.hire == Off
    requires Trim(s.input) != []
    ensures var s1 := KeyDown(env, s, Enter(roll)).s;
      KeyDown(env, s1, ArrowUp).s.input == s.input && KeyDown(env, s1, ArrowUp).s.historyIndex == 0
  {
  }

  /** Up then down from an entry with an older one comes back to the same
      entry. */
  lemma UpThenDown(s: Session)
    requires IndexInRange(s) && 0 <= s.historyIndex < |s.history| - 1
    ensures Recall(Recall(s, true), false) == s.(input := s.history[s.historyIndex])
  {
  }

  /** Down from the newest entry, or from no entry, empties the line. */
  lemma DownPastNewest(s: Session)
    requires IndexInRange(s) && s.historyIndex <= 0
    ensures Recall(s, false) == s.(historyIndex := -1, input := "")
  {
  }

  /** `history`, in any case and with any spacing, lists the lines typed
      before it, most recent first, and is then recorded itself. */
  lemma HistoryCommand(env: Env, s: Session, line: string, roll: nat)
    requires Trim(line) != [] && Tokens(Trim(line)) == ["history"]
    ensures ProcessCommand(env, s, line, roll) == Step(s.(
      history := [line] + s.history, historyIndex := -1,
      screen := s.screen + [Echo(DisplayPath(s.cwd), line), Printed(HistoryOutput(s.history))]), Quiet)
  {
    HistoryClassified();
    assert ["history"][1..] == [];
    PrintingLine(env, s, line, roll, HistoryOutput(s.history));
  }

  /** Proof helper: the word `history` selects the history command. */
  lemma HistoryClassified()
    ensures Classify(ToLower("history"), []) == HistoryCmd
  {
    assert LowerWord("history");
    LowerWordFacts("history");
  }

  /** Proof helper: the line `history` itself is one such line. */
  lemma HistoryLineTyped()
    ensures Trim("history") != [] && Tokens(Trim("history")) == ["history"]
  {
    assert LowerWord("history");
    OneWord("history");
    PlainLine(["history"]);
  }

  /** A line whose command prints one block is recorded, echoed and
      followed by that block, and nothing else changes. */
  lemma PrintingLine(env: Env, s: Session, line: string, roll: nat, o: Output)
    requires Trim(line) != []
    requires var t := Tokens(Trim(line));
      && |t| > 0
      && Classify(ToLower(t[0]), t[1..]) !in {ClearCmd, CdCmd, ToggleCmd, HireCmd, InterviewCmd, ChatCmd}
      && Printout(env, s, Classify(ToLower(t[0]), t[1..]), t[1..], line, roll) == Some(o)
    ensures ProcessCommand(env, s, line, roll) == Step(s.(
      history := [line] + s.history, historyIndex := -1,
      screen := s.screen + [Echo(DisplayPath(s.cwd), line), Printed(o)]), Quiet)
  {
    var t := Tokens(Trim(line));
    var s1 := s.(history := [line] + s.history, historyIndex := -1,
                 screen := s.screen + [Echo(DisplayPath(s.cwd), line)]);
    ProcessRuns(env, s, line, roll);
    RunPrints(env, s, s1, Classify(ToLower(t[0]), t[1..]), t[1..], line, roll, o);
    EchoThenPrint(s, line, o);
  }

  /** Proof helper: printing after the echo is the same as adding both blocks at once. */
  lemma EchoThenPrint(s: Session, line: string, o: Output)
    ensures var s1 := s.(history := [line] + s.history, historyIndex := -1,
                         screen := s.screen + [Echo(DisplayPath(s.cwd), line)]);
      s1.(screen := s1.screen + [Printed(o)]) == s.(history := [line] + s.history, historyIndex := -1,
        screen := s.screen + [Echo(DisplayPath(s.cwd), line), Printed(o)])
  {
    assert s.screen + [Echo(DisplayPath(s.cwd), line)] + [Printed(o)]
      == s.screen + [Echo(DisplayPath(s.cwd), line), Printed(o)];
  }

  /** A line that is not blank is recorded, echoed and run on its first
      token, lower-cased, with the other tokens as arguments. */
  lemma ProcessRuns(env: Env, s: Session, line: string, roll: nat)
    requires Trim(line) != []
    ensures var t := Tokens(Trim(line));
      && |t| > 0
      && ProcessCommand(env, s, line, roll) == Run(env, s,
           s.(history := [line] + s.history, historyIndex := -1,
              screen := s.screen + [Echo(DisplayPath(s.cwd), line)]),
           Classify(ToLower(t[0]), t[1..]), t[1..], line, roll)
  {
    FirstToken(Trim(line));
  }

  /** A command that prints one block adds it after the echo and changes
      nothing else. */
  lemma RunPrints(env: Env, s: Session, s1: Session, c: Command, args: seq<string>, line: string, roll: nat, o: Output)
    requires c !in {ClearCmd, CdCmd, ToggleCmd, HireCmd, InterviewCmd, ChatCmd}
    requires Printout(env, s, c, args, line, roll) == Some(o)
    ensures Run(env, s, s1, c, args, line, roll) == Step(s1.(screen := s1.screen + [Printed(o)]), Quiet)
  {
  }

  /** A line that is not blank is recorded at the head of the history. */
  lemma Recorded(env: Env, s: Session, line: string, roll: nat)
    requires Trim(line) != []
    ensures ProcessCommand(env, s, line, roll).s.history == [line] + s.history
  {
  }

  /** The lines typed one after another, none of them answering the
      wizard. */
  function RunLines(env: Env, s: Session, lines: seq<string>, roll: nat): Session
    decreases |lines|
  {
    if |lines| == 0 then s
    else RunLines(env, ProcessCommand(env, s, lines[0], roll).s, lines[1..], roll)
  }

  function Reverse(xs: seq<string>): (r: seq<string>)
    ensures |r| == |xs|
    ensures forall i :: 0 <= i < |xs| ==> r[i] == xs[|xs| - 1 - i]
  {
    if |xs| == 0 then [] else Reverse(xs[1..]) + [xs[0]]
  }

  /** Lines that are not blank are all recorded, the newest first, ahead
      of what was there before. */
  lemma {:induction false} RunLinesHistory(env: Env, s: Session, lines: seq<string>, roll: nat)
    requires forall i :: 0 <= i < |lines| ==> Trim(lines[i]) != []
    ensures RunLines(env, s, lines, roll).history == Reverse(lines) + s.history
    decreases |lines|
  {
    if |lines| > 0 {
      var s1 := ProcessCommand(env, s, lines[0], roll).s;
      Recorded(env, s, lines[0], roll);
      RunLinesHistory(env, s1, lines[1..], roll);
      assert RunLines(env, s, lines, roll) == RunLines(env, s1, lines[1..], roll);
      Regroup(Reverse(lines[1..]), [lines[0]], s.history);
    }
  }

  /** Proof helper: concatenation regrouped. */
  lemma Regroup(a: seq<string>, b: seq<string>, c: seq<string>)
    ensures a + (b + c) == (a + b) + c
  {
  }

  /** After a run of lines, entry `i + 1` of the `history` listing is the
      line typed `i` lines before the last. */
  lemma HistoryListsNewestFirst(env: Env, s: Session, lines: seq<string>, roll: nat, i: nat)
    requires forall k :: 0 <= k < |lines| ==> Trim(lines[k]) != []
    requires i < |lines|
    ensures var h := RunLines(env, s, lines, roll).history;
      i < |h| && EntryNumber(HistoryOutput(h).lines[i]) == i + 1
      && EntryCommand(HistoryOutput(h).lines[i]) == lines[|lines| - 1 - i]
  {
    RunLinesHistory(env, s, lines, roll);
    var h := RunLines(env, s, lines, roll).history;
    HistoryReadBack(h, i);
  }

  /** `clear` leaves only the welcome block but is still recorded. */
  lemma ClearCommand(env: Env, s: Session, roll: nat)
    ensures var r := ProcessCommand(env, s, "clear", roll);
      r.s.screen == [Welcome] && r.s.history == ["clear"] + s.history && r.signal == Quiet
  {
    assert LowerWord("clear");
    WordLine(env, s, "clear", roll);
  }

  // ------------------------------------------------------ directories

  /** `cd projects` from home enters the projects directory. */
  lemma CdProjects(env: Env, s: Session, roll: nat)
    requires s.cwd == Home
    ensures ProcessCommand(env, s, "cd " + "projects", roll).s.cwd == ProjectsDir
  {
    assert LowerWord("projects");
    CdWordLine(env, s, "projects", roll);
    HomeNamesResolve();
  }

  /** `cd` followed by one lower-case word moves as `cd` with that word
      does. */
  lemma CdWordLine(env: Env, s: Session, x: string, roll: nat)
    requires LowerWord(x)
    ensures ProcessCommand(env, s, "cd " + x, roll).s.cwd == Cd(Fs(env), s.cwd, [x]).cwd
  {
    TwoWords("cd", x);
    assert LowerWord("cd");
    PlainLine(["cd", x]);
    assert "cd " + x == "cd" + " " + x;
    CdLine(env, s, "cd " + x, x, roll);
  }

  /** A `cd` line with one operand moves as `cd` with that operand does. */
  lemma CdLine(env: Env, s: Session, line: string, arg: string, roll: nat)
    requires Trim(line) == line && line != [] && Tokens(line) == ["cd", arg]
    ensures ProcessCommand(env, s, line, roll).s.cwd == Cd(Fs(env), s.cwd, [arg]).cwd
  {
    assert LowerWord("cd");
    LowerWordFacts("cd");
    assert ["cd", arg][1..] == [arg];
  }

  /** `cd ..` from the projects directory goes back home. */
  lemma CdUp(env: Env, s: Session, roll: nat)
    requires s.cwd == ProjectsDir
    ensures ProcessCommand(env, s, "cd ..", roll).s.cwd == Home
  {
    CdDotDotLine();
    CdLine(env, s, "cd ..", "..", roll);
    ParentOfProjects(env);
  }

  /** `..` from the projects directory is home. */
  lemma ParentOfProjects(env: Env)
    ensures Cd(Fs(env), ProjectsDir, [".."]).cwd == Home
  {
    HomeNamesResolve();
    HomeNamesClean();
    HomeCanonical();
    CdThereAndBack(Fs(env), Home, "projects");
  }

  /** Proof helper: `cd ..` splits into the command word and `..`. */
  lemma CdDotDotLine()
    ensures Trim("cd ..") == "cd .." && Tokens("cd ..") == ["cd", ".."]
  {
    TwoWords("cd", "..");
    assert "cd .." == Join(["cd", ".."], " ");
    assert ' ' !in "cd" && ' ' !in "..";
    TokensJoin(["cd", ".."]);
    TrimNoop("cd ..");
  }

  /** From home, `cd projects` then `cd ..` comes back, both moves
      reflected in the prompt. */
  lemma CdProjectsAndBack(env: Env, s: Session, r1: nat, r2: nat)
    requires s.cwd == Home
    ensures var s1 := ProcessCommand(env, s, "cd " + "projects", r1).s;
      var s2 := ProcessCommand(env, s1, "cd ..", r2).s;
      && s1.cwd == ProjectsDir && DisplayPath(s1.cwd) == "~/projects"
      && s2.cwd == Home && DisplayPath(s2.cwd) == "~"
  {
    var s1 := ProcessCommand(env, s, "cd " + "projects", r1).s;
    CdProjects(env, s, r1);
    CdUp(env, s1, r2);
    DisplayOfDirs();
  }

  // ------------------------------------------------------------ about

  /** Proof helper: `cat about.txt` splits into the command word and the
      file name. */
  lemma CatAboutLine()
    ensures Trim("cat about.txt") == "cat about.txt"
    ensures Tokens("cat about.txt") == ["cat", "about.txt"]
  {
    TwoWords("cat", "about.txt");
    assert "cat about.txt" == Join(["cat", "about.txt"], " ");
    assert ' ' !in "cat" && ' ' !in "about.txt";
    TokensJoin(["cat", "about.txt"]);
    TrimNoop("cat about.txt");
  }

  /** Typing `about` echoes the line and shows the about card. */
  lemma AboutTyped(env: Env, s: Session, roll: nat)
    ensures ProcessCommand(env, s, "about", roll).s.screen
      == s.screen + [Echo(DisplayPath(s.cwd), "about"), Printed(AboutCard(env.profile.about))]
  {
    assert LowerWord("about");
    LowerWordFacts("about");
    OneWord("about");
    PlainLine(["about"]);
    PrintingLine(env, s, "about", roll, AboutOutput(env.profile));
  }

  /** Typing `cat about.txt` at home echoes the line and shows the file. */
  lemma CatAboutTyped(env: Env, s: Session, roll: nat)
    requires s.cwd == Home
    ensures ProcessCommand(env, s, "cat about.txt", roll).s.screen
      == s.screen + [Echo(DisplayPath(s.cwd), "cat about.txt"), Printed(FileText(env.profile.about))]
  {
    assert LowerWord("cat");
    LowerWordFacts("cat");
    CatAboutLine();
    assert ["cat", "about.txt"][1..] == ["about.txt"];
    AboutMatchesFile(env.profile);
    PrintingLine(env, s, "cat about.txt", roll, FileText(env.profile.about));
  }

  /** At home, typing `about` and typing `cat about.txt` both echo the line
      after the `~` prompt and then show the same text, the profile's
      about text: once as the card and once as the file. */
  lemma AboutMatchesCat(env: Env, s: Session, roll: nat)
    requires s.cwd == Home
    ensures ProcessCommand(env, s, "about", roll).s.screen
      == s.screen + [Echo("~", "about"), Printed(AboutCard(env.profile.about))]
    ensures ProcessCommand(env, s, "cat about.txt", roll).s.screen
      == s.screen + [Echo("~", "cat about.txt"), Printed(FileText(env.profile.about))]
  {
    DisplayOfDirs();
    AboutTyped(env, s, roll);
    CatAboutTyped(env, s, roll);
  }

  /** An unrecognised command reports the line as typed, surrounding
      blanks and all, and changes neither directory nor mode. */
  lemma NotFoundShowsLine(env: Env, s: Session, line: string, roll: nat)
    requires Trim(line) != []
    requires var t := Tokens(Trim(line)); |t| > 0 && Classify(ToLower(t[0]), t[1..]) == Unknown
    ensures var r := ProcessCommand(env, s, line, roll);
      && r.s.screen == s.screen + [Echo(DisplayPath(s.cwd), line), Printed(Error(NotFoundText(line)))]
      && r.s.cwd == s.cwd && r.s.hire == s.hire && r.s.aiChat == s.aiChat && r.signal == Quiet
  {
    PrintingLine(env, s, line, roll, Error(NotFoundText(line)));
  }

  // -------------------------------------------------- classification

  /** Only the command word is lower-cased: `SUDO hire` hires, `sudo HIRE`
      is unknown. */
  lemma CaseRules()
    ensures Classify(ToLower("SUDO"), ["hire"]) == HireCmd
    ensures Classify(ToLower("sudo"), ["HIRE"]) == Unknown
    ensures Classify(ToLower("LS"), []) == LsCmd
  {
    assert ToLower("SUDO") == "sudo";
    assert ToLower("sudo") == "sudo";
    assert ToLower("LS") == "ls";
  }

  /** What `help` advertises as a command line: its first word lower-cased
      selects a command other than "not found". */
  predicate Recognised(line: string) {
    var t := Tokens(Trim(line));
    |t| > 0 && Classify(ToLower(t[0]), t[1..]) != Unknown
  }

  /** A single lower-case command word is recognised. */
  lemma WordRecognised(w: string)
    requires LowerWord(w) && IsCommandWord(w)
    ensures Recognised(w)
  {
    OneWord(w);
    PlainLine([w]);
    LowerWordFacts(w);
  }

  /** Two lower-case words are recognised when the first is a command
      word or they are `sudo hire`. */
  lemma PairRecognised(a: string, b: string)
    requires LowerWord(a) && LowerWord(b)
    requires IsCommandWord(a) || (a == "sudo" && b == "hire")
    ensures Recognised(a + " " + b)
  {
    TwoWords(a, b);
    PlainLine([a, b]);
    LowerWordFacts(a);
    assert [a, b][1..] == [b];
  }

  /** Every command `help` advertises is one the dispatcher recognises. */
  lemma HelpIsAccurate(i: nat)
    requires i < |HelpCommands|
    ensures Recognised(HelpCommands[i])
  {
    var line := HelpCommands[i];
    if i == 9 {
      assert line == "ai" + " " + "interview";
      PairRecognised("ai", "interview");
    } else if i == 10 {
      assert line == "sudo" + " " + "hire";
      PairRecognised("sudo", "hire");
    } else {
      assert LowerWord(line) && IsCommandWord(line);
      WordRecognised(line);
    }
  }
}
