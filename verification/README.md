# Portfolio terminal: a Dafny model

The portfolio site shows a terminal window. Behind it sit an in-memory
filesystem built from the profile data, a path resolver, and a command
interpreter that records history, switches between modes, and runs the
`sudo hire` wizard. This project models that core as pure Dafny functions
over immutable values and proves properties about it.

Modules, in dependency order:

- `text.dfy` (`Text`): the JavaScript string built-ins the core relies on.
  These are `trim`, `toLowerCase`, `split` with `filter(Boolean)`, `join`,
  `replace(/ /g, '-')` and the decimal rendering of a number.
- `filesystem.dfy` (`FileSystem`): `createFileSystem`, which turns a
  profile into a map from absolute paths to directory and file nodes.
- `paths.dfy` (`Paths`): `resolvePath` and `getDisplayPath`.
- `shell.dfy` (`Shell`): `ls`, `cd`, `cat`, and the payloads of `help`,
  `about`, `social`, `skills`, `projects`, `history` and `neofetch`.
  Markup is dropped. Each payload is a tagged value that keeps the
  profile data it shows: for `help` only the command words, and for
  `social` the link targets. Fixed headings and descriptions are dropped
  (see "## Left out").
- `terminal.dfy` (`Terminal`): the session and its steps.
  - The session holds the directory, history, history index, input line,
    the three mode flags, the wizard's stored name, and the screen.
  - `processCommand`, `handleKeyDown`, `handleInputChange` and
    `handleHireResponse` are the steps.
  - The invariant that every reachable session keeps is proved here.
- `scenarios.dfy` (`Scenarios`): whole interactions.
  - The hiring wizard from start to mail draft.
  - Leaving an AI chat with `exit`.
  - Recalling history with the arrow keys.
  - What `history` lists after a run of lines.
  - `cd` into `projects` and back.
  - The case rules of the dispatcher.
  - Every command `help` advertises is recognised.

The environment is passed in as parameters:

- the profile and the list of quotes (`Env`);
- the random pick of `neofetch`, as a natural number `roll` (the quote
  shown is `quotes[roll % |quotes|]`);
- the effects on the window, as signals a step returns (`ToggleTerminal`
  and `Mail(to, subject, body)`).

In four places the code behaves differently from what a reader might
expect; the model follows the code:

- **History order.** The history is stored most recent first. `history`
  numbers it in that order, so entry 1 is the latest line. It is not
  listed chronologically.
- **Tokens.** A command line is split on single spaces after trimming. A
  tab inside the line stays inside its token; the line is not split on any
  white space.
- **Colliding project names.** When two projects give the same file name,
  the `projects` directory lists that name twice. The single file holds
  the later project.
- **LinkedIn address.** The `social` command links to
  `https://www.linkedin.com/in/…`, but `social.txt` says
  `https://linkedin.com/in/…`. The GitHub and Instagram addresses agree.

## Model

| member | source | states |
|---|---|---|
| Text.Trim | src/components/Terminal.jsx:129 | `trim` gives the infix of the line that has only JavaScript white space around it and does not start or end with white space. It is empty exactly when the line is all white space. |
| Text.TrimIdempotent | src/components/Terminal.jsx:135 | Trimming an already trimmed line changes nothing. |
| Text.TrimNoop | src/components/Terminal.jsx:129 | A line without white space at either end is its own trim. |
| Text.TrimFlanked | src/components/Terminal.jsx:222 | A word that neither starts nor ends with white space, surrounded by white space only, trims to exactly that word. |
| Text.ToLower | src/components/Terminal.jsx:136 | `toLowerCase` keeps the length. A capital `A`–`Z` becomes its small letter, 32 code points on, and the Kelvin sign becomes `k`. Every other character is kept, so no ASCII capital or Kelvin sign is left. |
| Text.ToLowerIdempotent | src/components/Terminal.jsx:136 | Lowering twice is lowering once. |
| Text.Tokens | src/components/Terminal.jsx:135 | Every token of a line is non-empty and contains no space. |
| Text.Split | src/hooks/useTerminal.js:19-20 | `split` gives at least one piece, and no piece holds the separator. |
| Text.NonEmpty | src/hooks/useTerminal.js:19-20 | `filter(Boolean)` keeps only non-empty pieces, each taken from the input. When no piece is empty, it keeps them all. |
| Text.Join | src/hooks/useTerminal.js:30 | `join` puts the separator between consecutive pieces. Its meaning is stated by `Text.JoinSplit`, `Text.SplitJoin` and `Text.TokensJoin`. |
| Text.TokensJoin | src/components/Terminal.jsx:135 | Space-free tokens joined by single spaces tokenise back into the same tokens. |
| Text.TokensJoinWide | src/components/Terminal.jsx:135 | Tokens joined by runs of two spaces give the same tokens, because empty pieces are dropped. |
| Text.FirstToken | src/components/Terminal.jsx:135-136 | A line that is not empty and does not start with a space has a first token, and it starts with the line's first character. A trimmed non-blank line is such a line, so its command word always exists. |
| Text.JoinSplit | src/hooks/useTerminal.js:19-20 | Splitting on a character and joining with it gives the string back. |
| Text.SplitJoin | src/hooks/useTerminal.js:30 | Pieces free of the separator, joined with it and split again, come back unchanged. |
| Text.HyphenateSpaces | src/data/filesystem.js:20 | Every space becomes a hyphen; every other character is kept in place. |
| Text.DecimalRoundTrip | src/hooks/useTerminal.js:96 | The numeral printed for an entry number reads back as that number. |
| FileSystem.ProjectFileName | src/data/filesystem.js:20-26 | A project's file name is its name lower-cased with spaces turned into hyphens, followed by `.md`. It contains no space, no ASCII capital and no Kelvin sign. |
| FileSystem.ProjectFileNames | src/data/filesystem.js:18-21 | The `projects` directory lists one file name per project, in the profile's order. |
| FileSystem.ProjectPaths | src/data/filesystem.js:25-31 | The keys the projects write are exactly the paths of the projects' files. |
| FileSystem.BaseTree | src/data/filesystem.js:5-22 | Before the projects are added, the tree has exactly seven keys: the four directories and the three text files. |
| FileSystem.AddProjects | src/data/filesystem.js:25-31 | The `forEach` keeps every existing key, keeps a file a file, and leaves a file node at every project's path. |
| FileSystem.AddProjectsKeys | src/data/filesystem.js:25-31 | Adding the project files adds exactly their keys to the tree. |
| FileSystem.AddProjectsKeepsOthers | src/data/filesystem.js:25-31 | Keys that no project writes keep their nodes. |
| FileSystem.AddProjectsLastWins | src/data/filesystem.js:27-30 | The file at a project's path holds the content of the last project with that file name. |
| FileSystem.Build | src/data/filesystem.js:4-34 | The built tree contains the root, `/home`, the home directory and `projects`, all as directories. |
| FileSystem.BuildFixedDirs | src/data/filesystem.js:6-21 | The four directories list exactly the children the source gives them. |
| FileSystem.BuildFixedFiles | src/data/filesystem.js:9-17 | The three text files hold the about text, the rendered skills and the social links. |
| FileSystem.BuildDirs | src/data/filesystem.js:5-31 | A path is a directory exactly when it is one of the four fixed directories. Project files never replace a directory. |
| FileSystem.BuildProjectFiles | src/data/filesystem.js:25-31 | Every project's path is in the tree and holds that project's page when no later project shares its name. The tree's keys are the fixed keys plus the project paths. |
| FileSystem.FixedKeysNotWritten | src/data/filesystem.js:27 | No project path equals one of the seven fixed keys. Each is at least four characters longer than the key of `projects`. |
| FileSystem.BuildClosed | src/data/filesystem.js:5-31 | Every child a directory lists exists in the tree under its own path. |
| FileSystem.CollidingProjects | src/data/filesystem.js:20-31 | With two projects of the same file name, the directory lists that name twice, and the one file holds the second project. |
| FileSystem.SkillsTextLines | src/data/filesystem.js:12 | Read line by line, `skills.txt` gives each category as a heading ending in `:`. The heading is followed by its items, one per line after `  - `, or by a bare `  - ` when the category has none. A blank line separates categories. |
| FileSystem.ProjectContentLines | src/data/filesystem.js:29 | A project page reads, line by line: the title line, a blank line, the description, a blank line, and the link line. |
| FileSystem.SocialTextLines | src/data/filesystem.js:16 | `social.txt` has three lines: LinkedIn, GitHub and Instagram, each with its address and the profile's user name. |
| Paths.Segments | src/hooks/useTerminal.js:19-20 | The components of a path are non-empty and contain no slash. |
| Paths.Walk | src/hooks/useTerminal.js:22-28 | From a stack of non-empty, slash-free components, the walk gives such a stack. From a clean stack, which also has no `.` or `..`, it gives a clean stack. |
| Paths.Resolve | src/hooks/useTerminal.js:17-31 | An argument starting with `/` is returned as it is. Every result is absolute. From a directory with clean components, a relative argument resolves to a canonical path. Its components are the walk of the argument's components from the directory's. |
| Paths.RenderedSegments | src/hooks/useTerminal.js:19-30 | Rendering components as `/a/b` and splitting them again gives the components back. |
| Paths.ResolveIdempotent | src/hooks/useTerminal.js:18 | Resolving a resolved path changes nothing. |
| Paths.ResolveUpToRoot | src/hooks/useTerminal.js:23-24 | Enough `..` components lead to the root and never above it. |
| Paths.ParentOfChild | src/hooks/useTerminal.js:22-30 | Entering a child of a canonical directory and then resolving `..` gives that directory back. |
| Paths.DotIsHere | src/hooks/useTerminal.js:25 | `.` resolves to the current directory. |
| Paths.ParentOfRoot | src/hooks/useTerminal.js:24 | `..` at the root stays at the root. |
| Paths.DirKeysCanonical | src/data/filesystem.js:6-18 | The keys of the four directories are canonical paths. |
| Paths.DisplayPath | src/hooks/useTerminal.js:33-37 | A path that starts with the home path is shown with `~` in place of that prefix. Any other path is shown unchanged. |
| Paths.DisplayRoundTrip | src/hooks/useTerminal.js:33-37 | Expanding `~` in a displayed path gives the absolute path back. |
| Paths.DisplayOfDirs | src/hooks/useTerminal.js:33-37 | The prompt shows home as `~` and `projects` as `~/projects`. It shows `/home` and `/` as they are. |
| Shell.Operand | src/hooks/useTerminal.js:142-143 | The operand exists exactly when the first argument is present and non-empty. |
| Shell.Entries | src/hooks/useTerminal.js:130-134 | There is one entry per child, in the directory's order. An entry is marked as a directory exactly when its child path holds a directory. |
| Shell.Ls | src/hooks/useTerminal.js:125-140 | `ls` lists exactly when the target is a directory. The listing has the directory's children in stored order, each marked as a directory exactly when its own path holds one. Otherwise `ls` gives the error naming the operand, or `.` when there is none. |
| Shell.RenderListing | src/hooks/useTerminal.js:130-135 | When no name is empty or holds a space, the words of the printed listing are the shown names in order, with directories marked by a trailing `/`. |
| Shell.LsDot | src/hooks/useTerminal.js:126 | From a canonical directory, `ls .` lists the same as `ls`. |
| Shell.LsHome | src/hooks/useTerminal.js:125-136 | Home lists the three text files, then `projects` marked as a directory. |
| Shell.Cd | src/hooks/useTerminal.js:142-152 | `cd` moves exactly when the target resolves to a directory; it never leaves the tree's directories. Otherwise the directory is kept and the error names the target. |
| Shell.CdStaysInDirs | src/hooks/useTerminal.js:146-147 | From a directory, `cd` always ends in a directory. |
| Shell.CdHome | src/hooks/useTerminal.js:143 | `cd` without an operand goes home from anywhere. |
| Shell.CdThereAndBack | src/hooks/useTerminal.js:142-152 | `cd x` followed by `cd ..` returns to the starting directory. |
| Shell.Cat | src/hooks/useTerminal.js:154-170 | `cat` shows a file's content exactly when the target resolves to a file. A directory target gives "Is a directory", a missing one "No such file or directory", and no operand "missing operand". |
| Shell.CatFixedFiles | src/hooks/useTerminal.js:154-164 | From home, `cat` on the three text files shows the profile's about text, its skills text and its social text. |
| Shell.CatProject | src/hooks/useTerminal.js:160-164 | A project file named by its absolute path shows that project's page, from any directory. |
| Shell.CatDirectory | src/hooks/useTerminal.js:165-166 | `cat projects` at home is refused as a directory. |
| Shell.HistoryOutput | src/hooks/useTerminal.js:96 | Line `i` of the history listing is `i + 1`, then `: `, then the `i`-th stored line. |
| Shell.HistoryLineRoundTrip | src/hooks/useTerminal.js:96 | A history line splits back, at its first colon, into its number and its command. |
| Shell.HistoryReadBack | src/hooks/useTerminal.js:96 | Each listed line reads back as its position plus one and the stored command. |
| Shell.AboutOutput | src/hooks/useTerminal.js:67-74 | The about card shows the profile's about text. |
| Shell.AboutMatchesFile | src/hooks/useTerminal.js:67-74 | The `about` card and `cat about.txt` at home show the same text. |
| Shell.SocialOutput | src/hooks/useTerminal.js:59-65 | The links are the LinkedIn (with `www.`), GitHub and Instagram addresses followed by the user names. |
| Shell.SocialAgreesWithFile | src/hooks/useTerminal.js:63-64 | The GitHub and Instagram links equal the addresses `social.txt` lists after their labels. |
| Shell.SkillsOutput | src/hooks/useTerminal.js:76-82 | There is one line per category, in order. Each starts with the category and `: `, and the rest is the items separated by `, `. |
| Shell.ProjectsOutput | src/hooks/useTerminal.js:84-94 | There is one card per project, in order, with its name, description and link. The link is shown with its first `https://` cut out. |
| Shell.FindFrom | src/hooks/useTerminal.js:91 | The search finds the first occurrence at or after the start, or reports that there is none. |
| Shell.RemoveFirst | src/hooks/useTerminal.js:91 | The string is unchanged exactly when the pattern does not occur. Otherwise it is shorter by the pattern's length. |
| Shell.RemoveFirstAbsent | src/hooks/useTerminal.js:91 | A link without `https://` is shown as it is. |
| Shell.RemoveFirstPresent | src/hooks/useTerminal.js:91 | Only the first occurrence of the pattern is cut out. |
| Shell.ShownLinkOfHttps | src/hooks/useTerminal.js:91 | A link `https://rest` is shown as `rest`. |
| Shell.NeofetchOutput | src/hooks/useTerminal.js:108-120 | The card shows the profile's name, role, `github.com/` plus the user name, email, location and status, and the drawn motto. |
| Shell.PickQuote | src/hooks/useTerminal.js:107 | There is no quote exactly when the list is empty. Otherwise the quote is one of the list. |
| Shell.EveryQuoteReachable | src/hooks/useTerminal.js:107 | Every quote can be drawn. |
| Terminal.Init | src/hooks/useTerminal.js:6-11 | A fresh terminal starts in `/home/prasanth`, so its prompt shows `~`. It has an empty history, no recalled entry, empty input, no mode, no stored name and only the welcome block. |
| Terminal.Classify | src/components/Terminal.jsx:150-212 | Each command word selects its own command, and only that word does: `clear`, `ls`, `cd`, `cat`, `help`, `social`, `about`, `skills`, `projects`, `history`, `neofetch`, with `terminal` and `term` both toggling. `ai interview` starts an interview, and `ai` with any other or no argument starts a chat. `sudo hire` hires. A word is unknown exactly when it is no command word and the line is not `sudo hire`. The arguments are matched in lower case only. |
| Terminal.DispatchAsWritten | src/components/Terminal.jsx:178-184 | The source's table lookup also finds inherited object members. For every other word it dispatches as `Classify` does. |
| Terminal.Print | src/components/Terminal.jsx:124-126 | Printing adds the block at the end of the screen and changes nothing else in the session. |
| Terminal.Printout | src/components/Terminal.jsx:150-212 | Exactly the mode, directory and window commands print nothing, and so does `neofetch` with no quote to draw. `ls` and `cat` read the directory the line was typed in, and `history` the history before the line. `help` lists the advertised commands. `about`, `social`, `skills` and `projects` show the profile's card, links, skill lines and project cards. `neofetch` shows the system card with the quote the roll draws. An unknown word reports the line. |
| Terminal.ProcessCommand | src/components/Terminal.jsx:128-214 | A blank line changes nothing. Any other line is put at the front of the history, resets the recall index, and is echoed after the prompt of its directory (or `clear` resets the screen). It never raises a mail and never leaves the directories. |
| Terminal.Run | src/components/Terminal.jsx:150-212 | `clear` resets the screen. `cd` moves as `cd` does and shows its error, if any. `terminal`/`term` toggles the window and changes nothing else. `sudo hire` prints the name question. `ai` and `ai interview` enter their modes and print their start notice and the backend note. Every other command appends its printout after the echo. Nothing changes the history, input or stored name. |
| Terminal.PrintAll | src/components/Terminal.jsx:124-126 | A block, when there is one, is appended after what was on screen. With none, the session is unchanged. |
| Terminal.HireResponse | src/components/Terminal.jsx:261-280 | The first answer is stored as the name, and the organisation question is printed. The second prints the thank-you notice naming both answers and the unlock notice. It ends the wizard with a mail to the profile's address carrying the name and organisation. History, directory and modes are untouched. |
| Terminal.ThanksNamesBoth | src/components/Terminal.jsx:269 | The thank-you notice contains the name and, after ` from `, the organisation. |
| Terminal.Submit | src/components/Terminal.jsx:221-240 | Enter clears the input. An exit line ends the AI chat with its notice. Outside a chat it ends an interview with its notice. Neither is recorded. The history grows only when the line runs as a command. |
| Terminal.IsExitMeans | src/components/Terminal.jsx:222 | A line is an exit exactly when it is `exit` in any mix of cases with only white space around it. |
| Terminal.ExitIgnoresCaseAndBlanks | src/components/Terminal.jsx:228 | `exit` in any case, with any white space around it, is an exit. |
| Terminal.Recall | src/components/Terminal.jsx:241-258 | Up always moves to the next older entry when there is one; at the oldest it changes nothing. Down moves to a newer entry, or past the newest to an empty line. The recalled entry fills the input. |
| Terminal.KeyDown | src/components/Terminal.jsx:216-259 | Typing only sets the input. The arrows never touch the history. The history either stays or gains exactly one line at its front. |
| Terminal.InitInv | src/components/Terminal.jsx:53-65 | A fresh terminal satisfies the invariant. |
| Terminal.ProcessCommandInv | src/components/Terminal.jsx:128-214 | A command keeps the directory valid, the index in range, and the welcome block at the top. |
| Terminal.HireResponseInv | src/components/Terminal.jsx:261-280 | The wizard keeps the invariant; the name is stored before the organisation is asked. |
| Terminal.KeyDownInv | src/components/Terminal.jsx:216-259 | Every event keeps the invariant. |
| Terminal.Replay | src/components/Terminal.jsx:220-259 | A run of events keeps the history index in range. |
| Terminal.ReplayInv | src/components/Terminal.jsx:220-259 | Every session reachable by typing, arrow keys and desktop-icon commands satisfies the invariant. |
| Terminal.ReplayHistorySuffix | src/components/Terminal.jsx:132 | The history only grows at its front: an earlier history always ends a later one. |
| Scenarios.PlainLine | src/components/Terminal.jsx:129-135 | A line of lower-case words joined by single spaces is its own trim and splits into those words. |
| Scenarios.ProcessRuns | src/components/Terminal.jsx:128-147 | A non-blank line is recorded, echoed, and run on its first token, lower-cased, with the other tokens as arguments. |
| Scenarios.RunPrints | src/components/Terminal.jsx:178-184 | A command that prints one block adds it after the echo and changes nothing else. |
| Scenarios.Recorded | src/components/Terminal.jsx:132 | A non-blank line is put at the head of the history. |
| Scenarios.WordLine | src/components/Terminal.jsx:128-147 | A line of one lower-case word runs that word with no arguments. |
| Scenarios.EnterRuns | src/components/Terminal.jsx:221-240 | In plain mode, Enter runs the typed line and clears the input. |
| Scenarios.EnterAnswers | src/components/Terminal.jsx:234-238 | While the wizard waits, Enter passes the typed line to it and clears the input. |
| Scenarios.ProcessPlainLine | src/components/Terminal.jsx:128-147 | Such a line is recorded, echoed, and run on its first word with the rest as arguments. |
| Scenarios.SudoHire | src/components/Terminal.jsx:187-191 | `sudo hire` starts the wizard at its first question and is recorded. |
| Scenarios.HireWizard | src/components/Terminal.jsx:261-280 | `sudo hire`, a name, then an organisation produce a mail to the profile's address with both answers. Only `sudo hire` enters the history. |
| Scenarios.WizardNameKnown | src/components/Terminal.jsx:263-267 | On a reachable session, the mail names the answer given first, never `undefined`. |
| Scenarios.ChatExit | src/components/Terminal.jsx:222-227 | ` EXIT ` ends an AI chat with one notice, and the line is not recorded. |
| Scenarios.InterviewExit | src/components/Terminal.jsx:228-233 | Outside a chat, an exit line ends an interview with one notice. It is not recorded, and the directory and wizard are untouched. |
| Scenarios.ChatRunsCommands | src/components/Terminal.jsx:222-240 | In an AI chat, any other line runs as a command. |
| Scenarios.WizardTakesLines | src/components/Terminal.jsx:234-238 | While the wizard waits, a line is an answer and is not recorded. |
| Scenarios.BlankEnter | src/components/Terminal.jsx:128-129 | Enter on a blank line only clears the input. |
| Scenarios.RecallLatest | src/components/Terminal.jsx:241-247 | After a line is entered, the up arrow brings back that line first. |
| Scenarios.UpThenDown | src/components/Terminal.jsx:241-253 | Up then down returns to the same entry. |
| Scenarios.DownPastNewest | src/components/Terminal.jsx:248-257 | Down from the newest entry, or from none, empties the input. |
| Scenarios.HistoryCommand | src/components/Terminal.jsx:178-184 | A line whose only token is `history`, with any blanks around it, prints the history as it was before the line. The line itself, blanks included, is then recorded. |
| Scenarios.PrintingLine | src/components/Terminal.jsx:178-184 | A command that prints one block adds the echo and that block and changes nothing else. |
| Scenarios.RunLinesHistory | src/components/Terminal.jsx:132 | After a run of non-blank lines, the history is those lines newest first, ahead of the old history. |
| Scenarios.HistoryListsNewestFirst | src/hooks/useTerminal.js:96 | After a run of lines, listing entry `i + 1` is the line typed `i` lines before the last. |
| Scenarios.ClearCommand | src/components/Terminal.jsx:150-154 | `clear` leaves only the welcome block but is still recorded. |
| Scenarios.CdProjectsAndBack | src/hooks/useTerminal.js:142-152 | From home, `cd projects` shows `~/projects` in the prompt, and `cd ..` comes back to `~`. |
| Scenarios.CdLine | src/components/Terminal.jsx:161-165 | A `cd` line with one operand moves as `cd` does with that operand. |
| Scenarios.CdWordLine | src/components/Terminal.jsx:161-165 | `cd` followed by one lower-case word moves as `cd` does with that word. |
| Scenarios.CdProjects | src/hooks/useTerminal.js:142-152 | From home, `cd projects` enters the projects directory. |
| Scenarios.CdUp | src/hooks/useTerminal.js:142-152 | From the projects directory, `cd ..` goes home. |
| Scenarios.ParentOfProjects | src/hooks/useTerminal.js:22-30 | `..` from the projects directory resolves to home. |
| Scenarios.AboutTyped | src/hooks/useTerminal.js:67-74 | Typing `about` echoes the line and shows the card with the profile's about text. |
| Scenarios.CatAboutTyped | src/hooks/useTerminal.js:154-164 | Typing `cat about.txt` at home echoes the line and shows the profile's about text as the file. |
| Scenarios.AboutMatchesCat | src/hooks/useTerminal.js:67-74 | At home, the typed lines `about` and `cat about.txt` both echo after the `~` prompt and then show the same text, the profile's about text. |
| Scenarios.NotFoundShowsLine | src/components/Terminal.jsx:207-212 | An unknown command reports the line exactly as typed, surrounding blanks included, and changes neither directory nor mode. |
| Scenarios.CaseRules | src/components/Terminal.jsx:135-136 | `SUDO hire` starts the wizard but `sudo HIRE` is not found. `LS` lists. |
| Scenarios.WordRecognised | src/components/Terminal.jsx:150-194 | A single lower-case command word is recognised. |
| Scenarios.PairRecognised | src/components/Terminal.jsx:150-194 | Two lower-case words are recognised when the first is a command word or they are `sudo hire`. |
| Scenarios.HelpIsAccurate | src/hooks/useTerminal.js:41-57 | Every command line that `help` advertises is recognised by the dispatcher. |

## Left out

- Window chrome is not modelled: dragging, resizing, animation, the cursor mirror, scrolling and the desktop. It is UI plumbing with no effect on the interpreter.
- The AI backend call (`api/gemini.js`) and `aiChatHistory`/`interviewHistory` are not modelled. The core never calls the backend. Chat and interview lines run as ordinary commands unless they are `exit`.
- HTML markup and CSS classes are not modelled. Payloads are tagged values holding the profile data they show.
- The fixed headings of the info commands are not modelled: "Available Commands:", "Connect with Me:", "About Me:", "Technical Skills:" and "Projects:". They do not depend on the profile or the session.
- The `help` listing: the description after each command is left out, and so is the `[path]`, `[dir]` or `[file]` hint after `ls`, `cd` and `cat`. Only the command words are kept; they are what `Scenarios.HelpIsAccurate` checks against the dispatcher.
- Shell.SocialOutput: keeps each link's target, not its visible text. The text shown is the address without `https://` and, for LinkedIn and Instagram, without `www.`.
- Shell.AboutOutput: the profile picture of the about card is left out.
- `Math.random` is a parameter: `roll` picks `quotes[roll % |quotes|]`. This reaches every quote, which is what the source's floor of a product does.
- Terminal.HireResponse: the two-second timer is collapsed into the step. The mail is raised and the wizard reset at once. A second Enter during the delay would re-run the organisation branch in the source; the model does not show that.
- Terminal.HireResponse: `encodeURIComponent` is not applied to the mail subject and body. They are kept as plain text; the encoding is a browser concern.
- Terminal.Run: `onToggle` being absent is not modelled. The toggle is always raised as a signal, and the host may ignore it.
- Terminal.KeyDown: requires the history index to be in range. Every reachable session satisfies this, by `Terminal.ReplayInv`; the source never sees anything else.
- FileSystem.ProjectFileName: a non-ASCII capital in a project's name, such as `É`, is kept, where the source's `toLowerCase` gives `é`. The file name `ls` shows and `cat` looks up differs for such names. This follows from `Text.ToLower`.
- Text.ToLower: lower-cases only the characters whose lower case is ASCII, namely `A`–`Z` and the Kelvin sign. Other characters are kept, so the comparisons against ASCII command words agree with the language. The full Unicode mapping is left out.
- `neofetch` with an empty quote list: the source throws after the echo. The model then appends nothing and keeps the recorded line.
- Whole-screen `output` entries carry no timestamps. `Date.now()` only keys the rendering.

## Findings

| source | as written | input that shows it | evidently intended | confidence | as-written member | corrected member |
|---|---|---|---|---|---|---|
| src/components/Terminal.jsx:178-184 | `commands[lowerCmd]` is a plain property read on an object literal, so it also finds members inherited from `Object.prototype`. | the line `constructor` (or `__proto__`) | only the declared commands are run; any other word reports "Command not found" | not executed; high (standard JavaScript lookup semantics) | Terminal.DispatchAsWritten, with Terminal.ConstructorIsNotFound | Terminal.Classify (unknown exactly when no command word), used by Terminal.ProcessCommand |
