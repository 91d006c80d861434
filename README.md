# A verified model of the powerline-style bash prompt

`_bash.d/prompt.py` writes a coloured bash prompt. It builds a `Powerline` object, and a fixed
list of producers each append segments to it: the wrapping brackets, the current directory
and the git status. The producers that are switched off are also written here: virtual
environment, ssh, read-only, user, host, Mercurial, Fossil, exit code and root indicator.
Each segment is a tuple of text, foreground, background, separator and separator colour.
`draw` turns the segments into one string of colour escapes and text. Each segment's
separator is drawn on the next segment's background, and the prompt closes with a reset
and a space.

The Dafny modules follow the structure of the script:

- `Wrappers`: `Option`.
- `Text`: the Python string built-ins the script relies on: `split`, `join`, `strip`,
  `rstrip`, `replace` of one character and `str` of an integer.
- `Colors`: the `Color` table of palette indices.
- `Renderer`:
  - the class `Powerline` with its `segments` field, `append` and `draw`;
  - the colour escape templates;
  - a token view of the drawing (colour, reset and literal pieces). It shows that the
    output is made only of whole escapes and text, and what ends up visible.
- `GitStatus`: `RepoStats`, `parse_git_stats`, `n_or_empty` and `add_to_powerline`.
- `GitHeader`: the branch header regular expression of `parse_git_branch_info`, written as
  a parser, with its round trip.
- `GitSegment`: `_get_git_detached_branch` and `add_git_segment`.
- `Cwd`: `get_valid_cwd`, `replace_home_dir`, `split_path_into_names`,
  `maybe_shorten_name` and `add_cwd_segment`.
- `OtherVcs`: `get_hg_status`, `add_hg_segment`, `get_fossil_status` and the fossil segment.
- `Producers`: the small producers.
- `Pipeline`: the enabled producers in order and the text written to standard output:
  the warnings of `get_valid_cwd` (`warn` prints to standard output), then the drawing.

Every producer is specified by the list of `append` calls it makes, as `Request` values that
hold `append`'s arguments. `Renderer.Resolve` applies `append`'s defaults to them. Each
producer method is proved to grow `p.segments` by exactly the resolved list, and the lemmas
state what that list holds.

Subprocesses, environment variables, `os.path.exists`, `os.access`, `os.getcwd` and
`socket.gethostname` are parameters:

- `StatusRun`, `DescribeRun` and `FossilRun` give a command's outcome: it could not be
  started, or it ran and produced a result. `DescribeRun` keeps only the exit code.
  `StatusExited` carries the exit code and the lines of `git status`, already decoded from
  UTF-8 and split by `splitlines()` (prompt.py:446). The model does not split the raw
  output itself. `FossilRan` carries the text that `os.popen` reads from the fossil commands.
- Environment variables are `Option<string>`, where `None` means unset.

Three details of the code are easy to misread; the model follows the code:

- The git counter sub-segments use the `GIT_*` colours of `add_to_powerline`, not the dirty
  repository colours.
- `ahead` and `behind` are the matched digit strings, not integers. So `[ahead 0]` still
  draws an ahead marker (`GitStatus.ZeroAheadStillShown`).
- The ahead and behind symbols are the three characters the file holds, `â†‘` and `â†“`:
  the arrows `↑` and `↓` encoded in UTF-8 and read back as Windows-1252. They are printed as
  they are.

## Model

| member | source | states |
|---|---|---|
| Renderer.Powerline.constructor | _bash.d/prompt.py:28-41 | The new prompt has no segments, the bash shell, directory names cut to 12 characters, depth 3, fancy mode, the `''` and `/` separators, and `RO` and `SSH` as the lock and network texts. It keeps the previous command's status. |
| Renderer.Powerline.Append | _bash.d/prompt.py:55-58 | The segments grow by exactly one stored tuple for the arguments; nothing else changes. |
| Renderer.Stored | _bash.d/prompt.py:55-58 | The stored tuple keeps text and colours. A missing separator becomes the prompt's default separator, and a missing separator colour becomes `SEPARATOR_FG`. |
| Renderer.Resolve | _bash.d/prompt.py:55-58 | A run of appends stores one tuple per call, in call order, each with `append`'s defaults applied. |
| Renderer.ResolveConcat | _bash.d/prompt.py:55-58 | Two runs of appends one after the other store the same as the two runs together. |
| Renderer.Powerline.Draw | _bash.d/prompt.py:60-62 | The drawing ends with the reset escape and one space, so typed text is never coloured. |
| Renderer.DrawnSegments | _bash.d/prompt.py:61 | There is one drawn string per segment, the `i`-th being `draw_segment(i)`. |
| Renderer.DrawClosesWithReset | _bash.d/prompt.py:60-62 | For any list of segments, the drawing is longer than the reset and ends with the reset and a space. |
| Renderer.DrawSplitsAt | _bash.d/prompt.py:60-62 | The drawing is the earlier segments' drawings, then segment `i`, then the later ones, then the reset and a space. |
| Renderer.DrawSegmentBeforeNext | _bash.d/prompt.py:68-78 | A segment that has a successor draws its separator on the successor's background colour. |
| Renderer.DrawSegmentLast | _bash.d/prompt.py:68-78 | The last segment draws its separator after a reset. |
| Renderer.LastSeparatorAfterReset | _bash.d/prompt.py:60-78 | A non-empty prompt ends with the last segment painted before a reset, then a second reset and a space. |
| Renderer.AppendKeepsEarlierDrawing | _bash.d/prompt.py:55-78 | Appending a segment leaves the drawing of every segment before the previous last one unchanged. |
| Renderer.AppendRepaintsLast | _bash.d/prompt.py:68-78 | After an append, the previous last segment's separator sits on the new segment's background, and the new segment is drawn as the last one. |
| Renderer.TemplatesStartWithEscape | _bash.d/prompt.py:22-26 | The zsh and bare templates put the escape character (0x1B) before the body: the zsh reset is `%{ESC[0m%}` and the bare foreground for colour 3 is `ESC[38;5;3m`. |
| Renderer.ColorPiecesFlatten | _bash.d/prompt.py:43-53 | The token form of a colour emits exactly what `color` returns: nothing for no colour, else the shell's template around `[prefix;5;codem`; for zsh and bare that template starts with the escape character. |
| Renderer.ColorPiecesPrinted | _bash.d/prompt.py:43-47 | A colour shows no visible character. |
| Renderer.PaintedPiecesFlatten | _bash.d/prompt.py:68-78 | The token form of a segment emits exactly its six `draw_segment` parts. |
| Renderer.PaintedPiecesPrinted | _bash.d/prompt.py:68-78 | Only the text and separator of a drawn segment are visible. |
| Renderer.SegmentPiecesPrinted | _bash.d/prompt.py:68-78 | Whatever follows it, segment `i` shows exactly its text followed by its separator. |
| Renderer.DrawIsTokens | _bash.d/prompt.py:60-78 | The drawing is a sequence of whole colour or reset escapes and literal texts. |
| Renderer.DrawPrintsTextsAndSeparators | _bash.d/prompt.py:60-78 | What shows on screen is every segment's text and separator, in order, then one space. |
| Renderer.FlattenClosing | _bash.d/prompt.py:61-62 | Closing the token list with a reset and a space adds exactly the reset escape and a space. |
| Text.RStrip | _bash.d/prompt.py:491 | `rstrip()` yields a prefix that does not end in white space, and everything it cuts is white space. |
| Text.LStrip | _bash.d/prompt.py:564 | The left half of `strip()` yields a suffix that does not start with white space, and everything it cuts is white space. |
| Text.RemoveChar | _bash.d/prompt.py:564 | `replace('*', '')` leaves no star. |
| Text.RemoveCharConcat | _bash.d/prompt.py:564 | Removing a character from two strings joined is removing it from each and joining the results. |
| Text.RemoveOne | _bash.d/prompt.py:564 | A single character is dropped exactly when it is the removed one; with `RemoveCharConcat` every other character is kept, in order. |
| Text.RemoveAbsent | _bash.d/prompt.py:564 | Removing a character that does not occur changes nothing. |
| Text.IndexOf | _bash.d/prompt.py:293 | The first occurrence of a character that is in the string: it is there, and not before. |
| Text.Split | _bash.d/prompt.py:152 | `split` gives at least one part and no part contains the separator. |
| Text.JoinSplit | _bash.d/prompt.py:152-156 | Joining the split parts again gives back the string, so `up` starts as the directory itself. |
| Text.SplitJoin | _bash.d/prompt.py:152-156 | Splitting a join of separator-free parts gives the parts back. |
| Text.NatToString | _bash.d/prompt.py:117 | `str` of a count is non-empty decimal digits without a leading zero, and reads back to the count. |
| Text.IntToString | _bash.d/prompt.py:605 | `str` of an integer is non-empty. For a non-negative integer it is canonical digits that read back to it; for a negative one it is `-` followed by canonical digits that read back to its magnitude. |
| GitStatus.Body | _bash.d/prompt.py:418 | `status[1:]` is every line after the first, and nothing for an empty list. |
| GitStatus.CodeClassification | _bash.d/prompt.py:419-422 | `code` is the first two characters of a line. It is `??` exactly for two question marks, and it is in the conflict list exactly for the unmerged pairs. |
| GitStatus.Counted | _bash.d/prompt.py:416-430 | The tally of the body leaves ahead and behind unset and counts no more untracked and conflicted files than there are lines. |
| GitStatus.ParseGitStats | _bash.d/prompt.py:416-430 | The loop returns the tally of every line after the first. |
| GitStatus.OneLineRule | _bash.d/prompt.py:419-428 | Each line counts as exactly one of: untracked when its code is `??`; conflicted for the seven unmerged codes; otherwise not staged when the second letter is not a space, and staged when the first letter is not a space. |
| GitStatus.CountedAdditive | _bash.d/prompt.py:418-428 | The tally of two runs of lines is the sum of their tallies. |
| GitStatus.LineOrderIrrelevant | _bash.d/prompt.py:418-428 | The counters do not depend on the order of the lines. |
| GitStatus.CountedBounds | _bash.d/prompt.py:418-428 | Each line counts at most once among untracked, conflicted and staged, and at most once among untracked, conflicted and not staged. |
| GitStatus.DirtyIffSomeChange | _bash.d/prompt.py:103-111 | The tree is dirty exactly when some body line has a code other than two spaces. |
| GitStatus.NumberOrEmpty | _bash.d/prompt.py:116-117 | A counter prints as digits, or as nothing. A file counter prints nothing exactly when it is at most one, and otherwise its digits read back to its value. |
| GitStatus.Add | _bash.d/prompt.py:120-123 | `add` appends one sub-segment for a truthy counter in that counter's colours, and nothing otherwise. |
| GitStatus.AddToPowerline | _bash.d/prompt.py:119-130 | `add_to_powerline` appends the six counters' sub-segments in the order ahead, behind, staged, not staged, untracked, conflicted. |
| GitStatus.SymbolMarksDistinct | _bash.d/prompt.py:82-93 | The six symbols, with ahead and behind as the file's `â†‘` and `â†“`, end in distinct characters. |
| GitStatus.StatTextMark | _bash.d/prompt.py:122 | A sub-segment text ends with the last character of its counter's symbol. |
| GitStatus.StatRequestsMembers | _bash.d/prompt.py:119-130 | A request is among the sub-segments exactly when it is the request of a truthy counter. |
| GitStatus.ShownIffTruthy | _bash.d/prompt.py:120-123 | A counter's symbol appears among the sub-segments exactly when the counter is truthy. |
| GitStatus.StatRequestsUniform | _bash.d/prompt.py:122-123 | Every sub-segment has an empty separator, the default separator colour, and text that starts with a space. |
| GitStatus.NothingWhenAllFalsy | _bash.d/prompt.py:119-130 | No sub-segment is appended exactly when no counter is truthy. |
| GitStatus.HeaderCountAsNumber | _bash.d/prompt.py:116-117 | A header count written in canonical digits is truthy, and prints as the number when above one and as nothing otherwise, like an integer counter. |
| GitStatus.ZeroAheadStillShown | _bash.d/prompt.py:121-122 | A header count of `0` is a non-empty string and so is still shown, as a bare marker. |
| GitHeader.FirstSpace | _bash.d/prompt.py:393 | The end of the leading run of non-space characters, the extent of `\S+`. |
| GitHeader.LeadingDigits | _bash.d/prompt.py:393 | The end of the leading run of digits, the extent of `\d+`. |
| GitHeader.FirstDots | _bash.d/prompt.py:393 | The first `...` from a position on that leaves a non-empty name after it, or none. |
| GitHeader.ParseCount | _bash.d/prompt.py:393 | `ahead` or `behind` followed by digits: the digits are non-empty, the rest does not start with a digit, and the pieces rebuild the input. Otherwise no count follows the keyword. |
| GitHeader.ParseTracking | _bash.d/prompt.py:393 | A tracking tail is ` [` ... `]`, and its counts are non-empty digit strings. |
| GitHeader.SplitNames | _bash.d/prompt.py:393 | The lazy `local` group ends at the first `...` that leaves a remote. Either there is no such `...`, or the line is local, `...`, remote, with both names non-empty and space-free. |
| GitHeader.ParseBranchInfo | _bash.d/prompt.py:392-394 | A match starts with `## ` and has a non-empty, space-free local name. Without a remote the line is exactly `## local`, with no counts. A remote and counts are non-empty and well formed. |
| GitHeader.ParseWithoutTail | _bash.d/prompt.py:393 | A header without spaces parses to its split names and no counts. |
| GitHeader.ParseWithTail | _bash.d/prompt.py:393 | A header with a tracking tail parses to the names and the tail's counts. |
| GitHeader.ParseTrackingOf | _bash.d/prompt.py:393 | Any ahead and behind counts, at least one of them present, written as git writes them, parse back to themselves. |
| GitHeader.HeaderRoundTrip | _bash.d/prompt.py:392-394 | Every well-formed branch header that git can print parses back to the branch information it was written from. |
| GitHeader.ExampleAheadBehind | _bash.d/prompt.py:393 | `## main...origin/main [ahead 2, behind 1]` gives local `main`, remote `origin/main`, ahead `2` and behind `1`. |
| GitHeader.ExampleLocalOnly | _bash.d/prompt.py:393 | `## main` gives local `main` and nothing else. |
| GitHeader.ExampleNoBranch | _bash.d/prompt.py:393 | `## HEAD (no branch)` does not match. |
| GitHeader.ExampleGone | _bash.d/prompt.py:393 | `## main...origin/main [gone]` does not match. |
| GitSegment.DetachedBranch | _bash.d/prompt.py:397-413 | No name when git cannot be started, `HEAD detached` when describe succeeds, `Big Bang` when it fails. |
| GitSegment.BranchLabel | _bash.d/prompt.py:463 | The label is `(` followed by the branch, or by `None` when there is none. |
| GitSegment.HeadedStats | _bash.d/prompt.py:447-452 | The counters with the header's ahead and behind are well formed. |
| GitSegment.ReadStatus | _bash.d/prompt.py:446-455 | Reading the status gives the counters with the header's counts, and the header's branch or the detached name. |
| GitSegment.AppendGitParts | _bash.d/prompt.py:457-465 | The branch label, the counters' sub-segments and `)` are appended in the clean or dirty colours. |
| GitSegment.AddGitSegment | _bash.d/prompt.py:433-465 | `add_git_segment` appends exactly the git segment's requests for the two command outcomes. |
| GitSegment.NothingOnFailure | _bash.d/prompt.py:434-444 | Nothing is appended exactly when git cannot be started or exits with an error. |
| GitSegment.GitSegmentShape | _bash.d/prompt.py:457-465 | A successful run appends the branch label first and `)` last, with the counters' sub-segments in between. Both are in the dirty colours when some body line has a change, and in the clean colours otherwise. |
| GitSegment.BranchFromHeader | _bash.d/prompt.py:450-453 | With a matching header, the label is the header's local name, and ahead and behind are the header's counts. |
| GitSegment.DetachedLabels | _bash.d/prompt.py:454-455 | Without a matching header, the label is `(None`, `(HEAD detached` or `(Big Bang` from `git describe`, and ahead and behind stay unset. |
| GitSegment.SuccessAppends | _bash.d/prompt.py:446-465 | A successful run appends the segment of the read counters and branch. |
| GitSegment.ScenarioDirtyBranch | _bash.d/prompt.py:433-465 | The status `## main...origin/main [ahead 2, behind 1]`, `M  foo.txt`, `?? bar.txt` draws `(main`, ` 2â†‘`, ` â†“`, ` staged`, ` ?` and `)`, with the branch and parenthesis in the dirty colours. |
| GitSegment.ScenarioCleanBranch | _bash.d/prompt.py:433-465 | The status `## main` alone draws `(main` and `)` in the clean colours. |
| Cwd.GetValidCwd | _bash.d/prompt.py:133-160 | The directory is `PWD` when set and not empty, else `os.getcwd()`; the run fails exactly when neither exists, and then writes the ticket warning and `> `. `up` is the lowest valid directory of the loop, and the warning naming it is written exactly when it differs from the directory. |
| Cwd.NoWarningWhenExisting | _bash.d/prompt.py:152-160 | A directory that exists draws no warning. |
| Cwd.LowestValidIsLongestExisting | _bash.d/prompt.py:152-156 | The loop stops at the longest leading run of names that exists, or at the empty path. |
| Cwd.ReplaceHomeDir | _bash.d/prompt.py:304-308 | As written: a path that starts with `HOME` becomes `~` followed by the rest of the path; any other path is unchanged. |
| Cwd.HomeReplaced | _bash.d/prompt.py:304-308 | Corrected: only a path at or below `HOME` is abbreviated, and then the rest is empty or starts with `/`. Other paths are unchanged. |
| Cwd.HomeReplacedAgrees | _bash.d/prompt.py:304-308 | The two versions agree at or below `HOME`, and differ only on a sibling that shares `HOME` as a string prefix. |
| Cwd.HomePrefixOfSibling | _bash.d/prompt.py:304-308 | With `HOME=/home/al`, the written version shows `/home/alice` as `~ice`; the corrected one leaves it alone. |
| Cwd.SplitPathIntoNames | _bash.d/prompt.py:311-321 | The names are never empty. They are `['/']` exactly when the path without its leading `/` is empty or starts with another `/`; otherwise they join back to that path and the first name is not empty. |
| Cwd.MaybeShortenName | _bash.d/prompt.py:324-330 | The result is a prefix of the name. For a positive size, its length is the smaller of the name's length and the size. For 0 the name is whole. For a negative size, that many characters are cut from the end, as Python slices do. |
| Cwd.LimitDepth | _bash.d/prompt.py:345-352 | The last name is kept. Nothing changes for a depth of at most 0 or a path that is short enough. Otherwise the result is `..` followed by the last `depth` names. |
| Cwd.ShownNames | _bash.d/prompt.py:343-357 | At least one name and at most depth + 1. Exactly one in dironly mode. The current directory's own name is always last. |
| Cwd.AddCwdSegment | _bash.d/prompt.py:333-375 | `add_cwd_segment` appends exactly the directory requests for the home-abbreviated path. |
| Cwd.SelectNames | _bash.d/prompt.py:343-357 | The names the segment draws: limited in depth and, in dironly mode, only the last. |
| Cwd.AppendName | _bash.d/prompt.py:359-375 | One loop round appends the leading empty segment, only for a first name that is not `~`, `/` or `..`, followed by the name. |
| Cwd.AppendNames | _bash.d/prompt.py:359-375 | The loop appends every name's requests in order. |
| Cwd.NamesDrawnInOrder | _bash.d/prompt.py:359-375 | The shortened names are appended in order, after one empty lead segment exactly when the first name needs one. |
| Cwd.NamesInPathColours | _bash.d/prompt.py:360-361 | Every directory segment is in the path colours. |
| Cwd.ThinSeparatorsButLast | _bash.d/prompt.py:363-375 | Every directory segment but the last has the thin separator in its colour; the last gets the defaults. |
| Cwd.PlainIsOneSegment | _bash.d/prompt.py:339-341 | In plain mode the whole path is one segment in the current-directory colour. |
| Cwd.NamesOfJoined | _bash.d/prompt.py:311-321 | A path written as `/` and separator-free names splits back into those names. |
| Cwd.DeepShown | _bash.d/prompt.py:343-352 | `~/src/powerline/lib/git` at depth 3 shows `..`, `powerline`, `lib`, `git`. |
| Cwd.DeepPathBelowHome | _bash.d/prompt.py:304-375 | The directory `/home/al/src/powerline/lib/git` with `HOME=/home/al` draws `..`, `powerline`, `lib` and `git`. Each has a thin separator except the last. |
| OtherVcs.HgFlags | _bash.d/prompt.py:479-488 | Untracked, missing and modified are set exactly when some line starts with `?`, starts with `!`, or is any other non-empty line. |
| OtherVcs.GetHgStatus | _bash.d/prompt.py:471-488 | The loop over the lines of `hg status` returns those flags. |
| OtherVcs.Decorated | _bash.d/prompt.py:500-505 | The branch is kept as a prefix. A suffix is added exactly when there are untracked or missing files; it starts with a space and holds `+` exactly for untracked files and `!` exactly for missing ones. |
| OtherVcs.AppendBranch | _bash.d/prompt.py:494-506 | Appends the decorated branch in the clean or dirty colours. |
| OtherVcs.AddHgSegment | _bash.d/prompt.py:490-506 | Nothing outside a repository (empty branch); otherwise one segment for the stripped branch and its flags. |
| OtherVcs.BranchRequestMeaning | _bash.d/prompt.py:494-506 | The segment text is the branch between spaces. It is in the dirty colours exactly when some flag is set, and uses the default separators. |
| OtherVcs.HgUntrackedAndModified | _bash.d/prompt.py:490-506 | Branch `default` with one modified and one untracked file draws ` default + ` in the dirty colours. |
| OtherVcs.MarkedNames | _bash.d/prompt.py:564 | The names of the starred lines hold no star and are no more than the lines. |
| OtherVcs.MarkedNamesEmpty | _bash.d/prompt.py:564-566 | No name is found exactly when no line starts with `*`. |
| OtherVcs.FossilCurrentBranch | _bash.d/prompt.py:564 | `* trunk` above `  feature` reads as the branch `trunk`. |
| OtherVcs.AddFossilSegment | _bash.d/prompt.py:562-597 | Nothing when fossil cannot be started or no line is starred; otherwise one segment for the branch and the fossil flags. |
| OtherVcs.AppendNamedBranch | _bash.d/prompt.py:565-580 | An empty branch name appends nothing; any other appends its decorated segment. |
| Producers.AddBeginWrap | _bash.d/prompt.py:230-233 | Appends `[` in the passed-command colours with an empty separator. |
| Producers.AddEndWrap | _bash.d/prompt.py:622-625 | Appends `]` in the passed-command colours with an empty separator. |
| Producers.NameStart | _bash.d/prompt.py:243 | The position just after the last `/`, or 0 when there is none. |
| Producers.Basename | _bash.d/prompt.py:243 | `os.path.basename` holds no `/`, and is the part of the path after a `/` or the whole path. |
| Producers.AddVirtualEnvSegment | _bash.d/prompt.py:238-246 | Appends the environment's base name between spaces when `VIRTUAL_ENV` is set and not empty or `CONDA_ENV_PATH` is set; otherwise nothing. |
| Producers.VirtualEnvNamesLastDirectory | _bash.d/prompt.py:238-246 | No segment exactly when neither variable names an environment. The text is the base name of `VIRTUAL_ENV`, or of `CONDA_ENV_PATH` when the former is empty or unset. |
| Producers.BasenameOfEnv | _bash.d/prompt.py:243 | The base name of `/home/al/.venvs/tools` is `tools`. |
| Producers.AddSshSegment | _bash.d/prompt.py:251-254 | Over ssh, appends the network text with the `>` separator; otherwise nothing. |
| Producers.AddReadOnlySegment | _bash.d/prompt.py:259-263 | In a directory that is not writable, appends the lock text with the `>` separator; otherwise nothing. |
| Producers.AddUsernameSegment | _bash.d/prompt.py:266-281 | Over ssh, appends the shell's user escape (`USER` itself for bare prompts) with an empty separator. |
| Producers.RootUserHighlighted | _bash.d/prompt.py:276-279 | The user segment has the root background exactly when `USER` is `root`. |
| Producers.ShortHost | _bash.d/prompt.py:293 | `split('.')[0]`: a prefix of the host name without dots, ending where the host name has its first dot. |
| Producers.AddHostnameSegment | _bash.d/prompt.py:284-296 | Over ssh, appends `@` and then the shell's host escape (the short host name for bare prompts). |
| Producers.SshSegmentsTogether | _bash.d/prompt.py:251-296 | The ssh, user and host segments are each present exactly when `SSH_CLIENT` is set and not empty. |
| Producers.AddExitCodeSegment | _bash.d/prompt.py:600-605 | Appends the previous status between spaces in the failed colours, unless it is 0. |
| Producers.ExitCodeReadsBack | _bash.d/prompt.py:600-605 | The segment is absent exactly when the status is 0. Its text is the status between spaces, and its digits, after a `-` for a negative status, read back to the status. |
| Producers.AddRootSegment | _bash.d/prompt.py:608-619 | Appends the shell's root indicator in the failed colours after a failure, and in the passed colours otherwise. |
| Producers.RootMatchesExitSegment | _bash.d/prompt.py:600-619 | The root indicator shares the exit segment's colours whenever there is one, and the brackets' colours exactly when there is none. |
| Pipeline.BuildPrompt | _bash.d/prompt.py:628-645 | The script's run writes exactly the warnings of `get_valid_cwd` followed by the enabled producers' segments, drawn, with status 0; or, with no directory, the ticket warning and `> ` with status 1. |
| Pipeline.AddEnabledSegments | _bash.d/prompt.py:635-642 | After the opening bracket, the directory, git and closing bracket producers leave exactly their requests, resolved, in order. |
| Pipeline.FailsOnlyWithoutDirectory | _bash.d/prompt.py:143-150 | The run exits with status 1 and writes the ticket warning and `> ` exactly when neither `PWD` nor `os.getcwd()` gives a directory; otherwise it exits with 0. |
| Pipeline.OnlyPromptWhenExisting | _bash.d/prompt.py:133-160 | When the directory exists, the run writes the drawn prompt and nothing else, with status 0. |
| Pipeline.SuccessEndsWithReset | _bash.d/prompt.py:645 | A successful run writes a prompt ending with a reset and a space. |
| Pipeline.PromptOnScreen | _bash.d/prompt.py:628-645 | The prompt is made of whole escapes and text. On screen it is `[`, then the directory and git texts and separators, then `]` and a space. |

## Left out

- `_add_svn_segment` and `add_svn_segment` (prompt.py:512-545) are not modelled. They pipe
  one command into another (`svn status | grep -c`) and convert the count with `int`, and
  the svn producer is disabled in the script.
- I/O and the operating system are parameters: commands are their outcomes, variables are
  options, `os.path.exists` is a set of existing paths, `os.access` is a flag. The host
  name and `os.getcwd()` are given values.
- `argparse` parsing and the writing itself are not modelled. What the script writes to
  standard output, the warnings of `warn` included, is the `output` of an `Outcome`, and
  `sys.exit(1)` becomes status 1.
- The Python 2 branches (the `encode` in `draw` and the `decode` in `add_cwd_segment`) are
  left out. Python 3 strings are sequences of characters.
- Renderer.Powerline.constructor: the shell is always bash, as in the script. The zsh and
  bare templates are modelled in the drawing functions but never selected.
- Pipeline.BuildPrompt: `HOME` is a string parameter. An unset `HOME` makes
  `replace_home_dir` raise, and that case is not modelled.
- Pipeline.BuildPrompt: an empty `os.getcwd()` result is excluded by a precondition, since
  the operating system never returns one.
- Pipeline.BuildPrompt: the directory is abbreviated with the corrected `Cwd.HomeReplaced`
  (see Findings). The written `Cwd.ReplaceHomeDir` is kept beside it.
- Cwd.AddCwdSegment: abbreviates the home directory with the corrected `Cwd.HomeReplaced`,
  not `replace_home_dir` as written (prompt.py:304-308, called at line 337). With
  `HOME=/home/al`, `/home/alice` draws as `/home/alice` here but as `~ice` in the script.
  The same holds on every input where `HOME` is a prefix of the path but the path is not
  `HOME` itself or below it (`Cwd.HomeReplacedAgrees`). That includes an empty `HOME`, where
  the script shows `/x` as `~/x`, and a `HOME` with a trailing slash, such as `/home/al/`,
  where the script shows `/home/al/x` as `~x`. The model leaves both paths unchanged.
- Cwd.LimitDepth: for a depth of at most 0 the script also prints a warning to standard
  output (prompt.py:346-347); the model leaves the names unchanged and writes nothing. That
  branch never runs in the script, because the constructor fixes the depth at 3 (prompt.py:31).
- Pipeline.AddEnabledSegments: its directory requests use the corrected `Cwd.HomeReplaced`,
  as `Cwd.AddCwdSegment` does, so a sibling of `HOME` that shares its prefix is not drawn as
  the script draws it.
- Pipeline.PromptOnScreen: the directory texts it shows are those of the corrected
  `Cwd.HomeReplaced`; on a sibling of `HOME` that shares its prefix the script shows `~`
  and the rest of the name instead.
- GitSegment.AddGitSegment: a git run that succeeds with no output line, or with a body line
  shorter than two characters, makes the script raise. The model requires such runs not to
  happen (`WellFormedRun`), which git's porcelain format guarantees.
- GitSegment.AddGitSegment: `git_subprocess_env` (prompt.py:382-389) passes the values of
  `HOME` and `PATH` to `Popen` as they are. When either variable is unset, `Popen` raises
  `TypeError`, which the `except OSError` at prompt.py:438 and 402 does not catch, so the
  script stops without a prompt. `StatusRun` and `DescribeRun` cannot express this outcome.
  Output that is not valid UTF-8 also makes `decode` raise, and is not modelled either.
- GitHeader.ParseBranchInfo: `\d` is taken as the ASCII digits only, while Python's `\d`
  also matches other Unicode decimal digits. `\S` uses the full set of characters Python's
  `isspace` accepts (`Text.IsSpace`).
- GitStatus.NumberOrEmpty: ahead and behind are the matched digit strings, printed as
  matched. Only for canonical digits is this shown to agree with the integer rule
  (`GitStatus.HeaderCountAsNumber`).
- OtherVcs.AddFossilSegment: the initial bare `fossil` call and the
  `subprocess.CalledProcessError` handler have no observable effect and are not modelled.
  Its flags (`FossilFlags`) are defined from the two outputs and not stated further.
- Producers.AddReadOnlySegment: the producer's own call to `get_valid_cwd` is replaced by
  the `writable` answer for the directory it finds.

## Findings

| source | as written | input that shows it | evidently intended | confidence | as-written member | corrected member |
|---|---|---|---|---|---|---|
| _bash.d/prompt.py:304-308 | `replace_home_dir` abbreviates any path that starts with the text of `HOME`, even when the match ends inside a directory name | `HOME=/home/al`, current directory `/home/alice`: the prompt shows `~ice`, a directory that does not exist | abbreviate only `HOME` itself or a path below it, where the next character is `/` | not executed | Cwd.HomePrefixOfSibling | Cwd.HomeReplaced |
