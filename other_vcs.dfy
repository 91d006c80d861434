/** The Mercurial and Fossil segments (prompt.py:471-506 and 551-582): a branch name with
    a suffix for untracked (`+`) and missing (`!`) files, in the clean or dirty repository
    colours. The outputs of the `hg` and `fossil` commands are given as strings. */
module OtherVcs {
  import opened Wrappers
  import opened Text
  import Colors
  import opened Renderer

  /** The three flags `get_hg_status` and `get_fossil_status` return. */
  datatype VcsFlags = VcsFlags(modified: bool, untracked: bool, missing: bool)
  {
    predicate Dirty() {
      modified || untracked || missing
    }
  }

  const Clean := VcsFlags(false, false, false)

  // ---------------------------------------------------------------------------------------
  // Mercurial

  /** A line of `hg status` that starts with `c`. */
  predicate MarkedWith(line: string, c: char) {
    line != "" && line[0] == c
  }

  /** The flags after reading `lines` in order: an empty line is skipped, `?` marks an
      untracked file, `!` a missing one, any other line a modified one. */
  function HgFlags(lines: seq<string>): (f: VcsFlags)
    ensures f.untracked <==> exists i :: 0 <= i < |lines| && MarkedWith(lines[i], '?')
    ensures f.missing <==> exists i :: 0 <= i < |lines| && MarkedWith(lines[i], '!')
    ensures f.modified <==> exists i :: 0 <= i < |lines| && lines[i] != "" && !MarkedWith(lines[i], '?') && !MarkedWith(lines[i], '!')
  {
    if lines == [] then Clean
    else
      var f := HgFlags(lines[..|lines| - 1]);
      var line := lines[|lines| - 1];
      assert forall i :: 0 <= i < |lines| - 1 ==> lines[..|lines| - 1][i] == lines[i];
      if line == "" then f
      else if line[0] == '?' then f.(untracked := true)
      else if line[0] == '!' then f.(missing := true)
      else f.(modified := true)
  }

  /** `get_hg_status` (prompt.py:471-488) on the output of `hg status`. */
  method GetHgStatus(output: string) returns (flags: VcsFlags)
    ensures flags == HgFlags(Split(output, '\n'))
  {
    var lines := Split(output, '\n');
    var hasModifiedFiles, hasUntrackedFiles, hasMissingFiles := false, false, false;
    for i := 0 to |lines|
      invariant VcsFlags(hasModifiedFiles, hasUntrackedFiles, hasMissingFiles) == HgFlags(lines[..i])
    {
      var line := lines[i];
      assert lines[..i + 1][..i] == lines[..i];
      if line == "" {
        continue;
      } else if line[0] == '?' {
        hasUntrackedFiles := true;
      } else if line[0] == '!' {
        hasMissingFiles := true;
      } else {
        hasModifiedFiles := true;
      }
    }
    assert lines[..|lines|] == lines;
    flags := VcsFlags(hasModifiedFiles, hasUntrackedFiles, hasMissingFiles);
  }

  // ---------------------------------------------------------------------------------------
  // The shared branch decoration

  /** `extra`: `+` for untracked files, then `!` for missing ones. */
  function Extra(flags: VcsFlags): string {
    (if flags.untracked then "+" else "") + (if flags.missing then "!" else "")
  }

  /** The branch with its suffix: a space and `extra` when `extra` is not empty. Modified
      files alone change the colour but add no suffix. */
  function Decorated(branch: string, flags: VcsFlags): (r: string)
    ensures branch <= r
    ensures r == branch <==> !flags.untracked && !flags.missing
    ensures r != branch ==> r[|branch|] == ' '
    ensures '+' in r[|branch|..] <==> flags.untracked
    ensures '!' in r[|branch|..] <==> flags.missing
  {
    var extra := Extra(flags);
    var r := branch + (if extra != "" then " " + extra else "");
    assert r[|branch|..] == (if extra != "" then " " + extra else "");
    r
  }

  /** The one append of a repository segment: the decorated branch between spaces, in the
      dirty colours when any flag is set, with the default separator. */
  function BranchRequest(branch: string, flags: VcsFlags): Request {
    var fg := if flags.Dirty() then Colors.RepoDirtyFg else Colors.RepoCleanFg;
    var bg := if flags.Dirty() then Colors.RepoDirtyBg else Colors.RepoCleanBg;
    Request(" " + Decorated(branch, flags) + " ", Some(fg), Some(bg), None, None)
  }

  /** Appends the branch request: the common tail of both segments (prompt.py:496-506). */
  method AppendBranch(p: Powerline, branch: string, flags: VcsFlags)
    modifies p
    ensures p.segments == old(p.segments) + Resolve([BranchRequest(branch, flags)], p.separator)
  {
    var b := branch;
    var bg, fg := Colors.RepoCleanBg, Colors.RepoCleanFg;
    if flags.modified || flags.untracked || flags.missing {
      bg, fg := Colors.RepoDirtyBg, Colors.RepoDirtyFg;
      var extra := "";
      if flags.untracked {
        extra := extra + "+";
      }
      if flags.missing {
        extra := extra + "!";
      }
      assert extra == Extra(flags);
      b := b + (if extra != "" then " " + extra else "");
    }
    assert b == Decorated(branch, flags);
    p.Append(" " + b + " ", Some(fg), Some(bg), None, None);
  }

  /** The appends of `add_hg_segment` for the output of `hg branch` and of `hg status`:
      nothing outside a repository (empty branch). */
  function HgRequests(branchOutput: string, statusOutput: string): seq<Request> {
    var branch := RStrip(branchOutput);
    if branch == "" then [] else [BranchRequest(branch, HgFlags(Split(statusOutput, '\n')))]
  }

  /** `add_hg_segment` (prompt.py:490-506). */
  method AddHgSegment(p: Powerline, branchOutput: string, statusOutput: string)
    modifies p
    ensures p.segments == old(p.segments) + Resolve(HgRequests(branchOutput, statusOutput), p.separator)
  {
    var branch := RStrip(branchOutput);
    if |branch| == 0 {
      return;
    }
    var flags := GetHgStatus(statusOutput);
    AppendBranch(p, branch, flags);
  }

  // ---------------------------------------------------------------------------------------
  // Fossil

  /** The names of the lines of `fossil branch` that start with `*`, stars removed and
      whitespace stripped. */
  function MarkedNames(lines: seq<string>): (names: seq<string>)
    ensures |names| <= |lines|
    ensures forall i :: 0 <= i < |names| ==> '*' !in names[i]
  {
    if lines == [] then []
    else
      var line := lines[|lines| - 1];
      MarkedNames(lines[..|lines| - 1]) + (if "*" <= line then [Strip(RemoveChar(line, '*'))] else [])
  }

  /** The branch `_add_fossil_segment` reads from the output of `fossil branch`. */
  function FossilBranch(output: string): string {
    Concat(MarkedNames(Split(Strip(output), '\n')))
  }

  /** The flags of `get_fossil_status` (prompt.py:551-560) for the outputs of
      `fossil changes` and `fossil extras`. */
  function FossilFlags(changes: string, extras: string): VcsFlags {
    var output := Strip(changes);
    VcsFlags(Contains(output, "EDITED"), Strip(extras) != "", Contains(output, "MISSING"))
  }

  /** What running the fossil commands yields: no fossil at all (`OSError`, caught by
      `add_fossil_segment`), or the outputs of `fossil branch`, `fossil changes` and
      `fossil extras`. */
  datatype FossilRun = FossilMissing | FossilRan(branchOutput: string, changes: string, extras: string)

  /** The segment for a branch name, none for an empty name. */
  function NamedBranchRequests(branch: string, flags: VcsFlags): seq<Request> {
    if branch == "" then [] else [BranchRequest(branch, flags)]
  }

  function FossilRequests(run: FossilRun): seq<Request> {
    if run.FossilMissing? then []
    else NamedBranchRequests(FossilBranch(run.branchOutput), FossilFlags(run.changes, run.extras))
  }

  /** `add_fossil_segment` and `_add_fossil_segment` (prompt.py:562-582). */
  method AddFossilSegment(p: Powerline, run: FossilRun)
    modifies p
    ensures p.segments == old(p.segments) + Resolve(FossilRequests(run), p.separator)
  {
    if run.FossilMissing? {
      return;
    }
    AppendNamedBranch(p, FossilBranch(run.branchOutput), FossilFlags(run.changes, run.extras));
  }

  /** The tail of `_add_fossil_segment`: nothing for an empty branch name. */
  method AppendNamedBranch(p: Powerline, branch: string, flags: VcsFlags)
    modifies p
    ensures p.segments == old(p.segments) + Resolve(NamedBranchRequests(branch, flags), p.separator)
  {
    if |branch| == 0 {
      return;
    }
    AppendBranch(p, branch, flags);
  }

  // ---------------------------------------------------------------------------------------
  // Properties

  /** The segment text is the branch between spaces, followed by the suffix; the colours are
      the dirty ones exactly when some flag is set; the separator is the default one. */
  lemma BranchRequestMeaning(branch: string, flags: VcsFlags)
    ensures var r := BranchRequest(branch, flags);
            |r.text| >= |branch| + 2 && r.text[0] == ' ' && r.text[|r.text| - 1] == ' '
            && r.text[1..|branch| + 1] == branch
            && (r.fg == Some(Colors.RepoDirtyFg) <==> flags.Dirty())
            && r.bg == Some(if flags.Dirty() then Colors.RepoDirtyBg else Colors.RepoCleanBg)
            && r.separator == None && r.separatorFg == None
  {
    var d := Decorated(branch, flags);
    assert BranchRequest(branch, flags).text == " " + d + " ";
    assert (" " + d + " ")[1..|branch| + 1] == d[..|branch|];
  }

  /** No starred line, no fossil segment. */
  lemma {:induction false} MarkedNamesEmpty(lines: seq<string>)
    ensures MarkedNames(lines) == [] <==> forall i :: 0 <= i < |lines| ==> !("*" <= lines[i])
  {
    if lines != [] {
      var init := lines[..|lines| - 1];
      MarkedNamesEmpty(init);
      assert forall i :: 0 <= i < |init| ==> init[i] == lines[i];
    }
  }

  lemma HgScenarioFlags()
    ensures HgFlags(Split("M a.txt" + "\n" + "? b.txt", '\n')) == VcsFlags(true, true, false)
  {
    var lines := ["M a.txt", "? b.txt"];
    assert Join(lines, '\n') == "M a.txt" + "\n" + "? b.txt";
    SplitJoin(lines, '\n');
    assert lines[..1] == ["M a.txt"] && lines[..1][..0] == [];
  }

  lemma HgScenarioBranch()
    ensures RStrip("default" + "\n") == "default"
  {
    assert ("default" + "\n")[..7] == "default";
  }

  lemma HgScenarioRequest()
    ensures HgRequests("default" + "\n", "M a.txt" + "\n" + "? b.txt") == [BranchRequest("default", VcsFlags(true, true, false))]
  {
    HgScenarioFlags();
    HgScenarioBranch();
  }

  lemma HgScenarioText()
    ensures BranchRequest("default", VcsFlags(true, true, false)) == Request(" default + ", Some(9), Some(0), None, None)
  {
    var flags := VcsFlags(true, true, false);
    assert Extra(flags) == "+";
    assert Decorated("default", flags) == "default" + " " + "+";
    assert " " + ("default" + " " + "+") + " " == " default + ";
  }

  /** An untracked and a modified file: `default +` in the dirty colours. */
  lemma HgUntrackedAndModified()
    ensures HgRequests("default" + "\n", "M a.txt" + "\n" + "? b.txt")
            == [Request(" default + ", Some(9), Some(0), None, None)]
  {
    HgScenarioRequest();
    HgScenarioText();
  }

  lemma FossilScenarioStrip()
    ensures Strip("* trunk" + "\n" + "  feature") == "* trunk" + "\n" + "  feature"
  {
    var s := "* trunk" + "\n" + "  feature";
    assert s[|s| - 1] == 'e' && !IsSpace('e');
    assert RStrip(s) == s;
    assert s[0] == '*' && !IsSpace('*');
  }

  lemma FossilScenarioLines()
    ensures Split("* trunk" + "\n" + "  feature", '\n') == ["* trunk", "  feature"]
  {
    var lines := ["* trunk", "  feature"];
    assert Join(lines, '\n') == "* trunk" + "\n" + "  feature";
    SplitJoin(lines, '\n');
  }

  lemma FossilStarRemoved()
    ensures RemoveChar("* trunk", '*') == " trunk"
  {
    var rest := " trunk";
    assert "* trunk"[1..] == rest;
    assert '*' !in rest;
    RemoveAbsent(rest, '*');
  }

  lemma FossilNameStripped()
    ensures Strip(" trunk") == "trunk"
  {
    var rest, t := " trunk", "trunk";
    assert RStrip(rest) == rest;
    assert rest == [' '] + t;
    assert IsSpace(' ') && !IsSpace(t[0]);
    assert LStrip(t) == t;
    assert rest[1..] == t;
  }

  lemma FossilScenarioName()
    ensures Strip(RemoveChar("* trunk", '*')) == "trunk"
  {
    FossilStarRemoved();
    FossilNameStripped();
  }

  lemma MarkedFirstOfTwo(a: string, b: string)
    requires "*" <= a && !("*" <= b)
    ensures MarkedNames([a, b]) == [Strip(RemoveChar(a, '*'))]
  {
    var name := Strip(RemoveChar(a, '*'));
    // One unfolding per line, last line first.
    assert [a, b][..1] == [a] && [a, b][1] == b;
    assert [a][..0] == [] && [a][0] == a;
    // `a` is starred, so it yields its name.
    assert MarkedNames([a]) == MarkedNames([]) + [name];
    // `b` is not starred, so it yields nothing.
    assert MarkedNames([a, b]) == MarkedNames([a]) + [];
  }

  lemma FossilScenarioMarked()
    ensures MarkedNames(["* trunk", "  feature"]) == ["trunk"]
  {
    assert "*" <= "* trunk";
    assert "  feature"[0] == ' ';
    MarkedFirstOfTwo("* trunk", "  feature");
    FossilScenarioName();
  }

  /** The current fossil branch is the starred line. */
  lemma FossilCurrentBranch()
    ensures FossilBranch("* trunk" + "\n" + "  feature") == "trunk"
  {
    FossilScenarioStrip();
    FossilScenarioLines();
    FossilScenarioMarked();
    assert Concat(["trunk"]) == Concat([]) + "trunk";
  }
}
