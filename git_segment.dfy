/** The git segment (`add_git_segment`, prompt.py:433-465): run `git status --porcelain -b`,
    tally its body, read its branch header, and append the branch, the counters and a
    closing parenthesis in the clean or dirty repository colours. The two git runs are
    given as their outcomes. */
module GitSegment {
  import opened Wrappers
  import opened Text
  import Colors
  import opened Renderer
  import opened GitStatus
  import opened GitHeader

  /** The outcome of starting `git status --porcelain -b`: git could not be started
      (`OSError`), or it exited with a code after printing these lines. */
  datatype StatusRun = StatusMissing | StatusExited(code: int, lines: seq<string>)

  /** The outcome of starting `git describe --tags --always`. */
  datatype DescribeRun = DescribeMissing | DescribeExited(code: int)

  /** A successful status run prints the branch header first (`status[0]` is read) and
      a two-letter code on every further line. */
  predicate WellFormedRun(run: StatusRun) {
    run.StatusExited? && run.code == 0 ==> |run.lines| >= 1 && WellFormedBody(Body(run.lines))
  }

  /** `_get_git_detached_branch` (prompt.py:397-413): no name when git cannot be started,
      "HEAD detached" when describe succeeds, "Big Bang" (no commit yet) when it fails. */
  function DetachedBranch(run: DescribeRun): (r: Option<string>)
    ensures r.None? <==> run.DescribeMissing?
    ensures r == Some("HEAD detached") <==> run.DescribeExited? && run.code == 0
    ensures r == Some("Big Bang") <==> run.DescribeExited? && run.code != 0
  {
    match run
    case DescribeMissing => None
    case DescribeExited(code) => if code == 0 then Some("HEAD detached") else Some("Big Bang")
  }

  /** `'(%s' % branch`: a missing name prints as `None`. */
  function BranchLabel(branch: Option<string>): (r: string)
    ensures |r| >= 1 && r[0] == '('
    ensures branch.Some? ==> r[1..] == branch.value
    ensures branch.None? ==> r[1..] == "None"
  {
    "(" + (if branch.Some? then branch.value else "None")
  }

  /** The counters of a successful run: the body tallied, then ahead and behind taken from
      a matching header. */
  function HeadedStats(lines: seq<string>): (s: RepoStats)
    requires |lines| >= 1 && WellFormedBody(Body(lines))
    ensures s.Valid()
  {
    var stats := Counted(Body(lines));
    match ParseBranchInfo(lines[0])
    case Some(info) => stats.(ahead := info.ahead, behind := info.behind)
    case None => stats
  }

  /** The branch name of a successful run: the header's local name, else the detached name. */
  function BranchOf(lines: seq<string>, describe: DescribeRun): Option<string>
    requires |lines| >= 1
  {
    match ParseBranchInfo(lines[0])
    case Some(info) => Some(info.local)
    case None => DetachedBranch(describe)
  }

  /** The repository colours: dirty when some file counter is positive. */
  function RepoFg(stats: RepoStats): nat {
    if stats.Dirty() then Colors.RepoDirtyFg else Colors.RepoCleanFg
  }

  function RepoBg(stats: RepoStats): nat {
    if stats.Dirty() then Colors.RepoDirtyBg else Colors.RepoCleanBg
  }

  /** What a successful run appends: the branch with an empty separator, the counters, and
      `)` with the default separator, all in the repository colours. */
  function GitAppends(stats: RepoStats, branch: Option<string>): seq<Request>
    requires stats.Valid()
  {
    var fg, bg := RepoFg(stats), RepoBg(stats);
    [Request(BranchLabel(branch), Some(fg), Some(bg), Some(""), None)]
    + StatRequests(stats)
    + [Request(")", Some(fg), Some(bg), None, None)]
  }

  /** The appends of `add_git_segment`: none when git is missing or fails. */
  function GitRequests(run: StatusRun, describe: DescribeRun): seq<Request>
    requires WellFormedRun(run)
  {
    if run.StatusMissing? || run.code != 0 then []
    else GitAppends(HeadedStats(run.lines), BranchOf(run.lines, describe))
  }

  /** The reading half of `add_git_segment` (prompt.py:446-454). */
  method ReadStatus(status: seq<string>, describe: DescribeRun) returns (stats: RepoStats, branch: Option<string>)
    requires |status| >= 1 && WellFormedBody(Body(status))
    ensures stats == HeadedStats(status) && branch == BranchOf(status, describe)
  {
    stats := ParseGitStats(status);
    var branchInfo := ParseBranchInfo(status[0]);
    if branchInfo.Some? {
      stats := stats.(ahead := branchInfo.value.ahead, behind := branchInfo.value.behind);
      branch := Some(branchInfo.value.local);
    } else {
      branch := DetachedBranch(describe);
    }
  }

  /** The drawing half of `add_git_segment` (prompt.py:456-465). */
  method AppendGitParts(p: Powerline, stats: RepoStats, branch: Option<string>)
    requires stats.Valid()
    modifies p
    ensures p.segments == old(p.segments) + Resolve(GitAppends(stats, branch), p.separator)
  {
    var fg, bg := Colors.RepoCleanFg, Colors.RepoCleanBg;
    if stats.Dirty() {
      fg, bg := Colors.RepoDirtyFg, Colors.RepoDirtyBg;
    }
    ghost var s0 := p.segments;
    ghost var head := [Request(BranchLabel(branch), Some(fg), Some(bg), Some(""), None)];
    ghost var close := [Request(")", Some(fg), Some(bg), None, None)];
    p.Append(BranchLabel(branch), Some(fg), Some(bg), Some(""), None);
    AddToPowerline(stats, p);
    p.Append(")", Some(fg), Some(bg), None, None);
    ResolveThree(head, StatRequests(stats), close, p.separator);
    Regroup3(s0, Resolve(head, p.separator), Resolve(StatRequests(stats), p.separator), Resolve(close, p.separator));
  }

  lemma ResolveThree(a: seq<Request>, b: seq<Request>, c: seq<Request>, d: string)
    ensures Resolve(a + b + c, d) == Resolve(a, d) + Resolve(b, d) + Resolve(c, d)
  {
    ResolveConcat(a + b, c, d);
    ResolveConcat(a, b, d);
  }

  /** `add_git_segment` (prompt.py:433-465). */
  method AddGitSegment(p: Powerline, run: StatusRun, describe: DescribeRun)
    requires WellFormedRun(run)
    modifies p
    ensures p.segments == old(p.segments) + Resolve(GitRequests(run, describe), p.separator)
  {
    if run.StatusMissing? {
      return;
    }
    if run.code != 0 {
      return;
    }
    var stats, branch := ReadStatus(run.lines, describe);
    AppendGitParts(p, stats, branch);
  }

  /** Nothing is appended exactly when git cannot be started or exits with an error. */
  lemma NothingOnFailure(run: StatusRun, describe: DescribeRun)
    requires WellFormedRun(run)
    ensures GitRequests(run, describe) == [] <==> run.StatusMissing? || run.code != 0
  {
    if run.StatusExited? && run.code == 0 {
      assert |GitRequests(run, describe)| >= 2;
    }
  }

  /** A successful run appends the branch first and `)` last, both in the dirty colours
      exactly when some body line carries a code other than two spaces, with the counters'
      sub-segments in between. */
  lemma GitSegmentShape(lines: seq<string>, describe: DescribeRun)
    requires |lines| >= 1 && WellFormedBody(Body(lines))
    ensures var r, stats := GitRequests(StatusExited(0, lines), describe), HeadedStats(lines);
            var dirty := exists i :: 0 <= i < |Body(lines)| && Changed(Body(lines)[i]);
            |r| == |StatRequests(stats)| + 2
            && r[0] == Request(BranchLabel(BranchOf(lines, describe)), r[0].fg, r[0].bg, Some(""), None)
            && r[|r| - 1] == Request(")", r[0].fg, r[0].bg, None, None)
            && r[1..|r| - 1] == StatRequests(stats)
            && r[0].fg == Some(if dirty then Colors.RepoDirtyFg else Colors.RepoCleanFg)
            && r[0].bg == Some(if dirty then Colors.RepoDirtyBg else Colors.RepoCleanBg)
  {
    var body := Body(lines);
    DirtyIffSomeChange(body);
    var stats := HeadedStats(lines);
    assert stats.Dirty() == Counted(body).Dirty();
    var r := GitRequests(StatusExited(0, lines), describe);
    var head := [Request(BranchLabel(BranchOf(lines, describe)), Some(RepoFg(stats)), Some(RepoBg(stats)), Some(""), None)];
    var close := [Request(")", Some(RepoFg(stats)), Some(RepoBg(stats)), None, None)];
    assert r == head + StatRequests(stats) + close;
    assert r[1..|r| - 1] == StatRequests(stats);
  }

  /** With a matching header, the branch is the header's local name and ahead and behind are
      the header's counts; the file counters come from the body alone. */
  lemma BranchFromHeader(lines: seq<string>, describe: DescribeRun, info: BranchInfo)
    requires |lines| >= 1 && WellFormedBody(Body(lines))
    requires ParseBranchInfo(lines[0]) == Some(info)
    ensures GitRequests(StatusExited(0, lines), describe)[0].text == "(" + info.local
    ensures HeadedStats(lines) == Counted(Body(lines)).(ahead := info.ahead, behind := info.behind)
  {
  }

  /** Without a matching header the branch is named by `git describe`: `(None` when git
      cannot be started, `(HEAD detached` when describe succeeds, `(Big Bang` otherwise;
      ahead and behind stay unset. */
  lemma DetachedLabels(lines: seq<string>, describe: DescribeRun)
    requires |lines| >= 1 && WellFormedBody(Body(lines))
    requires ParseBranchInfo(lines[0]) == None
    ensures var t := GitRequests(StatusExited(0, lines), describe)[0].text;
            (describe.DescribeMissing? ==> t == "(None")
            && (describe == DescribeExited(0) ==> t == "(HEAD detached")
            && (describe.DescribeExited? && describe.code != 0 ==> t == "(Big Bang")
    ensures HeadedStats(lines) == Counted(Body(lines))
  {
    GitSegmentShape(lines, describe);
    DetachedLabelTexts(describe);
  }

  lemma DetachedLabelTexts(describe: DescribeRun)
    ensures var t := BranchLabel(DetachedBranch(describe));
            (describe.DescribeMissing? ==> t == "(None")
            && (describe == DescribeExited(0) ==> t == "(HEAD detached")
            && (describe.DescribeExited? && describe.code != 0 ==> t == "(Big Bang")
  {
  }

  lemma SuccessAppends(lines: seq<string>, describe: DescribeRun)
    requires |lines| >= 1 && WellFormedBody(Body(lines))
    ensures GitRequests(StatusExited(0, lines), describe) == GitAppends(HeadedStats(lines), BranchOf(lines, describe))
  {
  }

  /** A staged modification and an untracked file. */
  lemma ScenarioBody()
    ensures WellFormedBody(["M  foo.txt", "?? bar.txt"])
    ensures Counted(["M  foo.txt", "?? bar.txt"]) == RepoStats(None, None, 1, 0, 1, 0)
  {
    var lines := ["M  foo.txt", "?? bar.txt"];
    assert lines[..1] == ["M  foo.txt"] && lines[..1][..0] == [];
    assert !Unmerged('M', ' ') && !Unmerged('?', '?');
  }

  /** The sub-segments of two ahead, one behind, one staged and one untracked: the count
      two is printed, the count one is not. */
  lemma ScenarioCounters()
    ensures var stats := RepoStats(Some("2"), Some("1"), 1, 0, 1, 0);
            stats.Valid()
            && StatRequests(stats)
               == [Request(" 2\U{e2}\U{2020}\U{2018}", Some(250), Some(0), Some(""), None),
                   Request(" \U{e2}\U{2020}\U{201c}", Some(250), Some(0), Some(""), None),
                   Request(" staged", Some(15), Some(0), Some(""), None),
                   Request(" ?", Some(15), Some(0), Some(""), None)]
  {
    var stats := RepoStats(Some("2"), Some("1"), 1, 0, 1, 0);
    assert DigitsValue("2") == 2 && DigitsValue("1") == 1 by {
      assert "2"[..0] == "" && "1"[..0] == "";
    }
    assert KeyRequests(stats, Ahead) == [Request(" 2\U{e2}\U{2020}\U{2018}", Some(250), Some(0), Some(""), None)] by {
      assert StatText(stats, Ahead) == " " + "2" + "\U{e2}\U{2020}\U{2018}";
      assert " " + "2" + "\U{e2}\U{2020}\U{2018}" == " 2\U{e2}\U{2020}\U{2018}";
    }
    assert KeyRequests(stats, Behind) == [Request(" \U{e2}\U{2020}\U{201c}", Some(250), Some(0), Some(""), None)] by {
      assert StatText(stats, Behind) == " " + "" + "\U{e2}\U{2020}\U{201c}";
      assert " " + "" + "\U{e2}\U{2020}\U{201c}" == " \U{e2}\U{2020}\U{201c}";
    }
    assert KeyRequests(stats, Staged) == [Request(" staged", Some(15), Some(0), Some(""), None)] by {
      assert StatText(stats, Staged) == " " + "" + "staged";
      assert " " + "" + "staged" == " staged";
    }
    assert KeyRequests(stats, Untracked) == [Request(" ?", Some(15), Some(0), Some(""), None)] by {
      assert StatText(stats, Untracked) == " " + "" + "?";
      assert " " + "" + "?" == " ?";
    }
    assert KeyRequests(stats, NotStaged) == [] && KeyRequests(stats, Conflicted) == [];
  }

  /** The status run of the dirty scenario: the header names `main`, two ahead and one
      behind, and the body holds a staged and an untracked file. */
  lemma ScenarioDirtyRead(describe: DescribeRun)
    ensures var lines := ["## " + "main...origin/main" + " [ahead 2, behind 1]", "M  foo.txt", "?? bar.txt"];
            WellFormedRun(StatusExited(0, lines))
            && HeadedStats(lines) == RepoStats(Some("2"), Some("1"), 1, 0, 1, 0)
            && BranchOf(lines, describe) == Some("main")
  {
    var lines := ["## " + "main...origin/main" + " [ahead 2, behind 1]", "M  foo.txt", "?? bar.txt"];
    assert Body(lines) == ["M  foo.txt", "?? bar.txt"];
    ScenarioBody();
    ExampleAheadBehind();
  }

  /** A branch two ahead of and one behind its upstream, with a staged and an untracked file:
      `(main`, ` 2â†‘`, ` â†“`, ` staged`, ` ?`, `)`, the branch and parenthesis in the dirty
      colours. */
  lemma ScenarioDirtyBranch(describe: DescribeRun)
    ensures var lines := ["## " + "main...origin/main" + " [ahead 2, behind 1]", "M  foo.txt", "?? bar.txt"];
            WellFormedRun(StatusExited(0, lines))
            && GitRequests(StatusExited(0, lines), describe)
               == [Request("(main", Some(9), Some(0), Some(""), None),
                   Request(" 2\U{e2}\U{2020}\U{2018}", Some(250), Some(0), Some(""), None),
                   Request(" \U{e2}\U{2020}\U{201c}", Some(250), Some(0), Some(""), None),
                   Request(" staged", Some(15), Some(0), Some(""), None),
                   Request(" ?", Some(15), Some(0), Some(""), None),
                   Request(")", Some(9), Some(0), None, None)]
  {
    var lines := ["## " + "main...origin/main" + " [ahead 2, behind 1]", "M  foo.txt", "?? bar.txt"];
    ScenarioDirtyRead(describe);
    SuccessAppends(lines, describe);
    ScenarioDirtyAppends();
  }

  lemma ScenarioDirtyAppends()
    ensures var stats := RepoStats(Some("2"), Some("1"), 1, 0, 1, 0);
            stats.Valid()
            && GitAppends(stats, Some("main"))
               == [Request("(main", Some(9), Some(0), Some(""), None),
                   Request(" 2\U{e2}\U{2020}\U{2018}", Some(250), Some(0), Some(""), None),
                   Request(" \U{e2}\U{2020}\U{201c}", Some(250), Some(0), Some(""), None),
                   Request(" staged", Some(15), Some(0), Some(""), None),
                   Request(" ?", Some(15), Some(0), Some(""), None),
                   Request(")", Some(9), Some(0), None, None)]
  {
    var stats := RepoStats(Some("2"), Some("1"), 1, 0, 1, 0);
    ScenarioCounters();
    assert BranchLabel(Some("main")) == "(main";
    assert RepoFg(stats) == 9 && RepoBg(stats) == 0;
  }

  /** A clean branch without upstream: just `(main` and `)` in the clean colours. */
  lemma ScenarioCleanBranch(describe: DescribeRun)
    ensures var lines := ["## " + "main"];
            WellFormedRun(StatusExited(0, lines))
            && GitRequests(StatusExited(0, lines), describe)
               == [Request("(main", Some(14), Some(0), Some(""), None), Request(")", Some(14), Some(0), None, None)]
  {
    var lines := ["## " + "main"];
    assert Body(lines) == [];
    ExampleLocalOnly();
    assert HeadedStats(lines) == Initial && BranchOf(lines, describe) == Some("main");
    SuccessAppends(lines, describe);
    ScenarioCleanAppends();
  }

  lemma ScenarioCleanAppends()
    ensures GitAppends(Initial, Some("main"))
            == [Request("(main", Some(14), Some(0), Some(""), None), Request(")", Some(14), Some(0), None, None)]
  {
    NothingWhenAllFalsy(Initial);
    assert BranchLabel(Some("main")) == "(main";
    assert RepoFg(Initial) == 14 && RepoBg(Initial) == 0;
  }
}
