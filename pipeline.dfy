/** The script's top level (prompt.py:628-645): a `Powerline` built from the command line,
    the enabled producers run in order (begin wrap, current directory, git, end wrap) and
    the drawing written to standard output, after any warning `get_valid_cwd` printed there. The producers left disabled there are modelled
    in their own modules but take no part here. */
module Pipeline {
  import opened Wrappers
  import opened Renderer
  import Producers
  import Cwd
  import GitSegment

  /** What the script leaves behind: everything written to standard output and its exit status. */
  datatype Outcome = Outcome(output: string, exitStatus: nat)

  /** The directory `get_valid_cwd` starts from: `PWD` when set and not empty, else
      `os.getcwd()`, which is `None` when the directory can no longer be resolved. */
  function ChosenCwd(pwd: Option<string>, getcwd: Option<string>): Option<string> {
    if pwd.Some? && pwd.value != "" then pwd else getcwd
  }

  /** Every `append` of the enabled producers, in order, for a resolvable directory. */
  function PromptRequests(cwd: string, home: string, run: GitSegment.StatusRun, describe: GitSegment.DescribeRun): seq<Request>
    requires cwd != "" && GitSegment.WellFormedRun(run)
  {
    [Producers.BeginWrapRequest()]
    + Cwd.CwdRequests(Cwd.HomeReplaced(cwd, home), Fancy, 3, 12, ThinSeparator)
    + GitSegment.GitRequests(run, describe)
    + [Producers.EndWrapRequest()]
  }

  /** The whole run: the warning and `> ` with status 1 when no directory can be found;
      otherwise any warning about a vanished directory, the drawn prompt and status 0. */
  function PromptOutcome(pwd: Option<string>, getcwd: Option<string>, existing: set<string>, home: string,
                         run: GitSegment.StatusRun, describe: GitSegment.DescribeRun): Outcome
    requires getcwd.Some? ==> getcwd.value != ""
    requires GitSegment.WellFormedRun(run)
  {
    match ChosenCwd(pwd, getcwd)
    case None => Outcome(Cwd.Warning(Cwd.NoDirectoryMessage) + "> ", 1)
    case Some(cwd) =>
      Outcome(Cwd.CwdWarning(cwd, existing) + DrawOf(Bash, Resolve(PromptRequests(cwd, home, run, describe), DefaultSeparator)), 0)
  }

  /** The script from `Powerline(args)` to `sys.stdout.write(powerline.draw())`.
      `pwd`, `getcwd` and `home` are the environment and the operating system's answer,
      `existing` the directories that exist, `run` and `describe` the git subprocesses. */
  method BuildPrompt(prevError: int, pwd: Option<string>, getcwd: Option<string>, existing: set<string>,
                     home: string, run: GitSegment.StatusRun, describe: GitSegment.DescribeRun)
    returns (out: Outcome)
    requires getcwd.Some? ==> getcwd.value != ""
    requires GitSegment.WellFormedRun(run)
    ensures out == PromptOutcome(pwd, getcwd, existing, home, run, describe)
  {
    var p := new Powerline(prevError);
    Producers.AddBeginWrap(p);
    var cwd, up, written := Cwd.GetValidCwd(pwd, getcwd, existing);
    if cwd.None? {
      return Outcome(written, 1);
    }
    AddEnabledSegments(p, cwd.value, home, run, describe);
    DrawnOutcome(pwd, getcwd, existing, home, run, describe, cwd.value, written, p.segments);
    out := Outcome(written + p.Draw(), 0);
  }

  /** The producers after `add_begin_wrap`: directory, git, end wrap. */
  method AddEnabledSegments(p: Powerline, cwd: string, home: string, run: GitSegment.StatusRun, describe: GitSegment.DescribeRun)
    requires cwd != "" && GitSegment.WellFormedRun(run)
    requires p.segments == Resolve([Producers.BeginWrapRequest()], DefaultSeparator)
    requires p.separator == DefaultSeparator && p.separatorThin == ThinSeparator
    requires p.cwdMode == Fancy && p.cwdMaxDepth == 3 && p.cwdMaxDirSize == 12
    modifies p
    ensures p.segments == Resolve(PromptRequests(cwd, home, run, describe), DefaultSeparator)
  {
    ghost var s1 := p.segments;
    Cwd.AddCwdSegment(p, cwd, home);
    ghost var s2 := p.segments;
    GitSegment.AddGitSegment(p, run, describe);
    ghost var s3 := p.segments;
    Producers.AddEndWrap(p);
    AppendsCompose(s1, s2, s3, p.segments, [Producers.BeginWrapRequest()],
                   Cwd.CwdRequests(Cwd.HomeReplaced(cwd, home), Fancy, 3, 12, ThinSeparator),
                   GitSegment.GitRequests(run, describe), [Producers.EndWrapRequest()], DefaultSeparator);
  }

  /** The outcome of a run that found its directory is its warning and the drawing of what
      was appended. */
  lemma DrawnOutcome(pwd: Option<string>, getcwd: Option<string>, existing: set<string>, home: string,
                     run: GitSegment.StatusRun, describe: GitSegment.DescribeRun, cwd: string, written: string, segs: seq<Segment>)
    requires getcwd.Some? ==> getcwd.value != ""
    requires GitSegment.WellFormedRun(run)
    requires ChosenCwd(pwd, getcwd) == Some(cwd)
    requires written == Cwd.CwdWarning(cwd, existing)
    requires segs == Resolve(PromptRequests(cwd, home, run, describe), DefaultSeparator)
    ensures PromptOutcome(pwd, getcwd, existing, home, run, describe) == Outcome(written + DrawOf(Bash, segs), 0)
  {
  }

  /** Four producers run one after another store what the four request runs resolve to. */
  lemma AppendsCompose(s1: seq<Segment>, s2: seq<Segment>, s3: seq<Segment>, s4: seq<Segment>,
                       a: seq<Request>, b: seq<Request>, c: seq<Request>, d: seq<Request>, sep: string)
    requires s1 == Resolve(a, sep) && s2 == s1 + Resolve(b, sep)
    requires s3 == s2 + Resolve(c, sep) && s4 == s3 + Resolve(d, sep)
    ensures s4 == Resolve(a + b + c + d, sep)
  {
    ResolveFour(a, b, c, d, sep);
  }

  /** Resolving four runs of requests one after another is resolving them together. */
  lemma ResolveFour(a: seq<Request>, b: seq<Request>, c: seq<Request>, d: seq<Request>, sep: string)
    ensures Resolve(a + b + c + d, sep) == Resolve(a, sep) + Resolve(b, sep) + Resolve(c, sep) + Resolve(d, sep)
  {
    ResolveConcat(a, b, sep);
    ResolveConcat(a + b, c, sep);
    ResolveConcat(a + b + c, d, sep);
  }

  /** The script fails exactly when neither `PWD` nor `os.getcwd()` gives a directory, and
      then writes only the warning and `> `; a directory that no longer exists is still
      drawn. */
  lemma FailsOnlyWithoutDirectory(pwd: Option<string>, getcwd: Option<string>, existing: set<string>, home: string,
                                  run: GitSegment.StatusRun, describe: GitSegment.DescribeRun)
    requires getcwd.Some? ==> getcwd.value != ""
    requires GitSegment.WellFormedRun(run)
    ensures var o := PromptOutcome(pwd, getcwd, existing, home, run, describe);
            (o.exitStatus == 1 <==> (pwd.None? || pwd.value == "") && getcwd.None?)
            && (o.exitStatus == 1 ==> o.output == Cwd.Warning(Cwd.NoDirectoryMessage) + "> ")
            && (o.exitStatus != 1 ==> o.exitStatus == 0)
  {
  }

  /** In a directory that exists, the output is the drawn prompt alone. */
  lemma OnlyPromptWhenExisting(pwd: Option<string>, getcwd: Option<string>, existing: set<string>, home: string,
                               run: GitSegment.StatusRun, describe: GitSegment.DescribeRun)
    requires getcwd.Some? ==> getcwd.value != ""
    requires GitSegment.WellFormedRun(run)
    requires ChosenCwd(pwd, getcwd).Some? && ChosenCwd(pwd, getcwd).value in existing
    ensures var cwd := ChosenCwd(pwd, getcwd).value;
            PromptOutcome(pwd, getcwd, existing, home, run, describe)
            == Outcome(DrawOf(Bash, Resolve(PromptRequests(cwd, home, run, describe), DefaultSeparator)), 0)
  {
    Cwd.NoWarningWhenExisting(ChosenCwd(pwd, getcwd).value, existing);
  }

  /** A successful run writes a prompt that ends with a reset and one space, so what the
      user types is never coloured. */
  lemma SuccessEndsWithReset(pwd: Option<string>, getcwd: Option<string>, existing: set<string>, home: string,
                             run: GitSegment.StatusRun, describe: GitSegment.DescribeRun)
    requires getcwd.Some? ==> getcwd.value != ""
    requires GitSegment.WellFormedRun(run)
    requires ChosenCwd(pwd, getcwd).Some?
    ensures var o := PromptOutcome(pwd, getcwd, existing, home, run, describe);
            |o.output| > |Reset(Bash)| && o.output[|o.output| - |Reset(Bash)| - 1..] == Reset(Bash) + " "
  {
    var cwd := ChosenCwd(pwd, getcwd).value;
    var w, segs := Cwd.CwdWarning(cwd, existing), Resolve(PromptRequests(cwd, home, run, describe), DefaultSeparator);
    assert PromptOutcome(pwd, getcwd, existing, home, run, describe).output == w + DrawOf(Bash, segs);
    WarnedDrawCloses(w, segs);
  }

  /** Whatever is written before it, a drawing keeps the output's closing reset and space. */
  lemma WarnedDrawCloses(w: string, segs: seq<Segment>)
    ensures var o := w + DrawOf(Bash, segs);
            |o| > |Reset(Bash)| && o[|o| - |Reset(Bash)| - 1..] == Reset(Bash) + " "
  {
    var d := DrawOf(Bash, segs);
    DrawClosesWithReset(Bash, segs);
    SuffixKept(w, d, |Reset(Bash)| + 1);
  }

  /** The last `n` characters of a string do not change when text is put in front of it. */
  lemma SuffixKept(w: string, d: string, n: nat)
    requires n <= |d|
    ensures (w + d)[|w + d| - n..] == d[|d| - n..]
  {
    var o := w + d;
    assert o[|w|..] == d;
    assert o[|o| - n..] == o[|w|..][|d| - n..];
  }

  /** `''.join` of a first part, a middle and a last part. */
  lemma ConcatFramed(first: string, middle: seq<string>, last: string)
    ensures Concat([first] + middle + [last]) == first + Concat(middle) + last
  {
    var parts := [first] + middle + [last];
    ConcatSplit(parts, 1);
    assert parts[..1] == [first];
    assert Concat([first]) == Concat([]) + first;
    assert parts[1..][..|parts[1..]| - 1] == middle;
  }

  /** On screen, the prompt is `[`, then the directory and git texts with their separators,
      then `]` and one space; every escape in the output is a whole colour or reset token. */
  lemma PromptOnScreen(cwd: string, home: string, run: GitSegment.StatusRun, describe: GitSegment.DescribeRun)
    requires cwd != "" && GitSegment.WellFormedRun(run)
    ensures var segs := Resolve(PromptRequests(cwd, home, run, describe), DefaultSeparator);
            var inner := Resolve(Cwd.CwdRequests(Cwd.HomeReplaced(cwd, home), Fancy, 3, 12, ThinSeparator)
                                 + GitSegment.GitRequests(run, describe), DefaultSeparator);
            DrawOf(Bash, segs) == Flatten(Bash, PromptPieces(segs))
            && Printed(PromptPieces(segs)) == "[" + Concat(VisibleParts(inner)) + "]" + " "
  {
    FramedOnScreen(Cwd.CwdRequests(Cwd.HomeReplaced(cwd, home), Fancy, 3, 12, ThinSeparator), GitSegment.GitRequests(run, describe));
    DrawIsTokens(Bash, Resolve(PromptRequests(cwd, home, run, describe), DefaultSeparator));
  }

  /** The brackets frame whatever the producers between them append. */
  lemma FramedOnScreen(a: seq<Request>, b: seq<Request>)
    ensures var segs := Resolve([Producers.BeginWrapRequest()] + a + b + [Producers.EndWrapRequest()], DefaultSeparator);
            Printed(PromptPieces(segs)) == "[" + Concat(VisibleParts(Resolve(a + b, DefaultSeparator))) + "]" + " "
  {
    var segs := Resolve([Producers.BeginWrapRequest()] + a + b + [Producers.EndWrapRequest()], DefaultSeparator);
    var inner := Resolve(a + b, DefaultSeparator);
    FramedSegments(a, b);
    var first, last := Stored(Producers.BeginWrapRequest(), DefaultSeparator), Stored(Producers.EndWrapRequest(), DefaultSeparator);
    VisibleFramed(first, inner, last);
    assert first.text + first.separator == "[" && last.text + last.separator == "]";
    ConcatFramed("[", VisibleParts(inner), "]");
    DrawPrintsTextsAndSeparators(segs);
  }

  lemma FramedSegments(a: seq<Request>, b: seq<Request>)
    ensures Resolve([Producers.BeginWrapRequest()] + a + b + [Producers.EndWrapRequest()], DefaultSeparator)
            == [Stored(Producers.BeginWrapRequest(), DefaultSeparator)] + Resolve(a + b, DefaultSeparator)
               + [Stored(Producers.EndWrapRequest(), DefaultSeparator)]
  {
    ResolveFramed(Producers.BeginWrapRequest(), a, b, Producers.EndWrapRequest(), DefaultSeparator);
  }

  lemma ResolveFramed(first: Request, a: seq<Request>, b: seq<Request>, last: Request, d: string)
    ensures Resolve([first] + a + b + [last], d) == [Stored(first, d)] + Resolve(a + b, d) + [Stored(last, d)]
  {
    var inner := a + b;
    assert [first] + a + b + [last] == [first] + inner + [last];
    ResolveConcat([first], inner, d);
    ResolveConcat([first] + inner, [last], d);
    ResolveOne(first, d);
    ResolveOne(last, d);
  }

  lemma VisibleFramed(first: Segment, inner: seq<Segment>, last: Segment)
    ensures VisibleParts([first] + inner + [last])
            == [first.text + first.separator] + VisibleParts(inner) + [last.text + last.separator]
  {
    var segs := [first] + inner + [last];
    var v, w := VisibleParts(segs), VisibleParts(inner);
    forall i | 0 <= i < |v|
      ensures v[i] == ([first.text + first.separator] + w + [last.text + last.separator])[i]
    {
      if 0 < i < |v| - 1 {
        assert segs[i] == inner[i - 1];
      }
    }
  }
}
