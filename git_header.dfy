/** The branch header of `git status --porcelain -b` (`parse_git_branch_info`,
    prompt.py:392-394), read by a hand-written parser for the language of its regular
    expression. The header has the form `## <local>...<remote> [ahead N, behind M]`
    described in git-status(1). */
module GitHeader {
  import opened Wrappers
  import opened Text

  /** The named groups of the match. */
  datatype BranchInfo = BranchInfo(local: string, remote: Option<string>, ahead: Option<string>, behind: Option<string>)

  /** Index of the first whitespace character, or the length when there is none. */
  function FirstSpace(s: string): (i: nat)
    ensures i <= |s| && NoSpace(s[..i]) && (i < |s| ==> IsSpace(s[i]))
  {
    if s == [] || IsSpace(s[0]) then 0
    else
      var j := FirstSpace(s[1..]);
      assert s[..1 + j] == [s[0]] + s[1..][..j];
      1 + j
  }

  /** Length of the run of ASCII digits at the start (greedy `\d+`). */
  function LeadingDigits(s: string): (n: nat)
    ensures n <= |s| && IsDigits(s[..n]) && (n < |s| ==> !IsDigit(s[n]))
  {
    if s == [] || !IsDigit(s[0]) then 0
    else
      var j := LeadingDigits(s[1..]);
      assert s[..1 + j] == [s[0]] + s[1..][..j];
      1 + j
  }

  /** `...` at `j`. */
  predicate Dots(x: string, j: nat) {
    j + 3 <= |x| && x[j..j + 3] == "..."
  }

  /** `...` at `j`, with at least one character after it for the remote name. */
  predicate DotsAt(x: string, j: nat) {
    Dots(x, j) && j + 3 < |x|
  }

  /** The first `...` at or after `k` that leaves a non-empty remote: where the lazy
      `\S+?` of the local name stops. */
  function FirstDots(x: string, k: nat): (r: Option<nat>)
    ensures r.Some? ==> k <= r.value && DotsAt(x, r.value) && forall j :: k <= j < r.value ==> !DotsAt(x, j)
    ensures r.None? ==> forall j :: k <= j ==> !DotsAt(x, j)
    decreases |x| - k
  {
    if k + 3 >= |x| then None
    else if x[k..k + 3] == "..." then Some(k)
    else FirstDots(x, k + 1)
  }

  /** `<keyword>(\d+)` at the start of `s`: the digits and what follows them. */
  function ParseCount(keyword: string, s: string): (r: Option<(string, string)>)
    ensures r.Some? ==> s == keyword + r.value.0 + r.value.1
    ensures r.Some? ==> r.value.0 != "" && IsDigits(r.value.0) && (r.value.1 == "" || !IsDigit(r.value.1[0]))
    ensures r.None? ==> !(keyword <= s) || s[|keyword|..] == "" || !IsDigit(s[|keyword|])
  {
    if keyword <= s then
      var rest := s[|keyword|..];
      var n := LeadingDigits(rest);
      if n > 0 then
        assert s == keyword + rest[..n] + rest[n..];
        Some((rest[..n], rest[n..]))
      else None
    else None
  }

  /** The part after an optional `ahead N` and its `, `. */
  function AfterAhead(inner: string): (Option<string>, string) {
    match ParseCount("ahead ", inner)
    case Some((d, after)) => (Some(d), if ", " <= after then after[2..] else after)
    case None => (None, inner)
  }

  /** ` [(ahead N(, )?)?(behind M)?]`: the tracking counts, or `None` when the text is not
      of that form. */
  function ParseTracking(tail: string): (r: Option<(Option<string>, Option<string>)>)
    ensures r.Some? ==> |tail| >= 3 && tail[..2] == " [" && tail[|tail| - 1] == ']'
    ensures r.Some? && r.value.0.Some? ==> r.value.0.value != "" && IsDigits(r.value.0.value)
    ensures r.Some? && r.value.1.Some? ==> r.value.1.value != "" && IsDigits(r.value.1.value)
  {
    if |tail| >= 3 && tail[..2] == " [" && tail[|tail| - 1] == ']' then
      var inner := tail[2..|tail| - 1];
      var (ahead, rest) := AfterAhead(inner);
      match ParseCount("behind ", rest)
      case Some((d, after)) => if after == "" then Some((ahead, Some(d))) else None
      case None => if rest == "" then Some((ahead, None)) else None
    else None
  }

  /** The branch part split into the local name and, when the lazy local name stops at a
      `...`, the remote name. */
  function SplitNames(x: string): (r: (string, Option<string>))
    requires x != "" && NoSpace(x)
    ensures r.0 != "" && NoSpace(r.0)
    ensures r.1.None? ==> r.0 == x && forall j :: 1 <= j ==> !DotsAt(x, j)
    ensures r.1.Some? ==> x == r.0 + "..." + r.1.value && r.1.value != "" && NoSpace(r.1.value)
  {
    match FirstDots(x, 1)
    case None => (x, None)
    case Some(k) =>
      assert x == x[..k] + "..." + x[k + 3..];
      NoSpaceSlice(x, 0, k);
      NoSpaceSlice(x, k + 3, |x|);
      assert x[0..k] == x[..k] && x[k + 3..|x|] == x[k + 3..];
      (x[..k], Some(x[k + 3..]))
  }

  /** `parse_git_branch_info` on the header line: the local branch name runs up to the first
      `...` (at index one or later) that leaves a remote name; neither name holds
      whitespace; a tracking part may only follow a remote name. */
  function ParseBranchInfo(line: string): (r: Option<BranchInfo>)
    ensures r.Some? ==> "## " <= line && r.value.local != "" && NoSpace(r.value.local)
    ensures r.Some? && r.value.remote.None? ==> line == "## " + r.value.local && r.value.ahead.None? && r.value.behind.None?
    ensures r.Some? && r.value.remote.Some? ==> r.value.remote.value != "" && NoSpace(r.value.remote.value)
    ensures r.Some? && r.value.ahead.Some? ==> r.value.ahead.value != "" && IsDigits(r.value.ahead.value)
    ensures r.Some? && r.value.behind.Some? ==> r.value.behind.value != "" && IsDigits(r.value.behind.value)
  {
    if |line| >= 3 && line[..3] == "## " then
      var rest := line[3..];
      var sp := FirstSpace(rest);
      var x, tail := rest[..sp], rest[sp..];
      if x == "" then None
      else
        var (local, remote) := SplitNames(x);
        if remote.None? then
          if tail == "" then
            assert line == "## " + x;
            Some(BranchInfo(x, None, None, None))
          else None
        else if tail == "" then Some(BranchInfo(local, remote, None, None))
        else
          match ParseTracking(tail)
          case None => None
          case Some((a, b)) => Some(BranchInfo(local, remote, a, b))
    else None
  }

  /** The tracking part git writes: nothing without counts, else ` [ahead N, behind M]`
      with the absent half left out. */
  function TrackingText(ahead: Option<string>, behind: Option<string>): string {
    if ahead.None? && behind.None? then ""
    else
      " [" + (if ahead.Some? then "ahead " + ahead.value else "")
      + (if ahead.Some? && behind.Some? then ", " else "")
      + (if behind.Some? then "behind " + behind.value else "") + "]"
  }

  /** The header line git writes for a branch. */
  function FormatHeader(info: BranchInfo): string {
    "## " + info.local
    + (if info.remote.Some? then "..." + info.remote.value + TrackingText(info.ahead, info.behind) else "")
  }

  predicate Count(d: Option<string>) {
    d.Some? ==> d.value != "" && IsDigits(d.value)
  }

  /** A header git can write: names without whitespace, counts only with a remote, and a
      local name whose first `...` is the one before the remote. Branch names git accepts
      (git-check-ref-format(1): no `..`, no trailing `.`) always qualify. */
  predicate WellFormed(info: BranchInfo) {
    info.local != "" && NoSpace(info.local) && Count(info.ahead) && Count(info.behind)
    && (info.remote.None? ==> info.ahead.None? && info.behind.None? && forall j :: 1 <= j < |info.local| ==> !DotsAt(info.local, j))
    && (info.remote.Some? ==>
          info.remote.value != "" && NoSpace(info.remote.value)
          && info.local[|info.local| - 1] != '.'
          && forall j :: 1 <= j < |info.local| ==> !Dots(info.local, j))
  }

  lemma {:induction false} FirstSpaceAfter(a: string, b: string)
    requires NoSpace(a) && (b == [] || IsSpace(b[0]))
    ensures FirstSpace(a + b) == |a|
  {
    if a != [] {
      assert (a + b)[0] == a[0];
      assert (a + b)[1..] == a[1..] + b;
      FirstSpaceAfter(a[1..], b);
    } else {
      assert a + b == b;
    }
  }

  lemma {:induction false} LeadingDigitsOf(d: string, s: string)
    requires IsDigits(d) && (s == [] || !IsDigit(s[0]))
    ensures LeadingDigits(d + s) == |d|
  {
    if d != [] {
      assert (d + s)[0] == d[0];
      assert (d + s)[1..] == d[1..] + s;
      LeadingDigitsOf(d[1..], s);
    } else {
      assert d + s == s;
    }
  }

  lemma ParseCountOf(keyword: string, d: string, s: string)
    requires d != "" && IsDigits(d) && (s == [] || !IsDigit(s[0]))
    ensures ParseCount(keyword, keyword + d + s) == Some((d, s))
  {
    var t := keyword + d + s;
    assert t[|keyword|..] == d + s;
    LeadingDigitsOf(d, s);
    assert (d + s)[..|d|] == d && (d + s)[|d|..] == s;
  }

  lemma {:induction false} FirstDotsIs(x: string, k: nat, m: nat)
    requires k <= m && DotsAt(x, m) && forall j :: k <= j < m ==> !DotsAt(x, j)
    ensures FirstDots(x, k) == Some(m)
    decreases m - k
  {
    if k < m {
      assert !DotsAt(x, k);
      FirstDotsIs(x, k + 1, m);
    }
  }

  lemma SplitNamesOf(local: string, remote: string)
    requires local != "" && NoSpace(local) && remote != "" && NoSpace(remote)
    requires local[|local| - 1] != '.'
    requires forall j :: 1 <= j < |local| ==> !Dots(local, j)
    ensures NoSpace(local + "..." + remote)
    ensures SplitNames(local + "..." + remote) == (local, Some(remote))
  {
    var x := local + "..." + remote;
    var n := |local|;
    forall j | 1 <= j < n
      ensures !DotsAt(x, j)
    {
      if j + 3 <= n {
        assert x[j..j + 3] == local[j..j + 3];
        assert !Dots(local, j);
      } else {
        assert x[j..j + 3][n - 1 - j] == local[n - 1];
      }
    }
    assert x[n..n + 3] == "...";
    FirstDotsIs(x, 1, n);
    assert x[..n] == local && x[n + 3..] == remote;
  }

  lemma Bracketed(t: string, inner: string)
    requires t == " [" + inner + "]"
    ensures |t| >= 3 && t[..2] == " [" && t[|t| - 1] == ']' && t[2..|t| - 1] == inner
  {
  }

  lemma AfterAheadOf(ahead: string, rest: string)
    requires ahead != "" && IsDigits(ahead) && rest != "" && rest[0] == 'b'
    ensures AfterAhead("ahead " + ahead + (", " + rest)) == (Some(ahead), rest)
  {
    ParseCountOf("ahead ", ahead, ", " + rest);
    assert (", " + rest)[2..] == rest;
  }

  lemma ParseTrackingBoth(ahead: string, behind: string)
    requires ahead != "" && IsDigits(ahead) && behind != "" && IsDigits(behind)
    ensures ParseTracking(TrackingText(Some(ahead), Some(behind))) == Some((Some(ahead), Some(behind)))
  {
    var b := "behind " + behind;
    var inner := "ahead " + ahead + (", " + b);
    var t := TrackingText(Some(ahead), Some(behind));
    assert t == " [" + inner + "]";
    Bracketed(t, inner);
    AfterAheadOf(ahead, b);
    ParseCountOf("behind ", behind, "");
    assert b == "behind " + behind + "";
  }

  lemma ParseTrackingAhead(ahead: string)
    requires ahead != "" && IsDigits(ahead)
    ensures ParseTracking(TrackingText(Some(ahead), None)) == Some((Some(ahead), None))
  {
    var t := TrackingText(Some(ahead), None);
    assert t == " [" + ("ahead " + ahead + "") + "]";
    assert t[2..|t| - 1] == "ahead " + ahead + "";
    ParseCountOf("ahead ", ahead, "");
  }

  lemma ParseTrackingBehind(behind: string)
    requires behind != "" && IsDigits(behind)
    ensures ParseTracking(TrackingText(None, Some(behind))) == Some((None, Some(behind)))
  {
    var t := TrackingText(None, Some(behind));
    var inner := "behind " + behind + "";
    assert t == " [" + inner + "]";
    assert t[2..|t| - 1] == inner;
    assert !("ahead " <= inner) by {
      assert inner[0] == 'b';
    }
    ParseCountOf("behind ", behind, "");
  }

  lemma ParseTrackingOf(ahead: Option<string>, behind: Option<string>)
    requires Count(ahead) && Count(behind) && (ahead.Some? || behind.Some?)
    ensures ParseTracking(TrackingText(ahead, behind)) == Some((ahead, behind))
  {
    if ahead.Some? && behind.Some? {
      ParseTrackingBoth(ahead.value, behind.value);
    } else if ahead.Some? {
      ParseTrackingAhead(ahead.value);
    } else {
      ParseTrackingBehind(behind.value);
    }
  }

  /** A header without whitespace always matches: its branch part is split into the local
      and the remote name. */
  lemma ParseWithoutTail(x: string)
    requires x != "" && NoSpace(x)
    ensures ParseBranchInfo("## " + x) == Some(BranchInfo(SplitNames(x).0, SplitNames(x).1, None, None))
  {
    var line := "## " + x;
    assert line[..3] == "## " && line[3..] == x + "";
    FirstSpaceAfter(x, "");
    assert line[3..][..|x|] == x && line[3..][|x|..] == "";
  }

  /** A header with whitespace matches exactly when its branch part has a remote name and
      the text from the first whitespace on is a tracking part. */
  lemma ParseWithTail(x: string, tail: string)
    requires x != "" && NoSpace(x) && tail != "" && IsSpace(tail[0])
    ensures ParseBranchInfo("## " + x + tail)
            == if SplitNames(x).1.None? || ParseTracking(tail).None? then None
               else Some(BranchInfo(SplitNames(x).0, SplitNames(x).1, ParseTracking(tail).value.0, ParseTracking(tail).value.1))
  {
    var line := "## " + x + tail;
    assert line[..3] == "## " && line[3..] == x + tail;
    FirstSpaceAfter(x, tail);
    assert line[3..][..|x|] == x && line[3..][|x|..] == tail;
  }

  lemma RoundTripLocal(info: BranchInfo)
    requires WellFormed(info) && info.remote.None?
    ensures ParseBranchInfo(FormatHeader(info)) == Some(info)
  {
    assert FirstDots(info.local, 1) == None;
    ParseWithoutTail(info.local);
    assert FormatHeader(info) == "## " + info.local;
  }

  lemma RoundTripRemote(info: BranchInfo)
    requires WellFormed(info) && info.remote.Some?
    ensures ParseBranchInfo(FormatHeader(info)) == Some(info)
  {
    var x := info.local + "..." + info.remote.value;
    var tail := TrackingText(info.ahead, info.behind);
    SplitNamesOf(info.local, info.remote.value);
    assert FormatHeader(info) == "## " + x + tail;
    if tail == "" {
      assert "## " + x + tail == "## " + x;
      ParseWithoutTail(x);
    } else {
      ParseTrackingOf(info.ahead, info.behind);
      ParseWithTail(x, tail);
    }
  }

  /** Reading back a header git writes gives its branch, remote and counts. */
  lemma HeaderRoundTrip(info: BranchInfo)
    requires WellFormed(info)
    ensures ParseBranchInfo(FormatHeader(info)) == Some(info)
  {
    if info.remote.None? {
      RoundTripLocal(info);
    } else {
      RoundTripRemote(info);
    }
  }

  lemma MainTracksOrigin()
    ensures SplitNames("main...origin/main") == ("main", Some("origin/main"))
  {
    assert "main"[1..4] == "ain";
    assert !Dots("main", 1) && !Dots("main", 2) && !Dots("main", 3);
    assert "main...origin/main" == "main" + "..." + "origin/main";
    SplitNamesOf("main", "origin/main");
  }

  lemma AheadTwoBehindOne()
    ensures ParseTracking(" [ahead 2, behind 1]") == Some((Some("2"), Some("1")))
  {
    assert " [ahead 2, behind 1]" == TrackingText(Some("2"), Some("1"));
    ParseTrackingBoth("2", "1");
  }

  lemma ExampleAheadBehind()
    ensures ParseBranchInfo("## " + "main...origin/main" + " [ahead 2, behind 1]")
            == Some(BranchInfo("main", Some("origin/main"), Some("2"), Some("1")))
  {
    MainTracksOrigin();
    AheadTwoBehindOne();
    ParseWithTail("main...origin/main", " [ahead 2, behind 1]");
  }

  lemma ExampleLocalOnly()
    ensures ParseBranchInfo("## " + "main") == Some(BranchInfo("main", None, None, None))
  {
    assert !DotsAt("main", 1) && !DotsAt("main", 2) && !DotsAt("main", 3);
    ParseWithoutTail("main");
  }

  /** A detached head: the branch part holds a space and has no remote name. */
  lemma ExampleNoBranch()
    ensures ParseBranchInfo("## " + "HEAD" + " (no branch)") == None
  {
    assert !DotsAt("HEAD", 1) && !DotsAt("HEAD", 2) && !DotsAt("HEAD", 3);
    ParseWithTail("HEAD", " (no branch)");
  }

  /** An upstream that is gone: `[gone]` is not a tracking part. */
  lemma ExampleGone()
    ensures ParseBranchInfo("## " + "main...origin/main" + " [gone]") == None
  {
    assert ParseTracking(" [gone]") == None by {
      Bracketed(" [gone]", "gone");
      assert !("ahead " <= "gone") && !("behind " <= "gone");
    }
    ParseWithTail("main...origin/main", " [gone]");
  }
}
