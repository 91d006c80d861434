/** The counters of a git working tree (`RepoStats`, prompt.py:81-131), the classifier
    that fills them from the body of `git status --porcelain -b` (`parse_git_stats`,
    prompt.py:416-430), and the sub-segments they add to the prompt. Body lines follow
    the short format of git-status(1): two status letters X (index) and Y (work tree),
    then the path. */
module GitStatus {
  import opened Wrappers
  import opened Text
  import Colors
  import opened Renderer

  /** The counters. `ahead` and `behind` hold the digit strings of the branch header,
      `None` while they keep their initial, falsy value. */
  datatype RepoStats = RepoStats(ahead: Option<string>, behind: Option<string>,
                                 untracked: nat, notStaged: nat, staged: nat, conflicted: nat)
  {
    /** `dirty` (prompt.py:103-111): some file counter is positive; ahead/behind play no part. */
    predicate Dirty() {
      untracked + notStaged + staged + conflicted > 0
    }

    /** What the branch header can store in `ahead` and `behind`: nothing, or the
        non-empty digit string of a `\d+` group. */
    predicate Valid() {
      (ahead.Some? ==> ahead.value != "" && IsDigits(ahead.value))
      && (behind.Some? ==> behind.value != "" && IsDigits(behind.value))
    }
  }

  /** `RepoStats()` (prompt.py:95-101). */
  const Initial := RepoStats(None, None, 0, 0, 0, 0)

  /** The unmerged XY codes of git-status(1) (prompt.py:422). */
  const ConflictCodes: set<string> := {"DD", "AU", "UD", "UA", "DU", "AA", "UU"}

  /** The lines `parse_git_stats` reads: all but the branch header (`status[1:]`). */
  function Body(status: seq<string>): (b: seq<string>)
    ensures |b| == if status == [] then 0 else |status| - 1
    ensures forall i :: 0 <= i < |b| ==> b[i] == status[i + 1]
  {
    if status == [] then [] else status[1..]
  }

  /** `code[1]` is read for every line that is neither untracked nor unmerged, so every body
      line needs a two-letter code. */
  predicate WellFormedBody(lines: seq<string>) {
    forall i :: 0 <= i < |lines| ==> |lines[i]| >= 2
  }

  /** The unmerged codes letter by letter. */
  predicate Unmerged(x: char, y: char) {
    (x == 'D' && y == 'D') || (x == 'A' && y == 'U') || (x == 'U' && y == 'D') || (x == 'U' && y == 'A')
    || (x == 'D' && y == 'U') || (x == 'A' && y == 'A') || (x == 'U' && y == 'U')
  }

  lemma CodeClassification(line: string)
    requires |line| >= 2
    ensures line[..2] == [line[0], line[1]]
    ensures line[..2] == "??" <==> line[0] == '?' && line[1] == '?'
    ensures line[..2] in ConflictCodes <==> Unmerged(line[0], line[1])
  {
    assert line[..2] == [line[0], line[1]];
  }

  /** One body line's contribution, first match wins (prompt.py:418-428). */
  function Tally(stats: RepoStats, line: string): RepoStats
    requires |line| >= 2
  {
    var x, y := line[0], line[1];
    if x == '?' && y == '?' then stats.(untracked := stats.untracked + 1)
    else if Unmerged(x, y) then stats.(conflicted := stats.conflicted + 1)
    else stats.(notStaged := stats.notStaged + (if y != ' ' then 1 else 0),
                staged := stats.staged + (if x != ' ' then 1 else 0))
  }

  /** The counters after tallying `lines` in order, starting from `RepoStats()`. */
  function Counted(lines: seq<string>): (s: RepoStats)
    requires WellFormedBody(lines)
    ensures s.ahead == None && s.behind == None
    ensures s.untracked + s.conflicted <= |lines|
  {
    if lines == [] then Initial else Tally(Counted(lines[..|lines| - 1]), lines[|lines| - 1])
  }

  /** `parse_git_stats` (prompt.py:416-430): the header line is skipped and every other line
      tallied once. */
  method ParseGitStats(status: seq<string>) returns (stats: RepoStats)
    requires WellFormedBody(Body(status))
    ensures stats == Counted(Body(status))
  {
    var body := Body(status);
    stats := Initial;
    var i := 0;
    while i < |body|
      invariant 0 <= i <= |body|
      invariant stats == Counted(body[..i])
    {
      var code := body[i][..2];
      CodeClassification(body[i]);
      if code == "??" {
        stats := stats.(untracked := stats.untracked + 1);
      } else if code in ConflictCodes {
        stats := stats.(conflicted := stats.conflicted + 1);
      } else {
        if code[1] != ' ' {
          stats := stats.(notStaged := stats.notStaged + 1);
        }
        if code[0] != ' ' {
          stats := stats.(staged := stats.staged + 1);
        }
      }
      assert body[..i + 1][..i] == body[..i];
      i := i + 1;
    }
    assert body[..i] == body;
  }

  /** The first-match-wins rule for one line: `??` counts as untracked only, an unmerged code
      as conflicted only, any other code as not staged iff Y is not a space and as staged iff
      X is not a space. */
  lemma OneLineRule(line: string)
    requires |line| >= 2
    ensures var s, code := Counted([line]), line[..2];
            s.ahead == None && s.behind == None
            && (s.untracked == if code == "??" then 1 else 0)
            && (s.conflicted == if code != "??" && code in ConflictCodes then 1 else 0)
            && (s.notStaged == if code != "??" && code !in ConflictCodes && line[1] != ' ' then 1 else 0)
            && (s.staged == if code != "??" && code !in ConflictCodes && line[0] != ' ' then 1 else 0)
  {
    assert [line][..0] == [];
    CodeClassification(line);
  }

  /** The counters of two runs of lines add up; in particular the order of the lines does
      not matter. */
  function Sum(a: RepoStats, b: RepoStats): RepoStats {
    RepoStats(None, None, a.untracked + b.untracked, a.notStaged + b.notStaged,
              a.staged + b.staged, a.conflicted + b.conflicted)
  }

  lemma TallySum(x: RepoStats, y: RepoStats, line: string)
    requires |line| >= 2
    ensures Tally(Sum(x, y), line) == Sum(x, Tally(y, line))
  {
  }

  lemma WellFormedConcat(a: seq<string>, b: seq<string>)
    requires WellFormedBody(a) && WellFormedBody(b)
    ensures WellFormedBody(a + b)
  {
    forall i | 0 <= i < |a + b|
      ensures |(a + b)[i]| >= 2
    {
      if i >= |a| {
        assert (a + b)[i] == b[i - |a|];
      }
    }
  }

  lemma {:induction false} CountedAdditive(a: seq<string>, b: seq<string>)
    requires WellFormedBody(a) && WellFormedBody(b)
    ensures WellFormedBody(a + b)
    ensures Counted(a + b) == Sum(Counted(a), Counted(b))
    decreases |b|
  {
    WellFormedConcat(a, b);
    if b == [] {
      assert a + b == a;
    } else {
      var n := |b|;
      var b', last := b[..n - 1], b[n - 1];
      assert WellFormedBody(b');
      CountedAdditive(a, b');
      var ab := a + b;
      assert ab[..|ab| - 1] == a + b';
      assert ab[|ab| - 1] == last;
      calc {
        Counted(ab);
        Tally(Counted(a + b'), last);
        Tally(Sum(Counted(a), Counted(b')), last);
        { TallySum(Counted(a), Counted(b'), last); }
        Sum(Counted(a), Tally(Counted(b'), last));
        Sum(Counted(a), Counted(b));
      }
    }
  }

  lemma LineOrderIrrelevant(a: seq<string>, b: seq<string>)
    requires WellFormedBody(a) && WellFormedBody(b)
    ensures WellFormedBody(a + b) && WellFormedBody(b + a)
    ensures Counted(a + b) == Counted(b + a)
  {
    CountedAdditive(a, b);
    CountedAdditive(b, a);
  }

  /** Each line counts at most once among untracked, conflicted and staged, and at most once
      among untracked, conflicted and not staged. */
  lemma {:induction false} CountedBounds(lines: seq<string>)
    requires WellFormedBody(lines)
    ensures var s := Counted(lines);
            s.untracked + s.conflicted + s.staged <= |lines|
            && s.untracked + s.conflicted + s.notStaged <= |lines|
  {
    if lines != [] {
      CountedBounds(lines[..|lines| - 1]);
    }
  }

  /** A line whose code is not two spaces. */
  predicate Changed(line: string)
    requires |line| >= 2
  {
    line[..2] != "  "
  }

  /** The tree is dirty exactly when some body line has a code other than two spaces. */
  lemma {:induction false} DirtyIffSomeChange(lines: seq<string>)
    requires WellFormedBody(lines)
    ensures Counted(lines).Dirty() <==> exists i :: 0 <= i < |lines| && Changed(lines[i])
  {
    if lines != [] {
      var n := |lines|;
      var init := lines[..n - 1];
      DirtyIffSomeChange(init);
      var last := lines[n - 1];
      assert last[..2] == [last[0], last[1]];
      if exists i :: 0 <= i < n - 1 && Changed(init[i]) {
        var i :| 0 <= i < n - 1 && Changed(init[i]);
        assert Changed(lines[i]);
      }
      if exists i :: 0 <= i < n && Changed(lines[i]) {
        var i :| 0 <= i < n && Changed(lines[i]);
        if i < n - 1 {
          assert Changed(init[i]);
        }
      }
    }
  }

  /** The six counters, in the order `add_to_powerline` visits them (prompt.py:125-130). */
  datatype Key = Ahead | Behind | Staged | NotStaged | Untracked | Conflicted

  const Keys: seq<Key> := [Ahead, Behind, Staged, NotStaged, Untracked, Conflicted]

  /** `RepoStats.symbols` (prompt.py:82-93). The ahead and behind entries are the three
      characters the source file holds, `â†‘` and `â†“`: the arrows `↑` and `↓` encoded
      in UTF-8 and decoded once more as Windows-1252. They are printed as they are. */
  function Symbol(k: Key): string {
    match k
    case Ahead => "\U{e2}\U{2020}\U{2018}"
    case Behind => "\U{e2}\U{2020}\U{201c}"
    case Staged => "staged"
    case NotStaged => "+"
    case Untracked => "?"
    case Conflicted => "*"
  }

  function KeyFg(k: Key): nat {
    match k
    case Ahead => Colors.GitAheadFg
    case Behind => Colors.GitBehindFg
    case Staged => Colors.GitStagedFg
    case NotStaged => Colors.GitNotStagedFg
    case Untracked => Colors.GitUntrackedFg
    case Conflicted => Colors.GitConflictedFg
  }

  function KeyBg(k: Key): nat {
    match k
    case Ahead => Colors.GitAheadBg
    case Behind => Colors.GitBehindBg
    case Staged => Colors.GitStagedBg
    case NotStaged => Colors.GitNotStagedBg
    case Untracked => Colors.GitUntrackedBg
    case Conflicted => Colors.GitConflictedBg
  }

  function Count(stats: RepoStats, k: Key): nat
    requires !k.Ahead? && !k.Behind?
  {
    match k
    case Staged => stats.staged
    case NotStaged => stats.notStaged
    case Untracked => stats.untracked
    case Conflicted => stats.conflicted
  }

  /** Python truthiness of `self[_key]`: a present, non-empty string, or a positive count. */
  predicate Truthy(stats: RepoStats, k: Key) {
    match k
    case Ahead => stats.ahead.Some? && stats.ahead.value != ""
    case Behind => stats.behind.Some? && stats.behind.value != ""
    case _ => Count(stats, k) > 0
  }

  /** `n_or_empty` (prompt.py:116-117): the value as printed when it is more than one,
      nothing otherwise. A header count is printed as it was matched. */
  function NumberOrEmpty(stats: RepoStats, k: Key): (r: string)
    requires stats.Valid() && Truthy(stats, k)
    ensures r == "" || IsDigits(r)
    ensures !k.Ahead? && !k.Behind? ==> (r == "" <==> Count(stats, k) <= 1)
    ensures !k.Ahead? && !k.Behind? && r != "" ==> DigitsValue(r) == Count(stats, k)
  {
    match k
    case Ahead => var v := stats.ahead.value; if DigitsValue(v) > 1 then v else ""
    case Behind => var v := stats.behind.value; if DigitsValue(v) > 1 then v else ""
    case _ => if Count(stats, k) > 1 then NatToString(Count(stats, k)) else ""
  }

  /** The text of one sub-segment: a space, the number when above one, the symbol. */
  function StatText(stats: RepoStats, k: Key): string
    requires stats.Valid() && Truthy(stats, k)
  {
    " " + NumberOrEmpty(stats, k) + Symbol(k)
  }

  /** The `append` of `add` (prompt.py:120-123): the key's own colours, an empty separator. */
  function StatRequest(stats: RepoStats, k: Key): Request
    requires stats.Valid() && Truthy(stats, k)
  {
    Request(StatText(stats, k), Some(KeyFg(k)), Some(KeyBg(k)), Some(""), None)
  }

  /** The appends one `add(_key, fg, bg)` issues: one request when the key is truthy. */
  function KeyRequests(stats: RepoStats, k: Key): seq<Request>
    requires stats.Valid()
  {
    if Truthy(stats, k) then [StatRequest(stats, k)] else []
  }

  /** The appends of `add_to_powerline` (prompt.py:119-130): the six `add` calls in order. */
  function StatRequests(stats: RepoStats): seq<Request>
    requires stats.Valid()
  {
    KeyRequests(stats, Ahead) + KeyRequests(stats, Behind) + KeyRequests(stats, Staged)
    + KeyRequests(stats, NotStaged) + KeyRequests(stats, Untracked) + KeyRequests(stats, Conflicted)
  }

  /** `add` (prompt.py:120-123). */
  method Add(stats: RepoStats, k: Key, p: Powerline)
    requires stats.Valid()
    modifies p
    ensures p.segments == old(p.segments) + Resolve(KeyRequests(stats, k), p.separator)
  {
    if Truthy(stats, k) {
      var n := NumberOrEmpty(stats, k);
      p.Append(" " + n + Symbol(k), Some(KeyFg(k)), Some(KeyBg(k)), Some(""), None);
    }
  }

  lemma ResolveSix(r1: seq<Request>, r2: seq<Request>, r3: seq<Request>, r4: seq<Request>, r5: seq<Request>, r6: seq<Request>, d: string)
    ensures Resolve(r1 + r2 + r3 + r4 + r5 + r6, d)
            == Resolve(r1, d) + Resolve(r2, d) + Resolve(r3, d) + Resolve(r4, d) + Resolve(r5, d) + Resolve(r6, d)
  {
    ResolveConcat(r1 + r2 + r3 + r4 + r5, r6, d);
    ResolveConcat(r1 + r2 + r3 + r4, r5, d);
    ResolveConcat(r1 + r2 + r3, r4, d);
    ResolveConcat(r1 + r2, r3, d);
    ResolveConcat(r1, r2, d);
  }

  lemma Regroup<T>(a: seq<T>, b1: seq<T>, b2: seq<T>, b3: seq<T>, b4: seq<T>, b5: seq<T>, b6: seq<T>)
    ensures a + b1 + b2 + b3 + b4 + b5 + b6 == a + (b1 + b2 + b3 + b4 + b5 + b6)
  {
  }

  /** `add_to_powerline` (prompt.py:119-130). */
  method AddToPowerline(stats: RepoStats, p: Powerline)
    requires stats.Valid()
    modifies p
    ensures p.segments == old(p.segments) + Resolve(StatRequests(stats), p.separator)
  {
    ghost var s0 := p.segments;
    Add(stats, Ahead, p);
    Add(stats, Behind, p);
    Add(stats, Staged, p);
    Add(stats, NotStaged, p);
    Add(stats, Untracked, p);
    Add(stats, Conflicted, p);
    ghost var d := p.separator;
    ghost var r1, r2, r3 := KeyRequests(stats, Ahead), KeyRequests(stats, Behind), KeyRequests(stats, Staged);
    ghost var r4, r5, r6 := KeyRequests(stats, NotStaged), KeyRequests(stats, Untracked), KeyRequests(stats, Conflicted);
    assert p.segments == s0 + Resolve(r1, d) + Resolve(r2, d) + Resolve(r3, d) + Resolve(r4, d) + Resolve(r5, d) + Resolve(r6, d);
    Regroup(s0, Resolve(r1, d), Resolve(r2, d), Resolve(r3, d), Resolve(r4, d), Resolve(r5, d), Resolve(r6, d));
    ResolveSix(r1, r2, r3, r4, r5, r6, d);
  }

  /** The last character of a symbol. */
  function SymbolMark(k: Key): char {
    var s := Symbol(k);
    s[|s| - 1]
  }

  /** No two keys share a symbol's last character. */
  lemma SymbolMarksDistinct(j: Key, k: Key)
    requires SymbolMark(j) == SymbolMark(k)
    ensures j == k
  {
  }

  function LastChar(s: string): char
    requires s != []
  {
    s[|s| - 1]
  }

  lemma StatTextMark(stats: RepoStats, k: Key)
    requires stats.Valid() && Truthy(stats, k)
    ensures StatText(stats, k) != "" && LastChar(StatText(stats, k)) == SymbolMark(k)
  {
    var head, sym := " " + NumberOrEmpty(stats, k), Symbol(k);
    assert StatText(stats, k) == head + sym;
    assert (head + sym)[|head + sym| - 1] == sym[|sym| - 1];
  }

  /** The sub-segments are exactly the requests of the truthy keys. */
  lemma StatRequestsMembers(stats: RepoStats, r: Request)
    requires stats.Valid()
    ensures r in StatRequests(stats) <==> exists k :: Truthy(stats, k) && r == StatRequest(stats, k)
  {
    var a, b, c := KeyRequests(stats, Ahead), KeyRequests(stats, Behind), KeyRequests(stats, Staged);
    var d, e, f := KeyRequests(stats, NotStaged), KeyRequests(stats, Untracked), KeyRequests(stats, Conflicted);
    InSix(r, a, b, c, d, e, f);
    if r in StatRequests(stats) {
      var k: Key;
      if r in a { k := Ahead; }
      else if r in b { k := Behind; }
      else if r in c { k := Staged; }
      else if r in d { k := NotStaged; }
      else if r in e { k := Untracked; }
      else { k := Conflicted; }
      KeyRequestsMember(stats, k, r);
    }
    if exists k :: Truthy(stats, k) && r == StatRequest(stats, k) {
      var k :| Truthy(stats, k) && r == StatRequest(stats, k);
      KeyRequestsMember(stats, k, r);
    }
  }

  lemma InSix<T>(r: T, a: seq<T>, b: seq<T>, c: seq<T>, d: seq<T>, e: seq<T>, f: seq<T>)
    ensures r in a + b + c + d + e + f <==> r in a || r in b || r in c || r in d || r in e || r in f
  {
  }

  lemma KeyRequestsMember(stats: RepoStats, k: Key, r: Request)
    requires stats.Valid()
    ensures r in KeyRequests(stats, k) <==> Truthy(stats, k) && r == StatRequest(stats, k)
  {
  }

  /** A counter gets a sub-segment exactly when it is truthy; the sub-segment ends with the
      counter's symbol. */
  lemma ShownIffTruthy(stats: RepoStats, k: Key)
    requires stats.Valid()
    ensures Truthy(stats, k) <==> exists r :: r in StatRequests(stats) && r.text != "" && LastChar(r.text) == SymbolMark(k)
  {
    if Truthy(stats, k) {
      var r := StatRequest(stats, k);
      StatRequestsMembers(stats, r);
      StatTextMark(stats, k);
    }
    if exists r :: r in StatRequests(stats) && r.text != "" && LastChar(r.text) == SymbolMark(k) {
      var r :| r in StatRequests(stats) && r.text != "" && LastChar(r.text) == SymbolMark(k);
      StatRequestsMembers(stats, r);
      var j :| Truthy(stats, j) && r == StatRequest(stats, j);
      StatTextMark(stats, j);
      SymbolMarksDistinct(j, k);
    }
  }

  /** Every sub-segment starts with a space and has an empty separator in the default
      separator colour. */
  lemma StatRequestsUniform(stats: RepoStats)
    requires stats.Valid()
    ensures forall r :: r in StatRequests(stats) ==> r.separator == Some("") && r.separatorFg == None && " " <= r.text
  {
    forall r | r in StatRequests(stats)
      ensures r.separator == Some("") && r.separatorFg == None && " " <= r.text
    {
      StatRequestsMembers(stats, r);
    }
  }

  /** Nothing is appended for a tree with no truthy counter. */
  lemma NothingWhenAllFalsy(stats: RepoStats)
    requires stats.Valid()
    ensures StatRequests(stats) == [] <==> forall k :: !Truthy(stats, k)
  {
  }

  /** A header count read as a canonical numeral behaves as that number would: it is shown
      when the number is positive and printed when above one. The numeral "0" is the
      exception: it is a non-empty string, so the counter is shown. */
  lemma HeaderCountAsNumber(stats: RepoStats, n: nat)
    requires stats.ahead == Some(NatToString(n)) && stats.Valid()
    ensures Truthy(stats, Ahead)
    ensures NumberOrEmpty(stats, Ahead) == if n > 1 then NatToString(n) else ""
  {
  }

  lemma ZeroAheadStillShown()
    ensures var stats := Initial.(ahead := Some("0"));
            stats.Valid() && StatRequests(stats) == [Request(" \U{e2}\U{2020}\U{2018}", Some(250), Some(0), Some(""), None)]
  {
    var stats := Initial.(ahead := Some("0"));
    assert DigitsValue("0") == 0 by {
      assert "0"[..0] == "";
    }
    assert NumberOrEmpty(stats, Ahead) == "";
    assert StatText(stats, Ahead) == " \U{e2}\U{2020}\U{2018}";
    assert KeyRequests(stats, Behind) == [] && KeyRequests(stats, Staged) == [];
  }
}
