/** The working-directory segment (prompt.py:133-160 and 298-375): finding the directory
    the shell reports, abbreviating the home directory, splitting the path into names,
    limiting their number and length, and appending one segment per name. The
    environment, `os.getcwd` and the file system are given as parameters. */
module Cwd {
  import opened Wrappers
  import opened Text
  import Colors
  import opened Renderer

  /** `os.sep` */
  const Sep: char := '/'

  /** `ELLIPSIS` (prompt.py:301): the name that stands for the names left out. */
  const Ellipsis: string := ".."

  // ---------------------------------------------------------------------------------------
  // get_valid_cwd

  /** The directory the loop of `get_valid_cwd` settles on: the path itself when it exists,
      else the same path with its last name dropped, and so on; the empty path ends it. */
  function LowestValid(parts: seq<string>, existing: set<string>): string
  {
    if parts == [] || Join(parts, Sep) in existing then Join(parts, Sep)
    else LowestValid(parts[..|parts| - 1], existing)
  }

  /** `warn` (prompt.py:12-13): `print` writes the tag and the message to standard output,
      separated by a space and followed by a newline. */
  function Warning(msg: string): string {
    "[powerline-bash] " + " " + msg + "\n"
  }

  /** The warning of `get_valid_cwd` when no directory can be found (prompt.py:146-148). */
  const NoDirectoryMessage: string :=
    "Your current directory is invalid. If you open a ticket at "
    + "https://github.com/milkbikis/powerline-shell/issues/new "
    + "we would love to help fix the issue."

  /** The start of the warning for a directory that no longer exists (prompt.py:158-159). */
  const LowestValidMessage: string := "Your current directory is invalid. Lowest valid directory: "

  /** What `get_valid_cwd` writes for a directory it found: a warning naming the lowest
      valid directory when that is not the directory itself, nothing otherwise. */
  function CwdWarning(cwd: string, existing: set<string>): string {
    var up := LowestValid(Split(cwd, Sep), existing);
    if cwd != up then Warning(LowestValidMessage + up) else ""
  }

  /** `get_valid_cwd` (prompt.py:133-160). `pwd` is the `PWD` variable, `getcwd` what
      `os.getcwd()` returns (`None` when it raises), `existing` the paths `os.path.exists`
      accepts. The result is the directory the shell reports, or `None` when the program
      exits for want of one; `up` is the lowest valid directory named in the warning, and
      `written` what the function writes to standard output. */
  method GetValidCwd(pwd: Option<string>, getcwd: Option<string>, existing: set<string>)
    returns (cwd: Option<string>, up: string, written: string)
    ensures cwd.None? <==> (pwd.None? || pwd.value == "") && getcwd.None?
    ensures cwd.Some? && pwd.Some? && pwd.value != "" ==> cwd.value == pwd.value
    ensures cwd.Some? && (pwd.None? || pwd.value == "") ==> cwd == getcwd
    ensures cwd.Some? ==> up == LowestValid(Split(cwd.value, Sep), existing)
    ensures cwd.Some? ==> written == if up != cwd.value then Warning(LowestValidMessage + up) else ""
    ensures cwd.None? ==> written == Warning(NoDirectoryMessage) + "> "
  {
    if pwd.Some? && pwd.value != "" {
      cwd := pwd;
    } else if getcwd.Some? {
      cwd := getcwd;
    } else {
      return None, "", Warning(NoDirectoryMessage) + "> ";
    }
    var parts := Split(cwd.value, Sep);
    up := cwd.value;
    JoinSplit(cwd.value, Sep);
    ghost var all := parts;
    while parts != [] && up !in existing
      invariant up == Join(parts, Sep)
      invariant LowestValid(parts, existing) == LowestValid(all, existing)
      decreases |parts|
    {
      parts := parts[..|parts| - 1];
      up := Join(parts, Sep);
    }
    written := if up != cwd.value then Warning(LowestValidMessage + up) else "";
  }

  /** A directory that exists draws no warning. */
  lemma NoWarningWhenExisting(cwd: string, existing: set<string>)
    requires cwd in existing
    ensures CwdWarning(cwd, existing) == ""
  {
    JoinSplit(cwd, Sep);
  }

  /** The lowest valid directory is the longest leading run of names that exists: it
      exists or is empty, and every longer leading run does not exist. */
  lemma {:induction false} LowestValidIsLongestExisting(parts: seq<string>, existing: set<string>)
    ensures exists k :: 0 <= k <= |parts| && LowestValid(parts, existing) == Join(parts[..k], Sep)
                        && (k == 0 || Join(parts[..k], Sep) in existing)
                        && forall j :: k < j <= |parts| ==> Join(parts[..j], Sep) !in existing
  {
    assert parts[..|parts|] == parts;
    if parts != [] && Join(parts, Sep) !in existing {
      var init := parts[..|parts| - 1];
      LowestValidIsLongestExisting(init, existing);
      var k :| 0 <= k <= |init| && LowestValid(init, existing) == Join(init[..k], Sep)
               && (k == 0 || Join(init[..k], Sep) in existing)
               && forall j :: k < j <= |init| ==> Join(init[..j], Sep) !in existing;
      assert init[..k] == parts[..k];
      forall j | k < j <= |parts|
        ensures Join(parts[..j], Sep) !in existing
      {
        if j < |parts| {
          assert init[..j] == parts[..j];
        }
      }
    }
  }

  // ---------------------------------------------------------------------------------------
  // replace_home_dir

  /** `replace_home_dir` as written (prompt.py:304-308): any string prefix equal to `HOME`
      becomes `~`. The result starts with `~` standing for `HOME` exactly when `HOME` is a
      prefix of the path. */
  function ReplaceHomeDir(cwd: string, home: string): (r: string)
    ensures home <= cwd <==> |r| >= 1 && r[0] == '~' && home + r[1..] == cwd
    ensures !(home <= cwd) ==> r == cwd
  {
    if home <= cwd then "~" + cwd[|home|..] else cwd
  }

  /** The path is the home directory or lies below it. */
  predicate AtOrBelow(cwd: string, home: string) {
    home != "" && (cwd == home || home + [Sep] <= cwd)
  }

  /** `replace_home_dir` as evidently intended: `HOME` is abbreviated only where it ends at
      a name boundary, so `~` always stands for the whole home directory. */
  function HomeReplaced(cwd: string, home: string): (r: string)
    ensures AtOrBelow(cwd, home) <==> |r| >= 1 && r[0] == '~' && home + r[1..] == cwd && (|r| == 1 || r[1] == Sep)
    ensures !AtOrBelow(cwd, home) ==> r == cwd
  {
    if AtOrBelow(cwd, home) then "~" + cwd[|home|..] else cwd
  }

  /** Where the path is at or below home, the two agree; elsewhere the written version may
      still abbreviate. */
  lemma HomeReplacedAgrees(cwd: string, home: string)
    ensures AtOrBelow(cwd, home) ==> HomeReplaced(cwd, home) == ReplaceHomeDir(cwd, home)
    ensures HomeReplaced(cwd, home) != ReplaceHomeDir(cwd, home) ==> home <= cwd && !AtOrBelow(cwd, home)
  {
  }

  /** With `HOME=/home/al`, the written version shows `/home/alice` as `~ice`, a path that
      does not exist; the intended version leaves it alone. */
  lemma HomePrefixOfSibling()
    ensures ReplaceHomeDir("/home/al" + "ice", "/home/al") == "~ice"
    ensures HomeReplaced("/home/al" + "ice", "/home/al") == "/home/al" + "ice"
  {
    var cwd := "/home/al" + "ice";
    assert cwd[|"/home/al"|..] == "ice";
    assert ("/home/al" + [Sep])[8] == '/' && cwd[8] == 'i';
  }

  // ---------------------------------------------------------------------------------------
  // split_path_into_names, maybe_shorten_name

  /** The path without its leading separator. */
  function Relative(cwd: string): string {
    if cwd != [] && cwd[0] == Sep then cwd[1..] else cwd
  }

  /** `split_path_into_names` (prompt.py:311-321): the names between separators, a leading
      separator dropped; a path whose first name is empty (the root, or one starting with
      two separators) is shown as the single name `/`. An empty path raises `IndexError`. */
  function SplitPathIntoNames(cwd: string): (names: seq<string>)
    requires cwd != ""
    ensures |names| >= 1
    ensures names == ["/"] <==> Relative(cwd) == "" || Relative(cwd)[0] == Sep
    ensures names != ["/"] ==> Join(names, Sep) == Relative(cwd) && names[0] != ""
                               && forall i :: 0 <= i < |names| ==> Sep !in names[i]
  {
    var all := Split(cwd, Sep);
    assert cwd[0] == Sep ==> all == [""] + Split(cwd[1..], Sep) by {
      if cwd[0] == Sep {
        assert IndexOf(cwd, Sep) == 0;
      }
    }
    var names := if all[0] == "" then all[1..] else all;
    assert names == Split(Relative(cwd), Sep);
    JoinSplit(Relative(cwd), Sep);
    SplitFirst(Relative(cwd));
    if names[0] == "" then ["/"] else names
  }

  /** The first name of a split is empty exactly when the string is empty or starts with the
      separator. */
  lemma SplitFirst(s: string)
    ensures Split(s, Sep)[0] == "" <==> s == "" || s[0] == Sep
  {
    if Sep in s {
      var i := IndexOf(s, Sep);
      assert i == 0 <==> s[0] == Sep;
    }
  }

  /** `name[:n]` with Python's slice rules: a negative bound counts from the end. */
  function PrefixSlice(name: string, n: int): (r: string)
    ensures r <= name
    ensures n >= 0 ==> |r| == if n < |name| then n else |name|
    ensures n < 0 ==> |r| == if |name| + n > 0 then |name| + n else 0
  {
    if n >= 0 then (if n < |name| then name[..n] else name)
    else (if |name| + n > 0 then name[..|name| + n] else "")
  }

  /** `maybe_shorten_name` (prompt.py:324-330): the name cut to the configured length unless
      that length is zero. */
  function MaybeShortenName(maxSize: int, name: string): (r: string)
    ensures r <= name
    ensures maxSize == 0 ==> r == name
    ensures maxSize > 0 ==> |r| == if |name| < maxSize then |name| else maxSize
    ensures maxSize < 0 ==> |r| == if |name| + maxSize > 0 then |name| + maxSize else 0
  {
    if maxSize != 0 then PrefixSlice(name, maxSize) else name
  }

  // ---------------------------------------------------------------------------------------
  // add_cwd_segment

  /** The depth rule of `add_cwd_segment` (prompt.py:345-352): with a positive depth and
      more names than depth plus one, the last `maxDepth` names behind an ellipsis. */
  function LimitDepth(names: seq<string>, maxDepth: int): (r: seq<string>)
    requires |names| >= 1
    ensures |r| >= 1 && r[|r| - 1] == names[|names| - 1]
    ensures maxDepth <= 0 || |names| - 1 <= maxDepth ==> r == names
    ensures maxDepth > 0 ==> |r| <= maxDepth + 1
    ensures maxDepth > 0 && |names| - 1 > maxDepth ==> r[0] == Ellipsis && r[1..] == names[|names| - maxDepth..]
  {
    if maxDepth <= 0 then names
    else if |names| - 1 > maxDepth then [Ellipsis] + names[|names| - maxDepth..]
    else names
  }

  /** The names `add_cwd_segment` draws for a path in fancy or dironly mode. */
  function ShownNames(cwd: string, mode: CwdMode, maxDepth: int): (r: seq<string>)
    requires cwd != ""
    ensures |r| >= 1
    ensures mode == DirOnly ==> |r| == 1
    ensures maxDepth > 0 ==> |r| <= maxDepth + 1
    ensures r[|r| - 1] == SplitPathIntoNames(cwd)[|SplitPathIntoNames(cwd)| - 1]
  {
    var names := LimitDepth(SplitPathIntoNames(cwd), maxDepth);
    if mode == DirOnly then names[|names| - 1..] else names
  }

  /** A first name other than `~`, `/` and `..` is preceded by an empty segment, so that its
      thin separator opens the path. */
  predicate NeedsLead(name: string) {
    name != "~" && name != "/" && name != Ellipsis
  }

  function LeadRequest(thin: string): Request {
    Request("", Some(Colors.PathFg), Some(Colors.PathBg), Some(thin), Some(Colors.SeparatorThinFg))
  }

  /** The append for name `i`: thin separator between names, the defaults after the last. */
  function NamePart(names: seq<string>, i: nat, maxSize: int, thin: string): Request
    requires i < |names|
  {
    var last := i == |names| - 1;
    Request(MaybeShortenName(maxSize, names[i]), Some(Colors.PathFg), Some(Colors.PathBg),
            if last then None else Some(thin), if last then None else Some(Colors.SeparatorThinFg))
  }

  function NameParts(names: seq<string>, maxSize: int, thin: string): (r: seq<Request>)
    ensures |r| == |names|
    ensures forall i :: 0 <= i < |names| ==> r[i] == NamePart(names, i, maxSize, thin)
  {
    seq(|names|, i requires 0 <= i < |names| => NamePart(names, i, maxSize, thin))
  }

  function LeadRequests(names: seq<string>, thin: string): seq<Request> {
    if names != [] && NeedsLead(names[0]) then [LeadRequest(thin)] else []
  }

  /** The appends of the loop of `add_cwd_segment` (prompt.py:359-375) over `names`. */
  function NameRequests(names: seq<string>, maxSize: int, thin: string): seq<Request> {
    LeadRequests(names, thin) + NameParts(names, maxSize, thin)
  }

  /** The appends of `add_cwd_segment` for the path after home abbreviation. */
  function CwdRequests(cwd: string, mode: CwdMode, maxDepth: int, maxSize: int, thin: string): seq<Request>
    requires cwd != ""
  {
    if mode == Plain then [Request(cwd, Some(Colors.CwdFg), Some(Colors.PathBg), None, None)]
    else NameRequests(ShownNames(cwd, mode, maxDepth), maxSize, thin)
  }

  /** `add_cwd_segment` (prompt.py:333-375) for the directory `cwd` that `get_valid_cwd`
      returned, with home abbreviated at name boundaries only. */
  method AddCwdSegment(p: Powerline, cwd: string, home: string)
    requires cwd != ""
    modifies p
    ensures p.segments == old(p.segments)
              + Resolve(CwdRequests(HomeReplaced(cwd, home), p.cwdMode, p.cwdMaxDepth, p.cwdMaxDirSize, p.separatorThin), p.separator)
  {
    var shown := HomeReplaced(cwd, home);
    if p.cwdMode == Plain {
      p.Append(shown, Some(Colors.CwdFg), Some(Colors.PathBg), None, None);
      return;
    }
    var names := SelectNames(shown, p.cwdMode, p.cwdMaxDepth);
    AppendNames(p, names);
  }

  /** The names `add_cwd_segment` keeps: the last `maxDepth` behind an ellipsis when the path
      is deeper, and only the last one in dironly mode. */
  method SelectNames(cwd: string, mode: CwdMode, maxDepth: int) returns (names: seq<string>)
    requires cwd != ""
    ensures names == ShownNames(cwd, mode, maxDepth)
  {
    var all := SplitPathIntoNames(cwd);
    names := LimitNames(all, maxDepth);
    if mode == DirOnly {
      names := names[|names| - 1..];
    }
  }

  /** The depth rule applied to the names of the path. */
  method LimitNames(all: seq<string>, maxDepth: int) returns (names: seq<string>)
    requires |all| >= 1
    ensures names == LimitDepth(all, maxDepth)
  {
    names := all;
    if maxDepth <= 0 {
    } else if |all| - 1 > maxDepth {
      names := [Ellipsis] + all[|all| - maxDepth..];
    }
  }

  /** The appends of the first `n` rounds of the loop. */
  function NamesUpTo(names: seq<string>, n: nat, maxSize: int, thin: string): seq<Request>
    requires n <= |names|
  {
    if n == 0 then [] else LeadRequests(names, thin) + NameParts(names, maxSize, thin)[..n]
  }

  /** The lead segment is appended in the first round only. */
  function LeadIfFirst(names: seq<string>, i: nat, thin: string): seq<Request> {
    if i == 0 then LeadRequests(names, thin) else []
  }

  lemma NamesUpToStep(names: seq<string>, i: nat, maxSize: int, thin: string, d: string)
    requires i < |names|
    ensures Resolve(NamesUpTo(names, i + 1, maxSize, thin), d)
            == Resolve(NamesUpTo(names, i, maxSize, thin), d) + Resolve(LeadIfFirst(names, i, thin), d)
               + Resolve([NamePart(names, i, maxSize, thin)], d)
  {
    var parts := NameParts(names, maxSize, thin);
    assert parts[..i + 1] == parts[..i] + [parts[i]];
    assert NamesUpTo(names, i + 1, maxSize, thin)
           == NamesUpTo(names, i, maxSize, thin) + LeadIfFirst(names, i, thin) + [NamePart(names, i, maxSize, thin)];
    ResolveConcat(NamesUpTo(names, i, maxSize, thin) + LeadIfFirst(names, i, thin), [NamePart(names, i, maxSize, thin)], d);
    ResolveConcat(NamesUpTo(names, i, maxSize, thin), LeadIfFirst(names, i, thin), d);
  }

  /** One round of the loop of `add_cwd_segment` (prompt.py:360-375). */
  method AppendName(p: Powerline, names: seq<string>, i: nat)
    requires i < |names|
    modifies p
    ensures p.segments == old(p.segments) + Resolve(LeadIfFirst(names, i, p.separatorThin), p.separator)
                                          + Resolve([NamePart(names, i, p.cwdMaxDirSize, p.separatorThin)], p.separator)
  {
    var fg, bg := Colors.PathFg, Colors.PathBg;
    var separator: Option<string> := Some(p.separatorThin);
    var separatorFg: Option<nat> := Some(Colors.SeparatorThinFg);
    var name := names[i];
    if i == 0 && name != "~" && name != "/" && name != Ellipsis {
      p.Append("", Some(fg), Some(bg), separator, separatorFg);
    }
    var isLastDir := i == |names| - 1;
    if isLastDir {
      separator, separatorFg := None, None;
    }
    p.Append(MaybeShortenName(p.cwdMaxDirSize, name), Some(fg), Some(bg), separator, separatorFg);
  }

  /** The loop of `add_cwd_segment` (prompt.py:359-375). */
  method AppendNames(p: Powerline, names: seq<string>)
    modifies p
    ensures p.segments == old(p.segments) + Resolve(NameRequests(names, p.cwdMaxDirSize, p.separatorThin), p.separator)
  {
    ghost var s0 := p.segments;
    ghost var size, thin, d := p.cwdMaxDirSize, p.separatorThin, p.separator;
    for i := 0 to |names|
      invariant p.segments == s0 + Resolve(NamesUpTo(names, i, size, thin), d)
    {
      AppendName(p, names, i);
      NamesUpToStep(names, i, size, thin, d);
      Regroup3(s0, Resolve(NamesUpTo(names, i, size, thin), d), Resolve(LeadIfFirst(names, i, thin), d),
               Resolve([NamePart(names, i, size, thin)], d));
    }
    AllRounds(names, size, thin);
  }

  lemma AllRounds(names: seq<string>, maxSize: int, thin: string)
    ensures NamesUpTo(names, |names|, maxSize, thin) == NameRequests(names, maxSize, thin)
  {
    assert NameParts(names, maxSize, thin)[..|names|] == NameParts(names, maxSize, thin);
  }

  // ---------------------------------------------------------------------------------------
  // What the loop draws

  /** Every name is drawn cut to the configured length, in order, after an empty lead
      segment exactly when the first name is not `~`, `/` or `..`. */
  lemma NamesDrawnInOrder(names: seq<string>, maxSize: int, thin: string)
    ensures var r := NameRequests(names, maxSize, thin);
            names != [] && NeedsLead(names[0]) ==>
              |r| == |names| + 1 && r[0] == LeadRequest(thin)
              && forall i :: 0 <= i < |names| ==> r[i + 1].text == MaybeShortenName(maxSize, names[i])
    ensures var r := NameRequests(names, maxSize, thin);
            !(names != [] && NeedsLead(names[0])) ==>
              |r| == |names| && forall i :: 0 <= i < |names| ==> r[i].text == MaybeShortenName(maxSize, names[i])
  {
    var r, lead := NameRequests(names, maxSize, thin), LeadRequests(names, thin);
    forall i | 0 <= i < |names|
      ensures r[i + |lead|].text == MaybeShortenName(maxSize, names[i])
    {
      NameRequestAt(names, maxSize, thin, i);
    }
    if names != [] && NeedsLead(names[0]) {
      assert |lead| == 1;
    } else {
      assert |lead| == 0;
    }
  }

  /** Name `i` is appended right after the lead segment and the names before it. */
  lemma NameRequestAt(names: seq<string>, maxSize: int, thin: string, i: nat)
    requires i < |names|
    ensures |NameRequests(names, maxSize, thin)| == |LeadRequests(names, thin)| + |names|
    ensures NameRequests(names, maxSize, thin)[|LeadRequests(names, thin)| + i] == NamePart(names, i, maxSize, thin)
  {
    var lead, parts := LeadRequests(names, thin), NameParts(names, maxSize, thin);
    assert (lead + parts)[|lead| + i] == parts[i];
  }

  /** Every segment of the path, the lead included, is in the path colours. */
  lemma NamesInPathColours(names: seq<string>, maxSize: int, thin: string)
    ensures var r := NameRequests(names, maxSize, thin);
            forall j :: 0 <= j < |r| ==> r[j].fg == Some(Colors.PathFg) && r[j].bg == Some(Colors.PathBg)
  {
    var r, lead, parts := NameRequests(names, maxSize, thin), LeadRequests(names, thin), NameParts(names, maxSize, thin);
    forall j | 0 <= j < |r|
      ensures r[j].fg == Some(Colors.PathFg) && r[j].bg == Some(Colors.PathBg)
    {
      if j >= |lead| {
        assert r[j] == parts[j - |lead|];
      }
    }
  }

  /** Thin separators in the thin separator colour between names; the last name gets the
      defaults, so the segment after the path starts with the ordinary separator. */
  lemma ThinSeparatorsButLast(names: seq<string>, maxSize: int, thin: string)
    requires names != []
    ensures var r := NameRequests(names, maxSize, thin);
            (forall j :: 0 <= j < |r| - 1 ==> r[j].separator == Some(thin) && r[j].separatorFg == Some(Colors.SeparatorThinFg))
            && r[|r| - 1].separator == None && r[|r| - 1].separatorFg == None
  {
    var r := NameRequests(names, maxSize, thin);
    var lead := LeadRequests(names, thin);
    forall j | 0 <= j < |r| - 1
      ensures r[j].separator == Some(thin) && r[j].separatorFg == Some(Colors.SeparatorThinFg)
    {
      if j >= |lead| {
        assert r[j] == NamePart(names, j - |lead|, maxSize, thin);
      }
    }
  }

  /** In plain mode the whole path is one segment in the current-directory colour. */
  lemma PlainIsOneSegment(cwd: string, maxDepth: int, maxSize: int, thin: string)
    requires cwd != ""
    ensures CwdRequests(cwd, Plain, maxDepth, maxSize, thin) == [Request(cwd, Some(Colors.CwdFg), Some(Colors.PathBg), None, None)]
  {
  }

  /** The names of a path, read back from its joined form. */
  lemma NamesOfJoined(cwd: string, names: seq<string>)
    requires cwd != "" && cwd[0] != Sep && names != [] && names[0] != ""
    requires forall i :: 0 <= i < |names| ==> Sep !in names[i]
    requires Join(names, Sep) == cwd
    ensures SplitPathIntoNames(cwd) == names
  {
    var found := SplitPathIntoNames(cwd);
    SplitJoin(names, Sep);
    if found == ["/"] {
      assert Split(cwd, Sep)[0] == names[0];
      SplitFirst(cwd);
    } else {
      SplitJoin(found, Sep);
    }
  }

  lemma DeepHome()
    ensures HomeReplaced("/home/al" + "/src/powerline/lib/git", "/home/al") == "~" + "/src/powerline/lib/git"
  {
    var cwd := "/home/al" + "/src/powerline/lib/git";
    assert cwd == ("/home/al" + [Sep]) + "src/powerline/lib/git";
    assert AtOrBelow(cwd, "/home/al");
    assert cwd[|"/home/al"|..] == "/src/powerline/lib/git";
  }

  lemma DeepJoined()
    ensures Join(["~", "src", "powerline", "lib", "git"], Sep) == "~" + "/src/powerline/lib/git"
  {
    var names := ["~", "src", "powerline", "lib", "git"];
    assert Join(names[4..], Sep) == "git";
    assert Join(names[3..], Sep) == "lib" + [Sep] + "git";
    assert Join(names[2..], Sep) == "powerline" + [Sep] + "lib/git";
    assert Join(names[1..], Sep) == "src" + [Sep] + "powerline/lib/git";
  }

  lemma DeepNames()
    ensures SplitPathIntoNames("~" + "/src/powerline/lib/git") == ["~", "src", "powerline", "lib", "git"]
  {
    var names := ["~", "src", "powerline", "lib", "git"];
    DeepJoined();
    assert forall i :: 0 <= i < |names| ==> Sep !in names[i];
    NamesOfJoined("~" + "/src/powerline/lib/git", names);
  }

  lemma DeepShown()
    ensures ShownNames("~" + "/src/powerline/lib/git", Fancy, 3) == [Ellipsis, "powerline", "lib", "git"]
  {
    DeepNames();
    FancyShowsLimited("~" + "/src/powerline/lib/git", 3);
    DeepLimited();
  }

  lemma FancyShowsLimited(cwd: string, maxDepth: int)
    requires cwd != ""
    ensures ShownNames(cwd, Fancy, maxDepth) == LimitDepth(SplitPathIntoNames(cwd), maxDepth)
  {
  }

  lemma DeepLimited()
    ensures LimitDepth(["~", "src", "powerline", "lib", "git"], 3) == [Ellipsis, "powerline", "lib", "git"]
  {
    var names := ["~", "src", "powerline", "lib", "git"];
    assert names[|names| - 3..] == ["powerline", "lib", "git"];
  }

  lemma DeepRequests()
    ensures NameRequests([Ellipsis, "powerline", "lib", "git"], 12, "/")
            == [Request("..", Some(3), Some(0), Some("/"), Some(14)), Request("powerline", Some(3), Some(0), Some("/"), Some(14)),
                Request("lib", Some(3), Some(0), Some("/"), Some(14)), Request("git", Some(3), Some(0), None, None)]
  {
    assert !NeedsLead(Ellipsis);
    assert MaybeShortenName(12, "powerline") == "powerline";
  }

  /** Four names below home are drawn as `..` and the last three, each followed by a thin
      separator but the last. */
  lemma DeepPathBelowHome()
    ensures CwdRequests(HomeReplaced("/home/al" + "/src/powerline/lib/git", "/home/al"), Fancy, 3, 12, "/")
            == [Request("..", Some(3), Some(0), Some("/"), Some(14)), Request("powerline", Some(3), Some(0), Some("/"), Some(14)),
                Request("lib", Some(3), Some(0), Some("/"), Some(14)), Request("git", Some(3), Some(0), None, None)]
  {
    DeepHome();
    DeepShown();
    DeepRequests();
  }
}
