/** The segment renderer: the `Powerline` class of prompt.py:21-78.
    Segments are kept in append order and drawn into one escaped string in which
    the separator of segment i is painted on the background of segment i + 1,
    or after a reset when segment i is the last one. Colour escapes are the
    SGR sequences of section 8.3.117 of ECMA-48 in their 256-colour form
    (`38;5;n` foreground, `48;5;n` background). */
module Renderer {
  import opened Wrappers
  import opened Text
  import Colors

  /** The shells with an escape template (prompt.py:22-26). */
  datatype Shell = Bash | Zsh | Bare

  /** How the current directory is shown (prompt.py:32). */
  datatype CwdMode = Fancy | Plain | DirOnly

  const DefaultSeparator: string := ""
  const ThinSeparator: string := "/"
  const ResetBody: string := "[0m"

  /** `color_template % body`. The bash template wraps the body in `\[\e` and `\]`, where
      bash turns `\e` into the escape character; the zsh one puts an escape character (0x1B)
      before the body and wraps both in `%{` and `%}`; the bare one only puts the escape
      character before the body. */
  function Template(shell: Shell, body: string): string {
    match shell
    case Bash => "\\[\\e" + body + "\\]"
    case Zsh => "%{\U{1b}" + body + "%}"
    case Bare => "\U{1b}" + body
  }

  function Reset(shell: Shell): string {
    Template(shell, ResetBody)
  }

  /** Every template starts the sequence with an escape: the zsh reset is `%{ESC[0m%}` and
      the bare foreground escape for colour 3 is `ESC[38;5;3m`. */
  lemma TemplatesStartWithEscape()
    ensures Reset(Zsh) == "%{\U{1b}[0m%}"
    ensures Template(Bare, SgrBody("38", 3)) == "\U{1b}[38;5;3m"
    ensures forall body :: Template(Zsh, body)[2] == '\U{1b}' && Template(Bare, body)[0] == '\U{1b}'
  {
    assert NatToString(3) == "3";
  }

  /** The SGR body `[<prefix>;5;<code>m`. */
  function SgrBody(prefix: string, code: nat): string {
    "[" + prefix + ";5;" + NatToString(code) + "m"
  }

  /** `Powerline.color`: nothing for an absent code, otherwise the templated SGR sequence. */
  function ColorEscape(shell: Shell, prefix: string, code: Option<nat>): string {
    match code
    case None => ""
    case Some(n) => Template(shell, SgrBody(prefix, n))
  }

  function FgColor(shell: Shell, code: Option<nat>): string {
    ColorEscape(shell, "38", code)
  }

  function BgColor(shell: Shell, code: Option<nat>): string {
    ColorEscape(shell, "48", code)
  }

  /** One stored segment: the tuple `(content, fg, bg, separator, separator_fg)`. */
  datatype Segment = Segment(text: string, fg: Option<nat>, bg: Option<nat>, separator: string, separatorFg: Option<nat>)

  /** The arguments of one `append` call; `None` separator arguments ask for the defaults. */
  datatype Request = Request(text: string, fg: Option<nat>, bg: Option<nat>, separator: Option<string>, separatorFg: Option<nat>)

  /** What `append` stores for a request: a missing separator becomes the renderer's
      default one, a missing separator colour becomes `Color.SEPARATOR_FG`. */
  function Stored(r: Request, defaultSeparator: string): (s: Segment)
    ensures s.text == r.text && s.fg == r.fg && s.bg == r.bg
    ensures s.separator == (if r.separator.Some? then r.separator.value else defaultSeparator)
    ensures s.separatorFg == Some(if r.separatorFg.Some? then r.separatorFg.value else Colors.SeparatorFg)
  {
    Segment(r.text, r.fg, r.bg, r.separator.GetOr(defaultSeparator), Some(r.separatorFg.GetOr(Colors.SeparatorFg)))
  }

  /** The segments stored by a sequence of `append` calls, in call order. */
  function Resolve(rs: seq<Request>, defaultSeparator: string): (segs: seq<Segment>)
    ensures |segs| == |rs|
    ensures forall i :: 0 <= i < |rs| ==> segs[i] == Stored(rs[i], defaultSeparator)
  {
    if rs == [] then [] else Resolve(rs[..|rs| - 1], defaultSeparator) + [Stored(rs[|rs| - 1], defaultSeparator)]
  }

  lemma ResolveConcat(a: seq<Request>, b: seq<Request>, d: string)
    ensures Resolve(a + b, d) == Resolve(a, d) + Resolve(b, d)
  {
  }

  /** One append stores one tuple. */
  lemma ResolveOne(r: Request, d: string)
    ensures Resolve([r], d) == [Stored(r, d)]
  {
    assert [r][..0] == [];
  }

  /** Three runs appended to earlier segments, regrouped. */
  lemma Regroup3<T>(s: seq<T>, a: seq<T>, b: seq<T>, c: seq<T>)
    ensures s + a + b + c == s + (a + b + c)
  {
  }

  /** One segment's colours and text, the given transition, then its separator in its
      own separator colour: the six strings `draw_segment` joins (prompt.py:71-78). */
  function Painted(shell: Shell, s: Segment, transition: string): string {
    FgColor(shell, s.fg) + BgColor(shell, s.bg) + s.text + transition + FgColor(shell, s.separatorFg) + s.separator
  }

  /** A token of the drawn prompt: one colour escape, the reset escape, or printable text. */
  datatype Piece = ColorCode(prefix: string, code: nat) | ResetCode | Literal(text: string)

  /** The characters a piece contributes to the drawn string. */
  function Emit(shell: Shell, p: Piece): string {
    match p
    case ColorCode(prefix, n) => Template(shell, SgrBody(prefix, n))
    case ResetCode => Reset(shell)
    case Literal(t) => t
  }

  /** The characters a piece puts on the screen: its text, or nothing for an escape. */
  function Shown(p: Piece): string {
    if p.Literal? then p.text else ""
  }

  function Flatten(shell: Shell, ps: seq<Piece>): string {
    if ps == [] then "" else Emit(shell, ps[0]) + Flatten(shell, ps[1..])
  }

  /** The characters a terminal prints: the literals, escapes left out. */
  function Printed(ps: seq<Piece>): string {
    if ps == [] then "" else Shown(ps[0]) + Printed(ps[1..])
  }

  lemma {:induction false} FlattenConcat(shell: Shell, a: seq<Piece>, b: seq<Piece>)
    ensures Flatten(shell, a + b) == Flatten(shell, a) + Flatten(shell, b)
    decreases |a|
  {
    if a != [] {
      assert (a + b)[0] == a[0] && (a + b)[1..] == a[1..] + b;
      FlattenConcat(shell, a[1..], b);
      var e := Emit(shell, a[0]);
      assert Flatten(shell, a + b) == e + (Flatten(shell, a[1..]) + Flatten(shell, b));
      assert e + (Flatten(shell, a[1..]) + Flatten(shell, b)) == (e + Flatten(shell, a[1..])) + Flatten(shell, b);
    } else {
      assert a + b == b;
    }
  }

  lemma {:induction false} PrintedConcat(a: seq<Piece>, b: seq<Piece>)
    ensures Printed(a + b) == Printed(a) + Printed(b)
    decreases |a|
  {
    if a != [] {
      assert (a + b)[0] == a[0] && (a + b)[1..] == a[1..] + b;
      PrintedConcat(a[1..], b);
      var e := Shown(a[0]);
      assert Printed(a + b) == e + (Printed(a[1..]) + Printed(b));
      assert e + (Printed(a[1..]) + Printed(b)) == (e + Printed(a[1..])) + Printed(b);
    } else {
      assert a + b == b;
    }
  }

  function ColorPieces(prefix: string, code: Option<nat>): seq<Piece> {
    match code
    case None => []
    case Some(n) => [ColorCode(prefix, n)]
  }

  /** The tokens of `Painted`. */
  function PaintedPieces(s: Segment, transition: seq<Piece>): seq<Piece> {
    ColorPieces("38", s.fg) + ColorPieces("48", s.bg) + [Literal(s.text)] + transition
    + ColorPieces("38", s.separatorFg) + [Literal(s.separator)]
  }

  /** The tokens of segment `idx`: the transition is the next segment's background when
      there is a next segment, a reset otherwise (prompt.py:68-78). */
  function SegmentPieces(segs: seq<Segment>, idx: nat): seq<Piece>
    requires idx < |segs|
  {
    PaintedPieces(segs[idx], if idx < |segs| - 1 then ColorPieces("48", segs[idx + 1].bg) else [ResetCode])
  }

  /** `draw_segment(idx)` (prompt.py:68-78). */
  function DrawSegmentOf(shell: Shell, segs: seq<Segment>, idx: nat): string
    requires idx < |segs|
  {
    Flatten(shell, SegmentPieces(segs, idx))
  }

  lemma ColorPiecesFlatten(shell: Shell, prefix: string, code: Option<nat>)
    ensures Flatten(shell, ColorPieces(prefix, code)) == ColorEscape(shell, prefix, code)
  {
    if code.Some? {
      assert ColorPieces(prefix, code)[1..] == [];
    }
  }

  lemma ColorPiecesPrinted(prefix: string, code: Option<nat>)
    ensures Printed(ColorPieces(prefix, code)) == ""
  {
    if code.Some? {
      assert ColorPieces(prefix, code)[1..] == [];
    }
  }

  lemma {:induction false} Flatten6(shell: Shell, p1: seq<Piece>, p2: seq<Piece>, p3: seq<Piece>, p4: seq<Piece>, p5: seq<Piece>, p6: seq<Piece>)
    ensures Flatten(shell, p1 + p2 + p3 + p4 + p5 + p6)
            == Flatten(shell, p1) + Flatten(shell, p2) + Flatten(shell, p3) + Flatten(shell, p4) + Flatten(shell, p5) + Flatten(shell, p6)
  {
    FlattenConcat(shell, p1 + p2 + p3 + p4 + p5, p6);
    FlattenConcat(shell, p1 + p2 + p3 + p4, p5);
    FlattenConcat(shell, p1 + p2 + p3, p4);
    FlattenConcat(shell, p1 + p2, p3);
    FlattenConcat(shell, p1, p2);
  }

  lemma {:induction false} Printed6(p1: seq<Piece>, p2: seq<Piece>, p3: seq<Piece>, p4: seq<Piece>, p5: seq<Piece>, p6: seq<Piece>)
    ensures Printed(p1 + p2 + p3 + p4 + p5 + p6)
            == Printed(p1) + Printed(p2) + Printed(p3) + Printed(p4) + Printed(p5) + Printed(p6)
  {
    PrintedConcat(p1 + p2 + p3 + p4 + p5, p6);
    PrintedConcat(p1 + p2 + p3 + p4, p5);
    PrintedConcat(p1 + p2 + p3, p4);
    PrintedConcat(p1 + p2, p3);
    PrintedConcat(p1, p2);
  }

  lemma LiteralFlatten(shell: Shell, t: string)
    ensures Flatten(shell, [Literal(t)]) == t
  {
    assert [Literal(t)][1..] == [];
  }

  lemma LiteralPrinted(t: string)
    ensures Printed([Literal(t)]) == t
  {
    assert [Literal(t)][1..] == [];
  }

  lemma {:induction false} PaintedPiecesFlatten(shell: Shell, s: Segment, transition: seq<Piece>)
    ensures Flatten(shell, PaintedPieces(s, transition)) == Painted(shell, s, Flatten(shell, transition))
  {
    var p1, p2, p3 := ColorPieces("38", s.fg), ColorPieces("48", s.bg), [Literal(s.text)];
    var p5, p6 := ColorPieces("38", s.separatorFg), [Literal(s.separator)];
    assert PaintedPieces(s, transition) == p1 + p2 + p3 + transition + p5 + p6;
    Flatten6(shell, p1, p2, p3, transition, p5, p6);
    ColorPiecesFlatten(shell, "38", s.fg);
    ColorPiecesFlatten(shell, "48", s.bg);
    ColorPiecesFlatten(shell, "38", s.separatorFg);
    LiteralFlatten(shell, s.text);
    LiteralFlatten(shell, s.separator);
  }

  /** Escapes print nothing: only the third and sixth token groups reach the screen. */
  lemma {:induction false} PrintedBetweenEscapes(p1: seq<Piece>, p2: seq<Piece>, p3: seq<Piece>, p4: seq<Piece>, p5: seq<Piece>, p6: seq<Piece>)
    requires Printed(p1) == Printed(p2) == Printed(p4) == Printed(p5) == ""
    ensures Printed(p1 + p2 + p3 + p4 + p5 + p6) == Printed(p3) + Printed(p6)
  {
    Printed6(p1, p2, p3, p4, p5, p6);
    var e: string := "";
    assert e + e == e;
    assert e + e + Printed(p3) == Printed(p3);
    assert Printed(p3) + e + e == Printed(p3);
  }

  lemma {:induction false} PaintedPiecesPrinted(s: Segment, transition: seq<Piece>)
    requires Printed(transition) == ""
    ensures Printed(PaintedPieces(s, transition)) == s.text + s.separator
  {
    var p1, p2, p3 := ColorPieces("38", s.fg), ColorPieces("48", s.bg), [Literal(s.text)];
    var p5, p6 := ColorPieces("38", s.separatorFg), [Literal(s.separator)];
    assert PaintedPieces(s, transition) == p1 + p2 + p3 + transition + p5 + p6;
    ColorPiecesPrinted("38", s.fg);
    ColorPiecesPrinted("48", s.bg);
    ColorPiecesPrinted("38", s.separatorFg);
    PrintedBetweenEscapes(p1, p2, p3, transition, p5, p6);
    LiteralPrinted(s.text);
    LiteralPrinted(s.separator);
  }

  /** `draw_segment(idx)` spelled out for a segment with a successor: foreground,
      background, text, the next segment's background, then the separator in the
      separator colour. */
  lemma DrawSegmentBeforeNext(shell: Shell, segs: seq<Segment>, idx: nat)
    requires idx + 1 < |segs|
    ensures DrawSegmentOf(shell, segs, idx) == Painted(shell, segs[idx], BgColor(shell, segs[idx + 1].bg))
  {
    ColorPiecesFlatten(shell, "48", segs[idx + 1].bg);
    PaintedPiecesFlatten(shell, segs[idx], ColorPieces("48", segs[idx + 1].bg));
  }

  /** `draw_segment(idx)` spelled out for the last segment: a reset takes the place of the
      next background. */
  lemma DrawSegmentLast(shell: Shell, segs: seq<Segment>)
    requires segs != []
    ensures DrawSegmentOf(shell, segs, |segs| - 1) == Painted(shell, segs[|segs| - 1], Reset(shell))
  {
    assert [ResetCode][1..] == [];
    PaintedPiecesFlatten(shell, segs[|segs| - 1], [ResetCode]);
  }

  /** Only the text and the separator of a segment reach the screen. */
  lemma SegmentPiecesPrinted(segs: seq<Segment>, idx: nat)
    requires idx < |segs|
    ensures Printed(SegmentPieces(segs, idx)) == segs[idx].text + segs[idx].separator
  {
    if idx < |segs| - 1 {
      ColorPiecesPrinted("48", segs[idx + 1].bg);
      PaintedPiecesPrinted(segs[idx], ColorPieces("48", segs[idx + 1].bg));
    } else {
      assert [ResetCode][1..] == [];
      PaintedPiecesPrinted(segs[idx], [ResetCode]);
    }
  }

  /** `''.join(parts)` */
  function Concat(parts: seq<string>): string {
    if parts == [] then "" else Concat(parts[..|parts| - 1]) + parts[|parts| - 1]
  }

  lemma {:induction false} ConcatSplit(parts: seq<string>, k: nat)
    requires k <= |parts|
    ensures Concat(parts) == Concat(parts[..k]) + Concat(parts[k..])
    decreases |parts|
  {
    var n := |parts|;
    if k < n {
      ConcatSplit(parts[..n - 1], k);
      assert parts[..n - 1][..k] == parts[..k];
      assert parts[..n - 1][k..] == parts[k..][..n - 1 - k];
      assert parts[k..][n - 1 - k] == parts[n - 1];
    } else {
      assert parts[..k] == parts && parts[k..] == [];
    }
  }

  /** One part and what surrounds it. */
  lemma ConcatAround(parts: seq<string>, i: nat)
    requires i < |parts|
    ensures Concat(parts) == Concat(parts[..i]) + parts[i] + Concat(parts[i + 1..])
  {
    ConcatSplit(parts, i + 1);
    assert parts[..i + 1][..i] == parts[..i];
  }

  /** `draw_segment(i)` for every segment, in order. */
  function DrawnSegments(shell: Shell, segs: seq<Segment>): (r: seq<string>)
    ensures |r| == |segs|
    ensures forall i :: 0 <= i < |segs| ==> r[i] == DrawSegmentOf(shell, segs, i)
  {
    seq(|segs|, i requires 0 <= i < |segs| => DrawSegmentOf(shell, segs, i))
  }

  /** `draw()` (prompt.py:60-62): the drawn segments joined, then a reset and one space. */
  function DrawOf(shell: Shell, segs: seq<Segment>): string {
    Concat(DrawnSegments(shell, segs)) + Reset(shell) + " "
  }

  /** Every drawing ends with a reset and one space, whatever the segments. */
  lemma DrawClosesWithReset(shell: Shell, segs: seq<Segment>)
    ensures var r := DrawOf(shell, segs);
            |r| > |Reset(shell)| && r[|r| - |Reset(shell)| - 1..] == Reset(shell) + " "
  {
    var r := DrawOf(shell, segs);
    assert r == Concat(DrawnSegments(shell, segs)) + (Reset(shell) + " ");
  }

  /** The drawn prompt around segment `i`: what comes before it, its own drawing, what
      comes after it, then the closing reset and space. */
  lemma DrawSplitsAt(shell: Shell, segs: seq<Segment>, i: nat)
    requires i < |segs|
    ensures var d := DrawnSegments(shell, segs);
            DrawOf(shell, segs) == Concat(d[..i]) + d[i] + Concat(d[i + 1..]) + Reset(shell) + " "
  {
    ConcatAround(DrawnSegments(shell, segs), i);
  }

  /** The last segment has its separator drawn after a reset, and the prompt ends with a
      second reset and one space. */
  lemma LastSeparatorAfterReset(shell: Shell, segs: seq<Segment>)
    requires segs != []
    ensures var d := DrawnSegments(shell, segs);
            DrawOf(shell, segs) == Concat(d[..|segs| - 1]) + d[|segs| - 1] + Reset(shell) + " "
            && d[|segs| - 1] == Painted(shell, segs[|segs| - 1], Reset(shell))
  {
    DrawSegmentLast(shell, segs);
  }

  /** Appending a segment leaves the drawing of every earlier segment but the previous
      last one unchanged. */
  lemma AppendKeepsEarlierDrawing(shell: Shell, segs: seq<Segment>, s: Segment)
    requires segs != []
    ensures var n, d, e := |segs|, DrawnSegments(shell, segs + [s]), DrawnSegments(shell, segs);
            d[..n - 1] == e[..n - 1]
            && DrawOf(shell, segs + [s]) == Concat(e[..n - 1]) + d[n - 1] + d[n] + Reset(shell) + " "
  {
    var n := |segs|;
    var t := segs + [s];
    var d, e := DrawnSegments(shell, t), DrawnSegments(shell, segs);
    forall j | 0 <= j < n - 1
      ensures d[j] == e[j]
    {
      assert t[j] == segs[j] && t[j + 1] == segs[j + 1];
      assert SegmentPieces(t, j) == SegmentPieces(segs, j);
    }
    assert d[..n][..n - 1] == d[..n - 1] == e[..n - 1];
    assert d[..n + 1 - 1] == d[..n];
    assert Concat(d[..n]) == Concat(d[..n - 1]) + d[n - 1];
  }

  /** After an append, the previous last segment's separator sits on the new segment's
      background instead of after a reset, and the new segment is drawn as the last one. */
  lemma AppendRepaintsLast(shell: Shell, segs: seq<Segment>, s: Segment)
    requires segs != []
    ensures var n, d := |segs|, DrawnSegments(shell, segs + [s]);
            d[n - 1] == Painted(shell, segs[n - 1], BgColor(shell, s.bg))
            && d[n] == Painted(shell, s, Reset(shell))
  {
    var t := segs + [s];
    assert t[|segs| - 1] == segs[|segs| - 1] && t[|segs|] == s;
    DrawSegmentBeforeNext(shell, t, |segs| - 1);
    DrawSegmentLast(shell, t);
  }

  /** The concatenation of a sequence of token sequences. */
  function JoinPieces(pss: seq<seq<Piece>>): seq<Piece> {
    if pss == [] then [] else JoinPieces(pss[..|pss| - 1]) + pss[|pss| - 1]
  }

  function AllSegmentPieces(segs: seq<Segment>): (r: seq<seq<Piece>>)
    ensures |r| == |segs|
    ensures forall i :: 0 <= i < |segs| ==> r[i] == SegmentPieces(segs, i)
  {
    seq(|segs|, i requires 0 <= i < |segs| => SegmentPieces(segs, i))
  }

  /** What each segment shows on screen: its text followed by its separator. */
  function VisibleParts(segs: seq<Segment>): (r: seq<string>)
    ensures |r| == |segs|
    ensures forall i :: 0 <= i < |segs| ==> r[i] == segs[i].text + segs[i].separator
  {
    seq(|segs|, i requires 0 <= i < |segs| => segs[i].text + segs[i].separator)
  }

  lemma {:induction false} JoinPiecesFlatten(shell: Shell, pss: seq<seq<Piece>>, parts: seq<string>)
    requires |pss| == |parts|
    requires forall i :: 0 <= i < |pss| ==> Flatten(shell, pss[i]) == parts[i]
    ensures Flatten(shell, JoinPieces(pss)) == Concat(parts)
  {
    if pss != [] {
      var n := |pss|;
      JoinPiecesFlatten(shell, pss[..n - 1], parts[..n - 1]);
      FlattenConcat(shell, JoinPieces(pss[..n - 1]), pss[n - 1]);
    }
  }

  lemma {:induction false} JoinPiecesPrinted(pss: seq<seq<Piece>>, parts: seq<string>)
    requires |pss| == |parts|
    requires forall i :: 0 <= i < |pss| ==> Printed(pss[i]) == parts[i]
    ensures Printed(JoinPieces(pss)) == Concat(parts)
  {
    if pss != [] {
      var n := |pss|;
      JoinPiecesPrinted(pss[..n - 1], parts[..n - 1]);
      PrintedConcat(JoinPieces(pss[..n - 1]), pss[n - 1]);
    }
  }

  lemma FlattenClosing(shell: Shell, ps: seq<Piece>)
    ensures Flatten(shell, ps + [ResetCode, Literal(" ")]) == Flatten(shell, ps) + Reset(shell) + " "
  {
    var tail := [ResetCode, Literal(" ")];
    assert tail[1..] == [Literal(" ")] && tail[1..][1..] == [];
    FlattenConcat(shell, ps, tail);
  }

  /** The tokens of the whole prompt: every segment's, then a reset and one space. */
  function PromptPieces(segs: seq<Segment>): seq<Piece> {
    JoinPieces(AllSegmentPieces(segs)) + [ResetCode, Literal(" ")]
  }

  /** The drawn prompt is a sequence of whole tokens: escapes never split or merge. */
  lemma DrawIsTokens(shell: Shell, segs: seq<Segment>)
    ensures DrawOf(shell, segs) == Flatten(shell, PromptPieces(segs))
  {
    JoinPiecesFlatten(shell, AllSegmentPieces(segs), DrawnSegments(shell, segs));
    FlattenClosing(shell, JoinPieces(AllSegmentPieces(segs)));
  }

  /** The characters printed on screen are the segment texts and separators, in order,
      then one space. */
  lemma DrawPrintsTextsAndSeparators(segs: seq<Segment>)
    ensures Printed(PromptPieces(segs)) == Concat(VisibleParts(segs)) + " "
  {
    var pss := AllSegmentPieces(segs);
    forall i | 0 <= i < |segs|
      ensures Printed(pss[i]) == VisibleParts(segs)[i]
    {
      SegmentPiecesPrinted(segs, i);
    }
    JoinPiecesPrinted(pss, VisibleParts(segs));
    var tail := [ResetCode, Literal(" ")];
    assert tail[1..] == [Literal(" ")] && tail[1..][1..] == [];
    PrintedConcat(JoinPieces(pss), tail);
  }

  /** The prompt object: the configuration fixed by `Powerline.__init__` (prompt.py:28-41),
      the previous command's exit status from the command line, and the growing list of
      segments. */
  class Powerline {
    const prevError: int
    const shell: Shell
    const cwdMaxDirSize: int
    const cwdMaxDepth: int
    const cwdMode: CwdMode
    const separator: string
    const separatorThin: string
    const lock: string
    const network: string
    var segments: seq<Segment>

    /** `__init__`: the shell is always bash; the other templates are never selected. */
    constructor (prevError: int)
      ensures this.prevError == prevError && shell == Bash && segments == []
      ensures cwdMaxDirSize == 12 && cwdMaxDepth == 3 && cwdMode == Fancy
      ensures separator == DefaultSeparator && separatorThin == ThinSeparator
      ensures lock == "RO" && network == "SSH"
    {
      this.prevError := prevError;
      shell := Bash;
      cwdMaxDirSize := 12;
      cwdMaxDepth := 3;
      cwdMode := Fancy;
      separator := DefaultSeparator;
      separatorThin := ThinSeparator;
      lock := "RO";
      network := "SSH";
      segments := [];
    }

    /** `append` (prompt.py:55-58): exactly one segment more, at the end; earlier ones untouched. */
    method Append(text: string, fg: Option<nat>, bg: Option<nat>, sep: Option<string>, sepFg: Option<nat>)
      modifies this
      ensures segments == old(segments) + Resolve([Request(text, fg, bg, sep, sepFg)], separator)
    {
      segments := segments + [Segment(text, fg, bg, sep.GetOr(separator), Some(sepFg.GetOr(Colors.SeparatorFg)))];
    }

    function DrawSegment(idx: nat): string
      reads this
      requires idx < |segments|
    {
      DrawSegmentOf(shell, segments, idx)
    }

    /** `draw`: a function of the segments, so two draws without an append in between agree. */
    function Draw(): (r: string)
      reads this
      ensures |r| >= |Reset(shell)| + 1 && r[|r| - |Reset(shell)| - 1..] == Reset(shell) + " "
    {
      DrawOf(shell, segments)
    }
  }
}
