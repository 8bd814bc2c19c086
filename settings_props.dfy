/** What `parse_config` does to the settings over a whole file: the order of
    lines, skipped lines, the keys whose actions append or replace, and two
    places where the code does not do what it evidently means to. */
module SettingsProps {
  import opened Common
  import opened TextUtils
  import RgbaColor
  import opened Settings
  import JsColor

  // ---------------------------------------------------------------------
  // Reading the first token of a line

  lemma {:induction false} SkipSpaceAt(s: string, i: nat, j: nat)
    requires i <= j <= |s|
    requires forall m | i <= m < j :: IsSpace(s[m])
    requires j == |s| || !IsSpace(s[j])
    ensures SkipSpace(s, i) == j
    decreases j - i
  {
    if i < j {
      SkipSpaceAt(s, i + 1, j);
    }
  }

  lemma {:induction false} TokenEndAt(s: string, i: nat, j: nat)
    requires i <= j <= |s|
    requires forall m | i <= m < j :: !IsSpace(s[m])
    requires j == |s| || IsSpace(s[j])
    ensures TokenEnd(s, i) == j
    decreases j - i
  {
    if i < j {
      TokenEndAt(s, i + 1, j);
    }
  }

  lemma {:induction false} LineEndAt(s: string, i: nat, j: nat, delim: char)
    requires i <= j <= |s|
    requires forall m | i <= m < j :: s[m] != delim
    requires j == |s| || s[j] == delim
    ensures LineEnd(s, i, delim) == j
    decreases j - i
  {
    if i < j {
      LineEndAt(s, i + 1, j, delim);
    }
  }

  /** The next token of a stream at position i, when it runs from p to e. */
  lemma TokenAt(st: IStream, p: nat, e: nat)
    requires st.Valid() && st.Good() && st.pos <= p < e <= |st.buf|
    requires forall m | st.pos <= m < p :: IsSpace(st.buf[m])
    requires forall m | p <= m < e :: !IsSpace(st.buf[m])
    requires e == |st.buf| || IsSpace(st.buf[e])
    ensures Extract(st) == Read(IStream(st.buf, e, e == |st.buf|, false), Some(st.buf[p..e]))
  {
    SkipSpaceAt(st.buf, st.pos, p);
    TokenEndAt(st.buf, p, e);
  }

  /** A line that begins and ends with a character other than ' ' and '\t' is its own trim. */
  lemma TrimKeeps(s: string)
    requires |s| > 0 && !IsBlank(s[0]) && !IsBlank(s[|s| - 1])
    ensures Trim(s) == s
  {
    assert FirstNotBlank(s, 0) == Some(0);
    assert LastNotBlank(s, |s|) == Some(|s| - 1);
    assert s[0..|s|] == s;
  }

  /** A line beginning with '/' has a first token beginning with '/'. */
  lemma SlashToken(l: string)
    ensures |l| > 0 && l[0] == '/' ==> Extract(Open(l)).value.Some? && Extract(Open(l)).value.value[0] == '/'
  {
    if |l| > 0 && l[0] == '/' {
      SkipSpaceAt(l, 0, 0);
    }
  }

  /** The tokens of the table, and the action each selects. */
  lemma NoSlashKeys()
    ensures forall k | k in ACTIONS :: |k| > 0 && k[0] != '/'
  {
  }

  lemma Lookup()
    ensures "window_title" in ACTIONS && ACTIONS["window_title"] == WindowTitle
    ensures "seed" in ACTIONS && ACTIONS["seed"] == Seed
    ensures "polygonColors" in ACTIONS && ACTIONS["polygonColors"] == PolygonColors
    ensures "vertices" in ACTIONS && ACTIONS["vertices"] == Vertices
    ensures "tick_updates" in ACTIONS && ACTIONS["tick_updates"] == TickUpdates
  {
  }

  /** A line whose first token names an action is neither empty nor a comment. */
  lemma ActionLineNotSkipped(l: string)
    requires Extract(Open(l)).value.Some? && Extract(Open(l)).value.value in ACTIONS
    ensures l != [] && !IsComment(l)
  {
    SlashToken(l);
    NoSlashKeys();
  }

  /** A line whose first token names an action runs exactly that action on the rest of the line. */
  lemma ActionLine(cfg: Config, token: string, line: string, cmap: map<string, Color>, rd: Readers, fix: bool)
    requires Extract(Open(Trim(line))).value.Some? && Extract(Open(Trim(line))).value.value in ACTIONS
    ensures var t := Extract(Open(Trim(line)));
      var a := Act(ACTIONS[t.value.value], t.st, cfg, cmap, rd);
      LineStep(cfg, token, line, cmap, rd, fix) == Parse(a.cfg, t.value.value, a.threw)
  {
    ActionLineNotSkipped(Trim(line));
  }

  // ---------------------------------------------------------------------
  // The order of lines

  /** The loop picks up after the first part of a file where it left off, unless that part threw. */
  function Continue(p: Parse, b: seq<string>, cmap: map<string, Color>, rd: Readers, fix: bool): Parse
  {
    if p.threw then p else ParseLines(p.cfg, p.token, b, cmap, rd, fix)
  }

  /** Reading a + b is reading a, then b from the settings and token that a left. */
  lemma {:induction false} ParseLinesAppend(cfg: Config, token: string, a: seq<string>, b: seq<string>,
                                           cmap: map<string, Color>, rd: Readers, fix: bool)
    ensures ParseLines(cfg, token, a + b, cmap, rd, fix) == Continue(ParseLines(cfg, token, a, cmap, rd, fix), b, cmap, rd, fix)
    decreases |b|
  {
    if b == [] {
      assert a + b == a;
    } else {
      var b' := b[..|b| - 1];
      assert (a + b)[..|a + b| - 1] == a + b';
      assert (a + b)[|a + b| - 1] == b[|b| - 1];
      ParseLinesAppend(cfg, token, a, b', cmap, rd, fix);
    }
  }

  /** A file that did not throw before its last line ends with that line's step. */
  lemma LastLine(cfg: Config, token: string, a: seq<string>, l: string, cmap: map<string, Color>, rd: Readers, fix: bool)
    requires !ParseLines(cfg, token, a, cmap, rd, fix).threw
    ensures var p := ParseLines(cfg, token, a, cmap, rd, fix);
      ParseLines(cfg, token, a + [l], cmap, rd, fix) == LineStep(p.cfg, p.token, l, cmap, rd, fix)
  {
    assert (a + [l])[..|a + [l]| - 1] == a;
  }

  /** Empty lines (after trimming) and "//" lines can be removed from a file without effect. */
  lemma SkippedLine(cfg: Config, token: string, a: seq<string>, l: string, b: seq<string>,
                    cmap: map<string, Color>, rd: Readers, fix: bool)
    requires Trim(l) == [] || IsComment(Trim(l))
    ensures ParseLines(cfg, token, a + [l] + b, cmap, rd, fix) == ParseLines(cfg, token, a + b, cmap, rd, fix)
  {
    ParseLinesAppend(cfg, token, a + [l], b, cmap, rd, fix);
    ParseLinesAppend(cfg, token, a, b, cmap, rd, fix);
    assert (a + [l])[..|a + [l]| - 1] == a;
  }

  /** A line that is not a comment and whose token is not in the table
      changes no setting; it only becomes the current token. */
  lemma UnknownToken(cfg: Config, token: string, line: string, cmap: map<string, Color>, rd: Readers, fix: bool)
    requires !IsComment(Trim(line))
    requires Extract(Open(Trim(line))).value.Some? && Extract(Open(Trim(line))).value.value !in ACTIONS
    ensures LineStep(cfg, token, line, cmap, rd, fix) == Parse(cfg, Extract(Open(Trim(line))).value.value, false)
  {
  }

  /** Over any file, `aspect_ratio` and `tick` keep their values (no action
      writes them, and `aspect_ratio` is not recomputed when `winres`
      changes), and the colour list keeps the colours it had as a prefix. */
  lemma {:induction false} ParseKeepsFixed(cfg: Config, token: string, lines: seq<string>,
                                          cmap: map<string, Color>, rd: Readers, fix: bool)
    ensures ParseLines(cfg, token, lines, cmap, rd, fix).cfg.aspectRatio == cfg.aspectRatio
    ensures ParseLines(cfg, token, lines, cmap, rd, fix).cfg.tick == cfg.tick
    ensures cfg.polygonColors <= ParseLines(cfg, token, lines, cmap, rd, fix).cfg.polygonColors
    decreases |lines|
  {
    if lines != [] {
      var p := ParseLines(cfg, token, lines[..|lines| - 1], cmap, rd, fix);
      ParseKeepsFixed(cfg, token, lines[..|lines| - 1], cmap, rd, fix);
      if !p.threw {
        LineStepKeepsFixed(p.cfg, p.token, lines[|lines| - 1], cmap, rd, fix);
      }
    }
  }

  lemma LineStepKeepsFixed(cfg: Config, token: string, line: string, cmap: map<string, Color>, rd: Readers, fix: bool)
    ensures LineStep(cfg, token, line, cmap, rd, fix).cfg.aspectRatio == cfg.aspectRatio
    ensures LineStep(cfg, token, line, cmap, rd, fix).cfg.tick == cfg.tick
    ensures cfg.polygonColors <= LineStep(cfg, token, line, cmap, rd, fix).cfg.polygonColors
  {
    var l := Trim(line);
    if l != [] && !IsComment(l) {
      var t := Extract(Open(l));
      var tok := OrElse(t.value, token);
      if tok in ACTIONS && !(fix && t.value.None?) {
        var a := Act(ACTIONS[tok], t.st, cfg, cmap, rd);
        ActWritesItsSetting(ACTIONS[tok], t.st, cfg, cmap, rd);
        PutKeepsFixed(ACTIONS[tok], cfg, a.cfg);
      }
    }
  }

  /** Each action writes its own setting and no other. */
  lemma ActWritesItsSetting(key: Key, st: IStream, cfg: Config, cmap: map<string, Color>, rd: Readers)
    requires st.Valid() && st.FailAtEnd()
    ensures Act(key, st, cfg, cmap, rd).cfg == Put(key, cfg, Act(key, st, cfg, cmap, rd).cfg)
  {
  }

  lemma PutKeepsFixed(key: Key, target: Config, source: Config)
    ensures Put(key, target, source).aspectRatio == target.aspectRatio
    ensures Put(key, target, source).tick == target.tick
  {
  }

  /** After the defaults, the four default polygon colours stay at the head of the list whatever the file says. */
  lemma DefaultPaletteKept(lines: seq<string>, cmap: map<string, Color>, rd: Readers)
    ensures DEFAULTS.polygonColors <= ParseLines(DEFAULTS, "", lines, cmap, rd, false).cfg.polygonColors
  {
    ParseKeepsFixed(DEFAULTS, "", lines, cmap, rd, false);
  }

  // ---------------------------------------------------------------------
  // Appending, replacing, overriding

  /** A `polygonColors` line appends the colours of its tokens to the current list. */
  lemma PolygonColorsAppend(cfg: Config, token: string, a: seq<string>, l: string,
                            cmap: map<string, Color>, rd: Readers, fix: bool)
    requires !ParseLines(cfg, token, a, cmap, rd, fix).threw
    requires Extract(Open(Trim(l))).value == Some("polygonColors")
    ensures var before := ParseLines(cfg, token, a, cmap, rd, fix).cfg;
      ParseLines(cfg, token, a + [l], cmap, rd, fix).cfg.polygonColors
      == PushColors(Extract(Open(Trim(l))).st, before.polygonColors, cmap, rd).items
  {
    var p := ParseLines(cfg, token, a, cmap, rd, fix);
    LastLine(cfg, token, a, l, cmap, rd, fix);
    PolygonColorsLineStep(p.cfg, p.token, l, cmap, rd, fix);
  }

  /** A line whose token is `polygonColors` runs the colour loop on the rest of the line, onto the current list. */
  lemma PolygonColorsLineStep(cfg: Config, token: string, l: string, cmap: map<string, Color>, rd: Readers, fix: bool)
    requires Extract(Open(Trim(l))).value == Some("polygonColors")
    ensures LineStep(cfg, token, l, cmap, rd, fix).cfg.polygonColors
      == PushColors(Extract(Open(Trim(l))).st, cfg.polygonColors, cmap, rd).items
  {
    var st := Extract(Open(Trim(l))).st;
    ActionLine(cfg, token, l, cmap, rd, fix);
    Lookup();
    ActPolygonColors(st, cfg, cmap, rd);
  }

  lemma ActPolygonColors(st: IStream, cfg: Config, cmap: map<string, Color>, rd: Readers)
    requires st.Valid() && st.FailAtEnd()
    ensures Act(PolygonColors, st, cfg, cmap, rd).cfg.polygonColors == PushColors(st, cfg.polygonColors, cmap, rd).items
  {
  }

  /** A `vertices` line replaces the list by the vectors it reads, whatever the list held before. */
  lemma VerticesReplace(cfg: Config, token: string, a: seq<string>, l: string,
                        cmap: map<string, Color>, rd: Readers, fix: bool)
    requires !ParseLines(cfg, token, a, cmap, rd, fix).threw
    requires Extract(Open(Trim(l))).value == Some("vertices")
    ensures ParseLines(cfg, token, a + [l], cmap, rd, fix).cfg.vertices
      == ReadVertices(Extract(Open(Trim(l))).st, [], rd).items
  {
    var p := ParseLines(cfg, token, a, cmap, rd, fix);
    LastLine(cfg, token, a, l, cmap, rd, fix);
    VerticesLineStep(p.cfg, p.token, l, cmap, rd, fix);
  }

  /** A `seed` line sets the seed to the value read, whatever earlier lines set it to. */
  lemma LaterSeedWins(cfg: Config, token: string, a: seq<string>, l: string, v: int,
                      cmap: map<string, Color>, rd: Readers, fix: bool)
    requires !ParseLines(cfg, token, a, cmap, rd, fix).threw
    requires Extract(Open(Trim(l))).value == Some("seed")
    requires rd.readInt(Extract(Open(Trim(l))).st).value == Some(v)
    ensures ParseLines(cfg, token, a + [l], cmap, rd, fix).cfg.seed == v
    ensures !ParseLines(cfg, token, a + [l], cmap, rd, fix).threw
  {
    var p := ParseLines(cfg, token, a, cmap, rd, fix);
    var st := Extract(Open(Trim(l))).st;
    LastLine(cfg, token, a, l, cmap, rd, fix);
    ActionLine(p.cfg, p.token, l, cmap, rd, fix);
    Lookup();
    ActSeed(st, p.cfg, cmap, rd);
  }

  lemma ActSeed(st: IStream, cfg: Config, cmap: map<string, Color>, rd: Readers)
    requires st.Valid() && st.FailAtEnd()
    ensures Act(Seed, st, cfg, cmap, rd) == Applied(cfg.(seed := OrElse(rd.readInt(st).value, cfg.seed)), false)
  {
  }

  /** `window_title` takes the rest of the line after the token, the
      separating space included; when nothing follows the token the title is
      left as it was. */
  lemma WindowTitleRest(cfg: Config, token: string, line: string, cmap: map<string, Color>, rd: Readers, fix: bool)
    requires '\n' !in line
    requires Extract(Open(Trim(line))).value == Some("window_title")
    ensures var l := Trim(line);
      var e := Extract(Open(l)).st.pos;
      LineStep(cfg, token, line, cmap, rd, fix).cfg.windowTitle == if e < |l| then l[e..] else cfg.windowTitle
  {
    var l := Trim(line);
    var t := Extract(Open(l));
    ActionLine(cfg, token, line, cmap, rd, fix);
    TrimNoNewline(line);
    if t.st.pos < |l| {
      LineEndNoNewline(l, t.st.pos);
      assert l[t.st.pos..|l|] == l[t.st.pos..];
    }
  }

  lemma TrimNoNewline(line: string)
    requires '\n' !in line
    ensures '\n' !in Trim(line)
  {
    TrimShape(line);
    var i, j :| 0 <= i <= j <= |line| && Trim(line) == line[i..j];
    forall k | 0 <= k < j - i
      ensures line[i..j][k] != '\n'
    {
      assert line[i..j][k] == line[i + k];
      assert line[i + k] in line;
    }
  }

  lemma WindowTitleExample(cfg: Config, token: string, l: string, cmap: map<string, Color>, rd: Readers)
    requires l == "window_title My App"
    ensures LineStep(cfg, token, l, cmap, rd, false).cfg.windowTitle == " My App"
  {
    TrimKeeps(l);
    TokenAt(Open(l), 0, 12);
    assert l[0..12] == "window_title";
    WindowTitleRest(cfg, token, l, cmap, rd, false);
    assert l[12..] == " My App";
  }

  /** The vertex loop on the rest of "vertices 1 2, 3 4": one vector per comma-separated pair. */
  lemma VerticesExampleRead(rd: Readers)
    requires rd.stof("1") == Some(1.0) && rd.stof(" 2") == Some(2.0)
    requires rd.stof("3") == Some(3.0) && rd.stof(" 4") == Some(4.0)
    ensures ReadVertices(IStream("vertices 1 2, 3 4", 8, false, false), [], rd) == Pushed([Vec2(1.0, 2.0), Vec2(3.0, 4.0)], false)
  {
    var l := "vertices 1 2, 3 4";
    var s0 := IStream(l, 8, false, false);
    var s1 := IStream(l, 13, false, false);
    var s2 := IStream(l, 17, true, false);
    var v1, v2 := Vec2(1.0, 2.0), Vec2(3.0, 4.0);
    FirstPair(rd);
    assert ReadVertices(s0, [], rd) == ReadVertices(s1, [] + [v1], rd);
    SecondPair(rd);
    assert ReadVertices(s1, [v1], rd) == ReadVertices(s2, [v1] + [v2], rd);
    assert ReadVertices(s2, [v1, v2], rd) == Pushed([v1, v2], false);
  }

  lemma FirstPair(rd: Readers)
    requires rd.stof("1") == Some(1.0) && rd.stof(" 2") == Some(2.0)
    ensures ReadVec2(IStream("vertices 1 2, 3 4", 8, false, false), rd) == VecRead(IStream("vertices 1 2, 3 4", 13, false, false), Some(Vec2(1.0, 2.0)))
  {
    var l := "vertices 1 2, 3 4";
    TokenAt(IStream(l, 8, false, false), 9, 10);
    assert l[9..10] == "1";
    LineEndAt(l, 10, 12, ',');
    assert l[10..12] == " 2";
  }

  lemma SecondPair(rd: Readers)
    requires rd.stof("3") == Some(3.0) && rd.stof(" 4") == Some(4.0)
    ensures ReadVec2(IStream("vertices 1 2, 3 4", 13, false, false), rd) == VecRead(IStream("vertices 1 2, 3 4", 17, true, false), Some(Vec2(3.0, 4.0)))
  {
    var l := "vertices 1 2, 3 4";
    TokenAt(IStream(l, 13, false, false), 14, 15);
    assert l[14..15] == "3";
    LineEndAt(l, 15, 17, ',');
    assert l[15..17] == " 4";
  }

  /** A `vertices` line of two comma-separated pairs reads both, in order. */
  lemma VerticesExample(cfg: Config, token: string, l: string, cmap: map<string, Color>, rd: Readers, fix: bool)
    requires l == "vertices 1 2, 3 4"
    requires rd.stof("1") == Some(1.0) && rd.stof(" 2") == Some(2.0)
    requires rd.stof("3") == Some(3.0) && rd.stof(" 4") == Some(4.0)
    ensures LineStep(cfg, token, l, cmap, rd, fix) == Parse(cfg.(vertices := [Vec2(1.0, 2.0), Vec2(3.0, 4.0)]), "vertices", false)
  {
    VerticesLine();
    VerticesExampleRead(rd);
    VerticesLineStep(cfg, token, l, cmap, rd, fix);
  }

  /** A line whose token is `vertices` runs the vertex loop on the rest of the line, from an empty list. */
  lemma VerticesLineStep(cfg: Config, token: string, l: string, cmap: map<string, Color>, rd: Readers, fix: bool)
    requires Extract(Open(Trim(l))).value == Some("vertices")
    ensures var p := ReadVertices(Extract(Open(Trim(l))).st, [], rd);
      LineStep(cfg, token, l, cmap, rd, fix) == Parse(cfg.(vertices := p.items), "vertices", p.threw)
  {
    var st := Extract(Open(Trim(l))).st;
    ActionLine(cfg, token, l, cmap, rd, fix);
    Lookup();
    ActVertices(st, cfg, cmap, rd);
  }

  lemma ActVertices(st: IStream, cfg: Config, cmap: map<string, Color>, rd: Readers)
    requires st.Valid() && st.FailAtEnd()
    ensures Act(Vertices, st, cfg, cmap, rd) == Applied(cfg.(vertices := ReadVertices(st, [], rd).items), ReadVertices(st, [], rd).threw)
  {
  }

  lemma VerticesLine()
    ensures Extract(Open(Trim("vertices 1 2, 3 4"))) == Read(IStream("vertices 1 2, 3 4", 8, false, false), Some("vertices"))
  {
    var l := "vertices 1 2, 3 4";
    TrimKeeps(l);
    TokenAt(Open(l), 0, 8);
    assert l[0..8] == "vertices";
  }

  // ---------------------------------------------------------------------
  // Defaults

  /** The default colours are what `Color` makes of the initialiser strings once `#RRGGBB` is read as opaque. */
  lemma DefaultColors(cmap: map<string, Color>, rd: Readers)
    ensures ColorOf(cmap, rd, "#dbdbdb") == Some(DEFAULTS.bgColor)
    ensures ColorOf(cmap, rd, "#484848") == Some(DEFAULTS.outlineColor)
    ensures ColorOf(cmap, rd, "#3ca4cb") == Some(DEFAULTS.polygonColors[0])
    ensures ColorOf(cmap, rd, "#8abc3f") == Some(DEFAULTS.polygonColors[1])
    ensures ColorOf(cmap, rd, "#e03e41") == Some(DEFAULTS.polygonColors[2])
    ensures ColorOf(cmap, rd, "#cc669c") == Some(DEFAULTS.polygonColors[3])
  {
    DefaultWindowColors(cmap, rd);
    DefaultPolygonColorsHead(cmap, rd);
    DefaultPolygonColorsTail(cmap, rd);
  }

  lemma DefaultWindowColors(cmap: map<string, Color>, rd: Readers)
    ensures ColorOf(cmap, rd, "#dbdbdb") == Some(DEFAULTS.bgColor)
    ensures ColorOf(cmap, rd, "#484848") == Some(DEFAULTS.outlineColor)
  {
    assert JsColor.AllHexDigits("dbdbdbFF");
    assert JsColor.AllHexDigits("484848FF");
  }

  lemma DefaultPolygonColorsHead(cmap: map<string, Color>, rd: Readers)
    ensures ColorOf(cmap, rd, "#3ca4cb") == Some(DEFAULTS.polygonColors[0])
    ensures ColorOf(cmap, rd, "#8abc3f") == Some(DEFAULTS.polygonColors[1])
  {
    assert JsColor.AllHexDigits("3ca4cbFF");
    assert JsColor.AllHexDigits("8abc3fFF");
  }

  lemma DefaultPolygonColorsTail(cmap: map<string, Color>, rd: Readers)
    ensures ColorOf(cmap, rd, "#e03e41") == Some(DEFAULTS.polygonColors[2])
    ensures ColorOf(cmap, rd, "#cc669c") == Some(DEFAULTS.polygonColors[3])
  {
    assert JsColor.AllHexDigits("e03e41FF");
    assert JsColor.AllHexDigits("cc669cFF");
  }

  // ---------------------------------------------------------------------
  // tick_updates is read as a character

  /** `iss >> tick_updates` on a `uint8_t` stores the code of the next
      character, so "tick_updates 0" gives 48 rather than 0; read as a number,
      as the other integer settings are, the digit gives its value. */
  lemma TickUpdatesReadsChar(cfg: Config, token: string, d: char, cmap: map<string, Color>, rd: Readers)
    requires '0' <= d <= '9'
    ensures LineStep(cfg, token, "tick_updates " + [d], cmap, rd, false).cfg.tickUpdates == d as int
    ensures d as int >= 48
    ensures TickUpdatesCorrected(Extract(Open(Trim("tick_updates " + [d]))).st, cfg.tickUpdates) == d as int - 48
  {
    var l := "tick_updates " + [d];
    assert l[..12] == "tick_updates" && l[12] == ' ' && l[13] == d;
    TickToken(l);
    TickLine(cfg, token, l, cmap, rd);
    TickLineCorrected(l, cfg.tickUpdates);
  }

  /** As written, a `tick_updates c` line stores the code of c. */
  lemma TickLine(cfg: Config, token: string, l: string, cmap: map<string, Color>, rd: Readers)
    requires |l| == 14 && l[12] == ' ' && !IsSpace(l[13])
    requires Extract(Open(Trim(l))) == Read(IStream(l, 12, false, false), Some("tick_updates"))
    ensures LineStep(cfg, token, l, cmap, rd, false).cfg.tickUpdates == CharByte(l[13])
  {
    var st := IStream(l, 12, false, false);
    SkipSpaceAt(l, 12, 13);
    ActionLine(cfg, token, l, cmap, rd, false);
    Lookup();
    ActTickUpdates(st, cfg, cmap, rd);
    assert ExtractChar(st).value == Some(l[13]);
  }

  lemma ActTickUpdates(st: IStream, cfg: Config, cmap: map<string, Color>, rd: Readers)
    requires st.Valid() && st.FailAtEnd()
    ensures var c := ExtractChar(st);
      Act(TickUpdates, st, cfg, cmap, rd).cfg.tickUpdates == if c.value.Some? then CharByte(c.value.value) else cfg.tickUpdates
  {
  }

  /** Read as a number, a `tick_updates d` line stores the value of the digit d. */
  lemma TickLineCorrected(l: string, old_: Byte)
    requires |l| == 14 && l[12] == ' ' && !IsSpace(l[13])
    ensures TickUpdatesCorrected(IStream(l, 12, false, false), old_)
      == if '0' <= l[13] <= '9' then l[13] as int - '0' as int else old_
  {
    var st := IStream(l, 12, false, false);
    TokenAt(st, 13, 14);
    assert l[13..14] == [l[13]];
    DigitValue(l[13]);
  }

  lemma DigitValue(c: char)
    ensures '0' <= c <= '9' ==> AllDigits([c]) && DecimalValue([c]) == c as int - '0' as int
  {
    assert [c][..0] == [];
  }

  lemma TickToken(l: string)
    requires |l| == 14 && l[..12] == "tick_updates" && l[12] == ' ' && !IsSpace(l[13])
    ensures Extract(Open(Trim(l))) == Read(IStream(l, 12, false, false), Some("tick_updates"))
  {
    assert l[0] == l[..12][0] && l[11] == l[..12][11];
    TrimKeeps(l);
    forall m | 0 <= m < 12 ensures !IsSpace(l[m]) {
      assert l[m] == l[..12][m];
    }
    TokenAt(Open(l), 0, 12);
  }

  predicate AllDigits(s: string)
  {
    forall k | 0 <= k < |s| :: '0' <= s[k] <= '9'
  }

  /** The number a string of decimal digits spells. */
  function DecimalValue(s: string): nat
    requires AllDigits(s)
  {
    if s == [] then 0 else 10 * DecimalValue(s[..|s| - 1]) + (s[|s| - 1] as int - '0' as int)
  }

  /** `tick_updates` read as the number its token spells, then stored into a
      `uint8_t`; a token that is not a number leaves it as it was. */
  function TickUpdatesCorrected(st: IStream, old_: Byte): Byte
    requires st.Valid()
  {
    var t := Extract(st);
    if t.value.Some? && AllDigits(t.value.value) then RgbaColor.ToByte(DecimalValue(t.value.value)) else old_
  }

  // ---------------------------------------------------------------------
  // A line without a token re-runs the previous action

  /** A line that survives trimming but holds no token (it is made of
      space characters other than ' ' and '\t', such as the "\r" of a blank
      line in a CRLF file) makes `iss >> token` fail, so `token` keeps its
      previous value and that token's action runs again, on an exhausted
      stream: after a `vertices` line, the vertex list is cleared and nothing
      is read into it. */
  lemma TokenlessLineClearsVertices(cfg: Config, a: seq<string>, l: string, cmap: map<string, Color>, rd: Readers)
    requires Trim(l) != [] && !IsComment(Trim(l)) && Extract(Open(Trim(l))).value.None?
    requires !ParseLines(cfg, "", a, cmap, rd, false).threw
    requires ParseLines(cfg, "", a, cmap, rd, false).token == "vertices"
    ensures ParseLines(cfg, "", a + [l], cmap, rd, false).cfg.vertices == []
    ensures !ParseLines(cfg, "", a + [l], cmap, rd, false).threw
  {
    var p := ParseLines(cfg, "", a, cmap, rd, false);
    LastLine(cfg, "", a, l, cmap, rd, false);
    TokenlessVerticesStep(p.cfg, l, cmap, rd);
  }

  /** One such line after a `vertices` line. */
  lemma TokenlessVerticesStep(cfg: Config, l: string, cmap: map<string, Color>, rd: Readers)
    requires Trim(l) != [] && !IsComment(Trim(l)) && Extract(Open(Trim(l))).value.None?
    ensures LineStep(cfg, "vertices", l, cmap, rd, false) == Parse(cfg.(vertices := []), "vertices", false)
  {
    var st := Extract(Open(Trim(l))).st;
    Lookup();
    assert st.eof;
    ActVertices(st, cfg, cmap, rd);
    assert ReadVertices(st, [], rd) == Pushed([], false);
  }

  /** With such lines skipped, a line without a token changes nothing. */
  lemma TokenlessLineSkippedCorrected(cfg: Config, token: string, a: seq<string>, l: string, cmap: map<string, Color>, rd: Readers)
    requires Extract(Open(Trim(l))).value.None?
    ensures ParseLines(cfg, token, a + [l], cmap, rd, true) == ParseLines(cfg, token, a, cmap, rd, true)
  {
    assert (a + [l])[..|a + [l]| - 1] == a;
  }

  /** "\r" is such a line. */
  lemma CrLine(l: string)
    requires l == "\r"
    ensures Trim(l) == l && !IsComment(l)
    ensures Extract(Open(l)) == Read(IStream(l, 1, true, true), None)
  {
    TrimKeeps(l);
    SkipSpaceAt(l, 0, 1);
  }

  /** The two readings of a file where a "\r" line follows "vertices 1 2, 3 4": as written the list ends empty. */
  lemma CrLineExample(cmap: map<string, Color>, rd: Readers)
    requires rd.stof("1") == Some(1.0) && rd.stof(" 2") == Some(2.0)
    requires rd.stof("3") == Some(3.0) && rd.stof(" 4") == Some(4.0)
    ensures ParseLines(DEFAULTS, "", ["vertices 1 2, 3 4", "\r"], cmap, rd, false).cfg.vertices == []
    ensures ParseLines(DEFAULTS, "", ["vertices 1 2, 3 4", "\r"], cmap, rd, true).cfg.vertices
      == [Vec2(1.0, 2.0), Vec2(3.0, 4.0)]
  {
    var first := ["vertices 1 2, 3 4"];
    assert first[..0] == [];
    VerticesExample(DEFAULTS, "", first[0], cmap, rd, false);
    VerticesExample(DEFAULTS, "", first[0], cmap, rd, true);
    assert first + ["\r"] == ["vertices 1 2, 3 4", "\r"];
    CrLine("\r");
    TokenlessLineClearsVertices(DEFAULTS, first, "\r", cmap, rd);
    TokenlessLineSkippedCorrected(DEFAULTS, "", first, "\r", cmap, rd);
  }
}
