/** The configuration reader of src/settings.cpp: the `settings` globals
    with their defaults, and `parse_config`, which reads a file line by
    line, trims each line, skips empty and comment lines, and hands the rest
    of the line after its first token to the action the token names. */
module Settings {
  import opened Common
  import opened TextUtils
  import RgbaColor
  import Bits

  type Color = RgbaColor.Color
  type Byte = RgbaColor.Byte

  /** `uint32_t`. */
  type U32 = x: int | 0 <= x < Bits.TWO_32

  /** The values of the `settings` globals. */
  datatype Config = Config(
    winres: Vec2,
    aspectRatio: real,
    windowTitle: string,
    seed: int,
    maxFps: int,
    bgColor: Color,
    outlineColor: Color,
    outlineSize: real,
    transitionSmoothness: real,
    polygonColors: seq<Color>,
    polygonCount: U32,
    minSize: real,
    maxSize: real,
    vertices: seq<Vec2>,
    tick: int,
    printEvery: U32,
    tickUpdates: Byte)

  /** The initialisers of the globals, with the six-digit colour strings read as opaque colours. */
  const DEFAULTS: Config := Config(
    Vec2(1920.0, 1080.0),
    1920.0 / 1080.0,
    "gl_poly_outline",
    0,
    60,
    RgbaColor.Color(0xdb, 0xdb, 0xdb, 0xff),
    RgbaColor.Color(0x48, 0x48, 0x48, 0xff),
    2.5,
    0.5,
    [RgbaColor.Color(0x3c, 0xa4, 0xcb, 0xff), RgbaColor.Color(0x8a, 0xbc, 0x3f, 0xff),
     RgbaColor.Color(0xe0, 0x3e, 0x41, 0xff), RgbaColor.Color(0xcc, 0x66, 0x9c, 0xff)],
    100,
    2.0,
    50.0,
    [Vec2(-1.0, -1.0), Vec2(-1.0, 1.5), Vec2(1.1, 1.0), Vec2(1.5, -1.1), Vec2(3.0, -3.0)],
    0,
    200,
    1)

  /** The keys of `token_actions`. */
  datatype Key =
    | Winres | WindowTitle | Seed | MaxFps | BgColor | OutlineColor | OutlineSize
    | TransitionSmoothness | PolygonColors | PolygonCount | MinSize | MaxSize
    | PrintEvery | Vertices | TickUpdates
  {
    /** The actions that only extract a number. */
    predicate ReadsNumber()
    {
      this in {Winres, Seed, MaxFps, OutlineSize, TransitionSmoothness, PolygonCount, MinSize, MaxSize, PrintEvery}
    }
  }

  /** `token_actions`: the token each action is registered under. */
  const ACTIONS: map<string, Key> := map[
    "winres" := Winres,
    "window_title" := WindowTitle,
    "seed" := Seed,
    "max_fps" := MaxFps,
    "bgColor" := BgColor,
    "outlineColor" := OutlineColor,
    "outlineSize" := OutlineSize,
    "transitionSmoothness" := TransitionSmoothness,
    "polygonColors" := PolygonColors,
    "polygonCount" := PolygonCount,
    "minSize" := MinSize,
    "maxSize" := MaxSize,
    "print_every" := PrintEvery,
    "vertices" := Vertices,
    "tick_updates" := TickUpdates]

  /** `target` with the one setting that `key`'s action writes taken from `source`. */
  function Put(key: Key, target: Config, source: Config): Config
  {
    match key
    case Winres => target.(winres := source.winres)
    case WindowTitle => target.(windowTitle := source.windowTitle)
    case Seed => target.(seed := source.seed)
    case MaxFps => target.(maxFps := source.maxFps)
    case BgColor => target.(bgColor := source.bgColor)
    case OutlineColor => target.(outlineColor := source.outlineColor)
    case OutlineSize => target.(outlineSize := source.outlineSize)
    case TransitionSmoothness => target.(transitionSmoothness := source.transitionSmoothness)
    case PolygonColors => target.(polygonColors := source.polygonColors)
    case PolygonCount => target.(polygonCount := source.polygonCount)
    case MinSize => target.(minSize := source.minSize)
    case MaxSize => target.(maxSize := source.maxSize)
    case PrintEvery => target.(printEvery := source.printEvery)
    case Vertices => target.(vertices := source.vertices)
    case TickUpdates => target.(tickUpdates := source.tickUpdates)
  }

  /** The extractions this model leaves open. `readFloat`, `readInt` and
      `readUint32` are `iss >> x` for a float, an int and a `uint32_t`: the
      stream afterwards and the value written to x (None: x is left as it
      was). `stof` is `std::stof` (None: it throws), `polar` the conversion
      of (radius, degrees) to cartesian coordinates, and `otherColor` the
      branches of the `Color(std::string)` constructor outside this model
      (None: it throws). */
  datatype Readers = Readers(
    readFloat: IStream -> Read<real>,
    readInt: IStream -> Read<int>,
    readUint32: IStream -> Read<U32>,
    stof: string -> Option<real>,
    polar: Vec2 -> Vec2,
    otherColor: string -> Option<Color>)

  /** `Color(color_str)`, with `#RRGGBB` read as opaque `#RRGGBBFF`: the
      colour, or None when the constructor throws. */
  function ColorOf(cmap: map<string, Color>, rd: Readers, s: string): (r: Option<Color>)
    ensures RgbaColor.FirstChar(s) == '#' && |s| != 7 && |s| != 9 ==> r.None?
    ensures RgbaColor.FirstChar(s) != '#' && !('0' <= RgbaColor.FirstChar(s) <= '9') ==> r == Some(RgbaColor.GetColor(cmap, s))
  {
    RgbaColor.FromStringCases(cmap, s);
    match RgbaColor.FromStringCorrected(cmap, s)
    case Built(c) => Some(c)
    case InvalidArgument => None
    case Unmodelled => rd.otherColor(s)
  }

  /** What a loop that pushes onto a setting leaves: the list, and whether it stopped by throwing. */
  datatype Pushed<T> = Pushed(items: seq<T>, threw: bool)

  /** `while (iss >> color_str) polygonColors.push_back(Color(color_str));`
      from stream `st` onto `acc`. */
  function PushColors(st: IStream, acc: seq<Color>, cmap: map<string, Color>, rd: Readers): (r: Pushed<Color>)
    requires st.Valid()
    ensures acc <= r.items
    decreases |st.buf| - st.pos
  {
    var t := Extract(st);
    if t.value.None? then Pushed(acc, false)
    else
      match ColorOf(cmap, rd, t.value.value)
      case None => Pushed(acc, true)
      case Some(c) => PushColors(t.st, acc + [c], cmap, rd)
  }

  /** The stream after `read_vec2` and the vector it reads, None when `std::stof` throws. */
  datatype VecRead = VecRead(st: IStream, v: Option<Vec2>)

  /** `read_vec2(iss, v, false)`: the x text is the next token, the y text
      runs to the next ',' (consumed) or to the end; y converts first, then
      x, where a leading 'p' marks polar coordinates (radius, degrees). */
  function ReadVec2(st: IStream, rd: Readers): (r: VecRead)
    requires st.Valid() && st.FailAtEnd()
    ensures r.st.Valid() && r.st.buf == st.buf && r.st.FailAtEnd() && st.pos <= r.st.pos
    ensures !st.eof ==> r.st.eof || st.pos < r.st.pos
  {
    var x := Extract(st);
    var y := GetLine(x.st, ',');
    var xs := OrElse(x.value, "");
    match rd.stof(OrElse(y.value, ""))
    case None => VecRead(y.st, None)
    case Some(vy) =>
      if RgbaColor.FirstChar(xs) == 'p' then
        match rd.stof(xs[1..])
        case None => VecRead(y.st, None)
        case Some(radius) => VecRead(y.st, Some(rd.polar(Vec2(radius, vy))))
      else
        match rd.stof(xs)
        case None => VecRead(y.st, None)
        case Some(vx) => VecRead(y.st, Some(Vec2(vx, vy)))
  }

  /** `while (!iss.eof()) { read_vec2(iss, v, false); vertices.push_back(v); }` onto `acc`. */
  function ReadVertices(st: IStream, acc: seq<Vec2>, rd: Readers): (r: Pushed<Vec2>)
    requires st.Valid() && st.FailAtEnd()
    ensures acc <= r.items
    decreases |st.buf| - st.pos + (if st.eof then 0 else 1)
  {
    if st.eof then Pushed(acc, false)
    else
      var p := ReadVec2(st, rd);
      if p.v.None? then Pushed(acc, true)
      else ReadVertices(p.st, acc + [p.v.value], rd)
  }

  /** A `char` stored into a `uint8_t`. */
  function CharByte(c: char): Byte
  {
    (c as int) % 256
  }

  /** The outcome of one action: the new settings, and whether it threw. */
  datatype Applied = Applied(cfg: Config, threw: bool)

  /** The action registered under `key`, run on the stream `st` that holds
      the rest of the line. Only the setting the key names can change; the
      colour list only grows; only the colour and vertex actions can throw. */
  function Act(key: Key, st: IStream, cfg: Config, cmap: map<string, Color>, rd: Readers): (r: Applied)
    requires st.Valid() && st.FailAtEnd()
    ensures cfg.polygonColors <= r.cfg.polygonColors
    ensures r.threw ==> key == BgColor || key == OutlineColor || key == PolygonColors || key == Vertices
  {
    match key
    case Winres =>
      var x := rd.readFloat(st);
      var y := rd.readFloat(x.st);
      Applied(cfg.(winres := Vec2(OrElse(x.value, cfg.winres.x), OrElse(y.value, cfg.winres.y))), false)
    case WindowTitle => Applied(cfg.(windowTitle := OrElse(GetLine(st, '\n').value, cfg.windowTitle)), false)
    case Seed => Applied(cfg.(seed := OrElse(rd.readInt(st).value, cfg.seed)), false)
    case MaxFps => Applied(cfg.(maxFps := OrElse(rd.readInt(st).value, cfg.maxFps)), false)
    case BgColor =>
      var c := ColorOf(cmap, rd, OrElse(Extract(st).value, ""));
      if c.None? then Applied(cfg, true) else Applied(cfg.(bgColor := c.value), false)
    case OutlineColor =>
      var c := ColorOf(cmap, rd, OrElse(Extract(st).value, ""));
      if c.None? then Applied(cfg, true) else Applied(cfg.(outlineColor := c.value), false)
    case OutlineSize => Applied(cfg.(outlineSize := OrElse(rd.readFloat(st).value, cfg.outlineSize)), false)
    case TransitionSmoothness =>
      Applied(cfg.(transitionSmoothness := OrElse(rd.readFloat(st).value, cfg.transitionSmoothness)), false)
    case PolygonColors =>
      var p := PushColors(st, cfg.polygonColors, cmap, rd);
      Applied(cfg.(polygonColors := p.items), p.threw)
    case PolygonCount => Applied(cfg.(polygonCount := OrElse(rd.readUint32(st).value, cfg.polygonCount)), false)
    case MinSize => Applied(cfg.(minSize := OrElse(rd.readFloat(st).value, cfg.minSize)), false)
    case MaxSize => Applied(cfg.(maxSize := OrElse(rd.readFloat(st).value, cfg.maxSize)), false)
    case PrintEvery => Applied(cfg.(printEvery := OrElse(rd.readUint32(st).value, cfg.printEvery)), false)
    case Vertices =>
      var p := ReadVertices(st, [], rd);
      Applied(cfg.(vertices := p.items), p.threw)
    case TickUpdates =>
      var c := ExtractChar(st);
      Applied(cfg.(tickUpdates := if c.value.Some? then CharByte(c.value.value) else cfg.tickUpdates), false)
  }

  /** The state the line loop carries: the settings, the last token read
      (`token` lives outside the loop), and whether an action threw. */
  datatype Parse = Parse(cfg: Config, token: string, threw: bool)

  /** One pass of the loop body on `line`. Trimmed, an empty or "//" line is
      skipped; otherwise `iss >> token` runs on it, and when that extraction
      fails `token` keeps its previous value, unless `fixTokens` is set, in
      which case such a line is skipped too. A token outside the table only
      draws an error message. */
  function LineStep(cfg: Config, token: string, line: string, cmap: map<string, Color>, rd: Readers, fixTokens: bool): (r: Parse)
  {
    var l := Trim(line);
    if l == [] || IsComment(l) then Parse(cfg, token, false)
    else
      var t := Extract(Open(l));
      if fixTokens && t.value.None? then Parse(cfg, token, false)
      else
        var tok := OrElse(t.value, token);
        if tok in ACTIONS then
          var a := Act(ACTIONS[tok], t.st, cfg, cmap, rd);
          Parse(a.cfg, tok, a.threw)
        else Parse(cfg, tok, false)
  }

  /** The loop over the lines of the file, in order, ending early when an action throws. */
  function ParseLines(cfg: Config, token: string, lines: seq<string>, cmap: map<string, Color>, rd: Readers, fixTokens: bool): Parse
  {
    if lines == [] then Parse(cfg, token, false)
    else
      var p := ParseLines(cfg, token, lines[..|lines| - 1], cmap, rd, fixTokens);
      if p.threw then p else LineStep(p.cfg, p.token, lines[|lines| - 1], cmap, rd, fixTokens)
  }

  /** How `parse_config` ends: by returning a code, or by an exception. */
  datatype Outcome = Returned(code: int) | Threw

  /** The `settings` namespace: one field per global. */
  class Settings {
    var winres: Vec2
    var aspectRatio: real
    var windowTitle: string
    var seed: int
    var maxFps: int
    var bgColor: Color
    var outlineColor: Color
    var outlineSize: real
    var transitionSmoothness: real
    var polygonColors: seq<Color>
    var polygonCount: U32
    var minSize: real
    var maxSize: real
    var vertices: seq<Vec2>
    var tick: int
    var printEvery: U32
    var tickUpdates: Byte

    function Snapshot(): Config
      reads this
    {
      Config(winres, aspectRatio, windowTitle, seed, maxFps, bgColor, outlineColor, outlineSize,
             transitionSmoothness, polygonColors, polygonCount, minSize, maxSize, vertices, tick,
             printEvery, tickUpdates)
    }

    /** The globals as initialised. */
    constructor ()
      ensures Snapshot() == DEFAULTS
    {
      winres := DEFAULTS.winres;
      aspectRatio := DEFAULTS.aspectRatio;
      windowTitle := DEFAULTS.windowTitle;
      seed := DEFAULTS.seed;
      maxFps := DEFAULTS.maxFps;
      bgColor := DEFAULTS.bgColor;
      outlineColor := DEFAULTS.outlineColor;
      outlineSize := DEFAULTS.outlineSize;
      transitionSmoothness := DEFAULTS.transitionSmoothness;
      polygonColors := DEFAULTS.polygonColors;
      polygonCount := DEFAULTS.polygonCount;
      minSize := DEFAULTS.minSize;
      maxSize := DEFAULTS.maxSize;
      vertices := DEFAULTS.vertices;
      tick := DEFAULTS.tick;
      printEvery := DEFAULTS.printEvery;
      tickUpdates := DEFAULTS.tickUpdates;
    }

    /** `parse_config(filename)` on the file's lines, None when the file
        cannot be opened: then it returns 1 and changes nothing; otherwise
        the lines are applied in order and it returns 0, unless an action
        throws, which leaves the settings as the lines before it made them. */
    method ParseConfig(file: Option<seq<string>>, cmap: map<string, Color>, rd: Readers) returns (outcome: Outcome)
      modifies this
      ensures file.None? ==> outcome == Returned(1) && Snapshot() == old(Snapshot())
      ensures file.Some? ==>
        var p := ParseLines(old(Snapshot()), "", file.value, cmap, rd, false);
        Snapshot() == p.cfg && outcome == (if p.threw then Threw else Returned(0))
    {
      if file.None? {
        return Returned(1);
      }
      var lines := file.value;
      var token := "";
      var i := 0;
      while i < |lines|
        invariant 0 <= i <= |lines|
        invariant ParseLines(old(Snapshot()), "", lines[..i], cmap, rd, false) == Parse(Snapshot(), token, false)
      {
        PrefixStep(old(Snapshot()), lines, i, cmap, rd);
        var threw;
        token, threw := ApplyLine(lines[i], token, cmap, rd);
        if threw {
          assert lines[..i + 1] <= lines;
          ParseLinesStopped(old(Snapshot()), lines[..i + 1], lines, cmap, rd);
          return Threw;
        }
        i := i + 1;
      }
      assert lines[..i] == lines;
      return Returned(0);
    }

    /** One pass of the loop body: trim the line, skip it if empty or a
        comment, else read the token and run its action, if any. */
    method ApplyLine(raw: string, token: string, cmap: map<string, Color>, rd: Readers)
      returns (token': string, threw: bool)
      modifies this
      ensures Parse(Snapshot(), token', threw) == LineStep(old(Snapshot()), token, raw, cmap, rd, false)
    {
      token', threw := token, false;
      var line := Trim(raw);
      if line != [] && !IsComment(line) {
        var iss := Open(line);
        var t := Extract(iss);
        iss := t.st;
        token' := OrElse(t.value, token);
        if token' in ACTIONS {
          threw := ApplyAction(ACTIONS[token'], iss, cmap, rd);
        }
      }
    }

    /** `action->second(iss)`: the action registered under `key`. */
    method ApplyAction(key: Key, iss: IStream, cmap: map<string, Color>, rd: Readers) returns (threw: bool)
      requires iss.Valid() && iss.FailAtEnd()
      modifies this
      ensures Snapshot() == Act(key, iss, old(Snapshot()), cmap, rd).cfg
      ensures threw == Act(key, iss, old(Snapshot()), cmap, rd).threw
    {
      if key.ReadsNumber() {
        ApplyNumberAction(key, iss, rd);
        threw := false;
      } else {
        threw := ApplyTextAction(key, iss, cmap, rd);
      }
    }

    /** The actions that extract a number into their setting. */
    method ApplyNumberAction(key: Key, iss: IStream, rd: Readers)
      requires iss.Valid() && iss.FailAtEnd() && key.ReadsNumber()
      modifies this
      ensures forall cmap :: Snapshot() == Act(key, iss, old(Snapshot()), cmap, rd).cfg
    {
      match key
      case Winres =>
        var x := rd.readFloat(iss);
        winres := winres.(x := OrElse(x.value, winres.x));
        var y := rd.readFloat(x.st);
        winres := winres.(y := OrElse(y.value, winres.y));
      case Seed => seed := OrElse(rd.readInt(iss).value, seed);
      case MaxFps => maxFps := OrElse(rd.readInt(iss).value, maxFps);
      case OutlineSize => outlineSize := OrElse(rd.readFloat(iss).value, outlineSize);
      case TransitionSmoothness => transitionSmoothness := OrElse(rd.readFloat(iss).value, transitionSmoothness);
      case PolygonCount => polygonCount := OrElse(rd.readUint32(iss).value, polygonCount);
      case MinSize => minSize := OrElse(rd.readFloat(iss).value, minSize);
      case MaxSize => maxSize := OrElse(rd.readFloat(iss).value, maxSize);
      case PrintEvery => printEvery := OrElse(rd.readUint32(iss).value, printEvery);
      case WindowTitle => assert false;
      case BgColor => assert false;
      case OutlineColor => assert false;
      case PolygonColors => assert false;
      case Vertices => assert false;
      case TickUpdates => assert false;
    }

    /** The actions that read text: the title, the colours, the vertices and `tick_updates`. */
    method ApplyTextAction(key: Key, iss: IStream, cmap: map<string, Color>, rd: Readers) returns (threw: bool)
      requires iss.Valid() && iss.FailAtEnd() && !key.ReadsNumber()
      modifies this
      ensures Snapshot() == Act(key, iss, old(Snapshot()), cmap, rd).cfg
      ensures threw == Act(key, iss, old(Snapshot()), cmap, rd).threw
    {
      threw := false;
      match key
      case WindowTitle => windowTitle := OrElse(GetLine(iss, '\n').value, windowTitle);
      case BgColor =>
        var c := ColorOf(cmap, rd, OrElse(Extract(iss).value, ""));
        threw := c.None?;
        if c.Some? {
          bgColor := c.value;
        }
      case OutlineColor =>
        var c := ColorOf(cmap, rd, OrElse(Extract(iss).value, ""));
        threw := c.None?;
        if c.Some? {
          outlineColor := c.value;
        }
      case PolygonColors => threw := PushPolygonColors(iss, cmap, rd);
      case Vertices =>
        vertices := [];
        threw := ReadVerticesInto(iss, rd);
      case TickUpdates =>
        var c := ExtractChar(iss);
        if c.value.Some? {
          tickUpdates := CharByte(c.value.value);
        }
      case Winres => assert false;
      case Seed => assert false;
      case MaxFps => assert false;
      case OutlineSize => assert false;
      case TransitionSmoothness => assert false;
      case PolygonCount => assert false;
      case MinSize => assert false;
      case MaxSize => assert false;
      case PrintEvery => assert false;
    }

    /** The `polygonColors` action: push a colour per remaining token. */
    method PushPolygonColors(iss: IStream, cmap: map<string, Color>, rd: Readers) returns (threw: bool)
      requires iss.Valid()
      modifies this
      ensures Snapshot() == old(Snapshot()).(polygonColors := PushColors(iss, old(polygonColors), cmap, rd).items)
      ensures threw == PushColors(iss, old(polygonColors), cmap, rd).threw
    {
      var st := iss;
      var t := Extract(st);
      while t.value.Some?
        invariant st.Valid() && t == Extract(st)
        invariant Snapshot() == old(Snapshot()).(polygonColors := polygonColors)
        invariant PushColors(st, polygonColors, cmap, rd) == PushColors(iss, old(polygonColors), cmap, rd)
        decreases |st.buf| - st.pos
      {
        var c := ColorOf(cmap, rd, t.value.value);
        if c.None? {
          return true;
        }
        polygonColors := polygonColors + [c.value];
        st := t.st;
        t := Extract(st);
      }
      return false;
    }

    /** The loop of the `vertices` action: push a vector per `read_vec2` until eof. */
    method ReadVerticesInto(iss: IStream, rd: Readers) returns (threw: bool)
      requires iss.Valid() && iss.FailAtEnd()
      modifies this
      ensures Snapshot() == old(Snapshot()).(vertices := ReadVertices(iss, old(vertices), rd).items)
      ensures threw == ReadVertices(iss, old(vertices), rd).threw
    {
      var st := iss;
      while !st.eof
        invariant st.Valid() && st.FailAtEnd()
        invariant Snapshot() == old(Snapshot()).(vertices := vertices)
        invariant ReadVertices(st, vertices, rd) == ReadVertices(iss, old(vertices), rd)
        decreases |st.buf| - st.pos + (if st.eof then 0 else 1)
      {
        var p := ReadVec2(st, rd);
        if p.v.None? {
          return true;
        }
        vertices := vertices + [p.v.value];
        st := p.st;
      }
      return false;
    }
  }

  /** The loop over one more line is one more step, unless the loop had already stopped. */
  lemma PrefixStep(cfg: Config, lines: seq<string>, i: nat, cmap: map<string, Color>, rd: Readers)
    requires i < |lines|
    ensures var p := ParseLines(cfg, "", lines[..i], cmap, rd, false);
      ParseLines(cfg, "", lines[..i + 1], cmap, rd, false)
      == if p.threw then p else LineStep(p.cfg, p.token, lines[i], cmap, rd, false)
  {
    assert lines[..i + 1][..i] == lines[..i];
  }

  /** Once a line throws, the lines after it change nothing. */
  lemma {:induction false} ParseLinesStopped(cfg: Config, a: seq<string>, lines: seq<string>, cmap: map<string, Color>, rd: Readers)
    requires a <= lines && ParseLines(cfg, "", a, cmap, rd, false).threw
    ensures ParseLines(cfg, "", lines, cmap, rd, false) == ParseLines(cfg, "", a, cmap, rd, false)
    decreases |lines|
  {
    if |lines| > |a| {
      assert lines[..|lines| - 1][..|a|] == a;
      ParseLinesStopped(cfg, a, lines[..|lines| - 1], cmap, rd);
    } else {
      assert a == lines;
    }
  }
}
