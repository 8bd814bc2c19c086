/** The line helpers of src/file_reader/utils.cpp, and the part of
    `std::istringstream` they and the settings reader rely on: whitespace
    skipping `>>` into a string or a char, and `std::getline`, with the
    stream's position and its eof and fail flags. */
module TextUtils {
  import opened Common

  /** The two characters `" \t"` that trimming removes. */
  predicate IsBlank(c: char)
  {
    c == ' ' || c == '\t'
  }

  /** `std::isspace` in the "C" locale: space, \t, \n, \v, \f and \r. */
  predicate IsSpace(c: char)
  {
    c == ' ' || '\t' <= c <= '\r'
  }

  /** `find_first_not_of(" \t", i)`. */
  function FirstNotBlank(s: string, i: nat): (r: Option<nat>)
    requires i <= |s|
    ensures r.Some? ==> i <= r.value < |s| && !IsBlank(s[r.value])
    ensures r.Some? ==> forall m | i <= m < r.value :: IsBlank(s[m])
    ensures r.None? ==> forall m | i <= m < |s| :: IsBlank(s[m])
    decreases |s| - i
  {
    if i == |s| then None
    else if !IsBlank(s[i]) then Some(i)
    else FirstNotBlank(s, i + 1)
  }

  /** `find_last_not_of(" \t")` among the first j characters. */
  function LastNotBlank(s: string, j: nat): (r: Option<nat>)
    requires j <= |s|
    ensures r.Some? ==> r.value < j && !IsBlank(s[r.value])
    ensures r.Some? ==> forall m | r.value < m < j :: IsBlank(s[m])
    ensures r.None? ==> forall m | 0 <= m < j :: IsBlank(s[m])
  {
    if j == 0 then None
    else if !IsBlank(s[j - 1]) then Some(j - 1)
    else LastNotBlank(s, j - 1)
  }

  /** `remove_lead_trail_whitespace(str)`: "" when no character other than
      ' ' and '\t' is found, else `str.substr(start, end - start + 1)`. */
  function Trim(s: string): string
  {
    var start := FirstNotBlank(s, 0);
    var end := LastNotBlank(s, |s|);
    if start.None? || end.None? then ""
    else if start.value <= end.value then s[start.value..end.value + 1]
    else assert false; ""
  }

  /** Trimming keeps a contiguous piece `s[i..j]` of the input and removes
      only blanks around it; the piece is empty or begins and ends with a
      non-blank; it is empty exactly when the input is all blanks. */
  lemma TrimShape(s: string)
    ensures exists i, j | 0 <= i <= j <= |s| ::
      (Trim(s) == s[i..j] && (forall m | 0 <= m < i :: IsBlank(s[m])) && (forall m | j <= m < |s| :: IsBlank(s[m])))
    ensures Trim(s) != [] ==> !IsBlank(Trim(s)[0]) && !IsBlank(Trim(s)[|Trim(s)| - 1])
    ensures Trim(s) == [] <==> forall m | 0 <= m < |s| :: IsBlank(s[m])
  {
    var start := FirstNotBlank(s, 0);
    var end := LastNotBlank(s, |s|);
    if start.None? {
      assert Trim(s) == s[0..0];
    } else {
      assert end.Some?;
      assert Trim(s) == s[start.value..end.value + 1];
    }
  }

  /** Leading blanks do not change where trimming starts. */
  lemma {:induction false} FirstNotBlankSkips(s: string, i: nat, k: nat)
    requires i <= k <= |s| && forall m | i <= m < k :: IsBlank(s[m])
    ensures FirstNotBlank(s, i) == FirstNotBlank(s, k)
    decreases k - i
  {
    if i < k {
      FirstNotBlankSkips(s, i + 1, k);
    }
  }

  /** Trimming twice is trimming once. */
  lemma TrimIdempotent(s: string)
    ensures Trim(Trim(s)) == Trim(s)
  {
    var t := Trim(s);
    TrimShape(s);
    if t != [] {
      assert FirstNotBlank(t, 0) == Some(0);
      assert LastNotBlank(t, |t|) == Some(|t| - 1);
      assert t[0..|t|] == t;
    }
  }

  lemma TrimExamples()
    ensures Trim(" \t seed 4 \t") == "seed 4"
    ensures Trim(" \t ") == ""
    ensures Trim("") == ""
  {
    assert FirstNotBlank(" \t seed 4 \t", 0) == Some(3);
    assert LastNotBlank(" \t seed 4 \t", 11) == Some(8);
  }

  /** `line[i]` of a `std::string`: index `size()` reads the terminating '\0'. */
  function CharAt(s: string, i: nat): char
    requires i <= |s|
  {
    if i < |s| then s[i] else '\0'
  }

  /** `is_comment(line)`: `line[0] == '/' && line[1] == '/'`. */
  predicate IsComment(line: string)
  {
    CharAt(line, 0) == '/' && CharAt(line, 1) == '/'
  }

  /** A line is a comment exactly when it begins with "//"; the empty line is not one. */
  lemma IsCommentIff(line: string)
    ensures IsComment(line) <==> |line| >= 2 && line[..2] == "//"
  {
    if |line| >= 2 && line[..2] == "//" {
      assert line[0] == line[..2][0] && line[1] == line[..2][1];
    }
  }

  /** `sub` occurs in `line` at position m. */
  predicate OccursAt(line: string, sub: string, m: nat)
  {
    m + |sub| <= |line| && line[m..m + |sub|] == sub
  }

  /** `line.find(substr)`: the first position at or after i where `substr`
      occurs; the empty string occurs at once. */
  function Find(line: string, sub: string, i: nat): (r: Option<nat>)
    requires i <= |line|
    ensures r.Some? ==> i <= r.value && OccursAt(line, sub, r.value)
    ensures r.Some? ==> forall m | i <= m < r.value :: !OccursAt(line, sub, m)
    ensures r.None? ==> forall m | i <= m :: !OccursAt(line, sub, m)
    decreases |line| - i
  {
    if |sub| == 0 then Some(i)
    else if i + |sub| > |line| then None
    else if OccursAt(line, sub, i) then Some(i)
    else Find(line, sub, i + 1)
  }

  /** `found_substr_in_line(line, substr)`. */
  predicate FoundSubstrInLine(line: string, sub: string)
  {
    Find(line, sub, 0).Some?
  }

  /** The substring search succeeds exactly when `sub` occurs somewhere in `line`. */
  lemma FoundSubstrIff(line: string, sub: string)
    ensures FoundSubstrInLine(line, sub) <==> exists m: nat :: OccursAt(line, sub, m)
  {
    if FoundSubstrInLine(line, sub) {
      assert OccursAt(line, sub, Find(line, sub, 0).value);
    }
  }

  // ---------------------------------------------------------------------
  // The istringstream model

  /** A string stream: its buffer, the read position, and the eof and fail bits. */
  datatype IStream = IStream(buf: string, pos: nat, eof: bool, fail: bool)
  {
    ghost predicate Valid()
    {
      pos <= |buf|
    }

    /** The fail bit is only ever set together with eof. */
    predicate FailAtEnd()
    {
      fail ==> eof
    }

    /** `good()`: neither bit set. */
    predicate Good()
    {
      !eof && !fail
    }
  }

  /** `std::istringstream iss(line)`, or `iss.clear(); iss.str(line)`: fresh at position 0. */
  function Open(s: string): (st: IStream)
    ensures st.Valid() && st.Good()
  {
    IStream(s, 0, false, false)
  }

  /** The first position at or after i whose character is not space. */
  function SkipSpace(s: string, i: nat): (r: nat)
    requires i <= |s|
    ensures i <= r <= |s| && (r < |s| ==> !IsSpace(s[r]))
    ensures forall m | i <= m < r :: IsSpace(s[m])
    decreases |s| - i
  {
    if i == |s| || !IsSpace(s[i]) then i else SkipSpace(s, i + 1)
  }

  /** The first position at or after i whose character is space. */
  function TokenEnd(s: string, i: nat): (r: nat)
    requires i <= |s|
    ensures i <= r <= |s| && (r < |s| ==> IsSpace(s[r]))
    ensures forall m | i <= m < r :: !IsSpace(s[m])
    decreases |s| - i
  {
    if i == |s| || IsSpace(s[i]) then i else TokenEnd(s, i + 1)
  }

  /** The first position at or after i holding the delimiter. */
  function LineEnd(s: string, i: nat, delim: char): (r: nat)
    requires i <= |s|
    ensures i <= r <= |s| && (r < |s| ==> s[r] == delim)
    ensures forall m | i <= m < r :: s[m] != delim
    decreases |s| - i
  {
    if i == |s| || s[i] == delim then i else LineEnd(s, i + 1, delim)
  }

  /** Without a '\n', a line runs to the end of the buffer. */
  lemma {:induction false} LineEndNoNewline(s: string, i: nat)
    requires i <= |s| && '\n' !in s
    ensures LineEnd(s, i, '\n') == |s|
    decreases |s| - i
  {
    if i < |s| {
      assert s[i] in s;
      LineEndNoNewline(s, i + 1);
    }
  }

  /** The outcome of one extraction: the stream afterwards and the value
      read, `None` when the extraction failed and left its target as it was. */
  datatype Read<T> = Read(st: IStream, value: Option<T>)

  /** `iss >> str` for a `std::string`: a stream that is not good only gets
      its fail bit; otherwise leading space is skipped, reaching the end sets
      eof and fail, and else the token runs to the next space or the end,
      setting eof in the latter case. */
  function Extract(st: IStream): (r: Read<string>)
    requires st.Valid()
    ensures r.st.Valid() && r.st.buf == st.buf && st.pos <= r.st.pos
    ensures st.Good() ==> (r.st.pos == |r.st.buf| ==> r.st.eof)
    ensures !st.Good() ==> r.st == st.(fail := true)
    ensures r.value.Some? <==> !r.st.fail
    ensures r.value.Some? ==> r.value.value != [] && st.pos < r.st.pos
    ensures st.FailAtEnd() ==> r.st.FailAtEnd()
    ensures st.Good() ==> r.st.eof || st.pos < r.st.pos
  {
    if !st.Good() then Read(st.(fail := true), None)
    else
      var p := SkipSpace(st.buf, st.pos);
      if p == |st.buf| then Read(IStream(st.buf, p, true, true), None)
      else
        var e := TokenEnd(st.buf, p);
        Read(IStream(st.buf, e, e == |st.buf|, false), Some(st.buf[p..e]))
  }

  /** `iss >> c` for a `char` (and so for `uint8_t`): space is skipped and
      the next character is taken; only running out of characters sets eof. */
  function ExtractChar(st: IStream): (r: Read<char>)
    requires st.Valid()
    ensures r.st.Valid() && r.st.buf == st.buf
    ensures r.value.Some? ==> r.st.Good() && !IsSpace(r.value.value)
  {
    if !st.Good() then Read(st.(fail := true), None)
    else
      var p := SkipSpace(st.buf, st.pos);
      if p == |st.buf| then Read(IStream(st.buf, p, true, true), None)
      else Read(IStream(st.buf, p + 1, false, false), Some(st.buf[p]))
  }

  /** `std::getline(iss, str, delim)`: a stream that is not good gets its
      fail bit and `str` is left as it was; otherwise `str` becomes the
      characters up to the next delimiter (which is consumed) or the end
      (which sets eof, and fail too when nothing was read). */
  function GetLine(st: IStream, delim: char): (r: Read<string>)
    requires st.Valid()
    ensures r.st.Valid() && r.st.buf == st.buf && st.pos <= r.st.pos
    ensures r.value.Some? <==> st.Good()
    ensures st.FailAtEnd() ==> r.st.FailAtEnd()
    ensures st.Good() ==> r.st.eof || st.pos < r.st.pos
  {
    if !st.Good() then Read(st.(fail := true), None)
    else
      var e := LineEnd(st.buf, st.pos, delim);
      if e < |st.buf| then Read(IStream(st.buf, e + 1, false, false), Some(st.buf[st.pos..e]))
      else Read(IStream(st.buf, e, true, e == st.pos), Some(st.buf[st.pos..e]))
  }

  /** The target of an extraction after it: the value read, or the old value. */
  function OrElse<T>(value: Option<T>, old_: T): T
  {
    if value.Some? then value.value else old_
  }

  // ---------------------------------------------------------------------
  // discard_tokens

  /** The defaults of `discard_tokens` in src/file_reader/utils.h. */
  const DEFAULT_DISCARD_COUNT: int := 2
  const DEFAULT_DISCARD_TRIM: bool := true

  /** The stream after i token extractions from `line`. */
  function ExtractTimes(line: string, i: nat): (st: IStream)
    ensures st.Valid() && st.buf == line
  {
    if i == 0 then Open(line) else Extract(ExtractTimes(line, i - 1)).st
  }

  /** After at least one extraction the stream is good exactly while
      characters remain: reaching the end always sets eof. */
  lemma {:induction false} ExtractTimesSettled(line: string, i: nat)
    requires i > 0
    ensures ExtractTimes(line, i).pos == |line| ==> ExtractTimes(line, i).eof
    ensures ExtractTimes(line, i).Good() <==> ExtractTimes(line, i).pos < |line|
  {
    if i > 1 {
      ExtractTimesSettled(line, i - 1);
    }
  }

  /** `if (remove_lt_whitespace) remove_lead_trail_whitespace(line)`. */
  function Finish(line: string, trim: bool): string
  {
    if trim then Trim(line) else line
  }

  /** What `discard_tokens(line, n, trim)` leaves in `line` and returns. */
  function DiscardTokensOf(line: string, n: int, trim: bool): string
  {
    var st := ExtractTimes(line, if n > 0 then n else 0);
    Finish(OrElse(GetLine(st, '\n').value, line), trim)
  }

  /** `discard_tokens(line, n, trim)`: n extractions, then `getline` into
      `line`, then the optional trim; `line` is overwritten and also returned. */
  method DiscardTokens(line: string, n: int, trim: bool) returns (line': string, r: string)
    ensures line' == DiscardTokensOf(line, n, trim) && r == line'
  {
    var iss := SkipTokens(line, n);
    var got := GetLine(iss, '\n');
    line' := OrElse(got.value, line);
    if trim {
      line' := Trim(line');
    }
    r := line';
  }

  /** The loop `for (int i = 0; i < n; i++) iss >> token;` on a fresh stream over `line`. */
  method SkipTokens(line: string, n: int) returns (iss: IStream)
    ensures iss == ExtractTimes(line, if n > 0 then n else 0)
  {
    ghost var count: nat := if n > 0 then n else 0;
    iss := Open(line);
    var i := 0;
    while i < n
      invariant 0 <= i <= count
      invariant iss == ExtractTimes(line, i)
    {
      assert ExtractTimes(line, i + 1) == Extract(ExtractTimes(line, i)).st;
      iss := Extract(iss).st;
      i := i + 1;
    }
    assert i == count;
  }

  /** On a line without '\n': when anything follows the n-th token, the
      result is that remainder (trimmed when asked). When the n-th token ends
      the line, or there are fewer than n tokens, the extraction hits the end
      and sets eof, so `getline` fails and the line comes back whole. */
  lemma DiscardTokensCases(line: string, n: nat, trim: bool)
    requires n >= 1 && '\n' !in line
    ensures ExtractTimes(line, n).pos < |line| ==>
      DiscardTokensOf(line, n, trim) == Finish(line[ExtractTimes(line, n).pos..], trim)
    ensures ExtractTimes(line, n).pos == |line| ==> DiscardTokensOf(line, n, trim) == Finish(line, trim)
  {
    var st := ExtractTimes(line, n);
    ExtractTimesSettled(line, n);
    if st.pos < |line| {
      LineEndNoNewline(line, st.pos);
      assert line[st.pos..|line|] == line[st.pos..];
      assert GetLine(st, '\n').value == Some(line[st.pos..|line|]);
    }
  }

  /** Discarding no tokens returns the line itself, trimmed when asked. */
  lemma DiscardNothing(line: string, n: int, trim: bool)
    requires n <= 0 && '\n' !in line
    ensures DiscardTokensOf(line, n, trim) == Finish(line, trim)
  {
    LineEndNoNewline(line, 0);
    assert line[0..|line|] == line;
  }

  /** With the defaults, the first two tokens go and the rest stays, trimmed. */
  lemma DiscardTokensExample()
    ensures DiscardTokensOf("a b c", DEFAULT_DISCARD_COUNT, DEFAULT_DISCARD_TRIM) == "c"
  {
    var line := "a b c";
    assert SkipSpace(line, 0) == 0 && TokenEnd(line, 1) == 1 && TokenEnd(line, 0) == 1;
    assert ExtractTimes(line, 1) == IStream(line, 1, false, false);
    assert SkipSpace(line, 1) == 2 && TokenEnd(line, 3) == 3 && TokenEnd(line, 2) == 3;
    assert ExtractTimes(line, 2) == IStream(line, 3, false, false);
    assert LineEnd(line, 5, '\n') == 5 && LineEnd(line, 4, '\n') == 5 && LineEnd(line, 3, '\n') == 5;
    var rest := line[3..5];
    assert GetLine(ExtractTimes(line, 2), '\n').value == Some(rest);
    assert rest == [' ', 'c'];
    assert FirstNotBlank(rest, 0) == Some(1) && LastNotBlank(rest, 2) == Some(1);
    assert rest[1..2] == "c";
  }

  /** A line holding exactly the two tokens to discard comes back whole instead of empty. */
  lemma DiscardAtEndKeepsLine()
    ensures DiscardTokensOf("seed 5", DEFAULT_DISCARD_COUNT, DEFAULT_DISCARD_TRIM) == "seed 5"
  {
    var line := "seed 5";
    assert SkipSpace(line, 0) == 0 && TokenEnd(line, 0) == 4;
    assert SkipSpace(line, 4) == 5 && TokenEnd(line, 5) == 6;
    assert ExtractTimes(line, 2).pos == 6 && !ExtractTimes(line, 2).Good();
    assert FirstNotBlank(line, 0) == Some(0) && LastNotBlank(line, 6) == Some(5);
    assert line[0..6] == line;
  }

  /** `discard_tokens` as its description says: what follows the first n
      tokens, or "" when nothing does. */
  function DiscardTokensCorrected(line: string, n: int, trim: bool): string
  {
    var st := ExtractTimes(line, if n > 0 then n else 0);
    Finish(line[st.pos..LineEnd(line, st.pos, '\n')], trim)
  }

  /** The corrected version agrees with `discard_tokens` whenever something
      follows the n-th token, and returns "" when the line ends there. */
  lemma DiscardTokensCorrectedAgrees(line: string, n: nat, trim: bool)
    requires n >= 1 && '\n' !in line
    ensures ExtractTimes(line, n).pos < |line| ==> DiscardTokensCorrected(line, n, trim) == DiscardTokensOf(line, n, trim)
    ensures ExtractTimes(line, n).pos == |line| ==> DiscardTokensCorrected(line, n, trim) == Finish("", trim)
  {
    DiscardTokensCases(line, n, trim);
    var st := ExtractTimes(line, n);
    ExtractTimesSettled(line, n);
    if st.pos < |line| {
      LineEndNoNewline(line, st.pos);
    }
  }

  lemma DiscardAtEndCorrected()
    ensures DiscardTokensCorrected("seed 5", DEFAULT_DISCARD_COUNT, DEFAULT_DISCARD_TRIM) == ""
  {
    var line := "seed 5";
    assert SkipSpace(line, 0) == 0 && TokenEnd(line, 0) == 4;
    assert SkipSpace(line, 4) == 5 && TokenEnd(line, 5) == 6;
    assert ExtractTimes(line, 2).pos == 6;
  }
}
