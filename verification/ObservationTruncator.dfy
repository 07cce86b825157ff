/** Bounding what a tool's output may add to the conversation, in lines and in encoded bytes. */
module ObservationTruncator {
  import opened Common
  import opened Utf8

  // ---------- Encoded sizes ----------

  function Newlines(s: string): (n: nat)
    ensures n <= |s|
  {
    if s == "" then 0 else Newlines(Front(s)) + if Last(s) == '\n' then 1 else 0
  }

  function Lines(s: string): nat {
    Newlines(s) + 1
  }

  lemma {:induction false} SizesOfConcat(a: string, b: string)
    ensures Bytes(a + b) == Bytes(a) + Bytes(b) && Newlines(a + b) == Newlines(a) + Newlines(b)
    decreases |b|
  {
    BytesOfConcat(a, b);
    if b == "" {
      assert a + b == a;
    } else {
      assert Front(a + b) == a + Front(b) && Last(a + b) == Last(b);
      SizesOfConcat(a, Front(b));
    }
  }

  // ---------- Readable text ----------

  /** Every two-character escape `\n`, from left to right, becomes a newline. */
  function Normalize(s: string): string {
    if |s| >= 2 && s[0] == '\\' && s[1] == 'n' then "\n" + Normalize(s[2..])
    else if s == "" then ""
    else s[..1] + Normalize(s[1..])
  }

  function Escapes(s: string): nat {
    if |s| >= 2 && s[0] == '\\' && s[1] == 'n' then 1 + Escapes(s[2..])
    else if s == "" then 0
    else Escapes(s[1..])
  }

  lemma SizeOfOne(c: char)
    ensures Bytes([c]) == Width(c) && Newlines([c]) == if c == '\n' then 1 else 0
  {
    assert Front([c]) == "" && Last([c]) == c;
  }

  /** Unescaping saves one byte for each newline it makes. */
  lemma {:induction false} NormalizedSizes(s: string)
    ensures Bytes(s) == Bytes(Normalize(s)) + Escapes(s)
    ensures Escapes(s) <= Newlines(Normalize(s))
    decreases |s|
  {
    if |s| >= 2 && s[0] == '\\' && s[1] == 'n' {
      NormalizedSizes(s[2..]);
      assert s == s[..2] + s[2..];
      SizesOfConcat(s[..2], s[2..]);
      SizesOfConcat("\n", Normalize(s[2..]));
      SizesOfConcat([s[0]], [s[1]]);
      assert s[..2] == [s[0]] + [s[1]];
      SizeOfOne(s[0]);
      SizeOfOne(s[1]);
      SizeOfOne('\n');
    } else if s != "" {
      NormalizedSizes(s[1..]);
      assert s == s[..1] + s[1..];
      SizesOfConcat(s[..1], s[1..]);
      SizesOfConcat(s[..1], Normalize(s[1..]));
    }
  }

  /** Every escape becomes a newline, wherever it stands, and nothing else changes. */
  lemma {:induction false} NormalizeAtEscape(a: string, b: string)
    ensures Normalize(a + "\\n" + b) == Normalize(a) + "\n" + Normalize(b)
    decreases |a|
  {
    var s := a + "\\n" + b;
    assert "\\n"[0] == '\\' && "\\n"[1] == 'n';
    if a == "" {
      assert s[2..] == b;
    } else if |a| >= 2 && a[0] == '\\' && a[1] == 'n' {
      NormalizeAtEscape(a[2..], b);
      assert s[2..] == a[2..] + "\\n" + b;
    } else {
      NormalizeAtEscape(a[1..], b);
      assert s[1..] == a[1..] + "\\n" + b;
      assert s[1] == if |a| > 1 then a[1] else '\\';
    }
  }

  lemma {:induction false} NormalizeWithout(s: string)
    requires forall i :: 0 < i < |s| ==> !(s[i - 1] == '\\' && s[i] == 'n')
    ensures Normalize(s) == s
  {
    if s == "" {
    } else {
      assert |s| >= 2 ==> !(s[1 - 1] == '\\' && s[1] == 'n');
      forall i | 0 < i < |s[1..]| ensures !(s[1..][i - 1] == '\\' && s[1..][i] == 'n') {
        assert s[1..][i - 1] == s[i + 1 - 1] && s[1..][i] == s[i + 1];
      }
      NormalizeWithout(s[1..]);
      assert s == s[..1] + s[1..];
    }
  }

  // ---------- Cutting ----------

  datatype Direction = Head | Tail | HeadTail

  datatype Config = Config(maxLines: int, maxBytes: int, direction: Direction, headTailLines: int)

  /** A slice bound as Python reads it: from the end if negative, and never outside. */
  function PyBound(n: int, length: nat): (r: nat)
    ensures r <= length
  {
    if n < 0 then (if length + n < 0 then 0 else length + n) else if n > length then length else n
  }

  function TakeFirst<T>(s: seq<T>, n: int): seq<T> {
    s[..PyBound(n, |s|)]
  }

  /** The slice from `-n`: for 0 that is everything. */
  function TakeLast<T>(s: seq<T>, n: int): seq<T> {
    s[PyBound(-n, |s|)..]
  }

  /** The characters encoded entirely within the first `n` bytes. */
  function FirstBytes(s: string, n: nat): string {
    if Bytes(s) <= n then s else FirstBytes(Front(s), n)
  }

  /** The characters encoded entirely after the first `n` bytes. */
  function AfterBytes(s: string, n: nat): string {
    if n == 0 || s == "" then s else AfterBytes(s[1..], if n <= Width(s[0]) then 0 else n - Width(s[0]))
  }

  lemma {:induction false} FirstBytesFit(s: string, n: nat)
    ensures FirstBytes(s, n) <= s && Bytes(FirstBytes(s, n)) <= n
    ensures FirstBytes(s, n) != s ==>
              |FirstBytes(s, n)| < |s| && Bytes(s[..|FirstBytes(s, n)| + 1]) > n
  {
    if Bytes(s) > n {
      FirstBytesFit(Front(s), n);
      var t := FirstBytes(s, n);
      if t == Front(s) {
        assert s[..|t| + 1] == s;
      } else {
        assert s[..|t| + 1] == Front(s)[..|t| + 1];
      }
    } else {
      assert s[..|s|] == s;
    }
  }

  lemma {:induction false} AfterBytesFit(s: string, n: nat)
    ensures |AfterBytes(s, n)| <= |s| && AfterBytes(s, n) == s[|s| - |AfterBytes(s, n)|..]
    ensures Bytes(AfterBytes(s, n)) <= if n <= Bytes(s) then Bytes(s) - n else 0
    decreases |s|
  {
    if n == 0 || s == "" {
    } else {
      var m := if n <= Width(s[0]) then 0 else n - Width(s[0]);
      AfterBytesFit(s[1..], m);
      assert s == [s[0]] + s[1..];
      SizesOfConcat([s[0]], s[1..]);
      SizeOfOne(s[0]);
      hide Bytes, Newlines, Width;
    }
  }

  function SplitLines(s: string): (r: seq<string>)
    ensures |r| == Lines(s)
  {
    if s == "" then [""]
    else
      var r := SplitLines(Front(s));
      if Last(s) == '\n' then r + [""] else r[..|r| - 1] + [r[|r| - 1] + [Last(s)]]
  }

  function JoinLines(lines: seq<string>): string {
    if lines == [] then "" else if |lines| == 1 then lines[0] else JoinLines(Front(lines)) + "\n" + Last(lines)
  }

  const ELLIPSIS := "... (truncated) ..."

  /** Which lines are kept: the head-and-tail form does not look at the line limit. */
  function KeptLines(lines: seq<string>, c: Config): seq<string> {
    match c.direction
    case HeadTail =>
      if |lines| > c.headTailLines * 2
      then TakeFirst(lines, c.headTailLines) + [ELLIPSIS] + TakeLast(lines, c.headTailLines) else lines
    case Tail => if |lines| > c.maxLines then TakeLast(lines, c.maxLines) else lines
    case Head => if |lines| > c.maxLines then TakeFirst(lines, c.maxLines) else lines
  }

  /** The preview: kept lines, then cut to the byte limit from the side that is dropped. */
  function Preview(content: string, c: Config): string {
    CutTo(JoinLines(KeptLines(SplitLines(content), c)), c)
  }

  function CutTo(text: string, c: Config): string {
    if Bytes(text) <= c.maxBytes then text
    else if c.direction.Tail? then AfterBytes(text, PyBound(-c.maxBytes, Bytes(text)))
    else FirstBytes(text, PyBound(c.maxBytes, Bytes(text)))
  }

  /** The preview keeps to a byte limit that is not negative, except that a tail of no bytes is everything. */
  lemma PreviewFits(content: string, c: Config)
    requires c.maxBytes >= 0
    ensures Bytes(Preview(content, c)) <= c.maxBytes <==>
              !(c.direction.Tail? && c.maxBytes == 0 && JoinLines(KeptLines(SplitLines(content), c)) != "")
  {
    var text := JoinLines(KeptLines(SplitLines(content), c));
    if Bytes(text) > c.maxBytes {
      FirstBytesFit(text, PyBound(c.maxBytes, Bytes(text)));
      AfterBytesFit(text, PyBound(-c.maxBytes, Bytes(text)));
    }
  }

  lemma {:induction false} SplitHasNoNewlines(s: string)
    ensures forall i :: 0 <= i < |SplitLines(s)| ==> Newlines(SplitLines(s)[i]) == 0
  {
    if s == "" {
    } else {
      SplitHasNoNewlines(Front(s));
      var r := SplitLines(Front(s));
      var l := r[|r| - 1];
      assert Front(l + [Last(s)]) == l && Last(l + [Last(s)]) == Last(s);
    }
  }

  /** Splitting at newlines and joining again gives the text back. */
  lemma {:induction false} JoinOfSplit(s: string)
    ensures JoinLines(SplitLines(s)) == s
  {
    if s == "" {
    } else {
      JoinOfSplit(Front(s));
      var r := SplitLines(Front(s));
      assert s == Front(s) + [Last(s)];
      if Last(s) == '\n' {
        assert Front(r + [""]) == r && Last(r + [""]) == "";
        assert JoinLines(r + [""]) == JoinLines(r) + "\n" + "";
      } else {
        var front, l := r[..|r| - 1], r[|r| - 1];
        var t := front + [l + [Last(s)]];
        assert Front(t) == front && Last(t) == l + [Last(s)] && Front(r) == front && Last(r) == l;
        if front != [] {
          assert JoinLines(t) == JoinLines(front) + "\n" + (l + [Last(s)]);
        }
      }
    }
  }

  lemma {:induction false} LinesOfJoin(lines: seq<string>)
    requires forall i :: 0 <= i < |lines| ==> Newlines(lines[i]) == 0
    ensures Newlines(JoinLines(lines)) == if lines == [] then 0 else |lines| - 1
  {
    if |lines| <= 1 {
    } else {
      LinesOfJoin(Front(lines));
      SizesOfConcat(JoinLines(Front(lines)), "\n");
      SizesOfConcat(JoinLines(Front(lines)) + "\n", Last(lines));
      SizeOfOne('\n');
    }
  }

  lemma EllipsisIsOneLine()
    ensures Newlines(ELLIPSIS) == 0
  {
    var n := |ELLIPSIS|;
    forall i | 0 <= i < n ensures ELLIPSIS[i] != '\n' {
      assert ELLIPSIS[i] in {'.', ' ', '(', ')', 't', 'r', 'u', 'n', 'c', 'a', 'e', 'd'};
    }
    NoNewlines(ELLIPSIS);
  }

  lemma {:induction false} NoNewlines(s: string)
    requires forall i :: 0 <= i < |s| ==> s[i] != '\n'
    ensures Newlines(s) == 0
  {
    if s == "" {
    } else {
      NoNewlines(Front(s));
    }
  }

  /** At most how many lines a preview has; lines of the head-and-tail form are not bounded by the line limit. */
  function LineLimit(c: Config): int {
    if c.direction.HeadTail? then 2 * c.headTailLines + 1 else c.maxLines
  }

  lemma KeptLinesAreFew(lines: seq<string>, c: Config)
    requires c.direction.HeadTail? ==> c.headTailLines >= 1
    requires !c.direction.HeadTail? ==> c.maxLines >= 1
    requires forall i :: 0 <= i < |lines| ==> Newlines(lines[i]) == 0
    ensures |KeptLines(lines, c)| <= LineLimit(c)
    ensures forall i :: 0 <= i < |KeptLines(lines, c)| ==> Newlines(KeptLines(lines, c)[i]) == 0
  {
    EllipsisIsOneLine();
    hide Newlines;
  }

  lemma CutHasFewerLines(text: string, n: nat)
    ensures Newlines(FirstBytes(text, n)) <= Newlines(text)
    ensures Newlines(AfterBytes(text, n)) <= Newlines(text)
  {
    FirstBytesFit(text, n);
    AfterBytesFit(text, n);
    var r, t := FirstBytes(text, n), AfterBytes(text, n);
    hide FirstBytes, AfterBytes, Newlines, Bytes;
    assert text == r + text[|r|..];
    SizesOfConcat(r, text[|r|..]);
    assert text == text[..|text| - |t|] + t;
    SizesOfConcat(text[..|text| - |t|], t);
  }

  /** With positive limits, no preview has more lines than its form allows. */
  lemma PreviewLines(content: string, c: Config)
    requires c.direction.HeadTail? ==> c.headTailLines >= 1
    requires !c.direction.HeadTail? ==> c.maxLines >= 1
    ensures Lines(Preview(content, c)) <= LineLimit(c)
  {
    var kept := KeptLines(SplitLines(content), c);
    SplitHasNoNewlines(content);
    KeptLinesAreFew(SplitLines(content), c);
    hide KeptLines, SplitLines, JoinLines, Newlines, Bytes, FirstBytes, AfterBytes;
    LinesOfJoin(kept);
    var text := JoinLines(kept);
    CutHasFewerLines(text, PyBound(-c.maxBytes, Bytes(text)));
    CutHasFewerLines(text, PyBound(c.maxBytes, Bytes(text)));
  }

  // ---------- What a preview shows ----------

  /** The first `n` lines of a text that has more: up to, but without, the newline that ends them. */
  predicate FirstLines(p: string, s: string, n: int) {
    |p| < |s| && s[..|p|] == p && s[|p|] == '\n' && Lines(p) == n
  }

  /** The last `n` lines of a text that has more. */
  predicate LastLines(p: string, s: string, n: int) {
    |p| < |s| && s[|s| - |p|..] == p && s[|s| - |p| - 1] == '\n' && Lines(p) == n
  }

  /** The lines to be shown: the text itself if it has few, and otherwise its first, its last, or both. */
  ghost predicate Selects(kept: string, s: string, c: Config) {
    match c.direction
    case Head => if Lines(s) <= c.maxLines then kept == s else FirstLines(kept, s, c.maxLines)
    case Tail => if Lines(s) <= c.maxLines then kept == s else LastLines(kept, s, c.maxLines)
    case HeadTail =>
      if Lines(s) <= 2 * c.headTailLines then kept == s
      else
        exists a, b ::
          && FirstLines(a, s, c.headTailLines) && LastLines(b, s, c.headTailLines)
          && kept == a + "\n" + "... (truncated) ..." + "\n" + b
  }

  /** The longest first part within a number of bytes. */
  predicate LongestStart(p: string, s: string, n: int) {
    p <= s && Bytes(p) <= n && (p == s || Bytes(s[..|p| + 1]) > n)
  }

  predicate LongestEnd(p: string, s: string, n: int) {
    |p| <= |s| && s[|s| - |p|..] == p && Bytes(p) <= n && (p == s || Bytes(s[|s| - |p| - 1..]) > n)
  }

  /** Lines that are too long lose their end, or for a tail their beginning; a tail of no bytes is left whole. */
  predicate Cuts(preview: string, kept: string, c: Config) {
    if !c.direction.Tail? then LongestStart(preview, kept, c.maxBytes)
    else if c.maxBytes > 0 then LongestEnd(preview, kept, c.maxBytes)
    else preview == kept
  }

  /** A limit of at least one line, and of no negative number of bytes. */
  predicate Sensible(c: Config) {
    (if c.direction.HeadTail? then c.headTailLines >= 1 else c.maxLines >= 1) && c.maxBytes >= 0
  }

  ghost predicate ShowsPart(preview: string, s: string, c: Config) {
    exists kept :: Selects(kept, s, c) && Cuts(preview, kept, c)
  }

  lemma {:induction false} JoinConcat(a: seq<string>, b: seq<string>)
    requires a != [] && b != []
    ensures JoinLines(a + b) == JoinLines(a) + "\n" + JoinLines(b)
  {
    assert Front(a + b) == a + Front(b) && Last(a + b) == Last(b);
    if |b| == 1 {
      assert a + Front(b) == a;
    } else {
      JoinConcat(a, Front(b));
      assert JoinLines(a + b) == JoinLines(a + Front(b)) + "\n" + Last(b);
      assert JoinLines(b) == JoinLines(Front(b)) + "\n" + Last(b);
    }
  }

  /** Cutting the list of lines in two cuts the text at a newline. */
  lemma SplitAt(s: string, n: nat)
    requires 0 < n < Lines(s)
    ensures FirstLines(JoinLines(SplitLines(s)[..n]), s, n)
    ensures LastLines(JoinLines(SplitLines(s)[n..]), s, Lines(s) - n)
  {
    hide JoinLines, SplitLines, Newlines, FirstLines, LastLines;
    var lines := SplitLines(s);
    var a, b := JoinLines(lines[..n]), JoinLines(lines[n..]);
    JoinOfSplit(s);
    SplitHasNoNewlines(s);
    LinesOfJoin(lines[..n]);
    LinesOfJoin(lines[n..]);
    assert lines == lines[..n] + lines[n..];
    JoinConcat(lines[..n], lines[n..]);
    PartsAtNewline(a, b);
  }

  lemma PartsAtNewline(a: string, b: string)
    ensures FirstLines(a, a + "\n" + b, Lines(a)) && LastLines(b, a + "\n" + b, Lines(b))
  {
    hide Newlines;
  }

  lemma SelectsKept(s: string, c: Config)
    requires c.direction.HeadTail? ==> c.headTailLines >= 1
    requires !c.direction.HeadTail? ==> c.maxLines >= 1
    ensures Selects(JoinLines(KeptLines(SplitLines(s), c)), s, c)
  {
    var lines, n := SplitLines(s), c.headTailLines;
    JoinOfSplit(s);
    hide JoinLines, SplitLines, FirstLines, LastLines;
    match c.direction
    case Head =>
      if |lines| > c.maxLines {
        SplitAt(s, c.maxLines);
      }
    case Tail =>
      if |lines| > c.maxLines {
        SplitAt(s, |lines| - c.maxLines);
      }
    case HeadTail =>
      if |lines| > n * 2 {
        SplitAt(s, n);
        SplitAt(s, |lines| - n);
        JoinConcat(lines[..n], [ELLIPSIS]);
        JoinConcat(lines[..n] + [ELLIPSIS], lines[|lines| - n..]);
        JoinOne(ELLIPSIS);
      }
  }

  lemma JoinOne(s: string)
    ensures JoinLines([s]) == s
  {
  }

  lemma {:induction false} AfterBytesIsLongest(s: string, n: nat)
    requires n <= Bytes(s)
    ensures LongestEnd(AfterBytes(s, n), s, Bytes(s) - n)
    decreases |s|
  {
    AfterBytesFit(s, n);
    if n == 0 {
    } else if s == "" {
    } else {
      var m := if n <= Width(s[0]) then 0 else n - Width(s[0]);
      assert s == [s[0]] + s[1..];
      SizesOfConcat([s[0]], s[1..]);
      SizeOfOne(s[0]);
      var p := AfterBytes(s, n);
      if m == 0 {
        assert p == s[1..] && s[|s| - |p| - 1..] == s;
      } else {
        AfterBytesIsLongest(s[1..], m);
        assert s[1..][|s[1..]| - |p| - 1..] == s[|s| - |p| - 1..];
      }
    }
  }

  /** A preview shows the first lines, the last lines, or both around an ellipsis, as much as the bytes allow. */
  lemma PreviewShowsPart(s: string, c: Config)
    requires Sensible(c)
    ensures ShowsPart(Preview(s, c), s, c)
  {
    SelectsKept(s, c);
    CutsKept(JoinLines(KeptLines(SplitLines(s), c)), c);
    hide KeptLines, JoinLines, SplitLines, Selects, Cuts, CutTo;
  }

  lemma CutsKept(kept: string, c: Config)
    requires c.maxBytes >= 0
    ensures Cuts(CutTo(kept, c), kept, c)
  {
    hide Bytes, FirstBytes, AfterBytes;
    var n := Bytes(kept);
    if n <= c.maxBytes {
      assert kept[|kept| - |kept|..] == kept;
    } else if c.direction.Tail? {
      if c.maxBytes > 0 {
        AfterBytesIsLongest(kept, n - c.maxBytes);
      } else {
        NoBytesCut(kept);
      }
    } else {
      FirstBytesFit(kept, c.maxBytes);
    }
  }

  lemma NoBytesCut(s: string)
    ensures AfterBytes(s, 0) == s
  {
  }

  /** A head preview is a first part of the text, a tail preview a last part; if no byte is cut, of that many lines. */
  lemma PreviewIsStartOrEnd(s: string, c: Config)
    requires !c.direction.HeadTail? && Sensible(c)
    ensures var p := Preview(s, c);
            && (c.direction.Head? ==> p <= s)
            && (c.direction.Tail? ==> |p| <= |s| && s[|s| - |p|..] == p)
            && (Bytes(s) <= c.maxBytes ==> Lines(p) == if Lines(s) <= c.maxLines then Lines(s) else c.maxLines)
  {
    hide *;
    PreviewShowsPart(s, c);
    PartIsStartOrEnd(Preview(s, c), s, c);
  }

  lemma PartIsStartOrEnd(p: string, s: string, c: Config)
    requires !c.direction.HeadTail? && ShowsPart(p, s, c)
    ensures c.direction.Head? ==> p <= s
    ensures c.direction.Tail? ==> |p| <= |s| && s[|s| - |p|..] == p
    ensures Bytes(s) <= c.maxBytes ==> Lines(p) == if Lines(s) <= c.maxLines then Lines(s) else c.maxLines
  {
    hide Selects, Cuts, Bytes, Newlines;
    var kept :| Selects(kept, s, c) && Cuts(p, kept, c);
    if c.direction.Head? {
      StartIsStart(p, kept, s, c);
    } else {
      EndIsEnd(p, kept, s, c);
    }
  }

  lemma StartIsStart(p: string, kept: string, s: string, c: Config)
    requires c.direction.Head? && Selects(kept, s, c) && Cuts(p, kept, c)
    ensures p <= s && (Bytes(s) <= c.maxBytes ==> Lines(p) == if Lines(s) <= c.maxLines then Lines(s) else c.maxLines)
  {
    hide Bytes, Newlines;
    assert s == kept + s[|kept|..];
    SizesOfConcat(kept, s[|kept|..]);
    assert kept[..|kept|] == kept;
    if p != kept {
      assert kept == kept[..|p| + 1] + kept[|p| + 1..];
      SizesOfConcat(kept[..|p| + 1], kept[|p| + 1..]);
    }
  }

  lemma EndIsEnd(p: string, kept: string, s: string, c: Config)
    requires c.direction.Tail? && Selects(kept, s, c) && Cuts(p, kept, c)
    ensures |p| <= |s| && s[|s| - |p|..] == p
    ensures Bytes(s) <= c.maxBytes ==> Lines(p) == if Lines(s) <= c.maxLines then Lines(s) else c.maxLines
  {
    hide Bytes, Newlines;
    EndIsSmaller(kept, s);
    if p != kept {
      EndIsSmaller(kept[|kept| - |p| - 1..], kept);
    }
    EndOfEnd(p, kept, s);
  }

  lemma EndIsSmaller(p: string, s: string)
    requires |p| <= |s| && s[|s| - |p|..] == p
    ensures Bytes(p) <= Bytes(s)
  {
    hide Bytes, Newlines;
    var rest := s[..|s| - |p|];
    assert s == rest + p;
    SizesOfConcat(rest, p);
  }

  lemma EndOfEnd(p: string, q: string, s: string)
    requires |p| <= |q| <= |s| && q[|q| - |p|..] == p && s[|s| - |q|..] == q
    ensures s[|s| - |p|..] == p
  {
  }

  // ---------- Small diagnostics ----------

  datatype Value = Words(text: Text) | Number(digits: string) | Flag(b: bool) | Null | Nested

  datatype Field = Field(key: Text, value: Value)

  /** Whether a field may be looked at: a short key, a scalar, and not the old control flag. */
  predicate Scalar(f: Field) {
    && |f.key| <= 64 && f.key != Points("truncation_skip") && !f.value.Nested?
    && (f.value.Words? ==> |f.value.text| <= 128)
  }

  predicate Clean(f: Field) {
    Encodable(f.key) && (f.value.Words? ==> Encodable(f.value.text))
  }

  predicate AllClean(fields: seq<Field>) {
    forall i :: 0 <= i < |fields| ==> Clean(fields[i])
  }

  /** The encoded fields are short; `dump` gives None where they cannot be written as JSON. */
  predicate Short(fields: seq<Field>, dump: seq<Field> -> Option<string>) {
    dump(fields).Some? && AllClean(fields) && Bytes(dump(fields).value) <= 256
  }

  /** Every field in turn, if it may be looked at and the kept ones stay short with it. */
  function Diagnostics(items: seq<Field>, dump: seq<Field> -> Option<string>): seq<Field> {
    if items == [] then []
    else
      var kept := Diagnostics(Front(items), dump);
      if Scalar(Last(items)) && Short(kept + [Last(items)], dump) then kept + [Last(items)] else kept
  }

  /** Every field may be looked at, and is short together with those before it. */
  predicate AllFit(items: seq<Field>, dump: seq<Field> -> Option<string>) {
    forall i :: 0 <= i < |items| ==> Scalar(items[i]) && Short(items[..i + 1], dump)
  }

  /** Nothing is left out while every field may be looked at and all of them stay short together. */
  lemma {:induction false} DiagnosticsKeepAll(items: seq<Field>, dump: seq<Field> -> Option<string>)
    requires AllFit(items, dump)
    ensures Diagnostics(items, dump) == items
  {
    hide Scalar, Short, AllFit;
    if items == [] {
    } else {
      AllFitFront(items, dump);
      DiagnosticsKeepAll(Front(items), dump);
      assert Front(items) + [Last(items)] == items;
    }
  }

  lemma AllFitFront(items: seq<Field>, dump: seq<Field> -> Option<string>)
    requires AllFit(items, dump) && items != []
    ensures AllFit(Front(items), dump) && Scalar(Last(items)) && Short(items, dump)
  {
    hide Scalar, Short;
    var front, n := Front(items), |items|;
    assert Scalar(items[n - 1]) && Short(items[..n - 1 + 1], dump);
    assert items[..n] == items;
    forall i | 0 <= i < |front| ensures Scalar(front[i]) && Short(front[..i + 1], dump) {
      assert Scalar(items[i]) && Short(items[..i + 1], dump);
      assert front[..i + 1] == items[..i + 1];
    }
  }

  function FirstFields(items: seq<Field>): seq<Field> {
    if |items| <= 32 then items else items[..32]
  }

  /** `kept` is what remains of `items` when some are left out. */
  ghost predicate PartOf(kept: seq<Field>, items: seq<Field>) {
    kept == [] ||
    (items != [] && (PartOf(kept, Front(items)) || (Last(kept) == Last(items) && PartOf(Front(kept), Front(items)))))
  }

  lemma PartOfGrows(kept: seq<Field>, items: seq<Field>, f: Field)
    requires PartOf(kept, items)
    ensures PartOf(kept, items + [f]) && PartOf(kept + [f], items + [f])
  {
    assert Front(items + [f]) == items && Last(items + [f]) == f;
    assert Front(kept + [f]) == kept && Last(kept + [f]) == f;
  }

  /** Kept diagnostics are scalar fields of the tool's, in order, that can be encoded within 256 bytes. */
  lemma {:induction false} DiagnosticsAreSmall(items: seq<Field>, dump: seq<Field> -> Option<string>)
    ensures var kept := Diagnostics(items, dump);
            && PartOf(kept, items) && |kept| <= |items| && (kept != [] ==> Short(kept, dump)) && AllClean(kept)
            && forall i :: 0 <= i < |kept| ==> Scalar(kept[i])
  {
    if items == [] {
    } else {
      DiagnosticsAreSmall(Front(items), dump);
      PartOfGrows(Diagnostics(Front(items), dump), Front(items), Last(items));
      assert Front(items) + [Last(items)] == items;
      hide PartOf, Bytes, Scalar, Clean;
    }
  }

  lemma {:induction false} PartOfMore(kept: seq<Field>, items: seq<Field>, n: nat)
    requires n <= |items| && PartOf(kept, items[..n])
    ensures PartOf(kept, items)
    decreases |items| - n
  {
    if n == |items| {
      assert items[..n] == items;
    } else {
      assert items[..n + 1] == items[..n] + [items[n]];
      PartOfGrows(kept, items[..n], items[n]);
      PartOfMore(kept, items, n + 1);
    }
  }

  /** Keeps scalar fields among the first 32 while their encoding stays within 256 bytes. */
  method SmallFields(items: seq<Field>, dump: seq<Field> -> Option<string>) returns (kept: seq<Field>)
    ensures kept == Diagnostics(FirstFields(items), dump)
    ensures PartOf(kept, items) && |kept| <= 32 && AllClean(kept) && (kept != [] ==> Short(kept, dump))
    ensures forall i :: 0 <= i < |kept| ==> Scalar(kept[i])
    ensures |items| <= 32 && AllFit(items, dump) ==> kept == items
  {
    hide AllFit;
    if AllFit(items, dump) {
      DiagnosticsKeepAll(items, dump);
    }
    kept := [];
    var first := FirstFields(items);
    for i := 0 to |first|
      invariant kept == Diagnostics(first[..i], dump)
    {
      assert Front(first[..i + 1]) == first[..i] && Last(first[..i + 1]) == first[i];
      if Scalar(first[i]) && Short(kept + [first[i]], dump) {
        kept := kept + [first[i]];
      }
    }
    assert first[..|first|] == first;
    DiagnosticsAreSmall(first, dump);
    assert first == items[..|first|];
    PartOfMore(kept, items, |first|);
  }

  // ---------- Shrinking the answer ----------

  /** What is shown instead of a large output. */
  datatype Answer = Answer(status: string, preview: string, keptLines: nat, keptBytes: nat, stats: seq<Field>,
                           context: seq<Field>, error: Option<(Text, Text)>, text: string, path: Option<string>)

  /** The answer can be encoded in UTF-8; status, preview, text and path always can. */
  predicate Sendable(a: Answer) {
    && (a.error.Some? ==> Encodable(a.error.value.0) && Encodable(a.error.value.1))
    && AllClean(a.stats) && AllClean(a.context)
  }

  const SHORT_TEXT := "Tool output truncated"

  /** The next smaller answer: half the preview, then no diagnostics, no error, a short text, no path. */
  function Smaller(a: Answer): Option<Answer> {
    if a.preview != "" then
      var half := a.preview[..|a.preview| / 2];
      Some(a.(preview := half, keptBytes := Bytes(half), keptLines := Newlines(half) + if half != "" then 1 else 0))
    else if a.stats != [] || a.context != [] then Some(a.(stats := [], context := []))
    else if a.error.Some? then Some(a.(error := None))
    else if a.text != SHORT_TEXT then Some(a.(text := SHORT_TEXT))
    else if a.path.Some? && a.path.value != "" then Some(a.(path := None))
    else None
  }

  /** How often an answer can be made smaller. */
  function Bits(n: nat): nat {
    if n == 0 then 0 else 1 + Bits(n / 2)
  }

  function Shrinks(a: Answer): nat {
    Bits(|a.preview|) + (if a.stats != [] || a.context != [] then 1 else 0) + (if a.error.Some? then 1 else 0)
    + (if a.text != SHORT_TEXT then 1 else 0) + if a.path.Some? && a.path.value != "" then 1 else 0
  }

  lemma SmallerShrinks(a: Answer)
    ensures Smaller(a).Some? ==> Shrinks(Smaller(a).value) + 1 == Shrinks(a)
    ensures Smaller(a).None? <==> Shrinks(a) == 0
  {
    if a.preview != "" {
      assert Bits(|a.preview|) == 1 + Bits(|a.preview| / 2);
    }
  }

  /** The first answer, of at most `n` ever smaller ones, that fits. */
  function FirstFit(a: Answer, json: Answer -> string, limit: nat, n: nat): Option<string>
    decreases n
  {
    if n == 0 then None
    else if Bytes(json(a)) <= limit then Some(json(a))
    else if Smaller(a).None? then None
    else FirstFit(Smaller(a).value, json, limit, n - 1)
  }

  /** The smallest form of an answer. */
  function Smallest(a: Answer): Answer
    decreases Shrinks(a)
  {
    SmallerShrinks(a);
    if Smaller(a).None? then a else Smallest(Smaller(a).value)
  }

  /** With enough attempts a fit is only missed if the smallest form does not fit. */
  lemma {:induction false} FirstFitFindsAFit(a: Answer, json: Answer -> string, limit: nat, n: nat)
    requires Shrinks(a) < n
    ensures FirstFit(a, json, limit, n).None? ==> Bytes(json(Smallest(a))) > limit
    decreases n
  {
    SmallerShrinks(a);
    if Smaller(a).None? {
    } else {
      FirstFitFindsAFit(Smaller(a).value, json, limit, n - 1);
    }
  }

  lemma {:induction false} BitsOfPower(n: nat, k: nat)
    requires n < Power(k)
    ensures Bits(n) <= k
  {
    if n == 0 {
    } else {
      BitsOfPower(n / 2, k - 1);
    }
  }

  function Power(k: nat): nat {
    if k == 0 then 1 else 2 * Power(k - 1)
  }

  /** Sixty-four attempts are enough for every preview of fewer than 2^59 characters. */
  lemma SixtyFourAttemptsSuffice(a: Answer, json: Answer -> string, limit: nat)
    requires |a.preview| < Power(59)
    ensures FirstFit(a, json, limit, 64).None? ==> Bytes(json(Smallest(a))) > limit
  {
    hide Bits, Power;
    BitsOfPower(|a.preview|, 59);
    FirstFitFindsAFit(a, json, limit, 64);
  }

  const MINIMAL := "{\"status\":\"partial\"}"

  function FallbackFor(status: string): string {
    "{\"status\":\"" + status + "\",\"data\":{\"truncated\":true},\"text\":\"" + SHORT_TEXT + "\"}"
  }

  /** What comes back for an answer: its first form that fits, or the first fallback that does. */
  function Bounded(a: Answer, json: Answer -> string, limit: nat): string {
    var fit := FirstFit(a, json, limit, 64);
    if fit.Some? then fit.value
    else if Bytes(FallbackFor(a.status)) <= limit then FallbackFor(a.status)
    else if Bytes(MINIMAL) <= limit then MINIMAL
    else "{}"
  }

  /** What `b` gives up of `a`: preview first, then diagnostics, error, the text, and last the path. */
  predicate GivesUp(a: Answer, b: Answer) {
    && b.status == a.status
    && b.preview <= a.preview
    && (b.preview == a.preview ==> b.keptBytes == a.keptBytes && b.keptLines == a.keptLines)
    && (b.preview != a.preview ==>
          && b.keptBytes == Bytes(b.preview)
          && b.keptLines == if b.preview == "" then 0 else Lines(b.preview))
    && ((b.stats == a.stats && b.context == a.context) || (b.preview == "" && b.stats == [] && b.context == []))
    && (b.error == a.error || (b.preview == "" && b.stats == [] && b.context == [] && b.error == None))
    && (b.text == a.text || (b.preview == "" && b.error == None && b.text == "Tool output truncated"))
    && (b.path == a.path || (b.error == None && b.text == "Tool output truncated" && b.path == None))
  }

  lemma GivesUpOneMore(a: Answer, b: Answer)
    requires GivesUp(a, b) && Smaller(b).Some?
    ensures GivesUp(a, Smaller(b).value)
    ensures Smaller(b).value != b
  {
    hide Bytes;
    var c := Smaller(b).value;
    if b.preview != "" {
      assert |c.preview| < |b.preview|;
      assert Newlines("") == 0;
    }
  }

  lemma {:induction false} FirstFitGivesUp(a: Answer, b: Answer, json: Answer -> string, limit: nat, n: nat)
    requires GivesUp(a, b)
    ensures FirstFit(b, json, limit, n).Some? ==>
              exists c :: GivesUp(a, c) && Bytes(json(c)) <= limit && FirstFit(b, json, limit, n).value == json(c)
    decreases n
  {
    hide GivesUp, Bytes;
    if n == 0 || Bytes(json(b)) <= limit || Smaller(b).None? {
    } else {
      GivesUpOneMore(a, b);
      FirstFitGivesUp(a, Smaller(b).value, json, limit, n - 1);
    }
  }

  /** What comes back: the answer itself if it fits, or one that gives something up and fits, or a fallback. */
  ghost predicate IsBounded(r: string, a: Answer, json: Answer -> string, limit: nat) {
    && (Bytes(json(a)) <= limit ==> r == json(a))
    && (|| (exists c :: GivesUp(a, c) && Bytes(json(c)) <= limit && r == json(c))
        || r == "{\"status\":\"" + a.status + "\",\"data\":{\"truncated\":true},\"text\":\"Tool output truncated\"}"
        || r == "{\"status\":\"partial\"}"
        || r == "{}")
  }

  lemma BoundedIs(a: Answer, json: Answer -> string, limit: nat)
    ensures IsBounded(Bounded(a, json, limit), a, json, limit)
  {
    FirstFitGivesUp(a, a, json, limit, 64);
    FallbackIs(a.status);
    hide GivesUp, Bytes, Smaller, FallbackFor;
  }

  lemma FallbackIs(status: string)
    ensures FallbackFor(status)
         == "{\"status\":\"" + status + "\",\"data\":{\"truncated\":true},\"text\":\"Tool output truncated\"}"
  {
    assert "\",\"data\":{\"truncated\":true},\"text\":\"" + SHORT_TEXT + "\"}"
        == "\",\"data\":{\"truncated\":true},\"text\":\"Tool output truncated\"}";
  }

  lemma {:induction false} FirstFitFits(a: Answer, json: Answer -> string, limit: nat, n: nat)
    ensures FirstFit(a, json, limit, n).Some? ==> Bytes(FirstFit(a, json, limit, n).value) <= limit
    decreases n
  {
    if n == 0 || Smaller(a).None? {
    } else {
      FirstFitFits(Smaller(a).value, json, limit, n - 1);
    }
  }

  lemma FitStep(a: Answer, json: Answer -> string, limit: nat, n: nat)
    requires n > 0
    ensures FirstFit(a, json, limit, n) ==
            if Bytes(json(a)) <= limit then Some(json(a))
            else if Smaller(a).None? then None
            else FirstFit(Smaller(a).value, json, limit, n - 1)
    ensures Smaller(a).Some? ==> Smaller(a).value.status == a.status && (Sendable(a) ==> Sendable(Smaller(a).value))
  {
  }

  lemma NoMoreAttempts(a: Answer, json: Answer -> string, limit: nat)
    ensures FirstFit(a, json, limit, 0) == None
  {
  }

  /** Gives up the next thing that can be given up. */
  method MakeSmaller(a: Answer) returns (smaller: Option<Answer>)
    ensures smaller == Smaller(a)
  {
    if a.preview != "" {
      var half := a.preview[..|a.preview| / 2];
      return Some(a.(preview := half, keptBytes := Bytes(half),
                     keptLines := Newlines(half) + if half != "" then 1 else 0));
    }
    if a.stats != [] || a.context != [] {
      return Some(a.(stats := [], context := []));
    }
    if a.error.Some? {
      return Some(a.(error := None));
    }
    if a.text != SHORT_TEXT {
      return Some(a.(text := SHORT_TEXT));
    }
    if a.path.Some? && a.path.value != "" {
      return Some(a.(path := None));
    }
    return None;
  }

  /**
   At most sixty-four attempts to encode an answer that fits. An answer that cannot be encoded raises in the first,
   before anything is given up.
   */
  method Shrink(answer: Answer, json: Answer -> string, limit: nat) returns (r: Result<string, ()>)
    requires limit >= 2
    ensures r.Ok? <==> Sendable(answer)
    ensures r.Ok? ==> r.value == Bounded(answer, json, limit) && Bytes(r.value) <= limit
    ensures r.Ok? ==> IsBounded(r.value, answer, json, limit)
  {
    var a := answer;
    BoundedIs(answer, json, limit);
    hide IsBounded;
    FirstFitFits(answer, json, limit, 64);
    hide FirstFit, Bytes, Newlines, FallbackFor, Smaller, Sendable;
    for i := 0 to 64
      invariant FirstFit(answer, json, limit, 64) == FirstFit(a, json, limit, 64 - i) && a.status == answer.status
      invariant Sendable(answer) ==> Sendable(a)
      invariant if i == 0 then a == answer else Sendable(answer)
    {
      FitStep(a, json, limit, 64 - i);
      if !Sendable(a) {
        return Err(());
      }
      var reduced := json(a);
      if Bytes(reduced) <= limit {
        return Ok(reduced);
      }
      var next := MakeSmaller(a);
      if next.None? {
        break;
      }
      a := next.value;
    }
    NoMoreAttempts(a, json, limit);
    if Bytes(FallbackFor(a.status)) <= limit {
      return Ok(FallbackFor(a.status));
    }
    if Bytes(MINIMAL) <= limit {
      return Ok(MINIMAL);
    }
    BytesOfEmptyObject();
    return Ok("{}");
  }

  lemma BytesOfEmptyObject()
    ensures Bytes("{}") == 2
  {
    assert "{}" == "{" + "}";
    SizesOfConcat("{", "}");
    SizeOfOne('{');
    SizeOfOne('}');
  }

  // ---------- Truncation ----------

  predicate Exceeds(raw: string, c: Config) {
    Lines(Normalize(raw)) > c.maxLines || Bytes(Normalize(raw)) > c.maxBytes
  }

  function Limit(c: Config): nat {
    if c.maxBytes < 2 then 2 else c.maxBytes
  }

  /** A decoded value: a text, or anything else, which is shown in characters that can be encoded. */
  datatype Json = Word(text: Text) | Other(shown: string, truthy: bool)

  /** The `error` of an output: an object, of which two members matter, or anything else. */
  datatype ErrorField = Parts(code: Option<Json>, message: Option<Json>, more: bool) | Whole(value: Json)

  /**
   Decoding an output as JSON: an object, something else, refused as no JSON, or raising what nobody catches (a
   number with too many digits).
   */
  datatype Decoding =
    | Object(status: Option<Json>, error: Option<ErrorField>, stats: seq<Field>, context: seq<Field>)
    | NoObject
    | NotJson
    | Raises

  predicate Truthy(v: Json) {
    match v
    case Word(text) => text != []
    case Other(_, truthy) => truthy
  }

  predicate ErrorTruthy(e: ErrorField) {
    match e
    case Parts(code, message, more) => code.Some? || message.Some? || more
    case Whole(value) => Truthy(value)
  }

  function Shown(v: Json): Text {
    match v
    case Word(text) => text
    case Other(shown, _) => Points(shown)
  }

  function ShownOr(v: Option<Json>, default: string): Text {
    if v.Some? && Truthy(v.value) then Shown(v.value) else Points(default)
  }

  /** The code and message kept of an error. */
  function KeptError(e: ErrorField): (Text, Text) {
    match e
    case Parts(code, message, _) => (TakeFirst(ShownOr(code, "TOOL_ERROR"), 64), TakeFirst(ShownOr(message, ""), 160))
    case Whole(value) => (Points("TOOL_ERROR"), TakeFirst(Shown(value), 160))
  }

  predicate SaysError(d: Decoding) {
    d.Object? && d.status == Some(Word(Points("error")))
  }

  function ErrorOf(d: Decoding): Option<(Text, Text)> {
    if SaysError(d) && d.error.Some? && ErrorTruthy(d.error.value) then Some(KeptError(d.error.value)) else None
  }

  /** What is kept of an error has a surrogate in it. */
  predicate ErrorBreaks(d: Decoding) {
    ErrorOf(d).Some? && !(Encodable(ErrorOf(d).value.0) && Encodable(ErrorOf(d).value.1))
  }

  /** The answer to an output, before it is made to fit; path and text of the receipt are given. */
  function AnswerFor(preview: string, d: Decoding, dump: seq<Field> -> Option<string>, path: Option<string>,
                     text: string): Answer
  {
    Answer(if SaysError(d) then "error" else "partial", preview, Lines(preview), Bytes(preview),
           if d.Object? then Diagnostics(FirstFields(d.stats), dump) else [],
           if d.Object? then Diagnostics(FirstFields(d.context), dump) else [],
           ErrorOf(d), text, path)
  }

  /** The first `n` characters, or all of them. */
  predicate FirstOf(p: Text, s: Text, n: nat) {
    p <= s && |p| == if |s| <= n then |s| else n
  }

  /** A member's text, cut to `n` characters, or a default for one that is missing or falsy. */
  predicate TextOr(p: Text, v: Option<Json>, default: string, n: nat) {
    match v
    case None => FirstOf(p, Points(default), n)
    case Some(Word(text)) => FirstOf(p, if text != [] then text else Points(default), n)
    case Some(Other(shown, truthy)) => FirstOf(p, if truthy then Points(shown) else Points(default), n)
  }

  /** The code and message kept of an output's error. */
  predicate KeepsError(code: Text, message: Text, e: ErrorField) {
    match e
    case Parts(c, m, _) => TextOr(code, c, "TOOL_ERROR", 64) && TextOr(message, m, "", 160)
    case Whole(Word(text)) => code == Points("TOOL_ERROR") && FirstOf(message, text, 160)
    case Whole(Other(shown, _)) => code == Points("TOOL_ERROR") && FirstOf(message, Points(shown), 160)
  }

  /** Diagnostics as kept: some of the tool's fields in order, all of them if they are few and fit. */
  ghost predicate Keeps(kept: seq<Field>, items: seq<Field>, dump: seq<Field> -> Option<string>) {
    && PartOf(kept, items) && |kept| <= 32 && (kept != [] ==> Short(kept, dump))
    && (|items| <= 32 && AllFit(items, dump) ==> kept == items)
  }

  /** What an answer reports of a large output, before it is made to fit. */
  ghost predicate Reports(a: Answer, preview: string, d: Decoding, dump: seq<Field> -> Option<string>,
                          path: Option<string>, text: string)
  {
    && (a.preview, a.path, a.text) == (preview, path, text)
    && a.keptBytes == Bytes(preview) && a.keptLines == Newlines(preview) + 1
    && a.status == (if d.Object? && d.status == Some(Word(Points("error"))) then "error" else "partial")
    && (if d.Object? then Keeps(a.stats, d.stats, dump) && Keeps(a.context, d.context, dump)
        else a.stats == [] && a.context == [])
    && (a.error.Some? ==>
          a.status == "error" && d.error.Some? && KeepsError(a.error.value.0, a.error.value.1, d.error.value))
    && (a.error.None? && a.status == "error" && d.error.Some? ==>
          d.error.value in {Parts(None, None, false), Whole(Word([]))}
          || (d.error.value.Whole? && d.error.value.value.Other? && !d.error.value.value.truthy))
  }

  lemma KeptErrorIs(e: ErrorField)
    ensures KeepsError(KeptError(e).0, KeptError(e).1, e)
  {
    assert |Points("TOOL_ERROR")| == 10;
  }

  lemma ErrorIs(d: Decoding)
    ensures ErrorOf(d).Some? ==>
              SaysError(d) && d.error.Some? && KeepsError(ErrorOf(d).value.0, ErrorOf(d).value.1, d.error.value)
    ensures ErrorOf(d).None? && SaysError(d) && d.error.Some? ==>
              d.error.value in {Parts(None, None, false), Whole(Word([]))}
              || (d.error.value.Whole? && d.error.value.value.Other? && !d.error.value.value.truthy)
  {
    hide KeptError, KeepsError;
    if ErrorOf(d).Some? {
      KeptErrorIs(d.error.value);
    }
  }

  lemma DiagnosticsKeep(items: seq<Field>, dump: seq<Field> -> Option<string>)
    ensures Keeps(Diagnostics(FirstFields(items), dump), items, dump)
  {
    var first := FirstFields(items);
    DiagnosticsAreSmall(first, dump);
    hide Diagnostics, Short, AllFit;
    assert first == items[..|first|];
    PartOfMore(Diagnostics(first, dump), items, |first|);
    if |items| <= 32 && AllFit(items, dump) {
      DiagnosticsKeepAll(items, dump);
    }
  }

  lemma AnswerReports(preview: string, d: Decoding, dump: seq<Field> -> Option<string>, path: Option<string>,
                      text: string)
    ensures Reports(AnswerFor(preview, d, dump, path, text), preview, d, dump, path, text)
  {
    hide Diagnostics, Keeps, KeepsError, ErrorOf, Bytes, Newlines, FirstFields;
    ErrorIs(d);
    if d.Object? {
      DiagnosticsKeep(d.stats, dump);
      DiagnosticsKeep(d.context, dump);
    }
  }

  /** Diagnostics never keep an answer from being encoded; only an error can. */
  lemma SendableUnlessErrorBreaks(preview: string, d: Decoding, dump: seq<Field> -> Option<string>,
                                  path: Option<string>, text: string)
    ensures Sendable(AnswerFor(preview, d, dump, path, text)) <==> !ErrorBreaks(d)
  {
    if d.Object? {
      DiagnosticsAreSmall(FirstFields(d.stats), dump);
      DiagnosticsAreSmall(FirstFields(d.context), dump);
    }
    hide Diagnostics, KeptError, Encodable, AllClean, Short;
    assert AllClean([]) by {
      hide Diagnostics;
    }
  }

  /**
   No answer comes back: decoding or measuring the output raises, or it is too large and its error cannot be encoded.
   */
  predicate Unanswerable(raw: Text, c: Config, d: Decoding) {
    d.Raises? || !Encodable(raw) || (Exceeds(Chars(raw), c) && ErrorBreaks(d))
  }

  /**
   An output within the limits comes back untouched, at most a byte longer than the limit for each of its newlines;
   any other is answered within the byte limit, whatever the tool put into it and however long answers are encoded.
   There is no answer exactly for an unanswerable output.
   */
  method Truncate(raw: Text, c: Config, decode: Text -> Decoding, dump: seq<Field> -> Option<string>,
                  path: Option<string>, text: string, json: Answer -> string)
    returns (result: Result<string, ()>)
    ensures result.Err? <==> Unanswerable(raw, c, decode(raw))
    ensures result.Ok? && !Exceeds(Chars(raw), c) ==>
              && Lines(Normalize(Chars(raw))) <= c.maxLines && Bytes(Normalize(Chars(raw))) <= c.maxBytes
              && Points(result.value) == raw && Bytes(result.value) <= c.maxBytes + c.maxLines - 1
    ensures result.Ok? && Exceeds(Chars(raw), c) ==>
              var a := AnswerFor(Preview(Normalize(Chars(raw)), c), decode(raw), dump, path, text);
              && (Lines(Normalize(Chars(raw))) > c.maxLines || Bytes(Normalize(Chars(raw))) > c.maxBytes)
              && Bytes(result.value) <= Limit(c) && result.value == Bounded(a, json, Limit(c))
              && Reports(a, a.preview, decode(raw), dump, path, text)
              && IsBounded(result.value, a, json, if c.maxBytes < 2 then 2 else c.maxBytes)
              && (Sensible(c) ==> ShowsPart(a.preview, Normalize(Chars(raw)), c))
  {
    hide Preview, Reports, IsBounded, ShowsPart, Sensible, Bounded;
    var d := decode(raw);
    if d.Raises? || !Encodable(raw) {
      return Err(());
    }
    var output := Chars(raw);
    var source := Normalize(output);
    if Lines(source) <= c.maxLines && Bytes(source) <= c.maxBytes {
      NormalizedSizes(output);
      return Ok(output);
    }
    var stats, context := [], [];
    if d.Object? {
      stats := SmallFields(d.stats, dump);
      context := SmallFields(d.context, dump);
    }
    var preview := Preview(source, c);
    AnswerReports(preview, d, dump, path, text);
    if Sensible(c) {
      PreviewShowsPart(source, c);
    }
    SendableUnlessErrorBreaks(preview, d, dump, path, text);
    result := Shrink(Answer(if SaysError(d) then "error" else "partial", preview, Lines(preview), Bytes(preview),
                            stats, context, ErrorOf(d), text, path), json, Limit(c));
  }

  /** An error message that is one unpaired surrogate. */
  const HALF := Object(Some(Word(Points("error"))), Some(Parts(None, Some(Word([0xD800])), false)), [], [])

  /**
   Any output that decodes to it and is too large has no answer, although the output itself, which spells the
   surrogate as six ASCII characters, can be encoded. The same surrogate behind 160 other characters does no harm.
   */
  lemma HalfIsUnanswerable(raw: Text, c: Config, long: Text)
    requires Encodable(raw) && Exceeds(Chars(raw), c) && |long| == 160 && Encodable(long)
    ensures Unanswerable(raw, c, HALF)
    ensures !Unanswerable(raw, c, HALF.(error := Some(Parts(None, Some(Word(long + [0xD800])), false))))
  {
    var t := TakeFirst([0xD800 as CodePoint], 160);
    assert Surrogate(t[0]);
    assert TakeFirst(long + [0xD800], 160) == long;
  }

  function Repeat(s: string, n: nat): string {
    if n == 0 then "" else Repeat(s, n - 1) + s
  }

  /** The bound for untouched outputs is reached. */
  lemma UntouchedBoundIsReached(c: Config)
    requires c.maxLines >= 1 && c.maxBytes >= c.maxLines - 1
    ensures var raw := Repeat("\\n", c.maxLines - 1) + Repeat("a", c.maxBytes - c.maxLines + 1);
            !Exceeds(raw, c) && Bytes(raw) == c.maxBytes + c.maxLines - 1
  {
    hide Bytes, Newlines, Normalize, Repeat;
    var k, m := c.maxLines - 1, c.maxBytes - c.maxLines + 1;
    var escapes, letters := Repeat("\\n", k), Repeat("a", m);
    EscapedLines(k, letters);
    Letters(m);
    AllLetters(m);
    NoEscapes(letters);
    SizesOfConcat(escapes, letters);
  }

  lemma {:induction false} Letters(m: nat)
    ensures Bytes(Repeat("a", m)) == m && Newlines(Repeat("a", m)) == 0
  {
    if m == 0 {
    } else {
      Letters(m - 1);
      SizesOfConcat(Repeat("a", m - 1), "a");
      assert "a" == ['a'];
      SizeOfOne('a');
      hide Bytes, Newlines;
    }
  }

  lemma {:induction false} AllLetters(m: nat)
    ensures |Repeat("a", m)| == m
    ensures forall i :: 0 <= i < |Repeat("a", m)| ==> Repeat("a", m)[i] == 'a'
  {
    if m == 0 {
    } else {
      AllLetters(m - 1);
    }
  }

  lemma {:induction false} NoEscapes(s: string)
    requires forall i :: 0 <= i < |s| ==> s[i] != '\\'
    ensures Normalize(s) == s
  {
    if s == "" {
    } else {
      NoEscapes(s[1..]);
      assert s == s[..1] + s[1..];
    }
  }

  lemma {:induction false} EscapedLines(k: nat, rest: string)
    ensures Bytes(Repeat("\\n", k)) == 2 * k
    ensures Bytes(Normalize(Repeat("\\n", k) + rest)) == k + Bytes(Normalize(rest))
    ensures Newlines(Normalize(Repeat("\\n", k) + rest)) == k + Newlines(Normalize(rest))
    decreases k
  {
    if k == 0 {
      assert Repeat("\\n", 0) + rest == rest;
    } else {
      EscapedLines(k - 1, "\\n" + rest);
      assert Repeat("\\n", k) + rest == Repeat("\\n", k - 1) + ("\\n" + rest);
      SizesOfConcat(Repeat("\\n", k - 1), "\\n");
      assert "\\n" == ['\\'] + ['n'];
      SizesOfConcat(['\\'], ['n']);
      SizeOfOne('\\');
      SizeOfOne('n');
      var s := "\\n" + rest;
      assert s[2..] == rest;
      SizesOfConcat("\n", Normalize(rest));
      SizeOfOne('\n');
    }
  }

  lemma {:induction false} NormalizedIsHalf(s: string)
    ensures |s| <= 2 * |Normalize(s)|
  {
    if s == "" {
    } else if |s| >= 2 && s[0] == '\\' && s[1] == 'n' {
      NormalizedIsHalf(s[2..]);
    } else {
      NormalizedIsHalf(s[1..]);
    }
  }

  const SPELLED := "{\"status\":\"error\",\"error\":{\"message\":\"\\ud800\"},\"data\":\""

  /** Such an output, in ASCII: its message spells one unpaired surrogate, and its data makes it too large. */
  lemma SpelledIsUnanswerable(c: Config, decode: Text -> Decoding)
    requires c.maxBytes >= 0
    ensures var raw := SPELLED + Repeat("a", 2 * c.maxBytes) + "\"}";
            && Exceeds(raw, c) && Encodable(Points(raw))
            && (decode(Points(raw)) == HALF ==> Unanswerable(Points(raw), c, decode(Points(raw))))
  {
    var letters := Repeat("a", 2 * c.maxBytes);
    AllLetters(2 * c.maxBytes);
    hide Repeat, Normalize, Bytes, Newlines;
    var raw := SPELLED + letters + "\"}";
    NormalizedIsHalf(raw);
    CharsOfPoints(raw, []);
    HalfIsUnanswerable(Points(raw), c, seq(160, _ => 0x61));
  }
}
