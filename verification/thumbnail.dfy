/** The g-code thumbnail scanner of `Media.__grab_gcode_thumbnail`
    (octoprint_octorant/media.py): a pass over the file's lines that collects the
    base64 text between `; thumbnail begin WxH SIZE` and `; thumbnail end` for the
    largest thumbnail announced so far.

    Two variants share the code: `AsWritten` clears the collected text when a later
    header is not larger, which loses a larger thumbnail that came first;
    `Corrected` keeps it. Callers choose the variant; `AsWritten` is the program. */
module Thumbnail {
  import opened Common
  import opened Decimal

  // ---------------------------------------------------------------- headers

  datatype Header = Begin(size: nat) | End | NotHeader

  const BEGIN_TAG: string := "thumbnail begin "
  const END_TAG: string := "thumbnail end"

  /** `t` is `thumbnail begin W x H SIZE rest` with three non-empty digit runs, and
      the greedy `([0-9]+)` ends where `rest` begins. */
  predicate BeginShape(t: string, w: string, h: string, d: string, rest: string) {
    && |w| > 0 && AllDigits(w) && |h| > 0 && AllDigits(h) && |d| > 0 && AllDigits(d)
    && (|rest| == 0 || !IsDigit(rest[0]))
    && t == BEGIN_TAG + w + "x" + h + " " + d + rest
  }

  /** `re.match("^thumbnail (begin [0-9]+x[0-9]+ ([0-9]+)|end)", t)`: anchored at the
      start only, so anything may follow the size digits or the word `end`. A begin
      header is recognised only in the shape of the pattern, with the value of the
      size group. */
  function ParseHeader(t: string): (r: Header)
    ensures r.End? <==> StartsWith(t, END_TAG)
    ensures r.Begin? ==> StartsWith(t, BEGIN_TAG)
  {
    if StartsWith(t, BEGIN_TAG) then
      assert t[10] == 'b';
      ParseDims(t[|BEGIN_TAG|..])
    else if StartsWith(t, END_TAG) then End
    else NotHeader
  }

  /** `[0-9]+x` and the rest. */
  function ParseDims(r1: string): (r: Header)
    ensures !r.End?
  {
    var w := LeadingDigits(r1);
    if 0 < w < |r1| && r1[w] == 'x' then ParseHeight(r1[w + 1..]) else NotHeader
  }

  /** `[0-9]+ ` and the rest. */
  function ParseHeight(r2: string): (r: Header)
    ensures !r.End?
  {
    var h := LeadingDigits(r2);
    if 0 < h < |r2| && r2[h] == ' ' then ParseSize(r2[h + 1..]) else NotHeader
  }

  /** `([0-9]+)`, read greedily. */
  function ParseSize(r3: string): (r: Header)
    ensures !r.End?
  {
    var n := LeadingDigits(r3);
    if n > 0 then Begin(ParseDigits(r3[..n])) else NotHeader
  }

  /** A begin header is recognised only in the shape of the pattern, with the value
      of the size group: the pieces the three parsers cut off reassemble the text. */
  lemma BeginOnlyInShape(t: string)
    requires ParseHeader(t).Begin?
    ensures exists w, h, d, rest :: BeginShape(t, w, h, d, rest) && ParseHeader(t).size == ParseDigits(d)
  {
    var u1 := t[|BEGIN_TAG|..];
    assert ParseHeader(t) == ParseDims(u1);
    var w, h, d, rest := DimsPieces(u1);
    assert t == BEGIN_TAG + u1;
    Reassociate(BEGIN_TAG, w, h, d, rest);
    assert BeginShape(t, w, h, d, rest);
  }

  lemma Reassociate(a: string, w: string, h: string, d: string, rest: string)
    ensures a + w + "x" + h + " " + d + rest == a + (w + ("x" + (h + (" " + (d + rest)))))
  {
  }

  lemma DimsPieces(u1: string) returns (w: string, h: string, d: string, rest: string)
    requires ParseDims(u1).Begin?
    ensures |w| > 0 && AllDigits(w) && |h| > 0 && AllDigits(h) && |d| > 0 && AllDigits(d)
    ensures |rest| == 0 || !IsDigit(rest[0])
    ensures u1 == w + ("x" + (h + (" " + (d + rest)))) && ParseDims(u1).size == ParseDigits(d)
  {
    var n := LeadingDigits(u1);
    w := u1[..n];
    var u2 := u1[n + 1..];
    h, d, rest := HeightPieces(u2);
    assert u1 == w + ("x" + u2);
  }

  lemma HeightPieces(u2: string) returns (h: string, d: string, rest: string)
    requires ParseHeight(u2).Begin?
    ensures |h| > 0 && AllDigits(h) && |d| > 0 && AllDigits(d)
    ensures |rest| == 0 || !IsDigit(rest[0])
    ensures u2 == h + (" " + (d + rest)) && ParseHeight(u2).size == ParseDigits(d)
  {
    var n := LeadingDigits(u2);
    h := u2[..n];
    var u3 := u2[n + 1..];
    d, rest := SizePieces(u3);
    assert u2 == h + (" " + u3);
  }

  lemma SizePieces(u3: string) returns (d: string, rest: string)
    requires ParseSize(u3).Begin?
    ensures |d| > 0 && AllDigits(d) && (|rest| == 0 || !IsDigit(rest[0]))
    ensures u3 == d + rest && ParseSize(u3).size == ParseDigits(d)
  {
    var n := LeadingDigits(u3);
    d := u3[..n];
    rest := u3[n..];
    assert u3 == d + rest;
  }

  lemma SizeStep(d: string, rest: string)
    requires |d| > 0 && AllDigits(d)
    requires |rest| == 0 || !IsDigit(rest[0])
    ensures ParseSize(d + rest) == Begin(ParseDigits(d))
  {
    LeadingDigitsOfDigits(d, rest);
    assert (d + rest)[..|d|] == d;
  }

  lemma HeightStep(h: string, u: string)
    requires |h| > 0 && AllDigits(h)
    ensures ParseHeight(h + (" " + u)) == ParseSize(u)
  {
    var t := h + (" " + u);
    LeadingDigitsOfDigits(h, " " + u);
    assert LeadingDigits(t) == |h|;
    assert t[|h|] == ' ';
    assert t[|h| + 1..] == u;
  }

  lemma DimsStep(w: string, u: string)
    requires |w| > 0 && AllDigits(w)
    ensures ParseDims(w + ("x" + u)) == ParseHeight(u)
  {
    var t := w + ("x" + u);
    LeadingDigitsOfDigits(w, "x" + u);
    assert LeadingDigits(t) == |w|;
    assert t[|w|] == 'x';
    assert t[|w| + 1..] == u;
  }

  lemma TagStep(u: string)
    ensures ParseHeader(BEGIN_TAG + u) == ParseDims(u)
  {
    var t := BEGIN_TAG + u;
    assert t[..|BEGIN_TAG|] == BEGIN_TAG;
    assert t[|BEGIN_TAG|..] == u;
  }

  /** Every text in the shape of the begin pattern is recognised, with the value of
      its size digits (leading zeros allowed, as `int()` allows them). */
  lemma BeginShapeParses(t: string, w: string, h: string, d: string, rest: string)
    requires BeginShape(t, w, h, d, rest)
    ensures ParseHeader(t) == Begin(ParseDigits(d))
  {
    var u3 := d + rest;
    var u2 := h + (" " + u3);
    var u1 := w + ("x" + u2);
    assert t == BEGIN_TAG + u1;
    TagStep(u1);
    DimsStep(w, u2);
    HeightStep(h, u3);
    SizeStep(d, rest);
  }

  /** The header a slicer writes, `thumbnail begin WxH SIZE`, reads back as its size
      whatever non-digit text follows it. */
  lemma HeaderRoundTrip(width: nat, height: nat, size: nat, rest: string)
    requires |rest| == 0 || !IsDigit(rest[0])
    ensures ParseHeader(BEGIN_TAG + NatText(width) + "x" + NatText(height) + " " + NatText(size) + rest) == Begin(size)
  {
    BeginShapeParses(BEGIN_TAG + NatText(width) + "x" + NatText(height) + " " + NatText(size) + rest,
                     NatText(width), NatText(height), NatText(size), rest);
  }

  // ---------------------------------------------------------------- lines

  /** What one line of the file is to the scanner: not a full-line comment, a begin
      or end header, or a comment line of data (its text after `;`, stripped). */
  datatype LineKind = Code | BeginMark(size: nat) | EndMark | Data(text: string)

  function Classify(line: string): (k: LineKind)
    ensures k.Code? <==> !StartsWith(line, ";")
    ensures k.Data? ==> k.text == Strip(line[1..]) && ParseHeader(k.text).NotHeader?
    ensures k.BeginMark? ==> ParseHeader(Strip(line[1..])) == Begin(k.size)
    ensures k.EndMark? ==> StartsWith(Strip(line[1..]), END_TAG)
  {
    if !StartsWith(line, ";") then Code
    else
      var t := Strip(line[1..]);
      match ParseHeader(t)
      case Begin(n) => BeginMark(n)
      case End => EndMark
      case NotHeader => Data(t)
  }

  /** The kind of every line, in order. */
  function Kinds(lines: seq<string>): (ks: seq<LineKind>)
    ensures |ks| == |lines|
  {
    if |lines| == 0 then [] else [Classify(lines[0])] + Kinds(lines[1..])
  }

  /** The kind at position `i` is the class of line `i`. */
  lemma {:induction false} KindsAt(lines: seq<string>, i: nat)
    requires i < |lines|
    ensures Kinds(lines)[i] == Classify(lines[i])
    decreases i
  {
    if i > 0 {
      KindsAt(lines[1..], i - 1);
      assert Kinds(lines)[i] == Kinds(lines[1..])[i - 1];
    }
  }

  /** The `G1` test sits after the comment test, so it never fires: a line that
      starts with ';' does not start with "G1". */
  lemma MoveCheckUnreachable(line: string)
    requires StartsWith(line, ";")
    ensures !StartsWith(line, "G1")
  {
    assert line[0] == ';';
  }

  // ---------------------------------------------------------------- the scan

  /** The scanner's three variables: collected base64 text, whether a block is being
      collected, and the largest size announced so far (-1 before any). */
  datatype ScanState = ScanState(buffer: string, began: bool, lastSize: int)

  const START: ScanState := ScanState("", false, -1)

  datatype Variant = AsWritten | Corrected

  /** One line of the loop. A header larger than every earlier one starts a fresh
      block; a header that is not larger stops collection and, as written, also
      discards the text collected so far. */
  function Step(v: Variant, st: ScanState, k: LineKind): (r: ScanState)
    ensures r.lastSize == if k.BeginMark? && k.size > st.lastSize then k.size else st.lastSize
    ensures r.began <==> (k.BeginMark? && k.size > st.lastSize) || (st.began && (k.Code? || k.Data?))
    ensures k.Data? && st.began ==> r.buffer == st.buffer + k.text
    ensures !k.BeginMark? && !(k.Data? && st.began) ==> r.buffer == st.buffer
    ensures k.BeginMark? && k.size > st.lastSize ==> r.buffer == ""
    ensures k.BeginMark? && k.size <= st.lastSize ==> r.buffer == if v.AsWritten? then "" else st.buffer
  {
    match k
    case Code => st
    case BeginMark(n) =>
      if n > st.lastSize then ScanState("", true, n)
      else if v.AsWritten? then ScanState("", false, st.lastSize)
      else st.(began := false)
    case EndMark => st.(began := false)
    case Data(t) => if st.began then st.(buffer := st.buffer + t) else st
  }

  /** The loop over the kinds of all lines. */
  function Run(v: Variant, ks: seq<LineKind>, st: ScanState): ScanState
    decreases |ks|
  {
    if |ks| == 0 then st else Run(v, ks[1..], Step(v, st, ks[0]))
  }

  /** The loop of `__grab_gcode_thumbnail` over the raw lines, with its early exit at a
      comment line that starts with "G1". */
  function ScanLines(v: Variant, lines: seq<string>, st: ScanState): (r: ScanState)
    ensures r.lastSize >= st.lastSize
    ensures (forall i :: 0 <= i < |lines| ==> !StartsWith(lines[i], ";")) ==> r == st
    decreases |lines|
  {
    if |lines| == 0 then st
    else if !StartsWith(lines[0], ";") then ScanLines(v, lines[1..], st)
    else if StartsWith(lines[0], "G1") then st
    else ScanLines(v, lines[1..], Step(v, st, Classify(lines[0])))
  }

  /** The early exit never happens: the scan visits every line, and it is the run
      over the lines' kinds. */
  lemma {:induction false} ScanVisitsEveryLine(v: Variant, lines: seq<string>, st: ScanState)
    ensures ScanLines(v, lines, st) == Run(v, Kinds(lines), st)
    decreases |lines|
  {
    if |lines| > 0 {
      var ks := Kinds(lines);
      assert ks[1..] == Kinds(lines[1..]);
      if StartsWith(lines[0], ";") {
        MoveCheckUnreachable(lines[0]);
        ScanVisitsEveryLine(v, lines[1..], Step(v, st, ks[0]));
      } else {
        ScanVisitsEveryLine(v, lines[1..], st);
      }
    }
  }

  /** The file's result: a `thumbnail.png` payload made of the collected text, or
      nothing when no text was collected. */
  function Payload(st: ScanState): (r: Option<string>)
    ensures r.None? <==> st.buffer == ""
    ensures r.Some? ==> r.value == st.buffer
  {
    if |st.buffer| > 0 then Some(st.buffer) else None
  }

  /** The scanner over a whole file: the collected text when there is some. A file
      without a begin header yields nothing. */
  function Grab(v: Variant, lines: seq<string>): (r: Option<string>)
    ensures r.Some? ==> r.value != ""
    ensures (forall i :: 0 <= i < |lines| ==> !Classify(lines[i]).BeginMark?) ==> r.None?
  {
    if forall i :: 0 <= i < |lines| ==> !Classify(lines[i]).BeginMark? then
      NoHeaderNoThumbnail(v, lines);
      Payload(ScanLines(v, lines, START))
    else Payload(ScanLines(v, lines, START))
  }

  // ---------------------------------------------------------------- whole runs

  lemma {:induction false} RunAppend(v: Variant, a: seq<LineKind>, b: seq<LineKind>, st: ScanState)
    ensures Run(v, a + b, st) == Run(v, b, Run(v, a, st))
    decreases |a|
  {
    if |a| > 0 {
      assert (a + b)[1..] == a[1..] + b;
      RunAppend(v, a[1..], b, Step(v, st, a[0]));
    } else {
      assert a + b == b;
    }
  }

  /** Lines that are not full-line comments can be removed anywhere without changing
      the outcome. */
  lemma CodeLineIrrelevant(v: Variant, a: seq<LineKind>, b: seq<LineKind>, st: ScanState)
    ensures Run(v, a + [Code] + b, st) == Run(v, a + b, st)
  {
    RunAppend(v, a + [Code], b, st);
    RunAppend(v, a, [Code], st);
    RunAppend(v, a, b, st);
    assert Run(v, [Code], Run(v, a, st)) == Run(v, a, st);
  }

  /** The sizes announced by begin headers among `ks` are all below `n`. */
  predicate BeginsBelow(ks: seq<LineKind>, n: int) {
    forall i :: 0 <= i < |ks| && ks[i].BeginMark? ==> ks[i].size < n
  }

  predicate BeginsAtMost(ks: seq<LineKind>, n: int) {
    forall i :: 0 <= i < |ks| && ks[i].BeginMark? ==> ks[i].size <= n
  }

  /** The recorded maximum never decreases, bounds every size announced during the
      run, and is either the starting value or one of those sizes. */
  lemma {:induction false} LastSizeIsRunningMax(v: Variant, ks: seq<LineKind>, st: ScanState)
    ensures Run(v, ks, st).lastSize >= st.lastSize
    ensures BeginsAtMost(ks, Run(v, ks, st).lastSize)
    ensures Run(v, ks, st).lastSize == st.lastSize
         || exists i :: 0 <= i < |ks| && ks[i].BeginMark? && ks[i].size == Run(v, ks, st).lastSize
    decreases |ks|
  {
    if |ks| > 0 {
      var st1 := Step(v, st, ks[0]);
      var r := Run(v, ks, st);
      LastSizeIsRunningMax(v, ks[1..], st1);
      assert r == Run(v, ks[1..], st1);
      assert st1.lastSize >= st.lastSize;
      assert ks[0].BeginMark? ==> ks[0].size <= st1.lastSize;
      forall i | 0 <= i < |ks| && ks[i].BeginMark?
        ensures ks[i].size <= r.lastSize
      {
        if i > 0 { assert ks[i] == ks[1..][i - 1]; }
      }
      if r.lastSize != st.lastSize {
        if r.lastSize == st1.lastSize {
          assert ks[0].BeginMark? && ks[0].size == r.lastSize;
        } else {
          var j :| 0 <= j < |ks[1..]| && ks[1..][j].BeginMark? && ks[1..][j].size == r.lastSize;
          assert ks[j + 1] == ks[1..][j];
        }
      }
    }
  }

  /** If every size announced in `ks` is below `n`, so is the recorded maximum. */
  lemma LastSizeBelow(v: Variant, ks: seq<LineKind>, st: ScanState, n: int)
    requires st.lastSize < n && BeginsBelow(ks, n)
    ensures Run(v, ks, st).lastSize < n
  {
    LastSizeIsRunningMax(v, ks, st);
  }

  /** The data text of the lines up to the first header: what one block contributes. */
  function Body(ks: seq<LineKind>): string
    decreases |ks|
  {
    if |ks| == 0 then ""
    else match ks[0]
      case Code => Body(ks[1..])
      case Data(t) => t + Body(ks[1..])
      case BeginMark(_) => ""
      case EndMark => ""
  }

  /** After the last header that could start a block, only the lines up to the next
      header are added, and only when a block is being collected. This holds for
      both variants as long as no later header is larger; as written, it needs no
      later header at all. */
  lemma {:induction false} RunWithoutLargerHeader(v: Variant, ks: seq<LineKind>, st: ScanState)
    requires BeginsAtMost(ks, st.lastSize)
    requires v.AsWritten? ==> forall i :: 0 <= i < |ks| ==> !ks[i].BeginMark?
    ensures Run(v, ks, st).buffer == if st.began then st.buffer + Body(ks) else st.buffer
    ensures Run(v, ks, st).lastSize == st.lastSize
    decreases |ks|
  {
    if |ks| > 0 {
      var st1 := Step(v, st, ks[0]);
      var tail := ks[1..];
      assert BeginsAtMost(tail, st1.lastSize) by {
        forall i | 0 <= i < |tail| && tail[i].BeginMark?
          ensures tail[i].size <= st1.lastSize
        {
          assert tail[i] == ks[i + 1];
        }
      }
      assert v.AsWritten? ==> forall i :: 0 <= i < |tail| ==> !tail[i].BeginMark? by {
        if v.AsWritten? {
          forall i | 0 <= i < |tail| ensures !tail[i].BeginMark? {
            assert tail[i] == ks[i + 1];
          }
        }
      }
      RunWithoutLargerHeader(v, tail, st1);
      match ks[0]
      case Code =>
      case Data(t) =>
        if st.began {
          assert st.buffer + (t + Body(tail)) == (st.buffer + t) + Body(tail);
        }
      case EndMark =>
      case BeginMark(n) =>
        assert n <= st.lastSize;
        assert v.Corrected?;
    }
  }

  /** As written, the last begin header decides everything: the result is the block
      after it when it announced a new maximum, and nothing at all otherwise. */
  lemma LastHeaderDecides(prefix: seq<LineKind>, n: nat, suffix: seq<LineKind>)
    requires forall i :: 0 <= i < |suffix| ==> !suffix[i].BeginMark?
    ensures Run(AsWritten, prefix + [BeginMark(n)] + suffix, START).buffer
         == if n > Run(AsWritten, prefix, START).lastSize then Body(suffix) else ""
  {
    var v := AsWritten;
    RunAppend(v, prefix + [BeginMark(n)], suffix, START);
    RunAppend(v, prefix, [BeginMark(n)], START);
    var st := Run(v, prefix + [BeginMark(n)], START);
    assert st == Step(v, Run(v, prefix, START), BeginMark(n));
    RunWithoutLargerHeader(v, suffix, st);
    assert "" + Body(suffix) == Body(suffix);
  }

  /** Corrected: the block of the first header that announces the largest size is
      the one kept, whatever follows it. */
  lemma FirstLargestKept(prefix: seq<LineKind>, n: nat, suffix: seq<LineKind>)
    requires BeginsBelow(prefix, n)
    requires BeginsAtMost(suffix, n)
    ensures Run(Corrected, prefix + [BeginMark(n)] + suffix, START).buffer == Body(suffix)
  {
    var v := Corrected;
    RunAppend(v, prefix + [BeginMark(n)], suffix, START);
    RunAppend(v, prefix, [BeginMark(n)], START);
    LastSizeBelow(v, prefix, START, n);
    var st := Run(v, prefix + [BeginMark(n)], START);
    assert st == Step(v, Run(v, prefix, START), BeginMark(n));
    assert st == ScanState("", true, n);
    RunWithoutLargerHeader(v, suffix, st);
    assert "" + Body(suffix) == Body(suffix);
  }

  /** A file without any begin header yields no thumbnail, in either variant. */
  lemma NoHeaderNoThumbnail(v: Variant, lines: seq<string>)
    requires forall i :: 0 <= i < |lines| ==> !Classify(lines[i]).BeginMark?
    ensures Payload(ScanLines(v, lines, START)).None?
  {
    ScanVisitsEveryLine(v, lines, START);
    var ks := Kinds(lines);
    forall i | 0 <= i < |ks| ensures !ks[i].BeginMark? {
      KindsAt(lines, i);
    }
    RunWithoutLargerHeader(v, ks, START);
  }

  /** Position `h` holds the first header announcing the largest size: every header
      before it is smaller, none after it is larger. */
  predicate FirstLargestAt(ks: seq<LineKind>, h: nat) {
    h < |ks| && ks[h].BeginMark? && BeginsBelow(ks[..h], ks[h].size) && BeginsAtMost(ks[h + 1..], ks[h].size)
  }

  /** The corrected scanner over a file: the thumbnail is the data of the block that
      follows the first header announcing the largest size. */
  lemma GrabKeepsFirstLargest(lines: seq<string>, h: nat)
    requires FirstLargestAt(Kinds(lines), h)
    ensures var body := Body(Kinds(lines)[h + 1..]);
            Grab(Corrected, lines) == if body == "" then None else Some(body)
  {
    var ks := Kinds(lines);
    var n := ks[h].size;
    assert ks == ks[..h] + [BeginMark(n)] + ks[h + 1..];
    ScanVisitsEveryLine(Corrected, lines, START);
    FirstLargestKept(ks[..h], n, ks[h + 1..]);
  }

  // ---------------------------------------------------------------- a larger thumbnail first

  /** A comment line as a slicer writes it: `; TEXT` and a newline. */
  function CommentLine(text: string): string {
    "; " + text + "\n"
  }

  /** The comment line `; thumbnail begin WxH SIZE`. */
  function HeaderLine(width: nat, height: nat, size: nat): string {
    CommentLine(BEGIN_TAG + NatText(width) + "x" + NatText(height) + " " + NatText(size))
  }

  /** A comment line is classified by its text alone. */
  lemma ClassifyComment(text: string)
    requires |text| > 0 && !IsSpace(text[0]) && !IsSpace(text[|text| - 1])
    ensures Classify(CommentLine(text))
         == match ParseHeader(text)
            case Begin(n) => BeginMark(n)
            case End => EndMark
            case NotHeader => Data(text)
  {
    var line := CommentLine(text);
    var s := " " + text + "\n";
    assert line[..1] == ";";
    assert line[1..] == s;
    assert LeadingSpace(s) == 1 by { assert s[1..][0] == text[0]; }
    var rest := s[1..];
    assert rest == text + "\n";
    assert rest[..|rest| - 1] == text;
    assert TrailingSpace(rest) == 1;
    assert Strip(s) == text;
  }

  lemma BeginLine(width: nat, height: nat, size: nat)
    ensures Classify(HeaderLine(width, height, size)) == BeginMark(size)
  {
    var text := BEGIN_TAG + NatText(width) + "x" + NatText(height) + " " + NatText(size);
    assert text == BEGIN_TAG + NatText(width) + "x" + NatText(height) + " " + NatText(size) + "";
    HeaderRoundTrip(width, height, size, "");
    assert text[|text| - 1] == NatText(size)[|NatText(size)| - 1];
    ClassifyComment(text);
  }

  lemma EndLine()
    ensures Classify(CommentLine(END_TAG)) == EndMark
  {
    assert StartsWith(END_TAG, END_TAG);
    ClassifyComment(END_TAG);
  }

  /** Text that a comment line carries as base64 data rather than as a header. */
  predicate DataText(text: string) {
    |text| > 0 && !IsSpace(text[0]) && !IsSpace(text[|text| - 1]) && text[0] != 't'
  }

  lemma DataLine(text: string)
    requires DataText(text)
    ensures Classify(CommentLine(text)) == Data(text)
  {
    assert !StartsWith(text, BEGIN_TAG) && !StartsWith(text, END_TAG);
    ClassifyComment(text);
  }

  /** A file with a larger thumbnail followed by a smaller one:
      `; thumbnail begin W1xH1 BIG`, `; A`, `; thumbnail end`,
      `; thumbnail begin W2xH2 SMALL`, `; B`, `; thumbnail end`. */
  function LargerFirst(w1: nat, h1: nat, big: nat, a: string, w2: nat, h2: nat, small: nat, b: string): seq<string> {
    [HeaderLine(w1, h1, big)] + ([CommentLine(a)] + ([CommentLine(END_TAG)]
      + ([HeaderLine(w2, h2, small)] + ([CommentLine(b)] + [CommentLine(END_TAG)]))))
  }

  /** The scan over a comment line of kind `k`, then the rest. */
  lemma ScanComment(v: Variant, line: string, rest: seq<string>, st: ScanState, k: LineKind)
    requires StartsWith(line, ";") && Classify(line) == k
    ensures ScanLines(v, [line] + rest, st) == ScanLines(v, rest, Step(v, st, k))
  {
    MoveCheckUnreachable(line);
    assert ([line] + rest)[1..] == rest;
  }

  lemma ScanHeaderLine(v: Variant, w: nat, h: nat, size: nat, rest: seq<string>, st: ScanState)
    ensures ScanLines(v, [HeaderLine(w, h, size)] + rest, st) == ScanLines(v, rest, Step(v, st, BeginMark(size)))
  {
    BeginLine(w, h, size);
    ScanComment(v, HeaderLine(w, h, size), rest, st, BeginMark(size));
  }

  lemma ScanEndLine(v: Variant, rest: seq<string>, st: ScanState)
    ensures ScanLines(v, [CommentLine(END_TAG)] + rest, st) == ScanLines(v, rest, Step(v, st, EndMark))
  {
    EndLine();
    ScanComment(v, CommentLine(END_TAG), rest, st, EndMark);
  }

  lemma ScanDataLine(v: Variant, text: string, rest: seq<string>, st: ScanState)
    requires DataText(text)
    ensures ScanLines(v, [CommentLine(text)] + rest, st) == ScanLines(v, rest, Step(v, st, Data(text)))
  {
    DataLine(text);
    ScanComment(v, CommentLine(text), rest, st, Data(text));
  }

  /** As written, a larger thumbnail announced first is thrown away by a smaller one
      after it, and the file yields no thumbnail at all; corrected, the larger one is
      kept. */
  lemma LargerFirstLost(w1: nat, h1: nat, big: nat, a: string, w2: nat, h2: nat, small: nat, b: string)
    requires small <= big && DataText(a) && DataText(b)
    ensures Grab(AsWritten, LargerFirst(w1, h1, big, a, w2, h2, small, b)) == None
    ensures Grab(Corrected, LargerFirst(w1, h1, big, a, w2, h2, small, b)) == Some(a)
  {
    var r5: seq<string> := [CommentLine(END_TAG)];
    var r4 := [CommentLine(b)] + r5;
    var r3 := [HeaderLine(w2, h2, small)] + r4;
    var r2 := [CommentLine(END_TAG)] + r3;
    var r1 := [CommentLine(a)] + r2;
    var l := [HeaderLine(w1, h1, big)] + r1;
    var s1 := ScanState("", true, big);
    var s2 := ScanState(a, true, big);
    var s3 := ScanState(a, false, big);
    assert "" + a == a;
    forall v: Variant
      ensures ScanLines(v, l, START) == if v.AsWritten? then ScanState("", false, big) else s3
    {
      var s4 := if v.AsWritten? then ScanState("", false, big) else s3;
      ScanHeaderLine(v, w1, h1, big, r1, START);
      ScanDataLine(v, a, r2, s1);
      ScanEndLine(v, r3, s2);
      ScanHeaderLine(v, w2, h2, small, r4, s3);
      ScanDataLine(v, b, r5, s4);
      ScanEndLine(v, [], s4);
      assert r5 == [CommentLine(END_TAG)] + [];
    }
  }

  /** The concrete file `; thumbnail begin 16x16 8`, `; QUJD`, `; thumbnail end`,
      `; thumbnail begin 8x8 4`, `; QQ==`, `; thumbnail end`. */
  lemma LargerFirstExample()
    ensures Grab(AsWritten, LargerFirst(16, 16, 8, "QUJD", 8, 8, 4, "QQ==")) == None
    ensures Grab(Corrected, LargerFirst(16, 16, 8, "QUJD", 8, 8, 4, "QQ==")) == Some("QUJD")
  {
    LargerFirstLost(16, 16, 8, "QUJD", 8, 8, 4, "QQ==");
  }
}
