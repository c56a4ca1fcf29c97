/**
 * The chunker: one PDF file's element stream becomes header-prefixed,
 * overlapping text chunks (chunking.py). A character accumulator grows by
 * each element's text plus a newline; it is closed into a chunk once it
 * holds at least 300 characters or at the file's last element, and then
 * reseeded with at most its last 100 characters, left-stripped. Whatever
 * non-blank text remains after the last element becomes one more chunk.
 */
module Chunking {
  import opened Wrappers
  import opened Text
  import opened Values
  import opened Seqs

  const ChunkThreshold := 300
  const OverlapSize := 100
  const FormMarker := "-10-k-"
  const PdfExtension := ".pdf"

  /** One element reported by the document partitioner: `str(element)` and its metadata. */
  datatype Element = Element(text: string, metadata: Metadata)

  datatype Chunk = Chunk(content: string, metadata: Metadata)

  /** A file of the data directory; `partition` is None when partitioning it raised. */
  datatype SourceFile = SourceFile(name: string, partition: Option<seq<Element>>)

  // ---------------------------------------------------------------------
  // Company and fiscal year from the file name
  // ---------------------------------------------------------------------

  /** The first index at or after `i` that holds no ASCII letter, or `|s|`. */
  function LetterRun(s: string, i: nat): (k: nat)
    requires i <= |s|
    ensures i <= k <= |s|
    ensures forall j :: i <= j < k ==> IsLetter(s[j])
    ensures k < |s| ==> !IsLetter(s[k])
    decreases |s| - i
  {
    if i == |s| || !IsLetter(s[i]) then i else LetterRun(s, i + 1)
  }

  /**
   * `re.match(r'([a-zA-Z]+)-10-k-(\d{4})\.pdf', name)`: the two groups when
   * the pattern matches at the start of `name` (anything may follow).
   */
  function MatchFileName(name: string): Option<(string, string)> {
    var k := LetterRun(name, 0);
    if 0 < k && k + 14 <= |name| && name[k..k + 6] == FormMarker
       && AllDigits(name[k + 6..k + 10]) && name[k + 10..k + 14] == PdfExtension
    then Some((name[..k], name[k + 6..k + 10]))
    else None
  }

  /** The file name pattern, stated without the matcher: letters, the form marker, four digits, ".pdf". */
  predicate FileNameShape(name: string, letters: string, digits: string) {
    && |letters| > 0 && AllLetters(letters)
    && |digits| == 4 && AllDigits(digits)
    && IsPrefix(letters + FormMarker + digits + PdfExtension, name)
  }

  /** The letter run from the start ends at the first non-letter. */
  lemma LetterRunEnds(name: string, l: nat)
    requires l < |name| && (forall j :: 0 <= j < l ==> IsLetter(name[j])) && !IsLetter(name[l])
    ensures LetterRun(name, 0) == l
  {
  }

  /** A name of the expected shape is matched, with its letters and digits as the groups. */
  lemma ShapeMatches(name: string, letters: string, digits: string)
    requires FileNameShape(name, letters, digits)
    ensures MatchFileName(name) == Some((letters, digits))
  {
    var whole := letters + FormMarker + digits + PdfExtension;
    var l := |letters|;
    assert name[..|whole|] == whole;
    assert forall j :: 0 <= j < l ==> name[j] == whole[j] == letters[j];
    assert name[l] == whole[l] == '-';
    LetterRunEnds(name, l);
    assert name[..l] == whole[..l] == letters;
    assert name[l..l + 6] == whole[l..l + 6] == FormMarker;
    assert name[l + 6..l + 10] == whole[l + 6..l + 10] == digits;
    assert name[l + 10..l + 14] == whole[l + 10..l + 14] == PdfExtension;
  }

  /** A match has the expected shape. */
  lemma MatchShaped(name: string, letters: string, digits: string)
    requires MatchFileName(name) == Some((letters, digits))
    ensures FileNameShape(name, letters, digits)
  {
    var k := LetterRun(name, 0);
    assert letters == name[..k] && digits == name[k + 6..k + 10];
    assert letters + FormMarker + digits + PdfExtension == name[..k + 14];
  }

  lemma FileNameMatch(name: string, letters: string, digits: string)
    ensures MatchFileName(name) == Some((letters, digits)) <==> FileNameShape(name, letters, digits)
  {
    if FileNameShape(name, letters, digits) {
      ShapeMatches(name, letters, digits);
    }
    if MatchFileName(name) == Some((letters, digits)) {
      MatchShaped(name, letters, digits);
    }
  }

  /** Lines 26-28 (and rag_agent.py lines 62-64): the company and the year a file name stands for. */
  function CompanyYear(name: string): (string, string) {
    match MatchFileName(name)
    case Some((letters, digits)) => (Upper(letters), digits)
    case None => (name, NotAvailable)
  }

  /** A name of the expected shape gives the upper-cased letters and the four digits, whatever follows ".pdf". */
  lemma CompanyYearMatched(letters: string, digits: string, rest: string)
    requires |letters| > 0 && AllLetters(letters) && |digits| == 4 && AllDigits(digits)
    ensures CompanyYear(letters + FormMarker + digits + PdfExtension + rest) == (Upper(letters), digits)
  {
    var name := letters + FormMarker + digits + PdfExtension + rest;
    assert name[..|letters + FormMarker + digits + PdfExtension|] == letters + FormMarker + digits + PdfExtension;
    FileNameMatch(name, letters, digits);
  }

  /** Any other name is its own company, with year "N/A". */
  lemma CompanyYearUnmatched(name: string)
    requires forall letters, digits :: !FileNameShape(name, letters, digits)
    ensures CompanyYear(name) == (name, NotAvailable)
  {
    match MatchFileName(name)
    case Some((letters, digits)) =>
      FileNameMatch(name, letters, digits);
      assert false;
    case None =>
  }

  /** The provenance line every chunk of the file starts with. */
  function Header(name: string): string {
    var (company, year) := CompanyYear(name);
    "This excerpt is from company " + company + " FY " + year + ".\n"
  }

  // ---------------------------------------------------------------------
  // One element's metadata and the overlap carried between chunks
  // ---------------------------------------------------------------------

  /** Lines 35-39: the element's metadata with `source` set and `page_number` defaulted. */
  function ElementMetadata(name: string, m: Metadata): Metadata {
    var withSource := m[SourceKey := Scalar(Str(name))];
    withSource[PageNumberKey := if PageNumberKey in withSource then withSource[PageNumberKey]
                                else Scalar(Str(NotAvailable))]
  }

  lemma ElementMetadataFacts(name: string, m: Metadata)
    ensures var r := ElementMetadata(name, m);
      && r.Keys == m.Keys + {SourceKey, PageNumberKey}
      && r[SourceKey] == Scalar(Str(name))
      && r[PageNumberKey] == (if PageNumberKey in m then m[PageNumberKey] else Scalar(Str(NotAvailable)))
      && forall k :: k in m && k != SourceKey && k != PageNumberKey ==> r[k] == m[k]
  {
  }

  /** Python's `s[-n:]`. */
  function Tail(s: string, n: nat): string {
    if |s| <= n then s else s[|s| - n..]
  }

  /** Line 63: the text that seeds the next chunk, `s[-100:].lstrip()`. */
  function Carry(s: string): string {
    LStrip(Tail(s, OverlapSize))
  }

  /**
   * The carry is at most 100 characters, a tail of the accumulator that does
   * not start with whitespace; only whitespace of the last 100 characters is dropped.
   */
  lemma CarryFacts(s: string)
    ensures var r := Carry(s);
      && |r| <= OverlapSize
      && IsSuffix(r, s)
      && (r == [] || !IsSpace(r[0]))
      && IsBlank(s[|s| - Min(|s|, OverlapSize)..|s| - |r|])
  {
    var tail := Tail(s, OverlapSize);
    var start := |s| - Min(|s|, OverlapSize);
    assert tail == s[start..];
    var r := LStrip(tail);
    LStripFacts(tail);
    assert tail[..|tail| - |r|] == s[start..|s| - |r|];
    assert s[|s| - |r|..] == tail[|tail| - |r|..];
  }

  /** What the elements `es[a..b]` add to an accumulator: each text followed by a newline. */
  function LinesBetween(es: seq<Element>, a: nat, b: nat): string
    decreases b
  {
    if b <= a || b > |es| then "" else LinesBetween(es, a, b - 1) + es[b - 1].text + "\n"
  }

  // ---------------------------------------------------------------------
  // The element loop as a specification
  // ---------------------------------------------------------------------

  /**
   * The accumulator's history after some elements: the pending accumulator
   * `text`, and for each chunk closed so far the unstripped accumulator it
   * was made from (`raws`) and the index of the element that closed it (`ends`).
   */
  datatype Trace = Trace(text: string, raws: seq<string>, ends: seq<nat>)

  predicate ClosesChunk(text: string, i: nat, count: nat) {
    |text| >= ChunkThreshold || i == count - 1
  }

  /** Lines 42 and 45-63: one pass of the element loop, as it affects the accumulator. */
  function Step(es: seq<Element>, i: nat, p: Trace): Trace
    requires i < |es|
  {
    var text := p.text + es[i].text + "\n";
    if ClosesChunk(text, i, |es|) then Trace(Carry(text), p.raws + [text], p.ends + [i])
    else Trace(text, p.raws, p.ends)
  }

  /** The accumulator's history after the first `k` elements. */
  function Run(es: seq<Element>, k: nat): Trace
    requires k <= |es|
  {
    if k == 0 then Trace("", [], []) else Step(es, k - 1, Run(es, k - 1))
  }

  /**
   * Lines 48-59: the chunks the first `k` elements close, each headed by
   * `header`: one for every step that closed an accumulator, made from it.
   */
  function Emitted(header: string, name: string, es: seq<Element>, k: nat): seq<Chunk>
    requires k <= |es|
  {
    if k == 0 then []
    else
      var raws := Run(es, k).raws;
      if |raws| > |Run(es, k - 1).raws| then
        Emitted(header, name, es, k - 1) + [Chunk(header + Strip(raws[|raws| - 1]), ElementMetadata(name, es[k - 1].metadata))]
      else Emitted(header, name, es, k - 1)
  }

  /** Lines 30 and 48: the metadata last assigned, `{}` before any element. */
  function LastMetadata(name: string, es: seq<Element>): Metadata {
    if es == [] then map[] else ElementMetadata(name, es[|es| - 1].metadata)
  }

  /** Lines 25-74: all chunks of one file, the trailing one included, each headed by `header`. */
  function Chunks(header: string, name: string, es: seq<Element>): seq<Chunk> {
    var rest := Run(es, |es|).text;
    var chunks := Emitted(header, name, es, |es|);
    if Strip(rest) != "" then chunks + [Chunk(header + Strip(rest), LastMetadata(name, es))]
    else chunks
  }

  /** The chunks of the file `name`, headed by the provenance line its name gives. */
  function ChunkFile(name: string, es: seq<Element>): seq<Chunk> {
    Chunks(Header(name), name, es)
  }

  /** The text the `j`-th chunk's accumulator started from: nothing, or the previous carry. */
  function Seed(p: Trace, j: nat): string
    requires j <= |p.raws|
  {
    if j == 0 then "" else Carry(p.raws[j - 1])
  }

  /** The index of the first element the `j`-th chunk takes. */
  function Start(p: Trace, j: nat): nat
    requires j <= |p.ends|
  {
    if j == 0 then 0 else p.ends[j - 1] + 1
  }

  /** The sizes agree, and the closing elements are increasing indices below `k`. */
  ghost predicate WellShaped(es: seq<Element>, k: nat, p: Trace) {
    && |p.raws| == |p.ends| <= k <= |es|
    && (forall j :: 0 <= j < |p.ends| ==> p.ends[j] < k)
    && (forall j :: 0 < j < |p.ends| ==> p.ends[j - 1] < p.ends[j])
  }

  /** Every chunk was closed because its accumulator reached the threshold or its last element was the file's last. */
  ghost predicate CloseRule(es: seq<Element>, p: Trace) {
    forall j :: 0 <= j < |p.raws| && j < |p.ends| ==>
      |p.raws[j]| >= ChunkThreshold || p.ends[j] == |es| - 1
  }

  /** The `j`-th accumulator is the previous carry followed by the lines of the elements it took. */
  ghost predicate Accumulated(es: seq<Element>, p: Trace, j: nat) {
    j < |p.raws| && j < |p.ends| && p.raws[j] == Seed(p, j) + LinesBetween(es, Start(p, j), p.ends[j] + 1)
  }

  /** Each accumulator, and the pending one, is the previous carry followed by the lines taken since. */
  ghost predicate AccumulatorRule(es: seq<Element>, k: nat, p: Trace) {
    && (forall j :: 0 <= j < |p.ends| ==> Accumulated(es, p, j))
    && p.text == Seed(p, |p.raws|) + LinesBetween(es, Start(p, |p.ends|), k)
  }

  /** The `k`-th element closed a chunk. */
  predicate ClosedLast(k: nat, p: Trace) {
    |p.ends| > 0 && p.ends[|p.ends| - 1] == k - 1
  }

  /** An element that closed no chunk left the accumulator below the threshold and was not the last. */
  predicate PendingRule(es: seq<Element>, k: nat, p: Trace) {
    k > 0 && !ClosedLast(k, p) ==> |p.text| < ChunkThreshold && k < |es|
  }

  /** The `j`-th emitted chunk is the header, the `j`-th accumulator stripped, and its closing element's metadata. */
  ghost predicate EmittedRule(header: string, name: string, es: seq<Element>, p: Trace, cs: seq<Chunk>)
    requires |p.raws| == |p.ends| && forall j :: 0 <= j < |p.ends| ==> p.ends[j] < |es|
  {
    && |cs| == |p.raws|
    && forall j :: 0 <= j < |cs| ==>
         cs[j] == Chunk(header + Strip(p.raws[j]), ElementMetadata(name, es[p.ends[j]].metadata))
  }

  lemma {:induction false} RunWellShaped(es: seq<Element>, k: nat)
    requires k <= |es|
    ensures WellShaped(es, k, Run(es, k))
  {
    if k > 0 {
      RunWellShaped(es, k - 1);
    }
  }

  lemma {:induction false} RunCloseRule(es: seq<Element>, k: nat)
    requires k <= |es|
    ensures CloseRule(es, Run(es, k)) && PendingRule(es, k, Run(es, k))
  {
    RunWellShaped(es, k);
    if k > 0 {
      RunCloseRule(es, k - 1);
    }
  }

  /** Seeds and starts of the chunks closed so far do not change when one more closes. */
  lemma AccumulatedKept(es: seq<Element>, p: Trace, q: Trace, n: nat)
    requires |p.raws| == |p.ends| == n <= |q.raws| && n <= |q.ends|
    requires q.raws[..n] == p.raws && q.ends[..n] == p.ends
    requires forall j :: 0 <= j < n ==> Accumulated(es, p, j)
    ensures forall j :: 0 <= j < n ==> Accumulated(es, q, j)
  {
    forall j | 0 <= j < n
      ensures Accumulated(es, q, j)
    {
      assert q.raws[j] == q.raws[..n][j] && q.ends[j] == q.ends[..n][j];
      if j > 0 {
        assert q.raws[j - 1] == q.raws[..n][j - 1] && q.ends[j - 1] == q.ends[..n][j - 1];
      }
      assert Seed(q, j) == Seed(p, j) && Start(q, j) == Start(p, j);
      assert Accumulated(es, p, j);
    }
  }

  /** Closing the accumulator `text` makes it the newest closed one. */
  lemma AccumulateClosed(es: seq<Element>, k: nat, p: Trace, text: string)
    requires 0 < k <= |es| && |p.raws| == |p.ends|
    requires AccumulatorRule(es, k - 1, p)
    requires text == Seed(p, |p.raws|) + LinesBetween(es, Start(p, |p.ends|), k)
    ensures var q := Trace(Carry(text), p.raws + [text], p.ends + [k - 1]);
      forall j :: 0 <= j < |q.ends| ==> Accumulated(es, q, j)
  {
    var n := |p.ends|;
    var q := Trace(Carry(text), p.raws + [text], p.ends + [k - 1]);
    assert q.raws[..n] == p.raws && q.ends[..n] == p.ends;
    AccumulatedKept(es, p, q, n);
    assert Seed(q, n) == Seed(p, n) && Start(q, n) == Start(p, n);
    assert Accumulated(es, q, n);
  }

  /** Closing the accumulator `text` also leaves its carry as the pending text. */
  lemma AccumulateClose(es: seq<Element>, k: nat, p: Trace, text: string)
    requires 0 < k <= |es| && |p.raws| == |p.ends|
    requires AccumulatorRule(es, k - 1, p)
    requires text == Seed(p, |p.raws|) + LinesBetween(es, Start(p, |p.ends|), k)
    ensures AccumulatorRule(es, k, Trace(Carry(text), p.raws + [text], p.ends + [k - 1]))
  {
    var n := |p.ends|;
    var q := Trace(Carry(text), p.raws + [text], p.ends + [k - 1]);
    AccumulateClosed(es, k, p, text);
    assert Seed(q, n + 1) == Carry(text) && Start(q, n + 1) == k;
    assert LinesBetween(es, k, k) == "";
  }

  /** Without a close, the pending text grows by the element's line. */
  lemma AccumulatePending(es: seq<Element>, k: nat, p: Trace, text: string)
    requires 0 < k <= |es| && |p.raws| == |p.ends|
    requires AccumulatorRule(es, k - 1, p)
    requires text == Seed(p, |p.raws|) + LinesBetween(es, Start(p, |p.ends|), k)
    ensures AccumulatorRule(es, k, Trace(text, p.raws, p.ends))
  {
    var q := Trace(text, p.raws, p.ends);
    assert q.raws[..|p.raws|] == p.raws && q.ends[..|p.ends|] == p.ends;
    AccumulatedKept(es, p, q, |p.ends|);
  }

  lemma AccumulatorStep(es: seq<Element>, k: nat)
    requires 0 < k <= |es|
    requires WellShaped(es, k - 1, Run(es, k - 1)) && AccumulatorRule(es, k - 1, Run(es, k - 1))
    ensures AccumulatorRule(es, k, Run(es, k))
  {
    var p := Run(es, k - 1);
    var n := |p.ends|;
    var s := Start(p, n);
    var text := p.text + es[k - 1].text + "\n";
    assert s <= k - 1;
    assert LinesBetween(es, s, k) == LinesBetween(es, s, k - 1) + es[k - 1].text + "\n";
    assert text == Seed(p, n) + LinesBetween(es, s, k);
    if ClosesChunk(text, k - 1, |es|) {
      AccumulateClose(es, k, p, text);
    } else {
      AccumulatePending(es, k, p, text);
    }
  }

  lemma {:induction false} RunAccumulatorRule(es: seq<Element>, k: nat)
    requires k <= |es|
    ensures WellShaped(es, k, Run(es, k)) && AccumulatorRule(es, k, Run(es, k))
  {
    RunWellShaped(es, k);
    if k > 0 {
      RunAccumulatorRule(es, k - 1);
      AccumulatorStep(es, k);
    }
  }

  /** A closing element adds one chunk, built from the closed text and that element's metadata. */
  lemma EmittedClose(header: string, name: string, es: seq<Element>, p: Trace, cs: seq<Chunk>, q: Trace, i: nat)
    requires |p.raws| == |p.ends| && (forall j :: 0 <= j < |p.ends| ==> p.ends[j] < |es|)
    requires i < |es| && |q.raws| > 0 && q.raws[..|q.raws| - 1] == p.raws && q.ends == p.ends + [i]
    requires EmittedRule(header, name, es, p, cs)
    ensures EmittedRule(header, name, es, q,
                        cs + [Chunk(header + Strip(q.raws[|q.raws| - 1]), ElementMetadata(name, es[i].metadata))])
  {
    var c := Chunk(header + Strip(q.raws[|q.raws| - 1]), ElementMetadata(name, es[i].metadata));
    forall j | 0 <= j < |cs| + 1
      ensures (cs + [c])[j] == Chunk(header + Strip(q.raws[j]), ElementMetadata(name, es[q.ends[j]].metadata))
    {
      if j < |cs| {
        assert (cs + [c])[j] == cs[j];
        assert q.raws[j] == p.raws[j];
      }
    }
  }

  lemma EmittedStep(header: string, name: string, es: seq<Element>, k: nat)
    requires 0 < k <= |es|
    requires WellShaped(es, k - 1, Run(es, k - 1)) && WellShaped(es, k, Run(es, k))
    requires EmittedRule(header, name, es, Run(es, k - 1), Emitted(header, name, es, k - 1))
    ensures EmittedRule(header, name, es, Run(es, k), Emitted(header, name, es, k))
  {
    var p := Run(es, k - 1);
    var text := p.text + es[k - 1].text + "\n";
    if ClosesChunk(text, k - 1, |es|) {
      var q := Run(es, k);
      assert q.raws == p.raws + [text] && q.ends == p.ends + [k - 1];
      assert q.raws[..|q.raws| - 1] == p.raws;
      EmittedClose(header, name, es, p, Emitted(header, name, es, k - 1), q, k - 1);
    } else {
      assert Run(es, k) == Trace(text, p.raws, p.ends);
    }
  }

  lemma {:induction false} RunEmittedRule(header: string, name: string, es: seq<Element>, k: nat)
    requires k <= |es|
    ensures WellShaped(es, k, Run(es, k))
    ensures EmittedRule(header, name, es, Run(es, k), Emitted(header, name, es, k))
  {
    RunWellShaped(es, k);
    if k > 0 {
      RunEmittedRule(header, name, es, k - 1);
      EmittedStep(header, name, es, k);
    }
  }

  // ---------------------------------------------------------------------
  // Properties of one file's chunks
  // ---------------------------------------------------------------------

  /** The last element always closes a chunk, and what remains is that chunk's carry. */
  lemma LastElementCloses(es: seq<Element>)
    requires es != []
    ensures var p := Run(es, |es|);
      && |p.raws| == |p.ends| > 0 && p.ends[|p.ends| - 1] == |es| - 1
      && p.text == Carry(p.raws[|p.raws| - 1])
  {
    RunCloseRule(es, |es|);
    RunAccumulatorRule(es, |es|);
    assert LinesBetween(es, |es|, |es|) == "";
  }

  /** Nothing remains of a file without elements. */
  lemma NoElementNoRest(es: seq<Element>)
    requires es == []
    ensures Strip(Run(es, |es|).text) == ""
  {
    assert SkipSpaces("", 0) == 0;
  }

  /** Lines 31-33 and 67: a file yields no chunk exactly when it has no element. */
  lemma ChunkFileEmpty(header: string, name: string, es: seq<Element>)
    ensures Chunks(header, name, es) == [] <==> es == []
  {
    RunEmittedRule(header, name, es, |es|);
    if es != [] {
      LastElementCloses(es);
    } else {
      NoElementNoRest(es);
    }
  }

  /** At most one chunk per element, plus the trailing one. */
  lemma ChunkCount(header: string, name: string, es: seq<Element>)
    ensures |Chunks(header, name, es)| <= |es| + 1
  {
    RunEmittedRule(header, name, es, |es|);
  }

  /**
   * Lines 45-46: a chunk closed before the last element was closed because
   * its accumulator had reached 300 characters.
   */
  lemma ClosedAtThreshold(header: string, name: string, es: seq<Element>, j: nat)
    requires j < |Run(es, |es|).raws|
    ensures var p := Run(es, |es|);
      j < |Emitted(header, name, es, |es|)| && j < |p.ends| && (|p.raws[j]| >= ChunkThreshold || p.ends[j] == |es| - 1)
  {
    RunEmittedRule(header, name, es, |es|);
    RunCloseRule(es, |es|);
  }

  /** Every chunk is the file's header followed by text with no surrounding whitespace. */
  lemma ChunkContent(header: string, name: string, es: seq<Element>)
    ensures forall c :: c in Chunks(header, name, es) ==>
      IsPrefix(header, c.content) && IsStripped(c.content[|header|..])
  {
    var p := Run(es, |es|);
    RunEmittedRule(header, name, es, |es|);
    var cs := Chunks(header, name, es);
    forall c | c in cs
      ensures IsPrefix(header, c.content) && IsStripped(c.content[|header|..])
    {
      var j :| 0 <= j < |cs| && cs[j] == c;
      var body := if j < |p.raws| then Strip(p.raws[j]) else Strip(p.text);
      assert c.content == header + body;
      StripFacts(if j < |p.raws| then p.raws[j] else p.text);
      assert c.content[|header|..] == body;
    }
  }

  /** The `j`-th chunk carries the metadata of the element that closed it, or of the last element. */
  lemma ChunkElement(header: string, name: string, es: seq<Element>, j: nat)
    requires j < |Chunks(header, name, es)|
    ensures es != [] && Chunks(header, name, es)[j].metadata == ElementMetadata(name, es[ChunkSource(es, j)].metadata)
  {
    var p := Run(es, |es|);
    RunEmittedRule(header, name, es, |es|);
    if es == [] {
      NoElementNoRest(es);
    }
  }

  /** The element whose metadata the `j`-th chunk carries. */
  function ChunkSource(es: seq<Element>, j: nat): (i: nat)
    requires es != []
    ensures i < |es|
  {
    var p := Run(es, |es|);
    RunWellShaped(es, |es|);
    if j < |p.ends| then p.ends[j] else |es| - 1
  }

  /**
   * Lines 38-39, 48, 57 and 72: every chunk carries the metadata of one of
   * the file's elements, with `source` set to the file name and a `page_number`.
   */
  lemma ChunkMetadata(header: string, name: string, es: seq<Element>)
    ensures forall c :: c in Chunks(header, name, es) ==>
      && SourceKey in c.metadata && c.metadata[SourceKey] == Scalar(Str(name))
      && PageNumberKey in c.metadata
      && exists i :: 0 <= i < |es| && c.metadata == ElementMetadata(name, es[i].metadata)
  {
    var cs := Chunks(header, name, es);
    forall c | c in cs
      ensures SourceKey in c.metadata && c.metadata[SourceKey] == Scalar(Str(name))
      ensures PageNumberKey in c.metadata
      ensures exists i :: 0 <= i < |es| && c.metadata == ElementMetadata(name, es[i].metadata)
    {
      var j :| 0 <= j < |cs| && cs[j] == c;
      ChunkElement(header, name, es, j);
      var i := ChunkSource(es, j);
      ElementMetadataFacts(name, es[i].metadata);
    }
  }

  /**
   * Lines 67-74: after the chunks the elements closed comes one more chunk,
   * exactly when the carried remainder is not blank.
   */
  lemma TrailingChunk(header: string, name: string, es: seq<Element>)
    ensures var emitted := Emitted(header, name, es, |es|);
      var cs := Chunks(header, name, es);
      && cs[..|emitted|] == emitted
      && |cs| == |emitted| + (if IsBlank(Run(es, |es|).text) then 0 else 1)
  {
    StripFacts(Run(es, |es|).text);
  }

  /** A non-blank remainder gives one chunk after the emitted ones, with the last element's metadata. */
  lemma TrailingShape(header: string, name: string, es: seq<Element>)
    requires !IsBlank(Run(es, |es|).text)
    ensures Chunks(header, name, es)
         == Emitted(header, name, es, |es|) + [Chunk(header + Strip(Run(es, |es|).text), LastMetadata(name, es))]
  {
    StripFacts(Run(es, |es|).text);
  }

  /**
   * Lines 63 and 67-74: the trailing chunk repeats emitted text. It follows
   * a chunk closed by the last element, has that chunk's metadata, and its
   * body is a tail of that chunk's body.
   */
  lemma TrailingRepeats(header: string, name: string, es: seq<Element>)
    requires !IsBlank(Run(es, |es|).text)
    ensures var p := Run(es, |es|);
      var cs := Chunks(header, name, es);
      && |cs| >= 2 && |p.raws| == |cs| - 1
      && cs[|cs| - 1].content == header + Strip(p.text)
      && cs[|cs| - 2].content == header + Strip(p.raws[|p.raws| - 1])
      && IsSuffix(Strip(p.text), Strip(p.raws[|p.raws| - 1]))
      && cs[|cs| - 1].metadata == cs[|cs| - 2].metadata
  {
    var p := Run(es, |es|);
    assert es != [] by {
      if es == [] {
        NoElementNoRest(es);
        StripFacts(p.text);
      }
    }
    TrailingShape(header, name, es);
    LastChunkClosed(header, name, es);
    CarriedBody(p.raws[|p.raws| - 1]);
  }

  /** The chunk the last element closes is the last one emitted. */
  lemma LastChunkClosed(header: string, name: string, es: seq<Element>)
    requires es != []
    ensures var p := Run(es, |es|);
      var emitted := Emitted(header, name, es, |es|);
      && |emitted| == |p.raws| > 0 && p.text == Carry(p.raws[|p.raws| - 1])
      && emitted[|emitted| - 1] == Chunk(header + Strip(p.raws[|p.raws| - 1]), LastMetadata(name, es))
  {
    RunEmittedRule(header, name, es, |es|);
    LastElementCloses(es);
  }

  /** What the carry keeps of a non-blank accumulator, stripped, is a tail of the whole accumulator stripped. */
  lemma CarriedBody(raw: string)
    requires !IsBlank(Carry(raw))
    ensures IsSuffix(Strip(Carry(raw)), Strip(raw))
  {
    var rest := Carry(raw);
    var m := |raw| - |rest|;
    assert 0 <= m && raw[m..] == rest by {
      CarryFacts(raw);
    }
    StripOfTail(raw, m);
  }

  lemma StripLine(t: string)
    requires t != [] && IsStripped(t)
    ensures Strip(t + "\n") == t
  {
    var s := t + "\n";
    assert s[0] == t[0] && s[|t| - 1] == t[|t| - 1] && s[|t|] == '\n';
    assert SkipSpaces(s, 0) == 0;
    assert TrimEnd(s, |s|) == |t|;
    assert s[0..|t|] == t;
  }

  /**
   * A file of one short element yields two identical chunks: the element
   * closes a chunk as the last one, and its whole text comes back as the
   * carried remainder.
   */
  lemma ShortElementRepeats(header: string, name: string, t: string, m: Metadata)
    requires t != [] && IsStripped(t) && |t| < OverlapSize
    ensures var c := Chunk(header + t, ElementMetadata(name, m));
      Chunks(header, name, [Element(t, m)]) == [c, c]
  {
    var es := [Element(t, m)];
    var raw := t + "\n";
    StripLine(t);
    assert Carry(raw) == raw by {
      assert Tail(raw, OverlapSize) == raw;
      assert raw[0] == t[0];
      assert SkipSpaces(raw, 0) == 0;
    }
    assert Run(es, 0) == Trace("", [], []);
    assert "" + t + "\n" == raw;
    assert Run(es, 1) == Trace(raw, [raw], [0]);
    var c := Chunk(header + t, ElementMetadata(name, m));
    assert Emitted(header, name, es, 1) == [c];
    assert LastMetadata(name, es) == ElementMetadata(name, m);
  }

  /** Lines 31-74 as the script runs them for one partitioned file. */
  method ChunkDocument(name: string, elements: seq<Element>) returns (chunks: seq<Chunk>)
    ensures chunks == ChunkFile(name, elements)
  {
    var (company, year) := CompanyYear(name);
    var text := "";
    var metadata: Metadata := map[];
    chunks := [];
    for i := 0 to |elements|
      invariant text == Run(elements, i).text
      invariant metadata == LastMetadata(name, elements[..i])
      invariant chunks == Emitted(Header(name), name, elements, i)
    {
      var elementMetadata := ElementMetadata(name, elements[i].metadata);
      var header := "This excerpt is from company " + company + " FY " + year + ".\n";
      text := text + elements[i].text + "\n";
      metadata := elementMetadata;
      assert elements[..i + 1][i] == elements[i];
      if |text| >= ChunkThreshold || i == |elements| - 1 {
        chunks := chunks + [Chunk(header + Strip(text), metadata)];
        text := LStrip(Tail(text, OverlapSize));
      }
    }
    assert elements[..|elements|] == elements;
    if Strip(text) != "" {
      var header := "This excerpt is from company " + company + " FY " + year + ".\n";
      chunks := chunks + [Chunk(header + Strip(text), metadata)];
    }
  }

  // ---------------------------------------------------------------------
  // The whole data directory
  // ---------------------------------------------------------------------

  /** Lines 16-23 and 25-74: a file's chunks; none when partitioning it raised. */
  function FileChunks(f: SourceFile): seq<Chunk> {
    match f.partition
    case None => []
    case Some(es) => ChunkFile(f.name, es)
  }

  /** The chunks of all files, in listing order. */
  function CorpusChunks(files: seq<SourceFile>): seq<Chunk> {
    ConcatMap(FileChunks, files)
  }

  /** Lines 16-23 and 77-78: a file whose partitioning fails adds nothing, and the rest are still chunked. */
  lemma FailedPartitionSkipped(a: seq<SourceFile>, name: string, b: seq<SourceFile>)
    ensures CorpusChunks(a + [SourceFile(name, None)] + b) == CorpusChunks(a) + CorpusChunks(b)
  {
    ConcatMapSkip(FileChunks, a, SourceFile(name, None), b);
  }

  /** Lines 11 and 14-78: the chunk list of the whole data directory. */
  method ChunkCorpus(files: seq<SourceFile>) returns (allChunks: seq<Chunk>)
    ensures allChunks == CorpusChunks(files)
  {
    allChunks := [];
    for f := 0 to |files|
      invariant allChunks == ConcatMap(FileChunks, files[..f])
    {
      assert files[..f + 1][..f] == files[..f];
      match files[f].partition
      case None =>
      case Some(elements) =>
        var chunks := ChunkDocument(files[f].name, elements);
        allChunks := allChunks + chunks;
    }
    assert files[..|files|] == files;
  }
}
