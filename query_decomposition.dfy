/**
 * Query decomposition (query_decomposition.py): a language model is asked to
 * split a question into sub-queries written as a numbered list. Every line of
 * the reply that starts with a number and a period contributes the rest of
 * its text, stripped, as one sub-query; a missing model or a failed call
 * falls back to the question itself.
 */
module QueryDecomposition {
  import opened Wrappers
  import opened Text

  /** A text generator: its reply to a prompt, or None when the call raises. */
  type Generator = string -> Option<string>

  // ---------------------------------------------------------------------
  // The pattern `^\d+\.\s*(.*)` under `re.MULTILINE`
  // ---------------------------------------------------------------------

  /** The first index at or after `i` that holds no decimal digit, or `|s|`. */
  function DigitRun(s: string, i: nat): (k: nat)
    requires i <= |s|
    ensures i <= k <= |s|
    ensures forall j :: i <= j < k ==> IsDigit(s[j])
    ensures k < |s| ==> !IsDigit(s[k])
    decreases |s| - i
  {
    if i == |s| || !IsDigit(s[i]) then i else DigitRun(s, i + 1)
  }

  /** The first newline at or after `i`, or `|s|`: how far `.*` reaches. */
  function LineEnd(s: string, i: nat): (k: nat)
    requires i <= |s|
    ensures i <= k <= |s|
    ensures forall j :: i <= j < k ==> s[j] != '\n'
    ensures k < |s| ==> s[k] == '\n'
    decreases |s| - i
  {
    if i == |s| || s[i] == '\n' then i else LineEnd(s, i + 1)
  }

  /** Where `^` matches under `re.MULTILINE`: the start, or just after a newline. */
  predicate LineStart(s: string, p: nat) {
    p == 0 || (0 < p <= |s| && s[p - 1] == '\n')
  }

  /**
   * The pattern after its `^`, tried at `p`: digits, a period, whitespace
   * (newlines included) and the rest of that line. The result is the
   * captured group and the index where the match ends.
   */
  function MatchAt(s: string, p: nat): (r: Option<(string, nat)>)
    requires p <= |s|
    ensures r.Some? ==> p < r.value.1 <= |s| && '\n' !in r.value.0
    ensures r.Some? ==> p < DigitRun(s, p) < |s| && s[DigitRun(s, p)] == '.'
  {
    var d := DigitRun(s, p);
    if p < d < |s| && s[d] == '.' then
      var w := SkipSpaces(s, d + 1);
      var e := LineEnd(s, w);
      Some((s[w..e], e))
    else None
  }

  /**
   * Line 59: `re.findall` from position `p` on. A match is tried at every
   * position in turn, and after a match the search resumes where it ended.
   */
  function Scan(s: string, p: nat): (r: seq<string>)
    requires p <= |s|
    ensures forall i :: 0 <= i < |r| ==> '\n' !in r[i]
    decreases |s| - p
  {
    if p == |s| then []
    else if LineStart(s, p) && MatchAt(s, p).Some? then
      [MatchAt(s, p).value.0] + Scan(s, MatchAt(s, p).value.1)
    else Scan(s, p + 1)
  }

  /** Line 60: each capture stripped, the blank ones dropped, in order. */
  function Clean(caps: seq<string>): (r: seq<string>)
    ensures |r| <= |caps|
    ensures forall i :: 0 <= i < |r| ==> r[i] != "" && IsStripped(r[i])
    ensures (forall i :: 0 <= i < |caps| ==> '\n' !in caps[i]) ==> forall i :: 0 <= i < |r| ==> '\n' !in r[i]
  {
    if caps == [] then []
    else
      StripFacts(caps[0]);
      var rest := Clean(caps[1..]);
      assert forall i :: 0 <= i < |caps| - 1 ==> caps[1..][i] == caps[i + 1];
      if Strip(caps[0]) != "" then [Strip(caps[0])] + rest else rest
  }

  /**
   * Line 60 on one capture: a blank capture is dropped; any other becomes one
   * sub-query, its own text with the whitespace at either end removed.
   */
  lemma CleanOne(c: string)
    ensures IsBlank(c) ==> Clean([c]) == []
    ensures !IsBlank(c) ==> |Clean([c])| == 1 && Trims(c, Clean([c])[0]) && Clean([c])[0] == Strip(c)
  {
    StripFacts(c);
    StripTrims(c);
    assert [c][1..] == [];
  }

  /** Line 60 keeps the order: cleaning joined captures joins the cleaned lists. */
  lemma {:induction false} CleanAppend(a: seq<string>, b: seq<string>)
    ensures Clean(a + b) == Clean(a) + Clean(b)
  {
    if a == [] {
      assert a + b == b;
    } else {
      assert (a + b)[1..] == a[1..] + b;
      CleanAppend(a[1..], b);
    }
  }

  /** Lines 57-60: the sub-queries read from a reply. */
  function ParseSubQueries(reply: string): seq<string> {
    Clean(Scan(reply, 0))
  }

  // ---------------------------------------------------------------------
  // The decomposition
  // ---------------------------------------------------------------------

  /** The fixed instructions around the query; their wording is not part of this model. */
  const Instructions := "[decomposition instructions]\n"
  const ListRequest := "\n[request for a numbered list]\n"

  /** Lines 39-53: the prompt holds the query, between fixed instructions. */
  function DecompositionPrompt(query: string): (r: string)
    ensures |r| == |Instructions| + |query| + |ListRequest|
    ensures r[|Instructions|..|Instructions| + |query|] == query
  {
    Instructions + query + ListRequest
  }

  /**
   * Lines 23-65: without a model, or when generation raises, the query
   * itself; otherwise the sub-queries of the reply, each one line of text,
   * not empty and not surrounded by whitespace.
   */
  function Decompose(query: string, model: Option<Generator>): (r: seq<string>)
    ensures model.None? || model.value(DecompositionPrompt(query)).None? ==> r == [query]
    ensures model.Some? && model.value(DecompositionPrompt(query)).Some? ==>
      forall i :: 0 <= i < |r| ==> r[i] != "" && IsStripped(r[i]) && '\n' !in r[i]
  {
    match model
    case None => [query]
    case Some(generate) =>
      match generate(DecompositionPrompt(query))
      case None => [query]
      case Some(reply) => ParseSubQueries(reply)
  }

  // ---------------------------------------------------------------------
  // What the parser recovers
  // ---------------------------------------------------------------------

  /** What a sub-query can be once parsed: one line, not empty, not surrounded by whitespace. */
  predicate IsSubQuery(x: string) {
    x != "" && IsStripped(x) && '\n' !in x
  }

  /** A numbered list as a model writes it, numbered from `n`: one "n. item" line per item. */
  function NumberedList(items: seq<string>, n: nat): string {
    if items == [] then "" else NatToString(n) + ". " + items[0] + "\n" + NumberedList(items[1..], n + 1)
  }

  /** The digit run from `p` ends at the first non-digit. */
  lemma DigitRunEnds(s: string, p: nat, d: nat)
    requires p <= d < |s| && (forall j :: p <= j < d ==> IsDigit(s[j])) && !IsDigit(s[d])
    ensures DigitRun(s, p) == d
  {
  }

  /** The line from `w` ends at the first newline. */
  lemma LineEndEnds(s: string, w: nat, e: nat)
    requires w <= e < |s| && (forall j :: w <= j < e ==> s[j] != '\n') && s[e] == '\n'
    ensures LineEnd(s, w) == e
  {
  }

  /** A line "num. item" at `p` matches, capturing exactly the item and ending at its newline. */
  lemma MatchNumberedLine(s: string, p: nat, num: string, item: string)
    requires |num| >= 1 && AllDigits(num) && IsSubQuery(item)
    requires p + |num| + |item| + 3 <= |s|
    requires s[p..p + |num| + |item| + 3] == num + ". " + item + "\n"
    ensures MatchAt(s, p) == Some((item, p + |num| + 2 + |item|))
  {
    var line := num + ". " + item + "\n";
    var d := p + |num|;
    var w := d + 2;
    var e := w + |item|;
    assert forall j :: 0 <= j < |line| ==> s[p + j] == line[j];
    forall j | p <= j < d
      ensures IsDigit(s[j])
    {
      assert s[j] == line[j - p] == num[j - p];
    }
    assert s[d] == '.' && s[d + 1] == ' ';
    DigitRunEnds(s, p, d);
    forall j | w <= j < e
      ensures s[j] == item[j - w] && s[j] != '\n'
    {
      assert s[j] == line[j - p];
    }
    assert s[w..e] == item;
    assert SkipSpaces(s, d + 1) == w;
    assert s[e] == '\n';
    LineEndEnds(s, w, e);
  }

  /** Positions inside a line, up to and including its newline at `q`, start no match. */
  lemma {:induction false} SkipWithinLine(s: string, j: nat, q: nat)
    requires 0 < j <= q < |s|
    requires forall i :: j - 1 <= i < q ==> s[i] != '\n'
    ensures Scan(s, j) == Scan(s, q + 1)
    decreases q - j
  {
    if j < q {
      SkipWithinLine(s, j + 1, q);
    }
  }

  /** A match at a line start contributes its capture, and the search resumes where it ended. */
  lemma ScanMatch(s: string, p: nat, capture: string, e: nat)
    requires p < |s| && LineStart(s, p) && MatchAt(s, p) == Some((capture, e))
    ensures Scan(s, p) == [capture] + Scan(s, e)
  {
  }

  /** After text ending in a newline, a line "num. item" is where a match starts. */
  lemma NumberedLineMatches(x: string, num: string, item: string, rest: string)
    requires |num| >= 1 && AllDigits(num) && IsSubQuery(item)
    ensures var s := x + (num + ". " + item + "\n") + rest;
      MatchAt(s, |x|) == Some((item, |x| + |num| + 2 + |item|))
  {
    var line := num + ". " + item + "\n";
    var s := x + line + rest;
    assert s[|x|..|x| + |line|] == line;
    MatchNumberedLine(s, |x|, num, item);
  }

  /** Text ending in a newline is followed by a line start; the item's last character precedes the line's newline. */
  lemma NumberedLinePositions(x: string, num: string, item: string, rest: string)
    requires x == "" || x[|x| - 1] == '\n'
    requires item != []
    ensures var s := x + (num + ". " + item + "\n") + rest;
      && LineStart(s, |x|) && |x| + |num| + 2 + |item| < |s|
      && s[|x| + |num| + 1 + |item|] == item[|item| - 1]
  {
    var s := x + (num + ". " + item + "\n") + rest;
    if x != "" {
      assert s[|x| - 1] == x[|x| - 1];
    }
  }

  /** A match at a line start that ends before the line's last character yields its capture; the search goes on at the next line. */
  lemma ScanLine(s: string, p: nat, capture: string, e: nat)
    requires p < |s| && LineStart(s, p) && MatchAt(s, p) == Some((capture, e))
    requires 0 < e < |s| && s[e - 1] != '\n'
    ensures Scan(s, p) == [capture] + Scan(s, e + 1)
  {
    ScanMatch(s, p, capture, e);
    SkipWithinLine(s, e, e);
  }

  /** After text ending in a newline, a line "num. item" yields the item, and the search goes on at the next line. */
  lemma ScanNumberedLine(x: string, num: string, item: string, rest: string)
    requires x == "" || x[|x| - 1] == '\n'
    requires |num| >= 1 && AllDigits(num) && IsSubQuery(item)
    ensures var x' := x + (num + ". " + item + "\n");
      Scan(x' + rest, |x|) == [item] + Scan(x' + rest, |x'|)
  {
    var s := x + (num + ". " + item + "\n") + rest;
    var e := |x| + |num| + 2 + |item|;
    NumberedLineMatches(x, num, item, rest);
    NumberedLinePositions(x, num, item, rest);
    assert item[|item| - 1] in item;
    ScanLine(s, |x|, item, e);
  }

  /** After text ending in a newline, a numbered list of sub-queries is read back item by item. */
  lemma {:induction false} ScanNumberedList(x: string, items: seq<string>, n: nat)
    requires x == "" || x[|x| - 1] == '\n'
    requires forall i :: 0 <= i < |items| ==> IsSubQuery(items[i])
    ensures Scan(x + NumberedList(items, n), |x|) == items
    decreases |items|
  {
    if items == [] {
      assert x + NumberedList(items, n) == x;
    } else {
      var x' := x + (NatToString(n) + ". " + items[0] + "\n");
      assert x'[|x'| - 1] == '\n';
      ScanNumberedList(x', items[1..], n + 1);
      ScanNumberedCons(x, items, n);
    }
  }

  /** A numbered list after `x` is its first line followed by the rest of the list. */
  lemma NumberedListSplit(x: string, items: seq<string>, n: nat)
    requires items != []
    ensures x + NumberedList(items, n)
         == x + (NatToString(n) + ". " + items[0] + "\n") + NumberedList(items[1..], n + 1)
  {
  }

  /** The first line of a numbered list yields its item, and the search continues with the rest of the list. */
  lemma ScanNumberedCons(x: string, items: seq<string>, n: nat)
    requires x == "" || x[|x| - 1] == '\n'
    requires items != [] && IsSubQuery(items[0])
    requires var x' := x + (NatToString(n) + ". " + items[0] + "\n");
      Scan(x' + NumberedList(items[1..], n + 1), |x'|) == items[1..]
    ensures Scan(x + NumberedList(items, n), |x|) == items
  {
    var x' := x + (NatToString(n) + ". " + items[0] + "\n");
    var rest := NumberedList(items[1..], n + 1);
    NumberedListSplit(x, items, n);
    ScanNumberedLine(x, NatToString(n), items[0], rest);
    assert [items[0]] + items[1..] == items;
  }

  /** Cleaning leaves a list of sub-queries as it is. */
  lemma {:induction false} CleanKeeps(items: seq<string>)
    requires forall i :: 0 <= i < |items| ==> IsSubQuery(items[i])
    ensures Clean(items) == items
  {
    if items != [] {
      StripStripped(items[0]);
      CleanKeeps(items[1..]);
    }
  }

  /** A reply that is exactly a numbered list of sub-queries gives back those sub-queries, in order. */
  lemma NumberedListRoundTrip(items: seq<string>, n: nat)
    requires forall i :: 0 <= i < |items| ==> IsSubQuery(items[i])
    ensures ParseSubQueries(NumberedList(items, n)) == items
  {
    ScanNumberedList("", items, n);
    assert "" + NumberedList(items, n) == NumberedList(items, n);
    CleanKeeps(items);
  }

  /** A line starts with digits and a period: the lines the pattern picks. */
  predicate StartsNumbered(line: string) {
    var d := DigitRun(line, 0);
    0 < d < |line| && line[d] == '.'
  }

  /** A first line that does not start with a number and a period is ignored. */
  lemma PreambleIgnored(line: string, body: string)
    requires '\n' !in line && !StartsNumbered(line)
    ensures Scan(line + "\n" + body, 0) == Scan(line + "\n" + body, |line| + 1)
  {
    var s := line + "\n" + body;
    assert forall i :: 0 <= i < |line| ==> s[i] == line[i];
    assert s[|line|] == '\n';
    assert DigitRun(s, 0) == DigitRun(line, 0);
    assert MatchAt(s, 0) == None;
    if |line| > 0 {
      SkipWithinLine(s, 1, |line|);
    }
  }

  lemma ScanIntroducedList(line: string, items: seq<string>)
    requires '\n' !in line && !StartsNumbered(line)
    requires forall i :: 0 <= i < |items| ==> IsSubQuery(items[i])
    ensures Scan(line + "\n" + NumberedList(items, 1), 0) == items
  {
    var x := line + "\n";
    PreambleIgnored(line, NumberedList(items, 1));
    assert x[|x| - 1] == '\n';
    ScanNumberedList(x, items, 1);
  }

  /** A reply that opens with a plain line and then lists the sub-queries gives back those sub-queries. */
  lemma IntroducedListRoundTrip(line: string, items: seq<string>)
    requires '\n' !in line && !StartsNumbered(line)
    requires forall i :: 0 <= i < |items| ==> IsSubQuery(items[i])
    ensures ParseSubQueries(line + "\n" + NumberedList(items, 1)) == items
  {
    ScanIntroducedList(line, items);
    CleanKeeps(items);
  }

  /** Where no line starts a match, nothing is found. */
  lemma {:induction false} ScanNothing(s: string, p: nat)
    requires p <= |s|
    requires forall q :: p <= q < |s| && LineStart(s, q) ==> MatchAt(s, q).None?
    ensures Scan(s, p) == []
    decreases |s| - p
  {
    if p < |s| {
      ScanNothing(s, p + 1);
    }
  }

  /**
   * Line 59-62: a reply with no numbered line yields no sub-query at all;
   * the query is not substituted for it.
   */
  lemma NoNumberedLine(query: string, generate: Generator)
    requires generate(DecompositionPrompt(query)).Some?
    requires var reply := generate(DecompositionPrompt(query)).value;
      forall q :: 0 <= q < |reply| && LineStart(reply, q) ==> MatchAt(reply, q).None?
    ensures Decompose(query, Some(generate)) == []
  {
    ScanNothing(generate(DecompositionPrompt(query)).value, 0);
  }

  /** Lines 54-62: a model that answers with a numbered list of sub-queries has them returned. */
  lemma DecomposeNumberedList(query: string, generate: Generator, items: seq<string>)
    requires forall i :: 0 <= i < |items| ==> IsSubQuery(items[i])
    requires generate(DecompositionPrompt(query)) == Some(NumberedList(items, 1))
    ensures Decompose(query, Some(generate)) == items
  {
    NumberedListRoundTrip(items, 1);
  }

  /** Line 59: `\s*` also crosses a line break, so "1." alone on a line takes the next line as its capture. */
  lemma WhitespaceCrossesLines()
    ensures ParseSubQueries("1.\nfoo") == ["foo"]
  {
    var s := "1.\nfoo";
    assert DigitRun(s, 1) == 1;
    assert DigitRun(s, 0) == 1;
    assert SkipSpaces(s, 3) == 3;
    assert SkipSpaces(s, 2) == 3;
    assert LineEnd(s, 3) == 6;
    assert s[3..6] == "foo";
    assert MatchAt(s, 0) == Some(("foo", 6));
    assert Scan(s, 0) == ["foo"];
    StripStripped("foo");
  }
}
