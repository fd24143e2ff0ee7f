/** The data set of DataSet.java: a list of examples (feature vectors) that
    grows in parallel with a list of labels, filled line by line from a text
    file. The file itself is not modelled: `Load` receives the file's lines,
    and `Double.parseDouble` is the partial function `parse`. */
module DataSets {
  import opened Outcomes
  import opened Vectors

  // ---------------------------------------------------------------------
  // Lines and tokens
  // ---------------------------------------------------------------------

  /** The characters of the regular-expression class `\s`: space, tab,
      line feed, vertical tab, form feed and carriage return. */
  predicate IsWhitespace(c: char) {
    c == ' ' || c == '\t' || c == '\n' || c == 11 as char || c == 12 as char || c == '\r'
  }

  /** `line.trim().isEmpty()`: trim removes every character up to U+0020. */
  predicate IsBlank(line: string): (b: bool)
    ensures (forall i :: 0 <= i < |line| ==> IsWhitespace(line[i])) ==> b
  {
    forall i :: 0 <= i < |line| ==> line[i] <= ' '
  }

  /** The load loop's skip rule: a `%` comment (checked without trimming) or a blank line. */
  predicate IsSkipped(line: string): (b: bool)
    ensures !b ==> |line| > 0 && line[0] != '%' && exists i :: 0 <= i < |line| && !IsWhitespace(line[i])
  {
    (|line| > 0 && line[0] == '%') || IsBlank(line)
  }

  predicate NoWhitespace(s: string) {
    forall i :: 0 <= i < |s| ==> !IsWhitespace(s[i])
  }

  /** The characters of s that are not whitespace, in order. */
  function Strip(s: string): string {
    if s == [] then [] else (if IsWhitespace(s[0]) then [] else [s[0]]) + Strip(s[1..])
  }

  function Concat(ws: seq<string>): string {
    if ws == [] then [] else ws[0] + Concat(ws[1..])
  }

  /** s without its leading whitespace. */
  function SkipSpaces(s: string): (r: string)
    ensures |r| <= |s| && r == s[|s| - |r|..]
    ensures r == [] || !IsWhitespace(r[0])
    ensures forall i :: 0 <= i < |s| - |r| ==> IsWhitespace(s[i])
  {
    if s != [] && IsWhitespace(s[0]) then SkipSpaces(s[1..]) else s
  }

  /** The length of the run of non-whitespace characters s starts with. */
  function WordLength(s: string): (n: nat)
    ensures n <= |s|
    ensures forall i :: 0 <= i < n ==> !IsWhitespace(s[i])
    ensures n < |s| ==> IsWhitespace(s[n])
  {
    if s == [] || IsWhitespace(s[0]) then 0 else 1 + WordLength(s[1..])
  }

  /** The maximal runs of non-whitespace characters of s, in order. */
  function Words(s: string): (ws: seq<string>)
    ensures forall k :: 0 <= k < |ws| ==> ws[k] != [] && NoWhitespace(ws[k])
    decreases |s|
  {
    var t := SkipSpaces(s);
    if t == [] then []
    else
      var n := WordLength(t);
      [t[..n]] + Words(t[n..])
  }

  /** A string has no words exactly when it is all whitespace. */
  lemma {:induction false} WordsEmptyIff(s: string)
    ensures Words(s) == [] <==> forall i :: 0 <= i < |s| ==> IsWhitespace(s[i])
  {
    var t := SkipSpaces(s);
    if t != [] {
      assert s[|s| - |t|] == t[0];
    }
  }

  /** `line.split("\\s+")`: the pieces between whitespace runs. A line that
      starts with whitespace yields an empty first piece; trailing empty
      pieces are dropped; a line with no whitespace match at all is its own
      single piece (so "" splits into [""]). */
  function Tokens(line: string): (r: seq<string>)
    ensures line == [] ==> r == [""]
    ensures r == [] <==> line != [] && forall i :: 0 <= i < |line| ==> IsWhitespace(line[i])
    ensures r != [] && line != [] ==> (r[0] == [] <==> IsWhitespace(line[0]))
  {
    WordsEmptyIff(line);
    var ws := Words(line);
    if ws == [] then (if line == [] then [""] else [])
    else if IsWhitespace(line[0]) then [""] + ws
    else ws
  }

  /** Every token after the first is a non-empty run of non-whitespace. */
  lemma {:induction false} TokensAfterFirst(line: string)
    ensures var r := Tokens(line); forall k :: 0 < k < |r| ==> r[k] != [] && NoWhitespace(r[k])
  {
    var ws := Words(line);
    if ws != [] && IsWhitespace(line[0]) {
      EmptyThenWords(ws);
    }
  }

  lemma {:induction false} EmptyThenWords(ws: seq<string>)
    requires forall k :: 0 <= k < |ws| ==> ws[k] != [] && NoWhitespace(ws[k])
    ensures var r := [""] + ws; forall k :: 0 < k < |r| ==> r[k] != [] && NoWhitespace(r[k])
  {
    var r := [""] + ws;
    assert forall k :: 0 < k < |r| ==> r[k] == ws[k - 1];
  }

  /** A word that is the whole string: its run reaches the end. */
  lemma {:induction false} WordLengthAll(w: string)
    requires NoWhitespace(w)
    ensures WordLength(w) == |w|
  {
    if w != [] {
      WordLengthAll(w[1..]);
    }
  }

  /** A whitespace character ends the first word, wherever it stands. */
  lemma {:induction false} WordLengthStops(a: string, c: char, b: string)
    requires IsWhitespace(c)
    ensures WordLength(a + [c] + b) == WordLength(a)
  {
    var s := a + [c] + b;
    if a != [] && !IsWhitespace(a[0]) {
      assert s[0] == a[0] && s[1..] == a[1..] + [c] + b;
      WordLengthStops(a[1..], c, b);
    }
  }

  /** Leading whitespace is dropped before the first word. */
  lemma {:induction false} WordsSkipLeading(s: string)
    requires s != [] && IsWhitespace(s[0])
    ensures Words(s) == Words(s[1..])
  {
    assert SkipSpaces(s) == SkipSpaces(s[1..]);
  }

  /** A non-empty string without whitespace is one word. */
  lemma {:induction false} WordsSingle(w: string)
    requires w != [] && NoWhitespace(w)
    ensures Words(w) == [w]
  {
    WordLengthAll(w);
    assert SkipSpaces(w) == w;
    assert w[..|w|] == w && w[|w|..] == [];
  }

  /** A string that starts with a word: that word, then the words of the rest. */
  lemma {:induction false} WordsFirst(s: string)
    requires s != [] && !IsWhitespace(s[0])
    ensures Words(s) == [s[..WordLength(s)]] + Words(s[WordLength(s)..])
  {
    assert SkipSpaces(s) == s;
  }

  /** A whitespace character separates words: the words of a + [c] + b
      are those of a, then those of b, so no word runs across c. */
  lemma {:induction false} WordsSplitAt(a: string, c: char, b: string)
    requires IsWhitespace(c)
    ensures Words(a + [c] + b) == Words(a) + Words(b)
    decreases |a|
  {
    if a == [] {
      WordsSplitNone(c, b);
    } else if IsWhitespace(a[0]) {
      WordsSplitAt(a[1..], c, b);
      WordsSplitSpace(a, c, b);
    } else {
      WordLengthStops(a, c, b);
      WordsSplitAt(a[WordLength(a)..], c, b);
      WordsSplitWord(a, c, b);
    }
  }

  /** WordsSplitAt with nothing before the separator. */
  lemma {:induction false} WordsSplitNone(c: char, b: string)
    requires IsWhitespace(c)
    ensures Words([] + [c] + b) == Words([]) + Words(b)
  {
    var s := [] + [c] + b;
    assert s[0] == c && s[1..] == b;
    WordsSkipLeading(s);
    assert Words([]) == [];
  }

  /** WordsSplitAt when a starts with whitespace, from the case without it. */
  lemma {:induction false} WordsSplitSpace(a: string, c: char, b: string)
    requires a != [] && IsWhitespace(a[0]) && IsWhitespace(c)
    requires Words(a[1..] + [c] + b) == Words(a[1..]) + Words(b)
    ensures Words(a + [c] + b) == Words(a) + Words(b)
  {
    var s := a + [c] + b;
    ConsTail(a, c, b);
    WordsSkipLeading(s);
    WordsSkipLeading(a);
  }

  /** The first character and the rest of a + [c] + b, for a non-empty a. */
  lemma {:induction false} ConsTail(a: string, c: char, b: string)
    requires a != []
    ensures (a + [c] + b)[0] == a[0] && (a + [c] + b)[1..] == a[1..] + [c] + b
  {
  }

  /** Cutting a + [c] + b after n <= |a| characters. */
  lemma {:induction false} CutBefore(a: string, c: char, b: string, n: nat)
    requires n <= |a|
    ensures (a + [c] + b)[..n] == a[..n] && (a + [c] + b)[n..] == a[n..] + [c] + b
  {
  }

  /** WordsSplitAt when a starts with a word, from the case after that word. */
  lemma {:induction false} WordsSplitWord(a: string, c: char, b: string)
    requires a != [] && !IsWhitespace(a[0]) && IsWhitespace(c)
    requires WordLength(a + [c] + b) == WordLength(a)
    requires Words(a[WordLength(a)..] + [c] + b) == Words(a[WordLength(a)..]) + Words(b)
    ensures Words(a + [c] + b) == Words(a) + Words(b)
  {
    var s := a + [c] + b;
    var n := WordLength(a);
    ConsTail(a, c, b);
    CutBefore(a, c, b, n);
    WordsFirst(s);
    WordsFirst(a);
    AppendAssoc([a[..n]], Words(a[n..]), Words(b));
  }

  /** Words written out with one space between each two. */
  function Join(ws: seq<string>): (s: string)
    ensures ws != [] ==> |ws[0]| <= |s| && s[..|ws[0]|] == ws[0]
  {
    if ws == [] then []
    else if |ws| == 1 then ws[0]
    else ws[0] + [' '] + Join(ws[1..])
  }

  /** Splitting words that were joined with spaces gives the words back. */
  lemma {:induction false} WordsJoin(ws: seq<string>)
    requires forall k :: 0 <= k < |ws| ==> ws[k] != [] && NoWhitespace(ws[k])
    ensures Words(Join(ws)) == ws
  {
    if |ws| == 1 {
      WordsSingle(ws[0]);
    } else if |ws| > 1 {
      WordsJoin(ws[1..]);
      WordsJoinStep(ws);
    }
  }

  /** One word in front of words already split back. */
  lemma {:induction false} WordsJoinStep(ws: seq<string>)
    requires |ws| > 1 && ws[0] != [] && NoWhitespace(ws[0])
    requires Words(Join(ws[1..])) == ws[1..]
    ensures Words(Join(ws)) == ws
  {
    var rest := Join(ws[1..]);
    assert Join(ws) == ws[0] + [' '] + rest;
    WordsSplitAt(ws[0], ' ', rest);
    WordsSingle(ws[0]);
    HeadTail(ws);
  }

  lemma {:induction false} HeadTail<T>(s: seq<T>)
    requires s != []
    ensures [s[0]] + s[1..] == s
  {
  }

  /** The round trip for a line: the tokens of non-empty words joined with
      spaces are exactly those words, one feature or label per word. */
  lemma {:induction false} TokensJoin(ws: seq<string>)
    requires ws != [] && forall k :: 0 <= k < |ws| ==> ws[k] != [] && NoWhitespace(ws[k])
    ensures Tokens(Join(ws)) == ws
  {
    WordsJoin(ws);
    var s := Join(ws);
    assert s[0] == s[..|ws[0]|][0] == ws[0][0];
  }

  lemma {:induction false} StripAppend(a: string, b: string)
    ensures Strip(a + b) == Strip(a) + Strip(b)
  {
    if a != [] {
      assert (a + b)[0] == a[0];
      assert (a + b)[1..] == a[1..] + b;
      StripAppend(a[1..], b);
    } else {
      assert a + b == b;
    }
  }

  lemma {:induction false} StripAllWhitespace(s: string)
    requires forall i :: 0 <= i < |s| ==> IsWhitespace(s[i])
    ensures Strip(s) == []
  {
    if s != [] {
      StripAllWhitespace(s[1..]);
    }
  }

  lemma {:induction false} StripNoWhitespace(s: string)
    requires NoWhitespace(s)
    ensures Strip(s) == s
  {
    if s != [] {
      StripNoWhitespace(s[1..]);
    }
  }

  /** Leading whitespace contributes nothing to Strip. */
  lemma {:induction false} LeadingSpaces(s: string)
    ensures Strip(s) == Strip(SkipSpaces(s))
  {
    var t := SkipSpaces(s);
    var lead := s[..|s| - |t|];
    assert s == lead + t;
    StripAppend(lead, t);
    StripAllWhitespace(lead);
  }

  /** The first word of t survives Strip whole. */
  lemma {:induction false} FirstWord(t: string)
    ensures Strip(t) == t[..WordLength(t)] + Strip(t[WordLength(t)..])
  {
    var n := WordLength(t);
    assert t == t[..n] + t[n..];
    StripAppend(t[..n], t[n..]);
    StripNoWhitespace(t[..n]);
  }

  lemma {:induction false} ConcatCons(w: string, ws: seq<string>)
    ensures Concat([w] + ws) == w + Concat(ws)
  {
    assert ([w] + ws)[0] == w && ([w] + ws)[1..] == ws;
  }

  /** Words loses exactly the whitespace: gluing the words back together
      gives the non-whitespace characters of s in order. */
  lemma {:induction false} WordsConcat(s: string)
    ensures Concat(Words(s)) == Strip(s)
    decreases |s|
  {
    var t := SkipSpaces(s);
    LeadingSpaces(s);
    if t != [] {
      var n := WordLength(t);
      FirstWord(t);
      WordsConcat(t[n..]);
      ConcatCons(t[..n], Words(t[n..]));
    }
  }

  /** A string with a non-whitespace character has at least one word. */
  lemma {:induction false} WordsNonEmpty(s: string, i: nat)
    requires i < |s| && !IsWhitespace(s[i])
    ensures Words(s) != []
  {
    var t := SkipSpaces(s);
    assert |s| - |t| <= i;
  }

  /** The tokens of a line the load loop keeps: at least one; the first is
      empty exactly when the line starts with whitespace, every other one is
      a non-empty run without whitespace; together they hold every
      non-whitespace character of the line in order. */
  lemma {:induction false} KeptLineTokens(line: string)
    requires !IsSkipped(line)
    ensures var toks := Tokens(line);
      |toks| >= 1 &&
      (toks[0] == [] <==> IsWhitespace(line[0])) &&
      (forall k :: 0 < k < |toks| ==> toks[k] != [] && NoWhitespace(toks[k])) &&
      Concat(toks) == Strip(line)
  {
    var i :| 0 <= i < |line| && line[i] > ' ';
    WordsNonEmpty(line, i);
    WordsConcat(line);
    var ws := Words(line);
    if IsWhitespace(line[0]) {
      assert ([""] + ws)[1..] == ws;
    }
  }

  // ---------------------------------------------------------------------
  // One line, and a whole file
  // ---------------------------------------------------------------------

  /** What the load loop does with one line. */
  datatype Line = Skip | Record(features: Vec, target: real) | Malformed

  /** The parsed values of all tokens, or None if any of them fails to parse. */
  function ParseAll(tokens: seq<string>, parse: string -> Option<real>): (r: Option<Vec>)
    ensures r.Some? <==> forall i :: 0 <= i < |tokens| ==> parse(tokens[i]).Some?
    ensures r.Some? ==> (|r.value| == |tokens| &&
      forall i :: 0 <= i < |tokens| ==> parse(tokens[i]) == Some(r.value[i]))
  {
    if tokens == [] then Some([])
    else
      var rest := ParseAll(tokens[1..], parse);
      if parse(tokens[0]).Some? && rest.Some? then
        Some([parse(tokens[0]).value] + rest.value)
      else
        assert parse(tokens[0]).None? || exists i :: 1 <= i < |tokens| && parse(tokens[i]).None? by {
          if parse(tokens[0]).Some? {
            var j :| 0 <= j < |tokens| - 1 && parse(tokens[1..][j]).None?;
            assert parse(tokens[j + 1]).None?;
          }
        }
        None
  }

  /** The load loop's treatment of one line (see ParseLineSpec). */
  function ParseLine(line: string, parse: string -> Option<real>): (r: Line)
    ensures r.Skip? <==> IsSkipped(line)
    ensures r.Record? ==> |r.features| == |Tokens(line)| - 1
  {
    if IsSkipped(line) then Skip
    else
      var toks := Tokens(line);
      if |toks| == 0 then Malformed  // cannot happen: see KeptLineTokens
      else
        var features := ParseAll(toks[..|toks| - 1], parse);
        var y := parse(toks[|toks| - 1]);
        if features.Some? && y.Some? then Record(features.value, y.value) else Malformed
  }

  /** A line is skipped exactly when the skip rule holds; a kept line whose
      tokens all parse becomes a record whose features are the parsed
      tokens but the last, in order, and whose label is the parsed last
      token; a kept line with a token that does not parse is malformed. */
  lemma {:induction false} ParseLineSpec(line: string, parse: string -> Option<real>)
    ensures var r := ParseLine(line, parse); var toks := Tokens(line);
      (r.Skip? <==> IsSkipped(line)) &&
      (r.Record? ==> (|toks| >= 1 && |r.features| == |toks| - 1 &&
        (forall i :: 0 <= i < |toks| - 1 ==> parse(toks[i]) == Some(r.features[i])) &&
        parse(toks[|toks| - 1]) == Some(r.target))) &&
      (r.Malformed? <==> !IsSkipped(line) && exists i :: 0 <= i < |toks| && parse(toks[i]).None?)
  {
    if !IsSkipped(line) {
      KeptLineHasTokens(line);
      ParseAllButLast(Tokens(line), parse);
    }
  }

  /** A kept line has at least one token. */
  lemma {:induction false} KeptLineHasTokens(line: string)
    requires !IsSkipped(line)
    ensures |Tokens(line)| >= 1
  {
    var i :| 0 <= i < |line| && line[i] > ' ';
    WordsNonEmpty(line, i);
  }

  /** ParseAll of all tokens but the last, stated on the tokens themselves. */
  lemma {:induction false} ParseAllButLast(toks: seq<string>, parse: string -> Option<real>)
    requires |toks| >= 1
    ensures var last := |toks| - 1; var f := ParseAll(toks[..last], parse);
      (f.Some? ==> |f.value| == last && forall i :: 0 <= i < last ==> parse(toks[i]) == Some(f.value[i])) &&
      (f.Some? && parse(toks[last]).Some? <==> forall i :: 0 <= i < |toks| ==> parse(toks[i]).Some?)
  {
    var last := |toks| - 1;
    assert forall i :: 0 <= i < last ==> toks[..last][i] == toks[i];
    var f := ParseAll(toks[..last], parse);
    if f.None? {
      var i :| 0 <= i < last && parse(toks[..last][i]).None?;
      assert parse(toks[i]).None?;
    }
  }

  /** The examples and labels appended by a load, and whether it ran to the
      end of the file (false: a malformed line aborted it). */
  datatype Loaded = Loaded(examples: seq<Vec>, labels: seq<real>, complete: bool)

  /** The load loop over a sequence of lines: kept lines append one example
      and one label each, in file order, until the first malformed line. */
  function LoadLines(lines: seq<string>, parse: string -> Option<real>): (r: Loaded)
    ensures |r.examples| == |r.labels|
  {
    if lines == [] then Loaded([], [], true)
    else match ParseLine(lines[0], parse)
      case Skip => LoadLines(lines[1..], parse)
      case Malformed => Loaded([], [], false)
      case Record(x, y) =>
        var rest := LoadLines(lines[1..], parse);
        Loaded([x] + rest.examples, [y] + rest.labels, rest.complete)
  }

  /** One turn of the load loop, seen from line k on. */
  lemma {:induction false} LoadLinesStep(lines: seq<string>, k: nat, parse: string -> Option<real>)
    requires k < |lines|
    ensures var rest := LoadLines(lines[k..], parse); var next := LoadLines(lines[k + 1..], parse);
      match ParseLine(lines[k], parse)
      case Skip => rest == next
      case Malformed => rest == Loaded([], [], false)
      case Record(x, y) => rest == Loaded([x] + next.examples, [y] + next.labels, next.complete)
  {
    assert lines[k..][0] == lines[k] && lines[k..][1..] == lines[k + 1..];
  }

  lemma {:induction false} AppendAssoc<T>(a: seq<T>, b: seq<T>, c: seq<T>)
    ensures a + (b + c) == (a + b) + c
  {
  }

  /** A slice grows by one element at its upper end. */
  lemma {:induction false} SliceNext<T>(s: seq<T>, a: nat, i: nat)
    requires a <= i < |s|
    ensures s[a..i + 1] == s[a..i] + [s[i]]
    ensures a == 0 ==> s[..i + 1] == s[..i] + [s[i]]
  {
  }

  /** The lines the skip rule keeps, in order. */
  function KeptLines(lines: seq<string>): seq<string> {
    if lines == [] then []
    else (if IsSkipped(lines[0]) then [] else [lines[0]]) + KeptLines(lines[1..])
  }

  /** Loading a file in two pieces is loading the first and, if it was not
      aborted, continuing with the second: lines are processed in order and
      nothing after a malformed line is stored. */
  lemma {:induction false} LoadLinesAppend(a: seq<string>, b: seq<string>, parse: string -> Option<real>)
    ensures var la := LoadLines(a, parse); var lb := LoadLines(b, parse);
      LoadLines(a + b, parse) ==
        if la.complete then Loaded(la.examples + lb.examples, la.labels + lb.labels, lb.complete)
        else la
  {
    if a == [] {
      assert a + b == b;
    } else {
      var ab := a + b;
      assert ab[0] == a[0] && ab[1..] == a[1..] + b;
      LoadLinesAppend(a[1..], b, parse);
      var r1, lb := LoadLines(a[1..], parse), LoadLines(b, parse);
      var line := ParseLine(a[0], parse);
      if line.Record? && r1.complete {
        AppendAssoc([line.features], r1.examples, lb.examples);
        AppendAssoc([line.target], r1.labels, lb.labels);
      }
    }
  }

  /** A load runs to the end of the file exactly when no line is malformed. */
  lemma {:induction false} LoadCompleteIff(lines: seq<string>, parse: string -> Option<real>)
    ensures LoadLines(lines, parse).complete <==>
      forall k :: 0 <= k < |lines| ==> !ParseLine(lines[k], parse).Malformed?
  {
    if lines != [] {
      LoadCompleteIff(lines[1..], parse);
      NoneMalformedTail(l => ParseLine(l, parse), lines);
    }
  }

  /** No line is malformed exactly when the first is not and no later one
      is (for any way f of reading a line). */
  lemma {:induction false} NoneMalformedTail(f: string -> Line, lines: seq<string>)
    requires lines != []
    ensures (forall k :: 0 <= k < |lines| ==> !f(lines[k]).Malformed?) <==>
      !f(lines[0]).Malformed? && forall k :: 0 <= k < |lines| - 1 ==> !f(lines[1..][k]).Malformed?
  {
    assert forall k :: 1 <= k < |lines| ==> lines[k] == lines[1..][k - 1];
  }

  /** A complete load stores one example and one label per kept line, the
      k-th pair coming from the k-th kept line. */
  lemma {:induction false} LoadRecordsKeptLines(lines: seq<string>, parse: string -> Option<real>)
    requires LoadLines(lines, parse).complete
    ensures var r := LoadLines(lines, parse); var kept := KeptLines(lines);
      |r.examples| == |kept| &&
      forall k :: 0 <= k < |kept| ==> ParseLine(kept[k], parse) == Record(r.examples[k], r.labels[k])
  {
    if lines != [] {
      LoadRecordsKeptLines(lines[1..], parse);
      KeptLinesStep(lines, parse);
    }
  }

  /** One step of LoadRecordsKeptLines: the first line, then the rest. */
  lemma {:induction false} KeptLinesStep(lines: seq<string>, parse: string -> Option<real>)
    requires lines != [] && LoadLines(lines, parse).complete
    requires var r := LoadLines(lines[1..], parse); var kept := KeptLines(lines[1..]);
      r.complete && |r.examples| == |kept| &&
      forall k :: 0 <= k < |kept| ==> ParseLine(kept[k], parse) == Record(r.examples[k], r.labels[k])
    ensures var r := LoadLines(lines, parse); var kept := KeptLines(lines);
      |r.examples| == |kept| &&
      forall k :: 0 <= k < |kept| ==> ParseLine(kept[k], parse) == Record(r.examples[k], r.labels[k])
  {
    var rest, kept := LoadLines(lines[1..], parse), KeptLines(lines[1..]);
    if IsSkipped(lines[0]) {
      assert KeptLines(lines) == kept;
      assert LoadLines(lines, parse) == rest;
    } else {
      var line := ParseLine(lines[0], parse);
      assert KeptLines(lines) == [lines[0]] + kept;
      ConsRecords(l => ParseLine(l, parse), lines[0], kept, line.features, line.target, rest.examples, rest.labels);
    }
  }

  /** A record line in front of lines that read as records keeps the
      pairing one position further on (for any way f of reading a line). */
  lemma {:induction false} ConsRecords(f: string -> Line, line: string, kept: seq<string>, x: Vec, y: real,
                                       xs: seq<Vec>, ys: seq<real>)
    requires f(line) == Record(x, y)
    requires |xs| == |kept| && |ys| == |kept|
    requires forall k :: 0 <= k < |kept| ==> f(kept[k]) == Record(xs[k], ys[k])
    ensures forall k :: 0 <= k < |kept| + 1 ==> f(([line] + kept)[k]) == Record(([x] + xs)[k], ([y] + ys)[k])
  {
    forall k | 1 <= k < |kept| + 1
      ensures f(([line] + kept)[k]) == Record(([x] + xs)[k], ([y] + ys)[k])
    {
      assert ([line] + kept)[k] == kept[k - 1];
    }
  }

  /** A kept line that starts with whitespace yields an empty first token;
      since `Double.parseDouble` rejects the empty string, such a line aborts
      the load. */
  lemma {:induction false} LeadingWhitespaceAborts(line: string, parse: string -> Option<real>)
    requires !IsSkipped(line) && IsWhitespace(line[0]) && parse("").None?
    ensures ParseLine(line, parse).Malformed?
  {
    KeptLineTokens(line);
    assert parse(Tokens(line)[0]).None?;
  }

  /** The feature loop of `load`: parses the tokens one by one into a new
      example, and gives up at the first token that does not parse. */
  method ParseTokens(tokens: seq<string>, parse: string -> Option<real>) returns (r: Option<Vec>)
    ensures r == ParseAll(tokens, parse)
  {
    var example: Vec := [];
    var i := 0;
    while i < |tokens|
      invariant 0 <= i <= |tokens|
      invariant |example| == i
      invariant forall j :: 0 <= j < i ==> parse(tokens[j]) == Some(example[j])
    {
      var v := parse(tokens[i]);
      if v.None? {
        return None;
      }
      example := example + [v.value];
      i := i + 1;
    }
    var all := ParseAll(tokens, parse);
    assert all.Some? && |all.value| == |example|;
    assert forall j :: 0 <= j < |tokens| ==> all.value[j] == example[j];
    assert all.value == example;
    return Some(example);
  }

  /** The body of the load loop for one line: the skip test, the split into
      tokens, the features and then the label. */
  method ReadLine(line: string, parse: string -> Option<real>) returns (r: Line)
    ensures r == ParseLine(line, parse)
  {
    if IsSkipped(line) {
      return Skip;
    }
    var tokens := Tokens(line);
    KeptLineTokens(line);
    var features := ParseTokens(tokens[..|tokens| - 1], parse);
    if features.None? {
      return Malformed;
    }
    var y := parse(tokens[|tokens| - 1]);
    if y.None? {
      return Malformed;
    }
    return Record(features.value, y.value);
  }

  // ---------------------------------------------------------------------
  // The data set object
  // ---------------------------------------------------------------------

  /** DataSet.java: the list of examples it is, and its `labels` field. */
  class DataSet {
    var examples: seq<Vec>
    var labels: seq<real>

    constructor ()
      ensures examples == [] && labels == []
    {
      examples := [];
      labels := [];
    }

    /** `ArrayList.add`: appends an example and leaves the labels alone. */
    method Add(example: Vec)
      modifies this
      ensures examples == old(examples) + [example] && labels == old(labels)
    {
      examples := examples + [example];
    }

    /** `addLabel`: appends a label and leaves the examples alone. */
    method AddLabel(y: real)
      modifies this
      ensures labels == old(labels) + [y] && examples == old(examples)
    {
      labels := labels + [y];
    }

    /** `getLabels`: the labels, in the order they were appended. */
    method GetLabels() returns (ys: seq<real>)
      ensures ys == labels
    {
      ys := labels;
    }

    /** `load`, one line at a time: appends to the examples and labels what
        LoadLines says, and fails with NumberFormat when a line is malformed,
        keeping what the earlier lines appended. */
    method Load(lines: seq<string>, parse: string -> Option<real>) returns (r: Outcome)
      modifies this
      ensures var l := LoadLines(lines, parse);
        examples == old(examples) + l.examples && labels == old(labels) + l.labels &&
        r == (if l.complete then Pass else Fail(NumberFormat))
    {
      ghost var all := LoadLines(lines, parse);
      ghost var ex0, lb0 := examples, labels;
      var k := 0;
      assert lines[k..] == lines;
      ghost var rest := all;
      while k < |lines|
        invariant 0 <= k <= |lines|
        invariant rest == LoadLines(lines[k..], parse)
        invariant all.complete == rest.complete
        invariant ex0 + all.examples == examples + rest.examples
        invariant lb0 + all.labels == labels + rest.labels
      {
        var line := ReadLine(lines[k], parse);
        ghost var next := LoadLines(lines[k + 1..], parse);
        LoadLinesStep(lines, k, parse);
        match line {
          case Skip =>
          case Malformed =>
            return Fail(NumberFormat);
          case Record(x, y) =>
            AppendAssoc(examples, [x], next.examples);
            AppendAssoc(labels, [y], next.labels);
            examples := examples + [x];
            labels := labels + [y];
        }
        rest := next;
        k := k + 1;
      }
      assert lines[k..] == [];
      r := Pass;
    }
  }

  // ---------------------------------------------------------------------
  // Positional hold-out split
  // ---------------------------------------------------------------------

  /** Java's `(int)` cast of a double: truncation toward zero. Saturation at
      the int range never matters here, since a list holds at most
      Integer.MAX_VALUE elements. */
  function TruncateToInt(x: real): (r: int)
    ensures x >= 0.0 ==> 0 <= r && r as real <= x < r as real + 1.0
    ensures x < 0.0 ==> r <= 0 && r as real - 1.0 < x <= r as real
  {
    if x >= 0.0 then x.Floor else -((-x).Floor)
  }

  /** `(int) (ds.size() * p)`, the requested training-set size. */
  function TrainSize(n: nat, p: real): (t: int)
    ensures 0.0 <= p ==> 0 <= t
    ensures 0.0 <= p <= 1.0 ==> t <= n
  {
    assert 0.0 <= p <= 1.0 ==> n as real * p <= n as real * 1.0;
    TruncateToInt(n as real * p)
  }

  /** The number of leading examples that land in the training split: the
      indices i < n with i < TrainSize(n, p). */
  function SplitPoint(n: nat, p: real): (k: nat)
    ensures k <= n
  {
    var t := TrainSize(n, p);
    if t < 0 then 0 else if t > n then n else t
  }

  /** For a proportion p in [0, 1] the training split holds floor(n * p)
      examples; p = 1 leaves the testing split empty, p = 0 the training one. */
  lemma {:induction false} SplitPointIsFloor(n: nat, p: real)
    requires 0.0 <= p <= 1.0
    ensures SplitPoint(n, p) == (n as real * p).Floor
    ensures p == 1.0 ==> SplitPoint(n, p) == n
    ensures p == 0.0 ==> SplitPoint(n, p) == 0
  {
    var x := n as real * p;
    assert 0.0 <= x <= n as real;
    assert 0 <= x.Floor <= n;
  }

  /** The split loop of `holdOut`: the first SplitPoint examples, with their
      labels in order, go to a new training set, the rest to a new testing
      set. It reads the label of every example, so a label list shorter than
      the example list fails with IndexOutOfBounds. */
  method HoldOutSplit(p: real, ds: DataSet) returns (training: DataSet, testing: DataSet, r: Outcome)
    ensures fresh(training) && fresh(testing) && training != testing
    ensures r == (if |ds.examples| <= |ds.labels| then Pass else Fail(IndexOutOfBounds))
    ensures r.Pass? ==> var n := |ds.examples|; var k := SplitPoint(n, p);
      training.examples == ds.examples[..k] && training.labels == ds.labels[..k] &&
      testing.examples == ds.examples[k..] && testing.labels == ds.labels[k..n]
  {
    var xs, ys := ds.examples, ds.labels;
    var n := |xs|;
    var trainSize := TrainSize(n, p);
    ghost var k := SplitPoint(n, p);
    training := new DataSet();
    testing := new DataSet();
    var i := 0;
    while i < n
      invariant 0 <= i <= n && i <= |ys|
      invariant fresh(training) && fresh(testing) && training != testing
      invariant var c := if i < k then i else k;
        training.examples == xs[..c] && training.labels == ys[..c] &&
        testing.examples == xs[c..i] && testing.labels == ys[c..i]
    {
      if i < trainSize {
        training.Add(xs[i]);
        if i >= |ys| {
          return training, testing, Fail(IndexOutOfBounds);
        }
        training.AddLabel(ys[i]);
        SliceNext(xs, 0, i);
        SliceNext(ys, 0, i);
      } else {
        testing.Add(xs[i]);
        if i >= |ys| {
          return training, testing, Fail(IndexOutOfBounds);
        }
        testing.AddLabel(ys[i]);
        SliceNext(xs, k, i);
        SliceNext(ys, k, i);
      }
      i := i + 1;
    }
    r := Pass;
  }
}
