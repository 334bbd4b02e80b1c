/**
  The userscript metadata header parser (`Script.getJSAttributes`).

  The header is the text between the `==UserScript==` and `==/UserScript==`
  markers. It is split into lines on "\n"; on each line a scanner skips to the
  first `@`, reads a key up to the next whitespace character, and reads a value
  up to the next newline character. The result maps each key to the values it
  was given, in order of appearance.
*/
module Metadata {
  import opened Wrappers
  import opened TextScanner

  /** Attribute key to its values, in the order the header lists them. */
  type Attributes = map<string, seq<string>>

  const StartMarker: string := "==UserScript=="
  const EndMarker: string := "==/UserScript=="

  predicate OccursAt(s: string, pattern: string, i: nat)
  {
    i + |pattern| <= |s| && s[i .. i + |pattern|] == pattern
  }

  /** `range(of:)` restricted to the text from `i` on: the first occurrence at or after `i`. */
  function FindFrom(s: string, pattern: string, i: nat): (r: Option<nat>)
    requires i <= |s|
    ensures r.Some? ==> i <= r.value && OccursAt(s, pattern, r.value)
    decreases |s| - i
  {
    if OccursAt(s, pattern, i) then Some(i)
    else if i == |s| then None
    else FindFrom(s, pattern, i + 1)
  }

  /** The occurrence found is the first one at or after `i`; none is found only when there is none. */
  lemma {:induction false} FindFromIsFirst(s: string, pattern: string, i: nat)
    requires i <= |s|
    ensures FindFrom(s, pattern, i).Some? ==> forall j :: i <= j < FindFrom(s, pattern, i).value ==> !OccursAt(s, pattern, j)
    ensures FindFrom(s, pattern, i).None? ==> forall j :: i <= j ==> !OccursAt(s, pattern, j)
    decreases |s| - i
  {
    if !OccursAt(s, pattern, i) && i < |s| {
      FindFromIsFirst(s, pattern, i + 1);
    }
  }

  /** Starting the search later, but not past the first occurrence, finds the same occurrence. */
  lemma {:induction false} FindFromLater(s: string, pattern: string, i: nat, k: nat)
    requires i <= k <= |s|
    requires FindFrom(s, pattern, i).None? || k <= FindFrom(s, pattern, i).value
    ensures FindFrom(s, pattern, k) == FindFrom(s, pattern, i)
    decreases k - i
  {
    if i < k {
      FindFromLater(s, pattern, i + 1, k);
    }
  }

  /** Where the header text lies, or why there is none. */
  datatype Span = NoHeader | Inverted | Body(lo: nat, hi: nat)

  /**
    The header span as the source computes it: the first start marker and the
    first end marker, each searched in the whole text. When the end marker
    comes before the end of the start marker, the range the source builds is
    malformed and the Swift runtime traps (`Inverted`).
  */
  function HeaderSpanAsWritten(content: string): (r: Span)
    ensures r.Body? ==> r.lo <= r.hi <= |content|
  {
    match FindFrom(content, StartMarker, 0)
    case None => NoHeader
    case Some(p) =>
      match FindFrom(content, EndMarker, 0)
      case None => NoHeader
      case Some(q) => if q < p + |StartMarker| then Inverted else Body(p + |StartMarker|, q)
  }

  /**
    The header span with the end marker searched after the start marker. It
    never traps, and it is the span the source uses on every input on which
    the source does not trap (`HeaderSpanAgrees`).
  */
  function HeaderSpan(content: string): (r: Span)
    ensures !r.Inverted?
    ensures r.Body? ==>
      && |StartMarker| <= r.lo <= r.hi <= |content|
      && OccursAt(content, StartMarker, r.lo - |StartMarker|)
      && OccursAt(content, EndMarker, r.hi)
  {
    match FindFrom(content, StartMarker, 0)
    case None => NoHeader
    case Some(p) =>
      match FindFrom(content, EndMarker, p + |StartMarker|)
      case None => NoHeader
      case Some(q) => Body(p + |StartMarker|, q)
  }

  lemma HeaderSpanAgrees(content: string)
    requires !HeaderSpanAsWritten(content).Inverted?
    ensures HeaderSpanAsWritten(content) == HeaderSpan(content)
  {
    var first := FindFrom(content, StartMarker, 0);
    if first.Some? {
      FindFromLater(content, EndMarker, 0, first.value + |StartMarker|);
    }
  }

  /** The source traps on a text whose end marker precedes its start marker. */
  lemma AsWrittenTrapsOnEndMarkerFirst()
    ensures HeaderSpanAsWritten(EndMarker + "\n" + StartMarker).Inverted?
  {
    var text := EndMarker + "\n" + StartMarker;
    FindFromIsFirst(text, StartMarker, 0);
    assert OccursAt(text, EndMarker, 0) by {
      assert text[0 .. |EndMarker|] == EndMarker;
    }
    assert OccursAt(text, StartMarker, |EndMarker| + 1) by {
      assert text[|EndMarker| + 1 ..] == StartMarker;
    }
  }

  /** The first index at or after `i` that holds "\n", or the end. */
  function LineFeedFrom(s: string, i: nat): (j: nat)
    requires i <= |s|
    ensures i <= j <= |s|
    ensures j < |s| ==> s[j] == '\n'
    decreases |s| - i
  {
    if i == |s| || s[i] == '\n' then i else LineFeedFrom(s, i + 1)
  }

  /** No "\n" lies between `i` and the one `LineFeedFrom` finds. */
  lemma {:induction false} LineFeedFromSkips(s: string, i: nat)
    requires i <= |s|
    ensures forall k :: i <= k < LineFeedFrom(s, i) ==> s[k] != '\n'
    decreases |s| - i
  {
    if i < |s| && s[i] != '\n' {
      LineFeedFromSkips(s, i + 1);
    }
  }

  /** `components(separatedBy: "\n")`. */
  function Split(s: string): (lines: seq<string>)
    ensures |lines| >= 1
    decreases |s|
  {
    var k := LineFeedFrom(s, 0);
    if k == |s| then [s] else [s[..k]] + Split(s[k + 1 ..])
  }

  /** The lines hold no "\n", and joining them back gives the text. */
  lemma {:induction false} SplitJoin(s: string)
    ensures forall i :: 0 <= i < |Split(s)| ==> '\n' !in Split(s)[i]
    ensures Join(Split(s)) == s
    decreases |s|
  {
    var k := LineFeedFrom(s, 0);
    LineFeedFromSkips(s, 0);
    if k == |s| {
      assert forall c :: c in s ==> c != '\n';
    } else {
      var rest := Split(s[k + 1 ..]);
      SplitJoin(s[k + 1 ..]);
      assert '\n' !in s[..k];
      assert s == s[..k] + "\n" + s[k + 1 ..];
      assert ([s[..k]] + rest)[1..] == rest;
    }
  }

  /** The lines joined back with "\n": the inverse of `Split`. */
  function Join(lines: seq<string>): string
    requires |lines| >= 1
  {
    if |lines| == 1 then lines[0] else lines[0] + "\n" + Join(lines[1..])
  }

  /** A key: non-empty, starting with a significant character, free of whitespace. */
  predicate WellFormedKey(key: string)
  {
    && key != []
    && !IsSkipped(key[0])
    && forall k :: 0 <= k < |key| ==> !IsWhitespace(key[k])
  }

  /** A value: non-empty, starting with a significant character, free of newlines. */
  predicate WellFormedValue(value: string)
  {
    && value != []
    && !IsSkipped(value[0])
    && forall k :: 0 <= k < |value| ==> !IsNewline(value[k])
  }

  /**
    The scanner steps the source runs on one header line: skip to "@", check
    for the end, consume "@", read the key up to whitespace, check for the end,
    read the value up to a newline.
  */
  function ScanLine(line: string): Option<(string, string)>
  {
    var toAt := ScanUpTo(line, 0, AtSign);
    if AtEnd(line, toAt.location) then None
    else
      var (_, afterAt) := ScanLiteral(line, toAt.location, "@");
      var key := ScanUpTo(line, afterAt, Whitespaces);
      if AtEnd(line, key.location) then None
      else
        var value := ScanUpTo(line, key.location, Newlines);
        if key.token.Some? && value.token.Some? then Some((key.token.value, value.token.value))
        else None
  }

  /**
    The shape of a header line, stated by positions and without the scanner:
    the first "@" of the line is at `at`; then come skipped characters; the key
    `line[keyStart..keyEnd]`, non-empty, starting with a significant character
    and free of whitespace; a whitespace character followed by skipped
    characters; the value `line[valueStart..valueEnd]`, non-empty, starting
    with a significant character and free of newlines; then the end of the
    line or a newline character.
  */
  predicate LineShape(line: string, at: nat, keyStart: nat, keyEnd: nat, valueStart: nat, valueEnd: nat)
  {
    && at < keyStart < keyEnd < valueStart < valueEnd <= |line|
    && (forall k :: 0 <= k < at ==> line[k] != '@')
    && line[at] == '@'
    && (forall k :: at < k < keyStart ==> IsSkipped(line[k]))
    && !IsSkipped(line[keyStart])
    && (forall k :: keyStart <= k < keyEnd ==> !IsWhitespace(line[k]))
    && IsWhitespace(line[keyEnd])
    && (forall k :: keyEnd <= k < valueStart ==> IsSkipped(line[k]))
    && !IsSkipped(line[valueStart])
    && (forall k :: valueStart <= k < valueEnd ==> !IsNewline(line[k]))
    && (valueEnd < |line| ==> IsNewline(line[valueEnd]))
  }

  lemma {:induction false} SkipFromIs(s: string, i: nat, j: nat)
    requires i <= j <= |s|
    requires forall k :: i <= k < j ==> IsSkipped(s[k])
    requires j < |s| ==> !IsSkipped(s[j])
    ensures SkipFrom(s, i) == j
    decreases j - i
  {
    if i < j {
      SkipFromIs(s, i + 1, j);
    }
  }

  lemma {:induction false} UpToIs(s: string, i: nat, j: nat, stop: CharacterSet)
    requires i <= j <= |s|
    requires forall k :: i <= k < j ==> !Contains(stop, s[k])
    requires j < |s| ==> Contains(stop, s[j])
    ensures UpTo(s, i, stop) == j
    decreases j - i
  {
    if i < j {
      UpToIs(s, i + 1, j, stop);
    }
  }

  /** Scanning to "@" and consuming it leaves the cursor just after the first "@". */
  lemma ScanToAtSign(line: string, at: nat)
    requires at < |line| && line[at] == '@'
    requires forall k :: 0 <= k < at ==> line[k] != '@'
    ensures !AtEnd(line, ScanUpTo(line, 0, AtSign).location)
    ensures ScanLiteral(line, ScanUpTo(line, 0, AtSign).location, "@").1 == at + 1
  {
    var start := SkipFrom(line, 0);
    SkipFromSkips(line, 0);
    assert start <= at by {
      assert at < |line| && start < |line| ==> !IsSkipped(line[start]);
      assert !IsSkipped(line[at]);
    }
    UpToIs(line, start, at, AtSign);
    var location := ScanUpTo(line, 0, AtSign).location;
    SkipFromIs(line, location, at);
    assert line[at .. at + 1] == "@";
  }

  /** When the scan to "@" does not reach the end, the line holds an "@". */
  lemma FirstAtSign(line: string) returns (at: nat)
    requires !AtEnd(line, ScanUpTo(line, 0, AtSign).location)
    ensures at < |line| && line[at] == '@'
    ensures forall k :: 0 <= k < at ==> line[k] != '@'
  {
    var toAt := ScanUpTo(line, 0, AtSign);
    at := UpTo(line, SkipFrom(line, 0), AtSign);
    SkipFromSkips(line, 0);
    UpToAvoids(line, SkipFrom(line, 0), AtSign);
    assert toAt.location == 0 || toAt.location == at;
    if toAt.location == 0 {
      assert SkipFrom(line, 0) < |line|;
    } else {
      assert SkipFrom(line, at) < |line|;
    }
  }

  /** Every line the scanner accepts has the shape `LineShape` describes. */
  lemma ScanLineHasShape(line: string) returns (at: nat, keyStart: nat, keyEnd: nat, valueStart: nat, valueEnd: nat)
    requires ScanLine(line).Some?
    ensures LineShape(line, at, keyStart, keyEnd, valueStart, valueEnd)
    ensures ScanLine(line) == Some((line[keyStart .. keyEnd], line[valueStart .. valueEnd]))
  {
    at := FirstAtSign(line);
    ScanToAtSign(line, at);
    keyStart := SkipFrom(line, at + 1);
    keyEnd := UpTo(line, keyStart, Whitespaces);
    var key := ScanUpTo(line, at + 1, Whitespaces);
    assert key.token.Some? && !AtEnd(line, key.location);
    assert key.location == keyEnd;
    valueStart := SkipFrom(line, keyEnd);
    valueEnd := UpTo(line, valueStart, Newlines);
    var value := ScanUpTo(line, keyEnd, Newlines);
    SkipFromSkips(line, at + 1);
    UpToAvoids(line, keyStart, Whitespaces);
    SkipFromSkips(line, keyEnd);
    UpToAvoids(line, valueStart, Newlines);
    assert value.token.Some?;
    assert value.location == valueEnd;
  }

  /** Every line of that shape is accepted, with exactly that key and value. */
  lemma ShapeIsScanned(line: string, at: nat, keyStart: nat, keyEnd: nat, valueStart: nat, valueEnd: nat)
    requires LineShape(line, at, keyStart, keyEnd, valueStart, valueEnd)
    ensures ScanLine(line) == Some((line[keyStart .. keyEnd], line[valueStart .. valueEnd]))
  {
    ScanToAtSign(line, at);
    SkipFromIs(line, at + 1, keyStart);
    UpToIs(line, keyStart, keyEnd, Whitespaces);
    SkipFromIs(line, keyEnd, valueStart);
    UpToIs(line, valueStart, valueEnd, Newlines);
  }

  /** An accepted line yields a key without whitespace and a value without newlines. */
  lemma ScanLineWellFormed(line: string)
    requires ScanLine(line).Some?
    ensures WellFormedKey(ScanLine(line).value.0) && WellFormedValue(ScanLine(line).value.1)
  {
    var at, keyStart, keyEnd, valueStart, valueEnd := ScanLineHasShape(line);
  }

  /** A line without "@" yields nothing. */
  lemma NoAtSignNoAttribute(line: string)
    requires forall k :: 0 <= k < |line| ==> line[k] != '@'
    ensures ScanLine(line).None?
  {
    var start := SkipFrom(line, 0);
    assert UpTo(line, start, AtSign) == |line|;
  }

  /**
    A line whose key (after its first "@") is followed only by whitespace and
    newline characters, or by nothing, yields nothing.
  */
  lemma KeyAloneNoAttribute(line: string, at: nat, keyEnd: nat)
    requires at < keyEnd <= |line|
    requires forall k :: 0 <= k < at ==> line[k] != '@'
    requires line[at] == '@'
    requires forall k :: at < k < keyEnd ==> !IsWhitespace(line[k])
    requires forall k :: keyEnd <= k < |line| ==> IsSkipped(line[k])
    ensures ScanLine(line).None?
  {
    ScanToAtSign(line, at);
    var keyScan := ScanUpTo(line, at + 1, Whitespaces);
    var start := SkipFrom(line, at + 1);
    assert keyScan.location == at + 1 || keyScan.location == UpTo(line, start, Whitespaces);
    assert keyScan.location >= keyEnd || SkipFrom(line, keyScan.location) == |line|;
    AtEndMeansOnlySkipped(line, keyScan.location);
  }

  /** The key/value pairs the lines yield, in the order of the lines. */
  function Pairs(lines: seq<string>): seq<(string, string)>
  {
    if lines == [] then []
    else
      Pairs(lines[..|lines| - 1])
      + match ScanLine(lines[|lines| - 1]) case Some(pair) => [pair] case None => []
  }

  /** Every pair comes from one of the lines. */
  lemma {:induction false} PairsFromLines(lines: seq<string>, pair: (string, string))
    requires pair in Pairs(lines)
    ensures exists j :: 0 <= j < |lines| && ScanLine(lines[j]) == Some(pair)
  {
    var last := |lines| - 1;
    if pair in Pairs(lines[..last]) {
      PairsFromLines(lines[..last], pair);
      var j :| 0 <= j < last && ScanLine(lines[..last][j]) == Some(pair);
      assert lines[j] == lines[..last][j];
    } else {
      assert ScanLine(lines[last]) == Some(pair);
    }
  }

  /** Adds one value under `key`: a singleton list for a new key, appended otherwise. */
  function AddValue(attributes: Attributes, key: string, value: string): Attributes
  {
    if key in attributes then attributes[key := attributes[key] + [value]]
    else attributes[key := [value]]
  }

  /** The dictionary the source's loop builds from the pairs, first pair first. */
  function Gather(pairs: seq<(string, string)>): Attributes
  {
    if pairs == [] then map[]
    else
      var (key, value) := pairs[|pairs| - 1];
      AddValue(Gather(pairs[..|pairs| - 1]), key, value)
  }

  lemma PairsStep(lines: seq<string>, i: nat, pair: Option<(string, string)>)
    requires i < |lines| && pair == ScanLine(lines[i])
    ensures pair.None? ==> Pairs(lines[..i + 1]) == Pairs(lines[..i])
    ensures pair.Some? ==> Pairs(lines[..i + 1]) == Pairs(lines[..i]) + [pair.value]
  {
    assert lines[..i + 1][..i] == lines[..i];
  }

  lemma GatherStep(pairs: seq<(string, string)>, key: string, value: string)
    ensures Gather(pairs + [(key, value)]) == AddValue(Gather(pairs), key, value)
  {
    assert (pairs + [(key, value)])[..|pairs|] == pairs;
  }

  /** The values the pairs give `key`, in order: a reference for `Gather`. */
  function ValuesOf(pairs: seq<(string, string)>, key: string): seq<string>
  {
    if pairs == [] then []
    else ValuesOf(pairs[..|pairs| - 1], key) + if pairs[|pairs| - 1].0 == key then [pairs[|pairs| - 1].1] else []
  }

  /**
    The dictionary holds, under each key, exactly the values the pairs give
    that key, in order; a key is present iff some pair gives it. So every list
    is non-empty, the first occurrence creates a singleton and each later one
    appends.
  */
  lemma {:induction false} GatherIsValuesOf(pairs: seq<(string, string)>, key: string)
    ensures key in Gather(pairs) <==> ValuesOf(pairs, key) != []
    ensures key in Gather(pairs) ==> Gather(pairs)[key] == ValuesOf(pairs, key)
  {
    if pairs != [] {
      GatherIsValuesOf(pairs[..|pairs| - 1], key);
    }
  }

  /** Every key of the dictionary comes from some pair, and every value too. */
  lemma {:induction false} GatherFromPairs(pairs: seq<(string, string)>, key: string)
    requires key in Gather(pairs)
    ensures exists i :: 0 <= i < |pairs| && pairs[i].0 == key
    ensures forall v :: v in Gather(pairs)[key] ==> (key, v) in pairs
  {
    var earlier := pairs[..|pairs| - 1];
    if key in Gather(earlier) {
      GatherFromPairs(earlier, key);
      assert forall v :: (key, v) in earlier ==> (key, v) in pairs;
    }
    assert pairs[|pairs| - 1] in pairs;
  }

  /** The header lines of a script text; none when a marker is missing. */
  function HeaderLines(content: string): seq<string>
  {
    match HeaderSpan(content)
    case Body(lo, hi) => Split(content[lo..hi])
    case _ => []
  }

  /** `Script.getJSAttributes`, on every input on which the source does not trap. */
  function JSAttributes(content: string): Attributes
  {
    Gather(Pairs(HeaderLines(content)))
  }

  /**
    Every key of the attributes is a well-formed key (no whitespace) mapped to
    a non-empty list of well-formed values (no newline characters).
  */
  lemma AttributesWellFormed(content: string, key: string)
    requires key in JSAttributes(content)
    ensures WellFormedKey(key)
    ensures JSAttributes(content)[key] != []
    ensures forall v :: v in JSAttributes(content)[key] ==> WellFormedValue(v)
  {
    var lines := HeaderLines(content);
    var pairs := Pairs(lines);
    GatherFromPairs(pairs, key);
    GatherIsValuesOf(pairs, key);
    var i :| 0 <= i < |pairs| && pairs[i].0 == key;
    PairsFromLines(lines, pairs[i]);
    var j :| 0 <= j < |lines| && ScanLine(lines[j]) == Some(pairs[i]);
    ScanLineWellFormed(lines[j]);
    forall v | v in JSAttributes(content)[key]
      ensures WellFormedValue(v)
    {
      PairsFromLines(lines, (key, v));
      var j' :| 0 <= j' < |lines| && ScanLine(lines[j']) == Some((key, v));
      ScanLineWellFormed(lines[j']);
    }
  }

  /** `Split` takes the text up to the first line feed as its first line. */
  lemma SplitUnfold(s: string)
    ensures LineFeedFrom(s, 0) == |s| ==> Split(s) == [s]
    ensures LineFeedFrom(s, 0) < |s| ==>
      Split(s) == [s[..LineFeedFrom(s, 0)]] + Split(s[LineFeedFrom(s, 0) + 1 ..])
  {
  }

  /** A prefix occurs at the start. */
  lemma PrefixOccurs(s: string, n: nat)
    requires n <= |s|
    ensures OccursAt(s, s[..n], 0)
  {
    assert s[0 .. n] == s[..n];
  }

  /** An occurrence after position `n` is an occurrence in the whole text. */
  lemma SuffixOccurs(s: string, n: nat, t: string, k: nat)
    requires n <= |s| && OccursAt(s[n..], t, k)
    ensures OccursAt(s, t, n + k)
  {
    assert s[n + k .. n + k + |t|] == s[n..][k .. k + |t|];
  }

  /** Each line `Split` yields occurs in the split text. */
  lemma {:induction false} SplitLineOccurs(s: string, i: nat) returns (k: nat)
    requires i < |Split(s)|
    ensures OccursAt(s, Split(s)[i], k)
    decreases |s|
  {
    var n := LineFeedFrom(s, 0);
    SplitUnfold(s);
    if n == |s| {
      k := 0;
      PrefixOccurs(s, n);
      assert Split(s)[i] == s[..n];
    } else if i == 0 {
      k := 0;
      PrefixOccurs(s, n);
      assert Split(s)[0] == s[..n];
    } else {
      var rest := s[n + 1 ..];
      assert Split(s)[i] == Split(rest)[i - 1];
      var k' := SplitLineOccurs(rest, i - 1);
      SuffixOccurs(s, n + 1, Split(rest)[i - 1], k');
      k := n + 1 + k';
    }
  }

  /** `t` occurs in `content` between the two markers. */
  predicate WithinHeader(content: string, t: string)
  {
    match HeaderSpan(content)
    case Body(lo, hi) => exists k :: lo <= k && k + |t| <= hi && OccursAt(content, t, k)
    case _ => false
  }

  /** A part of an occurrence is an occurrence. */
  lemma OccursPart(s: string, t: string, k: nat, a: nat, b: nat)
    requires OccursAt(s, t, k) && a <= b <= |t|
    ensures OccursAt(s, t[a .. b], k + a)
  {
    forall i | 0 <= i < b - a
      ensures s[k + a .. k + b][i] == t[a .. b][i]
    {
      assert s[k + a + i] == s[k .. k + |t|][a + i];
    }
  }

  /** An occurrence in a slice is an occurrence in the whole text. */
  lemma OccursInSlice(s: string, lo: nat, hi: nat, t: string, k: nat)
    requires lo <= hi <= |s| && OccursAt(s[lo .. hi], t, k)
    ensures OccursAt(s, t, lo + k) && lo + k + |t| <= hi
  {
    forall i | 0 <= i < |t|
      ensures s[lo + k .. lo + k + |t|][i] == t[i]
    {
      assert s[lo .. hi][k .. k + |t|][i] == t[i];
    }
  }

  /** The key and the value of an accepted line are slices of it. */
  lemma ScannedSlices(line: string) returns (keyStart: nat, keyEnd: nat, valueStart: nat, valueEnd: nat)
    requires ScanLine(line).Some?
    ensures keyStart <= keyEnd <= |line| && valueStart <= valueEnd <= |line|
    ensures ScanLine(line).value == (line[keyStart .. keyEnd], line[valueStart .. valueEnd])
  {
    var at;
    at, keyStart, keyEnd, valueStart, valueEnd := ScanLineHasShape(line);
  }

  /** A slice of a header line lies within the header. */
  lemma LinePartWithinHeader(content: string, j: nat, a: nat, b: nat)
    requires j < |HeaderLines(content)|
    requires a <= b <= |HeaderLines(content)[j]|
    ensures WithinHeader(content, HeaderLines(content)[j][a .. b])
  {
    var Body(lo, hi) := HeaderSpan(content);
    assert HeaderLines(content) == Split(content[lo .. hi]);
    var line := HeaderLines(content)[j];
    var k := SplitLineOccurs(content[lo .. hi], j);
    var t := line[a .. b];
    OccursPart(content[lo .. hi], line, k, a, b);
    OccursInSlice(content, lo, hi, t, k + a);
    assert lo <= lo + k + a && lo + k + a + |t| <= hi && OccursAt(content, t, lo + k + a);
  }

  /** The key and the value of every pair come from the header text. */
  lemma PairWithinHeader(content: string, pair: (string, string))
    requires pair in Pairs(HeaderLines(content))
    ensures WithinHeader(content, pair.0) && WithinHeader(content, pair.1)
  {
    var lines := HeaderLines(content);
    PairsFromLines(lines, pair);
    var j :| 0 <= j < |lines| && ScanLine(lines[j]) == Some(pair);
    var keyStart, keyEnd, valueStart, valueEnd := ScannedSlices(lines[j]);
    LinePartWithinHeader(content, j, keyStart, keyEnd);
    LinePartWithinHeader(content, j, valueStart, valueEnd);
  }

  /**
    Only the text strictly between the two markers contributes: every key of
    the attributes, and every value, occurs there.
  */
  lemma AttributesWithinHeader(content: string, key: string)
    requires key in JSAttributes(content)
    ensures WithinHeader(content, key)
    ensures forall v :: v in JSAttributes(content)[key] ==> WithinHeader(content, v)
  {
    var pairs := Pairs(HeaderLines(content));
    GatherFromPairs(pairs, key);
    var i :| 0 <= i < |pairs| && pairs[i].0 == key;
    PairWithinHeader(content, pairs[i]);
    forall v | v in JSAttributes(content)[key]
      ensures WithinHeader(content, v)
    {
      PairWithinHeader(content, (key, v));
    }
  }

  /** Without a start marker, or without an end marker, there are no attributes. */
  lemma MissingMarkerNoAttributes(content: string)
    requires (forall j :: !OccursAt(content, StartMarker, j)) || (forall j :: !OccursAt(content, EndMarker, j))
    ensures JSAttributes(content) == map[]
  {
  }

  /** The scanner steps of one loop iteration, as the source runs them on `line`. */
  method ScanHeaderLine(line: string) returns (pair: Option<(string, string)>)
    ensures pair == ScanLine(line)
  {
    var scanner := new Scanner(line);
    // move to the first "@"
    var _ := scanner.ScanUpToCharacters(AtSign);
    if scanner.IsAtEnd() {
      return None;
    }
    // consume "@", then the key runs up to whitespace
    var _ := scanner.ScanString("@");
    var key := scanner.ScanUpToCharacters(Whitespaces);
    if scanner.IsAtEnd() {
      return None;
    }
    // the value runs up to a newline character
    var value := scanner.ScanUpToCharacters(Newlines);
    if key.None? || value.None? {
      return None;
    }
    return Some((key.value, value.value));
  }

  /** The lines the source splits off when neither marker search fails. */
  lemma HeaderLinesFromMarkers(content: string, p: nat, q: nat)
    requires !HeaderSpanAsWritten(content).Inverted?
    requires FindFrom(content, StartMarker, 0) == Some(p)
    requires FindFrom(content, EndMarker, 0) == Some(q)
    ensures p + |StartMarker| <= q <= |content|
    ensures HeaderLines(content) == Split(content[p + |StartMarker|..q])
  {
    HeaderSpanAgrees(content);
    assert HeaderSpanAsWritten(content) == Body(p + |StartMarker|, q);
    assert HeaderSpan(content) == Body(p + |StartMarker|, q);
  }

  /**
    The source's loop over the header lines: scan each one and add the pair
    found, creating the key's list on its first occurrence.
  */
  method GatherHeaderLines(lines: seq<string>) returns (attributes: Attributes)
    ensures attributes == Gather(Pairs(lines))
  {
    attributes := map[];
    for i := 0 to |lines|
      invariant attributes == Gather(Pairs(lines[..i]))
    {
      var pair := ScanHeaderLine(lines[i]);
      PairsStep(lines, i, pair);
      if pair.None? {
        continue;
      }
      var key := pair.value.0;
      var value := pair.value.1;
      GatherStep(Pairs(lines[..i]), key, value);
      if key !in attributes {
        attributes := attributes[key := [value]];
      } else {
        attributes := attributes[key := attributes[key] + [value]];
      }
    }
    assert lines[..|lines|] == lines;
  }

  /**
    `getJSAttributes` as the source runs it: find both markers, split the text
    between them into lines and gather the pairs the lines hold. The source
    traps when the end marker comes first; on every other input the result is
    `JSAttributes`.
  */
  method GetJSAttributes(fileContent: string) returns (attributes: Attributes)
    requires !HeaderSpanAsWritten(fileContent).Inverted?
    ensures attributes == JSAttributes(fileContent)
  {
    var range1 := FindFrom(fileContent, StartMarker, 0);
    var range2 := FindFrom(fileContent, EndMarker, 0);
    if range1.None? || range2.None? {
      HeaderSpanAgrees(fileContent);
      return map[];
    }
    HeaderLinesFromMarkers(fileContent, range1.value, range2.value);
    var lines := Split(fileContent[range1.value + |StartMarker| .. range2.value]);
    attributes := GatherHeaderLines(lines);
  }
}
