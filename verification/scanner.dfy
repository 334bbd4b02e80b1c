/**
  A model of the part of Foundation's `Scanner` that the userscript header
  parser relies on.  A scanner holds a string and a cursor (`location`); by
  default it skips whitespace and newline characters before every scan, and it
  reports `isAtEnd` as soon as only such characters remain.
*/
module TextScanner {
  import opened Wrappers

  /** `CharacterSet.whitespaces`: Unicode general category Zs plus the tab. */
  predicate IsWhitespace(c: char)
  {
    || c == '\t' || c == ' ' || c == '\U{00A0}' || c == '\U{1680}'
    || ('\U{2000}' <= c <= '\U{200A}')
    || c == '\U{202F}' || c == '\U{205F}' || c == '\U{3000}'
  }

  /** `CharacterSet.newlines`: U+000A to U+000D, U+0085, U+2028 and U+2029. */
  predicate IsNewline(c: char)
  {
    ('\n' <= c <= '\r') || c == '\U{0085}' || c == '\U{2028}' || c == '\U{2029}'
  }

  /** The default `charactersToBeSkipped`: `CharacterSet.whitespacesAndNewlines`. */
  predicate IsSkipped(c: char)
  {
    IsWhitespace(c) || IsNewline(c)
  }

  /** The character sets the parser scans up to. */
  datatype CharacterSet = AtSign | Whitespaces | Newlines

  predicate Contains(cs: CharacterSet, c: char)
  {
    match cs
    case AtSign => c == '@'
    case Whitespaces => IsWhitespace(c)
    case Newlines => IsNewline(c)
  }

  /** The first index at or after `i` that holds no skipped character. */
  function SkipFrom(s: string, i: nat): (j: nat)
    requires i <= |s|
    ensures i <= j <= |s|
    ensures j < |s| ==> !IsSkipped(s[j])
    decreases |s| - i
  {
    if i == |s| || !IsSkipped(s[i]) then i else SkipFrom(s, i + 1)
  }

  /** Every character `SkipFrom` passes over is a skipped one. */
  lemma {:induction false} SkipFromSkips(s: string, i: nat)
    requires i <= |s|
    ensures forall k :: i <= k < SkipFrom(s, i) ==> IsSkipped(s[k])
    decreases |s| - i
  {
    if i < |s| && IsSkipped(s[i]) {
      SkipFromSkips(s, i + 1);
    }
  }

  /** The first index at or after `i` that holds a character of `stop`, or the end. */
  function UpTo(s: string, i: nat, stop: CharacterSet): (j: nat)
    requires i <= |s|
    ensures i <= j <= |s|
    ensures j < |s| ==> Contains(stop, s[j])
    decreases |s| - i
  {
    if i == |s| || Contains(stop, s[i]) then i else UpTo(s, i + 1, stop)
  }

  /** No character `UpTo` passes over belongs to `stop`. */
  lemma {:induction false} UpToAvoids(s: string, i: nat, stop: CharacterSet)
    requires i <= |s|
    ensures forall k :: i <= k < UpTo(s, i, stop) ==> !Contains(stop, s[k])
    decreases |s| - i
  {
    if i < |s| && !Contains(stop, s[i]) {
      UpToAvoids(s, i + 1, stop);
    }
  }

  /** `isAtEnd`: only skipped characters remain after `location`. */
  predicate AtEnd(s: string, location: nat)
    requires location <= |s|
  {
    SkipFrom(s, location) == |s|
  }

  lemma AtEndMeansOnlySkipped(s: string, location: nat)
    requires location <= |s|
    ensures AtEnd(s, location) <==> forall k :: location <= k < |s| ==> IsSkipped(s[k])
  {
    SkipFromSkips(s, location);
    if !AtEnd(s, location) {
      var j := SkipFrom(s, location);
      assert !IsSkipped(s[j]);
    }
  }

  /** The outcome of one scan: the token read, if any, and the new cursor. */
  datatype Scan = Scan(token: Option<string>, location: nat)

  /**
    `scanUpToCharacters(from:into:)`: skip the skipped characters, then read
    up to (not including) the first character of `stop`. When nothing is read
    the scan fails and the cursor does not move.
  */
  function ScanUpTo(s: string, location: nat, stop: CharacterSet): (r: Scan)
    requires location <= |s|
    ensures r.location <= |s|
    ensures r.token.None? ==> r.location == location
  {
    var start := SkipFrom(s, location);
    var end := UpTo(s, start, stop);
    if end == start then Scan(None, location) else Scan(Some(s[start..end]), end)
  }

  /**
    What a successful scan read: a token that starts with a significant
    character and holds no character of `stop`, preceded only by skipped
    characters, and followed by a character of `stop` or by the end.
  */
  lemma ScanUpToToken(s: string, location: nat, stop: CharacterSet)
    requires location <= |s|
    requires ScanUpTo(s, location, stop).token.Some?
    ensures
      var r := ScanUpTo(s, location, stop);
      var t := r.token.value;
      && location <= r.location - |t|
      && t == s[r.location - |t| .. r.location]
      && t != [] && !IsSkipped(t[0])
      && (forall k :: 0 <= k < |t| ==> !Contains(stop, t[k]))
      && (r.location < |s| ==> Contains(stop, s[r.location]))
      && (forall k :: location <= k < r.location - |t| ==> IsSkipped(s[k]))
  {
    var start := SkipFrom(s, location);
    var end := UpTo(s, start, stop);
    SkipFromSkips(s, location);
    UpToAvoids(s, start, stop);
    assert end - start == |s[start..end]|;
  }

  /**
    `scanString(_:into:)`: skip the skipped characters, then consume `literal`
    if the text continues with it; otherwise fail without moving.
  */
  function ScanLiteral(s: string, location: nat, literal: string): (r: (bool, nat))
    requires location <= |s|
    ensures r.1 <= |s|
    ensures r.0 ==> |literal| <= r.1 && s[r.1 - |literal| .. r.1] == literal
    ensures !r.0 ==> r.1 == location
  {
    var start := SkipFrom(s, location);
    if start + |literal| <= |s| && s[start .. start + |literal|] == literal
    then (true, start + |literal|)
    else (false, location)
  }

  /** A scanner over one string, with the cursor that each scan advances. */
  class Scanner {
    const text: string
    var location: nat

    ghost predicate Valid()
      reads this
    {
      location <= |text|
    }

    constructor (text: string)
      ensures Valid()
      ensures this.text == text && location == 0
    {
      this.text := text;
      location := 0;
    }

    predicate IsAtEnd()
      reads this
      requires Valid()
    {
      AtEnd(text, location)
    }

    method ScanUpToCharacters(stop: CharacterSet) returns (token: Option<string>)
      requires Valid()
      modifies this
      ensures Valid()
      ensures Scan(token, location) == ScanUpTo(text, old(location), stop)
    {
      var start := location;
      while start < |text| && IsSkipped(text[start])
        invariant location <= start <= |text|
        invariant SkipFrom(text, location) == SkipFrom(text, start)
      {
        start := start + 1;
      }
      var end := start;
      while end < |text| && !Contains(stop, text[end])
        invariant start <= end <= |text|
        invariant UpTo(text, start, stop) == UpTo(text, end, stop)
      {
        end := end + 1;
      }
      if end == start {
        token := None;
      } else {
        token := Some(text[start..end]);
        location := end;
      }
    }

    method ScanString(literal: string) returns (found: bool)
      requires Valid()
      modifies this
      ensures Valid()
      ensures (found, location) == ScanLiteral(text, old(location), literal)
    {
      var start := location;
      while start < |text| && IsSkipped(text[start])
        invariant location <= start <= |text|
        invariant SkipFrom(text, location) == SkipFrom(text, start)
      {
        start := start + 1;
      }
      found := start + |literal| <= |text| && text[start .. start + |literal|] == literal;
      if found {
        location := start + |literal|;
      }
    }
  }
}
