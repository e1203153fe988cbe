/**
 * frontend/app/sell/page.tsx: the sell form turns its image-URL text box into at
 * most five URLs — split on "\n", trim each line, drop the blank ones, keep the
 * first five.
 */
module SellPage {
  import opened Seqs

  const MaxImageUrls := 5

  /** `String.prototype.split("\n")`: the pieces between line feeds, empty pieces included. */
  function SplitLines(s: string): (r: seq<string>)
    ensures |r| >= 1
    ensures forall i :: 0 <= i < |r| ==> '\n' !in r[i]
    ensures JoinLines(r) == s
  {
    if s == [] then [[]]
    else
      var rest := SplitLines(s[1..]);
      assert s == [s[0]] + s[1..];
      if s[0] == '\n' then [[]] + rest
      else
        var r := [[s[0]] + rest[0]] + rest[1..];
        assert r[1..] == rest[1..];
        r
  }

  /** The pieces glued back together with line feeds, `Array.prototype.join("\n")`. */
  function JoinLines(pieces: seq<string>): string
    requires |pieces| >= 1
  {
    if |pieces| == 1 then pieces[0] else pieces[0] + "\n" + JoinLines(pieces[1..])
  }

  /** The characters `String.prototype.trim` strips: ECMAScript WhiteSpace and LineTerminator. */
  predicate IsSpace(c: char) {
    c == '\t' || c == '\n' || c == '\U{000B}' || c == '\U{000C}' || c == '\r' || c == ' '
    || c == '\U{00A0}' || c == '\U{1680}' || ('\U{2000}' <= c <= '\U{200A}')
    || c == '\U{2028}' || c == '\U{2029}' || c == '\U{202F}' || c == '\U{205F}'
    || c == '\U{3000}' || c == '\U{FEFF}'
  }

  /** Where the text starts: the first position at or after `i` that is not white space, or the end. */
  function SkipSpaces(s: string, i: nat): (k: nat)
    requires i <= |s|
    ensures i <= k <= |s|
    ensures forall m :: i <= m < k ==> IsSpace(s[m])
    ensures k < |s| ==> !IsSpace(s[k])
    decreases |s| - i
  {
    if i < |s| && IsSpace(s[i]) then SkipSpaces(s, i + 1) else i
  }

  /** Where the text ends: the last position, down to `lo`, that follows a character that is not white space. */
  function SkipSpacesBack(s: string, lo: nat, j: nat): (k: nat)
    requires lo <= j <= |s|
    ensures lo <= k <= j
    ensures forall m :: k <= m < j ==> IsSpace(s[m])
    ensures k > lo ==> !IsSpace(s[k - 1])
    decreases j
  {
    if j > lo && IsSpace(s[j - 1]) then SkipSpacesBack(s, lo, j - 1) else j
  }

  /**
   * `trim`: `s` with its leading and trailing white space removed. The result is a
   * stretch of `s` that neither starts nor ends with white space, and everything
   * cut off around it is white space.
   */
  function Trim(s: string): (r: string)
    ensures exists i, j :: 0 <= i <= j <= |s| && r == s[i..j]
                           && (forall k :: 0 <= k < i ==> IsSpace(s[k]))
                           && (forall k :: j <= k < |s| ==> IsSpace(s[k]))
    ensures r != [] ==> !IsSpace(r[0]) && !IsSpace(r[|r| - 1])
  {
    var i := SkipSpaces(s, 0);
    var j := SkipSpacesBack(s, i, |s|);
    assert j > i ==> s[i..j][0] == s[i] && s[i..j][j - i - 1] == s[j - 1];
    s[i..j]
  }

  /** `filter(Boolean)` on strings: the non-empty ones. */
  function NonEmpty(s: string): bool { s != [] }

  /** The trimmed lines of the text box, in order. */
  function TrimmedLines(text: string): (r: seq<string>)
    ensures |r| == |SplitLines(text)|
    ensures forall i :: 0 <= i < |r| ==> r[i] == Trim(SplitLines(text)[i])
  {
    var lines := SplitLines(text);
    seq(|lines|, i requires 0 <= i < |lines| => Trim(lines[i]))
  }

  /** The URLs `submit` sends: `split("\n").map(trim).filter(Boolean).slice(0, 5)`. */
  function ImageUrls(text: string): (r: seq<string>)
    ensures |r| <= MaxImageUrls
    ensures forall i :: 0 <= i < |r| ==> r[i] != [] && !IsSpace(r[i][0]) && !IsSpace(r[i][|r[i]| - 1])
    ensures r <= Filter(TrimmedLines(text), NonEmpty)
    ensures |Filter(TrimmedLines(text), NonEmpty)| >= MaxImageUrls ==> |r| == MaxImageUrls
    ensures |Filter(TrimmedLines(text), NonEmpty)| <= MaxImageUrls ==> r == Filter(TrimmedLines(text), NonEmpty)
  {
    var urls := Filter(TrimmedLines(text), NonEmpty);
    var r := if |urls| <= MaxImageUrls then urls else urls[..MaxImageUrls];
    assert forall i :: 0 <= i < |r| ==> r[i] in urls;
    r
  }

  /** Every URL sent is the trimmed form of some line of the text box. */
  lemma UrlsComeFromLines(text: string)
    ensures forall u :: u in ImageUrls(text) ==> exists line :: line in SplitLines(text) && u == Trim(line)
  {
    var lines := SplitLines(text);
    var trimmed := TrimmedLines(text);
    forall u | u in ImageUrls(text) ensures exists line :: line in lines && u == Trim(line) {
      assert u in Filter(trimmed, NonEmpty);
      var i :| 0 <= i < |trimmed| && trimmed[i] == u;
      assert lines[i] in lines;
    }
  }
}
