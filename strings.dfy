/** The JavaScript string operations the engine relies on: `split` and `join` on a
    one-character separator, `includes`, and `replace` with a string pattern, which
    rewrites only the first occurrence. */
module Strings {
  import opened Seqs

  /** `pat` occurs in `text` starting at index `k`. */
  predicate OccursAt(text: string, pat: string, k: nat)
  {
    k + |pat| <= |text| && text[k..k + |pat|] == pat
  }

  /** First index at or after `from` where `pat` occurs. */
  function IndexOfFrom(text: string, pat: string, from: nat): (r: Option<nat>)
    requires from <= |text| + 1
    ensures r.Some? ==> from <= r.value && OccursAt(text, pat, r.value)
    ensures r.Some? ==> forall m :: from <= m < r.value ==> !OccursAt(text, pat, m)
    ensures r.None? ==> forall m :: from <= m ==> !OccursAt(text, pat, m)
    decreases |text| + 1 - from
  {
    if from + |pat| > |text| then None
    else if OccursAt(text, pat, from) then Some(from)
    else IndexOfFrom(text, pat, from + 1)
  }

  /** JavaScript `text.indexOf(pat)`, with -1 as `None`. */
  function IndexOf(text: string, pat: string): (r: Option<nat>)
    ensures r.Some? ==> OccursAt(text, pat, r.value)
    ensures r.Some? ==> forall m :: 0 <= m < r.value ==> !OccursAt(text, pat, m)
    ensures r.None? <==> forall m :: !OccursAt(text, pat, m)
  {
    IndexOfFrom(text, pat, 0)
  }

  /** JavaScript `text.includes(pat)`. */
  predicate Includes(text: string, pat: string)
  {
    IndexOf(text, pat).Some?
  }

  /** JavaScript `text.replace(pat, rep)` for a string pattern: only the first occurrence
      is replaced, and the text is returned as it is when `pat` does not occur. */
  function ReplaceFirst(text: string, pat: string, rep: string): (r: string)
    ensures !Includes(text, pat) ==> r == text
    ensures Includes(text, pat) ==> |r| == |text| - |pat| + |rep|
    ensures Includes(text, pat) ==>
      var k := IndexOf(text, pat).value;
      r[..k] == text[..k] && r[k..k + |rep|] == rep && r[k + |rep|..] == text[k + |pat|..]
  {
    match IndexOf(text, pat)
    case None => text
    case Some(k) => text[..k] + rep + text[k + |pat|..]
  }

  /** Joins `parts` with `sep` in between (JavaScript `parts.join(sep)`). */
  function Join(parts: seq<string>, sep: char): string
  {
    if |parts| == 0 then ""
    else if |parts| == 1 then parts[0]
    else parts[0] + [sep] + Join(parts[1..], sep)
  }

  /** JavaScript `s.split(sep)` for a one-character separator: the pieces between
      separators, never fewer than one. */
  function Split(s: string, sep: char): (r: seq<string>)
    ensures |r| >= 1
    ensures forall i :: 0 <= i < |r| ==> sep !in r[i]
    ensures Join(r, sep) == s
    decreases |s|
  {
    match FirstIndex(s, c => c == sep)
    case None =>
      assert forall i :: 0 <= i < |s| ==> s[i] != sep;
      [s]
    case Some(k) =>
      var rest := Split(s[k + 1..], sep);
      assert sep !in s[..k] by {
        forall i | 0 <= i < k ensures s[..k][i] != sep { assert s[..k][i] == s[i]; }
      }
      assert s == s[..k] + [sep] + s[k + 1..];
      [s[..k]] + rest
  }

  /** The piece before the first separator. */
  function Head(s: string, sep: char): (r: string)
    ensures sep !in r
    ensures |r| <= |s| && r == s[..|r|]
    ensures |r| < |s| ==> s[|r|] == sep
  {
    var parts := Split(s, sep);
    JoinHead(parts, sep);
    parts[0]
  }

  /** The piece after the first separator and before the second, if there is a first
      separator (JavaScript `s.split(sep)[1]`, `undefined` when absent). */
  function Second(s: string, sep: char): (r: Option<string>)
    ensures r.None? <==> sep !in s
    ensures r.Some? ==> sep !in r.value
    ensures r.Some? ==> Head(s, sep) + [sep] + r.value <= s
    ensures r.Some? ==> var end := |Head(s, sep)| + 1 + |r.value|; end == |s| || s[end] == sep
  {
    var parts := Split(s, sep);
    if |parts| == 1 then None else
    assert sep in s by { JoinHasSep(parts, sep); }
    Some(parts[1])
  }

  /** What `'' + x` gives for a possibly-undefined string. */
  function Stringify(x: Option<string>): string
  {
    match x
    case Some(t) => t
    case None => "undefined"
  }

  lemma {:induction false} JoinHead(parts: seq<string>, sep: char)
    requires |parts| >= 1
    ensures |parts[0]| <= |Join(parts, sep)|
    ensures Join(parts, sep)[..|parts[0]|] == parts[0]
    ensures |parts| > 1 ==> |parts[0]| < |Join(parts, sep)| && Join(parts, sep)[|parts[0]|] == sep
  {
    if |parts| > 1 {
      var j := Join(parts, sep);
      assert j == parts[0] + [sep] + Join(parts[1..], sep);
      assert j[..|parts[0]|] == parts[0];
    }
  }

  lemma {:induction false} JoinHasSep(parts: seq<string>, sep: char)
    requires |parts| > 1
    ensures sep in Join(parts, sep)
  {
    JoinHead(parts, sep);
  }

  /** Joining two pieces puts one separator between them. */
  lemma JoinPair(a: string, b: string, sep: char)
    ensures Join([a, b], sep) == a + [sep] + b
  {
    assert [a, b][1..] == [b];
  }

  /** Splitting a joined sequence of separator-free pieces gives the pieces back. */
  lemma {:induction false} SplitJoin(parts: seq<string>, sep: char)
    requires |parts| >= 1
    requires forall i :: 0 <= i < |parts| ==> sep !in parts[i]
    ensures Split(Join(parts, sep), sep) == parts
  {
    var s := Join(parts, sep);
    var p0 := parts[0];
    if |parts| == 1 {
      assert FirstIndex(s, c => c == sep).None? by {
        forall m | 0 <= m < |s| ensures s[m] != sep { assert s[m] in p0; }
      }
    } else {
      var tail := Join(parts[1..], sep);
      assert s == p0 + [sep] + tail;
      assert FirstIndex(s, c => c == sep) == Some(|p0|) by {
        assert s[|p0|] == sep;
        forall m | 0 <= m < |p0| ensures s[m] != sep { assert s[m] == p0[m]; }
      }
      assert s[..|p0|] == p0;
      assert s[|p0| + 1..] == tail;
      SplitJoin(parts[1..], sep);
      assert parts == [p0] + parts[1..];
    }
  }

  /** A character of one of the pieces is a character of the joined text. */
  lemma {:induction false} JoinKeepsPieces(parts: seq<string>, sep: char, i: nat, c: char)
    requires i < |parts| && c in parts[i]
    ensures c in Join(parts, sep)
  {
    if |parts| > 1 {
      var j := Join(parts, sep);
      assert j == parts[0] + [sep] + Join(parts[1..], sep);
      if i > 0 {
        JoinKeepsPieces(parts[1..], sep, i - 1, c);
      }
    }
  }

  /** Pieces of a text that avoids a character avoid it too. */
  lemma SplitPiecesAvoid(s: string, sep: char, c: char, i: nat)
    requires c !in s && i < |Split(s, sep)|
    ensures c !in Split(s, sep)[i]
  {
    if c in Split(s, sep)[i] {
      JoinKeepsPieces(Split(s, sep), sep, i, c);
    }
  }
}
