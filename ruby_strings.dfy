/**
 * The Ruby String operations the deploy code relies on, over `seq<char>`:
 * `String#split` with a one-character pattern, the awk-style `split(' ')`,
 * `strip`, ActiveSupport's `blank?`, `start_with?`, `include?`, and the two
 * `gsub` calls the source makes (`gsub('* ', '')` and `gsub('-', '_')`).
 * Only ASCII whitespace is modelled.
 */
module RubyStrings {
  import opened Wrappers

  /** ASCII whitespace: space, tab, line feed, vertical tab, form feed, carriage return. */
  predicate IsSpace(c: char) {
    c == ' ' || c == '\t' || c == '\n' || c == '\r' || c == '\U{000B}' || c == '\U{000C}'
  }

  /** Characters removed by `String#strip`: whitespace and NUL. */
  predicate IsStripChar(c: char) {
    c == '\0' || IsSpace(c)
  }

  /** ActiveSupport `String#blank?`: empty or whitespace only. */
  predicate Blank(s: string) {
    forall i :: 0 <= i < |s| ==> IsSpace(s[i])
  }

  /** ActiveSupport `present?` on a string that may be nil. */
  predicate Present(s: Option<string>) {
    s.Some? && !Blank(s.value)
  }

  predicate NoSpace(s: string) {
    forall i :: 0 <= i < |s| ==> !IsSpace(s[i])
  }

  predicate StartsWith(s: string, prefix: string) {
    |prefix| <= |s| && s[..|prefix|] == prefix
  }

  /** `String#include?`. */
  predicate Includes(s: string, t: string)
    decreases |s|
  {
    StartsWith(s, t) || (s != [] && Includes(s[1..], t))
  }

  // ---------------------------------------------------------------------------
  // Splitting on one separator character
  // ---------------------------------------------------------------------------

  /** Every field between separators, empty ones included (there is always at least one). */
  function SplitAll(s: string, sep: char): (fields: seq<string>)
    ensures |fields| >= 1
    ensures forall i :: 0 <= i < |fields| ==> sep !in fields[i]
    decreases |s|
  {
    if s == [] then [""]
    else
      var rest := SplitAll(s[1..], sep);
      if s[0] == sep then [""] + rest
      else [[s[0]] + rest[0]] + rest[1..]
  }

  /** The fields put back together with the separator between them. */
  function JoinWith(parts: seq<string>, sep: char): string
    decreases |parts|
  {
    if parts == [] then ""
    else if |parts| == 1 then parts[0]
    else parts[0] + [sep] + JoinWith(parts[1..], sep)
  }

  lemma {:induction false} JoinSplitAll(s: string, sep: char)
    ensures JoinWith(SplitAll(s, sep), sep) == s
    decreases |s|
  {
    if s != [] {
      var rest := SplitAll(s[1..], sep);
      JoinSplitAll(s[1..], sep);
      if s[0] != sep {
        if |rest| > 1 {
          assert [[s[0]] + rest[0]] + rest[1..] == [[s[0]] + rest[0]] + rest[1..];
          assert JoinWith(rest, sep) == rest[0] + [sep] + JoinWith(rest[1..], sep);
        }
      }
    }
  }

  /** A string without the separator is one field. */
  lemma {:induction false} SplitAllSingle(a: string, sep: char)
    requires sep !in a
    ensures SplitAll(a, sep) == [a]
    decreases |a|
  {
    if a != [] {
      SplitAllSingle(a[1..], sep);
      assert [a[0]] + a[1..] == a;
    }
  }

  /** The first separator ends the first field. */
  lemma {:induction false} SplitAllCons(a: string, sep: char, b: string)
    requires sep !in a
    ensures SplitAll(a + [sep] + b, sep) == [a] + SplitAll(b, sep)
    decreases |a|
  {
    var s := a + [sep] + b;
    if a == [] {
      assert s[1..] == b;
    } else {
      assert s[1..] == a[1..] + [sep] + b;
      SplitAllCons(a[1..], sep, b);
      assert [a[0]] + a[1..] == a;
    }
  }

  lemma {:induction false} SplitAllJoin(parts: seq<string>, sep: char)
    requires |parts| >= 1
    requires forall i :: 0 <= i < |parts| ==> sep !in parts[i]
    ensures SplitAll(JoinWith(parts, sep), sep) == parts
    decreases |parts|
  {
    if |parts| == 1 {
      SplitAllSingle(parts[0], sep);
    } else {
      SplitAllCons(parts[0], sep, JoinWith(parts[1..], sep));
      SplitAllJoin(parts[1..], sep);
    }
  }

  lemma {:induction false} JoinWithAppend(xs: seq<string>, ys: seq<string>, sep: char)
    requires xs != [] && ys != []
    ensures JoinWith(xs + ys, sep) == JoinWith(xs, sep) + [sep] + JoinWith(ys, sep)
    decreases |xs|
  {
    if |xs| == 1 {
      assert (xs + ys)[1..] == ys;
    } else {
      assert (xs + ys)[1..] == xs[1..] + ys;
      JoinWithAppend(xs[1..], ys, sep);
    }
  }

  /** The fields without the trailing empty ones, as Ruby's `split` drops them. */
  function DropTrailingEmpty(xs: seq<string>): (r: seq<string>)
    ensures |r| <= |xs|
    ensures forall i :: 0 <= i < |r| ==> r[i] == xs[i]
    ensures r == [] || r[|r| - 1] != ""
    ensures forall i :: |r| <= i < |xs| ==> xs[i] == ""
    decreases |xs|
  {
    if xs == [] then []
    else if xs[|xs| - 1] == "" then DropTrailingEmpty(xs[..|xs| - 1])
    else xs
  }

  /** Ruby `String#split(sep)` with a one-character string pattern and no limit. */
  function Split(s: string, sep: char): (fields: seq<string>)
    ensures forall i :: 0 <= i < |fields| ==> sep !in fields[i]
  {
    DropTrailingEmpty(SplitAll(s, sep))
  }

  lemma SplitSingle(a: string, sep: char)
    requires a != "" && sep !in a
    ensures Split(a, sep) == [a]
  {
    SplitAllSingle(a, sep);
  }

  lemma SplitPair(a: string, sep: char, b: string)
    requires sep !in a && sep !in b && b != ""
    ensures Split(a + [sep] + b, sep) == [a, b]
  {
    SplitAllCons(a, sep, b);
    SplitAllSingle(b, sep);
  }

  // ---------------------------------------------------------------------------
  // Awk-style split(' ')
  // ---------------------------------------------------------------------------

  /**
   * Ruby `String#split(' ')`: the maximal runs of non-whitespace characters,
   * so leading, trailing and repeated whitespace produce no empty fields.
   */
  function Words(s: string): (ws: seq<string>)
    ensures forall i :: 0 <= i < |ws| ==> ws[i] != "" && NoSpace(ws[i])
    ensures s != [] && !IsSpace(s[0]) ==> |ws| > 0 && ws[0][0] == s[0]
    decreases |s|
  {
    if s == [] then []
    else
      var rest := Words(s[1..]);
      if IsSpace(s[0]) then rest
      else if |s| > 1 && !IsSpace(s[1]) then [[s[0]] + rest[0]] + rest[1..]
      else [[s[0]]] + rest
  }

  /** A string that is not blank has a first word. */
  lemma {:induction false} WordsOfNonBlank(s: string)
    requires !Blank(s)
    ensures |Words(s)| > 0
    decreases |s|
  {
    if IsSpace(s[0]) {
      assert !Blank(s[1..]) by {
        var i :| 0 <= i < |s| && !IsSpace(s[i]);
        assert s[1..][i - 1] == s[i];
      }
      WordsOfNonBlank(s[1..]);
    }
  }

  lemma {:induction false} WordsCons(w: string, rest: string)
    requires w != "" && NoSpace(w)
    ensures Words(w + " " + rest) == [w] + Words(rest)
    decreases |w|
  {
    var s := w + " " + rest;
    if |w| == 1 {
      assert s[1..] == " " + rest;
      assert (" " + rest)[1..] == rest;
      assert [w[0]] == w;
    } else {
      assert s[1..] == w[1..] + " " + rest;
      WordsCons(w[1..], rest);
      assert s[1] == w[1];
      assert [w[0]] + w[1..] == w;
    }
  }

  lemma {:induction false} WordsSingle(w: string)
    requires w != "" && NoSpace(w)
    ensures Words(w) == [w]
    decreases |w|
  {
    if |w| > 1 {
      WordsSingle(w[1..]);
      assert [w[0]] + w[1..] == w;
    } else {
      assert [w[0]] == w;
    }
  }

  /** Splitting words joined by single spaces gives the words back. */
  lemma {:induction false} WordsJoin(ws: seq<string>)
    requires forall i :: 0 <= i < |ws| ==> ws[i] != "" && NoSpace(ws[i])
    ensures Words(JoinWith(ws, ' ')) == ws
    decreases |ws|
  {
    if |ws| == 1 {
      WordsSingle(ws[0]);
    } else if |ws| > 1 {
      WordsCons(ws[0], JoinWith(ws[1..], ' '));
      WordsJoin(ws[1..]);
    }
  }

  // ---------------------------------------------------------------------------
  // strip and gsub
  // ---------------------------------------------------------------------------

  /** The number of characters `strip` removes at the front. */
  function LeadCount(s: string): (k: nat)
    ensures k <= |s|
    ensures forall i :: 0 <= i < k ==> IsStripChar(s[i])
    ensures k < |s| ==> !IsStripChar(s[k])
    decreases |s|
  {
    if s != [] && IsStripChar(s[0]) then 1 + LeadCount(s[1..]) else 0
  }

  /** The number of characters `strip` removes at the back. */
  function TrailCount(s: string): (k: nat)
    ensures k <= |s|
    ensures forall i :: |s| - k <= i < |s| ==> IsStripChar(s[i])
    ensures k < |s| ==> !IsStripChar(s[|s| - 1 - k])
    decreases |s|
  {
    if s != [] && IsStripChar(s[|s| - 1]) then 1 + TrailCount(s[..|s| - 1]) else 0
  }

  /** Ruby `String#strip`. */
  function Strip(s: string): string {
    var left := s[LeadCount(s)..];
    left[..|left| - TrailCount(left)]
  }

  /** A string that neither starts nor ends with whitespace is unchanged by `strip`. */
  lemma StripIdentity(s: string)
    requires s == [] || (!IsStripChar(s[0]) && !IsStripChar(s[|s| - 1]))
    ensures Strip(s) == s
  {
    assert LeadCount(s) == 0;
    assert s[0..] == s;
  }

  /** Ruby `gsub('* ', '')`: every "* " found scanning left to right is removed. */
  function RemoveMarker(s: string): (r: string)
    ensures |r| <= |s|
    decreases |s|
  {
    if |s| >= 2 && s[0] == '*' && s[1] == ' ' then RemoveMarker(s[2..])
    else if s == [] then []
    else [s[0]] + RemoveMarker(s[1..])
  }

  lemma {:induction false} RemoveMarkerIdentity(s: string)
    requires '*' !in s
    ensures RemoveMarker(s) == s
    decreases |s|
  {
    if s != [] {
      RemoveMarkerIdentity(s[1..]);
    }
  }

  /** Ruby `gsub(from, to)` for one-character strings. */
  function ReplaceChar(s: string, from: char, to: char): (r: string)
    ensures |r| == |s|
    ensures forall i :: 0 <= i < |s| ==> r[i] == (if s[i] == from then to else s[i])
  {
    seq(|s|, i requires 0 <= i < |s| => if s[i] == from then to else s[i])
  }
}
