/**
 * The three Swift string operations the view-models rely on, over
 * `string == seq<char>`:
 *  - `prefix(while: { $0 != sep })`      -> PrefixBefore
 *  - `split(separator: sep)`             -> Split (empty pieces are omitted,
 *                                           Swift's default)
 *  - `trimmingCharacters(in: .whitespacesAndNewlines)` -> Trim
 */
module SwiftText {

  /** The longest prefix of `s` in which `sep` does not occur. */
  function PrefixBefore(s: string, sep: char): (r: string)
    ensures r <= s
    ensures sep !in r
    ensures forall m :: 0 <= m < |r| ==> s[m] != sep
    ensures |r| < |s| ==> s[|r|] == sep
  {
    if |s| == 0 || s[0] == sep then "" else [s[0]] + PrefixBefore(s[1..], sep)
  }

  /** A string with no `sep` in it is its own prefix before `sep`. */
  lemma {:induction false} PrefixBeforeWhole(s: string, sep: char)
    requires sep !in s
    ensures PrefixBefore(s, sep) == s
    decreases |s|
  {
    if |s| > 0 {
      assert s[0] in s;
      assert forall c :: c in s[1..] ==> c in s;
      PrefixBeforeWhole(s[1..], sep);
    }
  }

  /** The prefix before `sep` of `head + [sep] + tail` is `head` when `head` has no `sep`. */
  lemma {:induction false} PrefixBeforeFirstSeparator(head: string, sep: char, tail: string)
    requires sep !in head
    ensures PrefixBefore(head + [sep] + tail, sep) == head
    decreases |head|
  {
    var s := head + [sep] + tail;
    if |head| == 0 {
      assert s[0] == sep;
    } else {
      assert head[0] in head;
      assert forall c :: c in head[1..] ==> c in head;
      assert s[1..] == head[1..] + [sep] + tail;
      PrefixBeforeFirstSeparator(head[1..], sep, tail);
    }
  }

  /** A piece produced by `Split`: non-empty and free of the separator. */
  predicate IsPiece(p: string, sep: char) {
    p != "" && sep !in p
  }

  /** `s.split(separator: sep)`: the maximal runs of non-`sep` characters, in order. */
  function Split(s: string, sep: char): (r: seq<string>)
    ensures forall k :: 0 <= k < |r| ==> IsPiece(r[k], sep)
    ensures forall k, c :: 0 <= k < |r| && c in r[k] ==> c in s
    ensures |r| <= |s|
    decreases |s|
  {
    var head := PrefixBefore(s, sep);
    var rest := if |head| == |s| then [] else Split(s[|head| + 1..], sep);
    assert forall c :: c in head ==> c in s;
    assert |head| < |s| ==> forall c :: c in s[|head| + 1..] ==> c in s;
    if head == "" then rest else [head] + rest
  }

  /** The pieces joined back together with a single `sep` between neighbours. */
  function Join(parts: seq<string>, sep: char): string
  {
    if |parts| == 0 then ""
    else if |parts| == 1 then parts[0]
    else parts[0] + [sep] + Join(parts[1..], sep)
  }

  /** A piece followed by a separator is the first piece of the split. */
  lemma SplitAfterPiece(head: string, sep: char, tail: string)
    requires IsPiece(head, sep)
    ensures Split(head + [sep] + tail, sep) == [head] + Split(tail, sep)
  {
    var s := head + [sep] + tail;
    PrefixBeforeFirstSeparator(head, sep, tail);
    assert s[|head| + 1..] == tail;
  }

  /** Splitting undoes joining, as long as every part is a legal piece. */
  lemma {:induction false} SplitJoin(parts: seq<string>, sep: char)
    requires forall k :: 0 <= k < |parts| ==> IsPiece(parts[k], sep)
    ensures Split(Join(parts, sep), sep) == parts
    decreases |parts|
  {
    if |parts| == 1 {
      PrefixBeforeWhole(parts[0], sep);
    } else if |parts| > 1 {
      var tail := Join(parts[1..], sep);
      assert Join(parts, sep) == parts[0] + [sep] + tail;
      SplitAfterPiece(parts[0], sep, tail);
      SplitJoin(parts[1..], sep);
      assert parts == [parts[0]] + parts[1..];
    }
  }

  /** A string without the separator splits into itself, or into nothing when empty. */
  lemma SplitOfRun(s: string, sep: char)
    requires sep !in s
    ensures Split(s, sep) == if s == "" then [] else [s]
  {
    PrefixBeforeWhole(s, sep);
  }

  /** Splitting at one separator: the pieces of the two sides, side by side. Leading,
      trailing and repeated separators therefore contribute no pieces. */
  lemma {:induction false} SplitAtSeparator(a: string, sep: char, b: string)
    ensures Split(a + [sep] + b, sep) == Split(a, sep) + Split(b, sep)
    decreases |a|
  {
    var s := a + [sep] + b;
    var head := PrefixBefore(a, sep);
    if |a| == 0 {
      assert s[0] == sep && s[1..] == b;
    } else if a[0] == sep {
      assert s[0] == sep && s[1..] == a[1..] + [sep] + b;
      SplitAtSeparator(a[1..], sep, b);
    } else if |head| == |a| {
      assert head == a;
      SplitAfterPiece(a, sep, b);
      SplitOfRun(a, sep);
    } else {
      var t := a[|head| + 1..];
      assert a == head + [sep] + t;
      assert s == head + [sep] + (t + [sep] + b);
      SplitAfterPiece(head, sep, t + [sep] + b);
      SplitAfterPiece(head, sep, t);
      SplitAtSeparator(t, sep, b);
    }
  }

  /** A leading separator adds no piece. */
  lemma SplitLeadingSeparator(s: string, sep: char)
    ensures Split([sep] + s, sep) == Split(s, sep)
  {
    SplitAtSeparator("", sep, s);
    assert "" + [sep] + s == [sep] + s;
  }

  /** A trailing separator adds no piece. */
  lemma SplitTrailingSeparator(s: string, sep: char)
    ensures Split(s + [sep], sep) == Split(s, sep)
  {
    SplitAtSeparator(s, sep, "");
    assert s + [sep] + "" == s + [sep];
  }

  /** Two separators in a row split like one. */
  lemma SplitDoubledSeparator(a: string, sep: char, b: string)
    ensures Split(a + [sep, sep] + b, sep) == Split(a + [sep] + b, sep)
  {
    SplitAtSeparator(a, sep, [sep] + b);
    SplitLeadingSeparator(b, sep);
    SplitAtSeparator(a, sep, b);
    assert a + [sep, sep] + b == a + [sep] + ([sep] + b);
  }

  /** `s[i..j]` is the last maximal run of non-separators of `s`: no separator inside it, a
      separator (or the start) just before it, and only separators after it. */
  predicate LastRun(s: string, sep: char, i: int, j: int) {
    && 0 <= i < j <= |s|
    && (forall k :: i <= k < j ==> s[k] != sep)
    && (i == 0 || s[i - 1] == sep)
    && (forall k :: j <= k < |s| ==> s[k] == sep)
  }

  /** The last run, when there is one, is determined by the string. */
  lemma LastRunUnique(s: string, sep: char, i: int, j: int, i2: int, j2: int)
    requires LastRun(s, sep, i, j) && LastRun(s, sep, i2, j2)
    ensures i == i2 && j == j2
  {
    assert s[j - 1] != sep && s[j2 - 1] != sep;
    if i > 0 {
      assert s[i - 1] == sep;
    }
    if i2 > 0 {
      assert s[i2 - 1] == sep;
    }
  }

  /** A last run of a suffix that follows a separator is a last run of the whole string. */
  lemma LastRunShift(s: string, sep: char, d: int, i: int, j: int)
    requires 1 <= d <= |s| && s[d - 1] == sep
    requires LastRun(s[d..], sep, i, j)
    ensures LastRun(s, sep, i + d, j + d) && s[i + d..j + d] == s[d..][i..j]
  {
    var t := s[d..];
    forall k | i + d <= k < j + d ensures s[k] != sep {
      assert s[k] == t[k - d];
    }
    forall k | j + d <= k < |s| ensures s[k] == sep {
      assert s[k] == t[k - d];
    }
    if i > 0 {
      assert s[i + d - 1] == t[i - 1];
    }
  }

  /** A non-empty first run followed by separators only is the last run. */
  lemma LastRunIsHead(s: string, sep: char, head: string)
    requires head != "" && |head| < |s| && head <= s && s[|head|] == sep
    requires forall m :: 0 <= m < |head| ==> s[m] != sep
    requires OnlySeparators(s[|head| + 1..], sep)
    ensures LastRun(s, sep, 0, |head|) && s[0..|head|] == head
  {
    var t := s[|head| + 1..];
    forall k | |head| < k < |s| ensures s[k] == sep {
      assert s[k] == t[k - |head| - 1];
    }
  }

  /** The last piece of a split is the last run of non-separators. */
  lemma {:induction false} SplitLastPiece(s: string, sep: char)
    requires Split(s, sep) != []
    ensures exists i, j :: LastRun(s, sep, i, j) && Split(s, sep)[|Split(s, sep)| - 1] == s[i..j]
    decreases |s|
  {
    var head := PrefixBefore(s, sep);
    if head == "" {
      assert Split(s, sep) == Split(s[1..], sep);
      SplitLastPiece(s[1..], sep);
      var i, j :| LastRun(s[1..], sep, i, j) && Split(s[1..], sep)[|Split(s[1..], sep)| - 1] == s[1..][i..j];
      LastRunShift(s, sep, 1, i, j);
    } else if |head| == |s| {
      assert head == s;
      assert Split(s, sep) == [s];
      assert LastRun(s, sep, 0, |s|) && s[0..|s|] == s;
    } else {
      var d := |head| + 1;
      var t := s[d..];
      assert Split(s, sep) == [head] + Split(t, sep);
      if Split(t, sep) == [] {
        SplitEmptyIff(t, sep);
        LastRunIsHead(s, sep, head);
      } else {
        SplitLastPiece(t, sep);
        var i, j :| LastRun(t, sep, i, j) && Split(t, sep)[|Split(t, sep)| - 1] == t[i..j];
        LastRunShift(s, sep, d, i, j);
      }
    }
  }

  /** A character that is neither the separator nor in any part is not in the joined string. */
  lemma {:induction false} JoinAvoids(parts: seq<string>, sep: char, c: char)
    requires c != sep
    requires forall k :: 0 <= k < |parts| ==> c !in parts[k]
    ensures c !in Join(parts, sep)
    decreases |parts|
  {
    if |parts| > 1 {
      JoinAvoids(parts[1..], sep, c);
    }
  }

  /** Every character of `s` is the separator (this includes the empty string). */
  predicate OnlySeparators(s: string, sep: char) {
    forall i :: 0 <= i < |s| ==> s[i] == sep
  }

  /** `split` yields no piece at all exactly when the string is made of separators only. */
  lemma {:induction false} SplitEmptyIff(s: string, sep: char)
    ensures Split(s, sep) == [] <==> OnlySeparators(s, sep)
    decreases |s|
  {
    var head := PrefixBefore(s, sep);
    if head != "" {
      assert s[0] == head[0];
      assert head[0] in head;
    } else if |s| > 0 {
      SplitEmptyIff(s[1..], sep);
      assert forall i :: 1 <= i < |s| ==> s[i] == s[1..][i - 1];
    }
  }

  /** `s` holds a non-separator, later a separator, later again a non-separator. */
  predicate HasTwoPieces(s: string, sep: char) {
    exists i, j, k :: 0 <= i < j < k < |s| && s[i] != sep && s[j] == sep && s[k] != sep
  }

  /** Shifting a string by one leading separator keeps `HasTwoPieces`. */
  lemma TwoPiecesAfterSeparator(s: string, sep: char)
    requires |s| > 0 && s[0] == sep
    ensures HasTwoPieces(s, sep) <==> HasTwoPieces(s[1..], sep)
  {
    var t := s[1..];
    if HasTwoPieces(s, sep) {
      var i, j, k :| 0 <= i < j < k < |s| && s[i] != sep && s[j] == sep && s[k] != sep;
      assert t[i - 1] == s[i] && t[j - 1] == s[j] && t[k - 1] == s[k];
    }
    if HasTwoPieces(t, sep) {
      var i, j, k :| 0 <= i < j < k < |t| && t[i] != sep && t[j] == sep && t[k] != sep;
      assert s[i + 1] == t[i] && s[j + 1] == t[j] && s[k + 1] == t[k];
    }
  }

  /** With a non-empty first run `head` ending at a separator, `s` has two pieces exactly
      when something other than a separator follows that separator. */
  lemma TwoPiecesAfterHead(s: string, sep: char, head: string)
    requires head != "" && |head| < |s| && head <= s && s[|head|] == sep
    requires forall m :: 0 <= m < |head| ==> s[m] != sep
    ensures HasTwoPieces(s, sep) <==> !OnlySeparators(s[|head| + 1..], sep)
  {
    var t := s[|head| + 1..];
    if HasTwoPieces(s, sep) {
      var i, j, k :| 0 <= i < j < k < |s| && s[i] != sep && s[j] == sep && s[k] != sep;
      assert j >= |head|;
      assert t[k - |head| - 1] == s[k];
    }
    if !OnlySeparators(t, sep) {
      var k :| 0 <= k < |t| && t[k] != sep;
      assert s[0] != sep && s[|head|] == sep && s[k + |head| + 1] == t[k] != sep;
      assert 0 < |head| < k + |head| + 1 < |s|;
    }
  }

  /** `split` yields at least two pieces exactly when two runs of non-separators are
      divided by a separator. */
  lemma {:induction false} SplitTwoPiecesIff(s: string, sep: char)
    ensures |Split(s, sep)| >= 2 <==> HasTwoPieces(s, sep)
    decreases |s|
  {
    var head := PrefixBefore(s, sep);
    if |s| == 0 {
    } else if head == "" {
      SplitTwoPiecesIff(s[1..], sep);
      TwoPiecesAfterSeparator(s, sep);
    } else if |head| == |s| {
      assert !HasTwoPieces(s, sep);
    } else {
      SplitEmptyIff(s[|head| + 1..], sep);
      TwoPiecesAfterHead(s, sep, head);
    }
  }

  /** The characters `trimmingCharacters(in: .whitespacesAndNewlines)` removes. Only the
      ASCII and Latin-1 members of that Unicode set are listed. */
  predicate IsWhitespace(c: char) {
    c == ' ' || c == '\t' || c == '\n' || c == '\r' || c == '\U{0B}' || c == '\U{0C}'
    || c == '\U{85}' || c == '\U{A0}'
  }

  /** The index of the first character at or after `i` that is not whitespace, or `|s|`. */
  function TrimFront(s: string, i: nat): (j: nat)
    requires i <= |s|
    ensures i <= j <= |s|
    ensures forall k :: i <= k < j ==> IsWhitespace(s[k])
    ensures j < |s| ==> !IsWhitespace(s[j])
    decreases |s| - i
  {
    if i < |s| && IsWhitespace(s[i]) then TrimFront(s, i + 1) else i
  }

  /** The index just past the last character before `j` that is not whitespace, or `lo`. */
  function TrimBack(s: string, lo: nat, j: nat): (e: nat)
    requires lo <= j <= |s|
    ensures lo <= e <= j
    ensures forall k :: e <= k < j ==> IsWhitespace(s[k])
    ensures e > lo ==> !IsWhitespace(s[e - 1])
    decreases j
  {
    if j > lo && IsWhitespace(s[j - 1]) then TrimBack(s, lo, j - 1) else j
  }

  /** `r` is `s[i..j]`, and everything of `s` outside `i..j` is whitespace. */
  predicate TrimmedSlice(s: string, r: string, i: int, j: int) {
    && 0 <= i <= j <= |s| && r == s[i..j]
    && (forall k :: 0 <= k < i ==> IsWhitespace(s[k]))
    && (forall k :: j <= k < |s| ==> IsWhitespace(s[k]))
  }

  /** `s.trimmingCharacters(in: .whitespacesAndNewlines)`: the slice of `s` left after removing
      whitespace at both ends; it neither starts nor ends with whitespace. */
  function Trim(s: string): (r: string)
    ensures exists i, j :: TrimmedSlice(s, r, i, j)
    ensures r == "" || (!IsWhitespace(r[0]) && !IsWhitespace(r[|r| - 1]))
  {
    var i := TrimFront(s, 0);
    var j := TrimBack(s, i, |s|);
    assert TrimmedSlice(s, s[i..j], i, j);
    s[i..j]
  }

  /** Trimming leaves nothing exactly when the string is whitespace only. */
  lemma TrimEmptyIff(s: string)
    ensures Trim(s) == "" <==> forall k :: 0 <= k < |s| ==> IsWhitespace(s[k])
  {
    var i := TrimFront(s, 0);
    var j := TrimBack(s, i, |s|);
    if Trim(s) == "" {
      assert i == j;
      forall k | 0 <= k < |s|
        ensures IsWhitespace(s[k])
      {
        if k >= i {
          assert k >= j;
        }
      }
    }
  }

  /** Trimming twice is trimming once. */
  lemma TrimIdempotent(s: string)
    ensures Trim(Trim(s)) == Trim(s)
  {
    var r := Trim(s);
    assert TrimFront(r, 0) == 0;
    assert TrimBack(r, 0, |r|) == |r|;
    assert r[0..|r|] == r;
  }
}
