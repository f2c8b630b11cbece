/**
  The few Python string operations the core relies on: str.split with a separator,
  str.join, str.strip, str.lower, str.startswith, the `in` substring test and
  str.replace('**', '').
*/
module Text {
  import opened Wrappers

  /** `pat` occurs in `s` starting at position i. */
  predicate OccursAt(s: string, i: nat, pat: string) {
    i + |pat| <= |s| && s[i..i + |pat|] == pat
  }

  predicate StartsWith(s: string, prefix: string) {
    OccursAt(s, 0, prefix)
  }

  /** Position of the leftmost occurrence of `pat` in `s`, if any (str.find). */
  function FindFirst(s: string, pat: string): (r: Option<nat>)
    requires |pat| > 0
    ensures r.Some? ==> OccursAt(s, r.value, pat)
    ensures r.Some? ==> forall j :: 0 <= j < r.value ==> !OccursAt(s, j, pat)
    ensures r.None? ==> forall j :: 0 <= j ==> !OccursAt(s, j, pat)
    decreases |s|
  {
    if |s| < |pat| then None
    else if s[..|pat|] == pat then Some(0)
    else
      OccursShift(s, pat);
      match FindFirst(s[1..], pat)
      case None => None
      case Some(k) => Some(k + 1)
  }

  /** An occurrence at j >= 1 in s is an occurrence at j - 1 in s[1..]. */
  lemma OccursShift(s: string, pat: string)
    requires |s| > 0
    ensures forall j :: 1 <= j ==> (OccursAt(s, j, pat) <==> OccursAt(s[1..], j - 1, pat))
  {
    forall j | 1 <= j ensures OccursAt(s, j, pat) <==> OccursAt(s[1..], j - 1, pat) {
      if j + |pat| <= |s| {
        assert s[1..][j - 1..j - 1 + |pat|] == s[j..j + |pat|];
      }
    }
  }

  /** Python's `pat in s` for a non-empty pattern. */
  predicate Contains(s: string, pat: string)
    requires |pat| > 0
  {
    FindFirst(s, pat).Some?
  }

  /** Python's s.split(sep) for a non-empty separator: leftmost, non-overlapping cuts. */
  function SplitOn(s: string, sep: string): (parts: seq<string>)
    requires |sep| > 0
    ensures |parts| >= 1
    decreases |s|
  {
    match FindFirst(s, sep)
    case None => [s]
    case Some(i) => [s[..i]] + SplitOn(s[i + |sep|..], sep)
  }

  /** Python's sep.join(parts). */
  function Join(parts: seq<string>, sep: string): string
    decreases |parts|
  {
    if |parts| == 0 then ""
    else if |parts| == 1 then parts[0]
    else parts[0] + sep + Join(parts[1..], sep)
  }

  /** Join of a head piece and at least one more piece. */
  lemma JoinCons(head: string, tail: seq<string>, sep: string)
    requires |tail| > 0
    ensures Join([head] + tail, sep) == head + sep + Join(tail, sep)
  {
    assert ([head] + tail)[1..] == tail;
  }

  /** Splitting and joining again with the same separator gives back the original text. */
  lemma {:induction false} JoinSplit(s: string, sep: string)
    requires |sep| > 0
    ensures Join(SplitOn(s, sep), sep) == s
    decreases |s|
  {
    var f := FindFirst(s, sep);
    if f.Some? {
      var i := f.value;
      var rest := s[i + |sep|..];
      JoinSplit(rest, sep);
      JoinCons(s[..i], SplitOn(rest, sep), sep);
      CutAtOccurrence(s, i, sep);
    }
  }

  /** Text with an occurrence at i is the part before it, the pattern, and the part after it. */
  lemma CutAtOccurrence(s: string, i: nat, pat: string)
    requires OccursAt(s, i, pat)
    ensures s == s[..i] + pat + s[i + |pat|..]
  {
    assert s == s[..i] + s[i..i + |pat|] + s[i + |pat|..];
  }

  /** No piece produced by SplitOn contains the separator. */
  lemma {:induction false} SplitPiecesAvoidSeparator(s: string, sep: string)
    requires |sep| > 0
    ensures forall k :: 0 <= k < |SplitOn(s, sep)| ==> !Contains(SplitOn(s, sep)[k], sep)
    decreases |s|
  {
    match FindFirst(s, sep)
    case None =>
    case Some(i) =>
      var rest := s[i + |sep|..];
      SplitPiecesAvoidSeparator(rest, sep);
      assert forall j :: 0 <= j ==> (OccursAt(s[..i], j, sep) ==> OccursAt(s, j, sep)) by {
        forall j | 0 <= j && OccursAt(s[..i], j, sep) ensures OccursAt(s, j, sep) {
          assert s[..i][j..j + |sep|] == s[j..j + |sep|];
        }
      }
      assert !Contains(s[..i], sep);
  }

  /** A character absent from a text never occurs in it. */
  lemma AbsentCharNeverOccurs(s: string, c: char)
    requires c !in s
    ensures forall j :: 0 <= j ==> !OccursAt(s, j, [c])
  {
    forall j | 0 <= j ensures !OccursAt(s, j, [c]) {
      if j + 1 <= |s| {
        assert s[j..j + 1][0] == s[j];
      }
    }
  }

  /** The first occurrence of a character that appears only after a free prefix. */
  lemma FirstAfterFreePrefix(a: string, b: string, c: char)
    requires c !in a
    ensures FindFirst(a + [c] + b, [c]) == Some(|a|)
  {
    var s := a + [c] + b;
    assert s[|a|..|a| + 1] == [c];
    assert OccursAt(s, |a|, [c]);
    forall j | 0 <= j < |a| ensures !OccursAt(s, j, [c]) {
      assert s[j..j + 1][0] == a[j];
    }
    var f := FindFirst(s, [c]);
    assert f.Some?;
    assert f.value <= |a|;
  }

  /** Text with exactly one separator character splits into the parts before and after it. */
  lemma SplitAtOnlySeparator(a: string, b: string, c: char)
    requires c !in a && c !in b
    ensures SplitOn(a + [c] + b, [c]) == [a, b]
  {
    var s := a + [c] + b;
    FirstAfterFreePrefix(a, b, c);
    assert s[..|a|] == a && s[|a| + 1..] == b;
    AbsentCharNeverOccurs(b, c);
    assert FindFirst(b, [c]).None?;
    assert SplitOn(b, [c]) == [b];
  }

  /** Every character of every piece of a split occurs in the split text. */
  lemma {:induction false} SplitPiecesFromText(s: string, sep: string)
    requires |sep| > 0
    ensures forall k, c :: 0 <= k < |SplitOn(s, sep)| && c in SplitOn(s, sep)[k] ==> c in s
    decreases |s|
  {
    match FindFirst(s, sep)
    case None =>
    case Some(i) =>
      var rest := s[i + |sep|..];
      SplitPiecesFromText(rest, sep);
      assert forall c :: c in rest ==> c in s;
      assert forall c :: c in s[..i] ==> c in s;
  }

  /** Python's str.isspace() for one character. */
  predicate IsSpace(c: char) {
    || c == ' ' || ('\t' <= c <= '\r') || ('\U{1C}' <= c <= '\U{1F}')
    || c == '\U{85}' || c == '\U{A0}' || c == '\U{1680}' || ('\U{2000}' <= c <= '\U{200A}')
    || c == '\U{2028}' || c == '\U{2029}' || c == '\U{202F}' || c == '\U{205F}' || c == '\U{3000}'
  }

  predicate IsBlank(s: string) {
    forall k :: 0 <= k < |s| ==> IsSpace(s[k])
  }

  function TrimStart(s: string): (r: string)
    ensures |r| <= |s|
    ensures r == [] || !IsSpace(r[0])
  {
    if s != [] && IsSpace(s[0]) then TrimStart(s[1..]) else s
  }

  function TrimEnd(s: string): (r: string)
    ensures |r| <= |s| && r == s[..|r|]
    ensures r == [] || !IsSpace(r[|r| - 1])
  {
    if s != [] && IsSpace(s[|s| - 1]) then TrimEnd(s[..|s| - 1]) else s
  }

  lemma {:induction false} TrimStartBlank(s: string)
    ensures TrimStart(s) == [] <==> IsBlank(s)
  {
    if s != [] && IsSpace(s[0]) {
      TrimStartBlank(s[1..]);
      assert IsBlank(s) <==> IsBlank(s[1..]) by {
        if IsBlank(s[1..]) {
          forall k | 0 <= k < |s| ensures IsSpace(s[k]) { if k > 0 { assert s[k] == s[1..][k - 1]; } }
        }
      }
    }
  }

  lemma {:induction false} TrimEndBlank(s: string)
    ensures TrimEnd(s) == [] <==> IsBlank(s)
  {
    if s != [] && IsSpace(s[|s| - 1]) {
      TrimEndBlank(s[..|s| - 1]);
      assert IsBlank(s) <==> IsBlank(s[..|s| - 1]) by {
        if IsBlank(s[..|s| - 1]) {
          forall k | 0 <= k < |s| ensures IsSpace(s[k]) { if k < |s| - 1 { assert s[k] == s[..|s| - 1][k]; } }
        }
      }
    }
  }

  /** TrimStart removes a blank prefix and keeps the rest as it was. */
  lemma {:induction false} TrimStartDropsBlanks(s: string)
    ensures TrimStart(s) == s[|s| - |TrimStart(s)|..]
    ensures IsBlank(s[..|s| - |TrimStart(s)|])
    decreases |s|
  {
    if s != [] && IsSpace(s[0]) {
      var rest := s[1..];
      TrimStartDropsBlanks(rest);
      var n := |rest| - |TrimStart(rest)|;
      assert rest[n..] == s[n + 1..];
      var pre := s[..n + 1];
      forall k | 0 <= k < n + 1 ensures IsSpace(pre[k]) {
        if k > 0 { assert pre[k] == rest[..n][k - 1]; }
      }
    }
  }

  /** TrimEnd removes a blank suffix. */
  lemma {:induction false} TrimEndDropsBlanks(s: string)
    ensures IsBlank(s[|TrimEnd(s)|..])
    decreases |s|
  {
    if s != [] && IsSpace(s[|s| - 1]) {
      var init := s[..|s| - 1];
      TrimEndDropsBlanks(init);
      var n := |TrimEnd(init)|;
      var suf := s[n..];
      forall k | 0 <= k < |s| - n ensures IsSpace(suf[k]) {
        if k < |s| - 1 - n { assert suf[k] == init[n..][k]; }
      }
    }
  }

  /** Python's s.strip(): drops leading and trailing whitespace and nothing else. */
  function Strip(s: string): (r: string)
    ensures |r| <= |s|
    ensures r == [] || (!IsSpace(r[0]) && !IsSpace(r[|r| - 1]))
    ensures r == [] <==> IsBlank(s)
  {
    var t := TrimStart(s);
    TrimStartBlank(s);
    TrimEndBlank(t);
    var r := TrimEnd(t);
    assert r != [] ==> r[0] == t[0];
    r
  }

  /** The stripped text is a slice of the input with only whitespace cut off at either end. */
  lemma StripDropsOnlyBlanks(s: string)
    ensures exists a, b :: 0 <= a <= b <= |s| && Strip(s) == s[a..b] && IsBlank(s[..a]) && IsBlank(s[b..])
  {
    var t := TrimStart(s);
    TrimStartDropsBlanks(s);
    TrimEndDropsBlanks(t);
    var a := |s| - |t|;
    var b := a + |TrimEnd(t)|;
    assert t == s[a..];
    assert TrimEnd(t) == t[..|TrimEnd(t)|] == s[a..b];
    assert t[|TrimEnd(t)|..] == s[b..];
  }

  function LowerChar(c: char): char {
    if 'A' <= c <= 'Z' then (c as int - 'A' as int + 'a' as int) as char else c
  }

  function UpperChar(c: char): char {
    if 'a' <= c <= 'z' then (c as int - 'a' as int + 'A' as int) as char else c
  }

  /** Changing a character's case keeps its lower-case form. */
  lemma CaseChangeKeepsLower(c: char)
    ensures LowerChar(UpperChar(c)) == LowerChar(c) && LowerChar(LowerChar(c)) == LowerChar(c)
  {
  }

  predicate IsLetter(c: char) {
    'a' <= c <= 'z' || 'A' <= c <= 'Z'
  }

  /**
    Python's s.title(), on ASCII letters: a letter that starts the text or follows a
    non-letter is upper-cased, every other letter lower-cased.
  */
  function Title(s: string): (r: string)
    ensures |r| == |s|
    ensures forall k :: 0 <= k < |s| ==> LowerChar(r[k]) == LowerChar(s[k])
  {
    var r := seq(|s|, k requires 0 <= k < |s| =>
      if IsLetter(s[k]) && (k == 0 || !IsLetter(s[k - 1])) then UpperChar(s[k]) else LowerChar(s[k]));
    assert forall k :: 0 <= k < |s| ==> LowerChar(r[k]) == LowerChar(s[k]) by {
      forall k | 0 <= k < |s| ensures LowerChar(r[k]) == LowerChar(s[k]) {
        CaseChangeKeepsLower(s[k]);
      }
    }
    r
  }

  /** Python's s.replace(a, b) for single characters. */
  function ReplaceChar(s: string, a: char, b: char): (r: string)
    ensures |r| == |s|
    ensures forall k :: 0 <= k < |s| ==> r[k] == (if s[k] == a then b else s[k])
  {
    seq(|s|, k requires 0 <= k < |s| => if s[k] == a then b else s[k])
  }

  /** Python's s.lower(), on ASCII letters. */
  function Lower(s: string): (r: string)
    ensures |r| == |s|
    ensures forall k :: 0 <= k < |s| ==> r[k] == LowerChar(s[k])
  {
    seq(|s|, k requires 0 <= k < |s| => LowerChar(s[k]))
  }

  /** The text with every occurrence of c deleted, the rest in order. */
  function Without(s: string, c: char): (r: string)
    ensures |r| <= |s|
    decreases |s|
  {
    if s == [] then [] else (if s[0] == c then [] else [s[0]]) + Without(s[1..], c)
  }

  /**
    Python's s.replace('**', ''): deletes the leftmost non-overlapping pairs of asterisks,
    so only asterisks go and every other character stays, in order.
  */
  function RemoveBoldMarkers(s: string): (r: string)
    ensures |r| <= |s|
    ensures Without(r, '*') == Without(s, '*')
    decreases |s|
  {
    if |s| >= 2 && s[0] == '*' && s[1] == '*' then
      assert s[1..][1..] == s[2..];
      RemoveBoldMarkers(s[2..])
    else if s == [] then []
    else
      var r := [s[0]] + RemoveBoldMarkers(s[1..]);
      assert r[1..] == RemoveBoldMarkers(s[1..]);
      r
  }

  predicate HasBoldMarker(s: string) {
    exists k :: 0 <= k < |s| - 1 && s[k] == '*' && s[k + 1] == '*'
  }

  /** What is left after the replacement contains no "**" (the deletions never create a new one). */
  lemma {:induction false} RemoveBoldMarkersComplete(s: string)
    ensures !HasBoldMarker(RemoveBoldMarkers(s))
    decreases |s|
  {
    if |s| >= 2 && s[0] == '*' && s[1] == '*' {
      RemoveBoldMarkersComplete(s[2..]);
    } else if s != [] {
      var rest := RemoveBoldMarkers(s[1..]);
      RemoveBoldMarkersComplete(s[1..]);
      if s[0] == '*' && |s| >= 2 {
        // s[1] is not '*', so the kept tail starts with s[1]
        assert rest == [s[1]] + RemoveBoldMarkers(s[2..]);
      }
      var r := [s[0]] + rest;
      assert r == RemoveBoldMarkers(s);
      forall k | 0 <= k < |r| - 1 && r[k] == '*' ensures r[k + 1] != '*' {
        if k > 0 {
          assert r[k] == rest[k - 1] && r[k + 1] == rest[k];
        }
      }
    }
  }

  /** Joining "**"-free pieces with single spaces gives "**"-free text. */
  lemma {:induction false} JoinWithSpaceKeepsNoBold(parts: seq<string>)
    requires forall k :: 0 <= k < |parts| ==> !HasBoldMarker(parts[k])
    ensures !HasBoldMarker(Join(parts, " "))
    decreases |parts|
  {
    if |parts| > 1 {
      JoinWithSpaceKeepsNoBold(parts[1..]);
      var head, tail := parts[0], Join(parts[1..], " ");
      var r := head + " " + tail;
      forall k | 0 <= k < |r| - 1 && r[k] == '*' ensures r[k + 1] != '*' {
        if k < |head| - 1 {
          assert r[k] == head[k] && r[k + 1] == head[k + 1];
        } else if k >= |head| + 1 {
          assert r[k] == tail[k - |head| - 1] && r[k + 1] == tail[k - |head|];
        }
      }
    }
  }
}
