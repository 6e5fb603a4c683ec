/**
 * Shared vocabulary for the whole model: optional values and results,
 * ASCII text helpers (the program's `to_lowercase`, `contains`,
 * `starts_with`, `trim`, `split_whitespace`, `replace`), decimal
 * rendering and parsing, Levenshtein edit distance with its dynamic
 * programming computation, and a stable sort by a descending key.
 */
module Common {

  datatype Option<T> = None | Some(value: T)

  datatype Result<T, E> = Ok(value: T) | Err(error: E)
  {
    predicate IsOk() { this.Ok? }
  }

  // ---------------------------------------------------------------------
  // Characters (ASCII classes; see README for the Unicode caveat)
  // ---------------------------------------------------------------------

  predicate IsUpper(c: char) { 'A' <= c <= 'Z' }
  predicate IsLower(c: char) { 'a' <= c <= 'z' }
  predicate IsDigit(c: char) { '0' <= c <= '9' }
  predicate IsAlpha(c: char) { IsUpper(c) || IsLower(c) }
  predicate IsAlnum(c: char) { IsAlpha(c) || IsDigit(c) }
  /** The regex class `\w`. */
  predicate IsWordChar(c: char) { IsAlnum(c) || c == '_' }
  predicate IsSpace(c: char)
  {
    c == ' ' || c == '\t' || c == '\n' || c == '\r' || c == '\U{000B}' || c == '\U{000C}'
  }

  function LowerChar(c: char): (r: char)
    ensures IsUpper(c) ==> IsLower(r) && r as int == c as int + 32
    ensures !IsUpper(c) ==> r == c
    ensures !IsUpper(r)
  {
    if IsUpper(c) then (c as int + 32) as char else c
  }

  function ToLower(s: string): (r: string)
    ensures |r| == |s|
    ensures forall i :: 0 <= i < |s| ==> r[i] == LowerChar(s[i])
  {
    seq(|s|, i requires 0 <= i < |s| => LowerChar(s[i]))
  }

  predicate NoUpper(s: string) { forall i :: 0 <= i < |s| ==> !IsUpper(s[i]) }

  lemma ToLowerNoUpper(s: string)
    ensures NoUpper(ToLower(s))
  {
  }

  lemma ToLowerIdentity(s: string)
    requires NoUpper(s)
    ensures ToLower(s) == s
  {
  }

  lemma ToLowerIdempotent(s: string)
    ensures ToLower(ToLower(s)) == ToLower(s)
  {
    ToLowerNoUpper(s);
    ToLowerIdentity(ToLower(s));
  }

  lemma ToLowerAppend(a: string, b: string)
    ensures ToLower(a + b) == ToLower(a) + ToLower(b)
  {
  }

  // ---------------------------------------------------------------------
  // Substrings
  // ---------------------------------------------------------------------

  predicate StartsWith(s: string, p: string) { |p| <= |s| && s[..|p|] == p }

  predicate EndsWith(s: string, p: string) { |p| <= |s| && s[|s| - |p|..] == p }

  /** A string starts with what was put in front of it. */
  lemma StartsWithConcat(head: string, rest: string)
    ensures StartsWith(head + rest, head)
  {
    assert (head + rest)[..|head|] == head;
  }

  /** A string ends with what was appended to it. */
  lemma EndsWithConcat(rest: string, tail: string)
    ensures EndsWith(rest + tail, tail)
  {
    assert (rest + tail)[|rest|..] == tail;
  }

  predicate OccursAt(s: string, p: string, i: int)
  {
    0 <= i && i + |p| <= |s| && s[i..i + |p|] == p
  }

  /** `s.contains(p)`. */
  predicate Contains(s: string, p: string)
  {
    exists i :: 0 <= i <= |s| - |p| && OccursAt(s, p, i)
  }

  /** Position of the first occurrence of `p` in `s` at or after `from`. */
  function FindFrom(s: string, p: string, from: nat): (r: Option<nat>)
    requires from <= |s|
    ensures r.Some? ==> from <= r.value && OccursAt(s, p, r.value)
    ensures r.Some? ==> forall j :: from <= j < r.value ==> !OccursAt(s, p, j)
    ensures r.None? ==> forall j :: from <= j <= |s| ==> !OccursAt(s, p, j)
    decreases |s| - from
  {
    if OccursAt(s, p, from) then Some(from)
    else if from == |s| then None
    else FindFrom(s, p, from + 1)
  }

  /** `s.find(p)`: the first occurrence. */
  function Find(s: string, p: string): (r: Option<nat>)
    ensures r.Some? <==> Contains(s, p)
    ensures r.Some? ==> OccursAt(s, p, r.value) && forall j :: 0 <= j < r.value ==> !OccursAt(s, p, j)
  {
    var r := FindFrom(s, p, 0);
    if r.None? then
      assert !Contains(s, p) by {
        forall i | 0 <= i <= |s| - |p| ensures !OccursAt(s, p, i) { }
      }
      r
    else r
  }

  /** Position of the last occurrence of `p` in `s` whose start is below `upto`. */
  function FindLastBefore(s: string, p: string, upto: nat): (r: Option<nat>)
    requires upto <= |s| + 1
    ensures r.Some? ==> r.value < upto && OccursAt(s, p, r.value)
    ensures r.Some? ==> forall j :: r.value < j < upto ==> !OccursAt(s, p, j)
    ensures r.None? ==> forall j :: 0 <= j < upto ==> !OccursAt(s, p, j)
    decreases upto
  {
    if upto == 0 then None
    else if OccursAt(s, p, upto - 1) then Some(upto - 1)
    else FindLastBefore(s, p, upto - 1)
  }

  /** A literal does not occur at `j` when one of its characters differs. */
  lemma Mismatch(t: string, a: string, j: nat, k: nat)
    requires k < |a| && j + k < |t| && t[j + k] != a[k]
    ensures !OccursAt(t, a, j)
  {
  }

  lemma ContainsWitness(s: string, p: string, i: nat)
    requires OccursAt(s, p, i)
    ensures Contains(s, p)
  {
  }

  lemma ContainsPrefix(s: string, p: string)
    requires StartsWith(s, p)
    ensures Contains(s, p)
  {
    assert OccursAt(s, p, 0);
  }

  lemma ContainsSelf(s: string)
    ensures Contains(s, s)
  {
    assert OccursAt(s, s, 0);
  }

  lemma ContainsEmpty(s: string)
    ensures Contains(s, "")
  {
    assert OccursAt(s, "", 0);
  }

  /** The literal occurs in `s` at or after `from` and nowhere before `from`. */
  lemma FindFromFirst(s: string, p: string, i: nat)
    requires OccursAt(s, p, i)
    requires forall j :: 0 <= j < i ==> !OccursAt(s, p, j)
    ensures Find(s, p) == Some(i)
  {
    var r := Find(s, p);
    ContainsWitness(s, p, i);
  }

  /** Containment is transitive. */
  lemma ContainsTrans(a: string, b: string, c: string)
    requires Contains(a, b) && Contains(b, c)
    ensures Contains(a, c)
  {
    var i :| 0 <= i <= |a| - |b| && OccursAt(a, b, i);
    var j :| 0 <= j <= |b| - |c| && OccursAt(b, c, j);
    assert forall k :: 0 <= k < |c| ==> c[k] == b[j + k] == a[i + j + k];
    assert a[i + j..i + j + |c|] == c;
    ContainsWitness(a, c, i + j);
  }

  lemma OccursInMiddle(a: string, p: string, b: string)
    ensures OccursAt(a + p + b, p, |a|)
  {
    assert (a + p + b)[|a|..|a| + |p|] == p;
  }

  /** Text that starts with a head containing a literal contains the literal. */
  lemma ContainsInHead(s: string, head: string, p: string, i: nat)
    requires StartsWith(s, head) && OccursAt(head, p, i)
    ensures Contains(s, p)
  {
    ContainsPrefix(s, head);
    ContainsWitness(head, p, i);
    ContainsTrans(s, head, p);
  }

  /** Longer text is never contained in shorter text. */
  /** A pattern whose first character never occurs does not occur. */
  lemma NotContainsFirst(s: string, p: string)
    requires |p| > 0 && forall i :: 0 <= i < |s| ==> s[i] != p[0]
    ensures !Contains(s, p)
  {
    forall i | 0 <= i <= |s| - |p|
      ensures !OccursAt(s, p, i)
    {
      Mismatch(s, p, i, 0);
    }
  }

  lemma NotContainsLonger(s: string, p: string)
    requires |s| < |p|
    ensures !Contains(s, p)
  {
  }

  /** A word with a letter the text lacks does not occur in it. */
  lemma AbsentLetter(s: string, p: string, j: nat)
    requires j < |p| && forall i :: 0 <= i < |s| ==> s[i] != p[j]
    ensures !Contains(s, p)
  {
    forall i | 0 <= i <= |s| - |p|
      ensures !OccursAt(s, p, i)
    {
      Mismatch(s, p, i, j);
    }
  }

  /** A word with two adjacent letters that are never adjacent in the text does not occur in it. */
  lemma AbsentPair(s: string, p: string, j: nat)
    requires j + 1 < |p| && forall i :: 0 <= i < |s| - 1 ==> s[i] != p[j] || s[i + 1] != p[j + 1]
    ensures !Contains(s, p)
  {
    forall i | 0 <= i <= |s| - |p|
      ensures !OccursAt(s, p, i)
    {
      if s[i + j] == p[j] {
        Mismatch(s, p, i, j + 1);
      } else {
        Mismatch(s, p, i, j);
      }
    }
  }

  // ---------------------------------------------------------------------
  // Trimming, splitting, joining, replacing
  // ---------------------------------------------------------------------

  function TrimStart(s: string): (r: string)
    ensures |r| <= |s| && r == s[|s| - |r|..]
    ensures |r| > 0 ==> !IsSpace(r[0])
    ensures forall i :: 0 <= i < |s| - |r| ==> IsSpace(s[i])
  {
    if |s| > 0 && IsSpace(s[0]) then TrimStart(s[1..]) else s
  }

  function TrimEnd(s: string): (r: string)
    ensures |r| <= |s| && r == s[..|r|]
    ensures |r| > 0 ==> !IsSpace(r[|r| - 1])
    ensures forall i :: |r| <= i < |s| ==> IsSpace(s[i])
  {
    if |s| > 0 && IsSpace(s[|s| - 1]) then TrimEnd(s[..|s| - 1]) else s
  }

  /** `str::trim`: strips leading and trailing whitespace. */
  function Trim(s: string): (r: string)
    ensures |r| <= |s|
    ensures |r| > 0 ==> !IsSpace(r[0]) && !IsSpace(r[|r| - 1])
    ensures Contains(s, r)
  {
    var t := TrimStart(s);
    var r := TrimEnd(t);
    assert OccursAt(s, r, |s| - |t|) by {
      assert s[|s| - |t|..][..|r|] == r;
    }
    r
  }

  predicate AllSpace(s: string) { forall i :: 0 <= i < |s| ==> IsSpace(s[i]) }

  lemma TrimEmptyIffAllSpace(s: string)
    ensures Trim(s) == "" <==> AllSpace(s)
  {
    var t := TrimStart(s);
    var k := |s| - |t|;
    if |t| > 0 {
      assert !IsSpace(t[0]) && t[0] == s[k];
    }
    assert Trim(s) == "" <==> t == "";
  }

  /** A word has nothing to trim. */
  lemma TrimWord(w: string)
    requires IsWord(w)
    ensures Trim(w) == w
  {
  }

  /** A word contains no text that has a whitespace character in it. */
  /** Trimming a word after one leading space gives back the word. */
  lemma TrimSpacedWord(w: string)
    requires IsWord(w)
    ensures Trim(" " + w) == w
  {
    var s := " " + w;
    assert IsSpace(s[0]);
    assert s[1..] == w;
    assert TrimStart(s) == TrimStart(w);
    assert !IsSpace(w[0]);
    assert TrimStart(w) == w;
    assert Trim(w) == TrimEnd(w);
    TrimWord(w);
    assert Trim(s) == TrimEnd(TrimStart(s));
  }

  lemma WordAvoidsSpaced(w: string, p: string, k: nat)
    requires IsWord(w) && k < |p| && IsSpace(p[k])
    ensures !Contains(w, p)
  {
    forall i | 0 <= i <= |w| - |p| ensures !OccursAt(w, p, i) {
      assert w[i..i + |p|][k] == w[i + k];
    }
  }

  /** Length of the leading run of non-whitespace characters. */
  function NonSpaceRun(s: string): (n: nat)
    ensures n <= |s|
    ensures forall i :: 0 <= i < n ==> !IsSpace(s[i])
    ensures n < |s| ==> IsSpace(s[n])
  {
    if |s| == 0 || IsSpace(s[0]) then 0 else 1 + NonSpaceRun(s[1..])
  }

  predicate IsWord(w: string) { |w| > 0 && forall i :: 0 <= i < |w| ==> !IsSpace(w[i]) }

  /** `str::split_whitespace`: the maximal runs of non-whitespace characters, in order. */
  function SplitWhitespace(s: string): (r: seq<string>)
    ensures forall k :: 0 <= k < |r| ==> IsWord(r[k])
    decreases |s|
  {
    if |s| == 0 then []
    else if IsSpace(s[0]) then SplitWhitespace(s[1..])
    else
      var n := NonSpaceRun(s);
      [s[..n]] + SplitWhitespace(s[n..])
  }

  lemma SplitWhitespaceEmptyIffAllSpace(s: string)
    ensures SplitWhitespace(s) == [] <==> AllSpace(s)
    decreases |s|
  {
    if |s| > 0 {
      SplitWhitespaceEmptyIffAllSpace(s[1..]);
      if IsSpace(s[0]) {
        if AllSpace(s[1..]) {
          forall i | 0 <= i < |s| ensures IsSpace(s[i]) { if i > 0 { assert s[i] == s[1..][i - 1]; } }
        }
        if AllSpace(s) {
          forall i | 0 <= i < |s| - 1 ensures IsSpace(s[1..][i]) { assert s[1..][i] == s[i + 1]; }
        }
      }
    }
  }

  /** A word followed by nothing or by whitespace is one leading run. */
  lemma {:induction false} NonSpaceRunWord(w: string, rest: string)
    requires IsWord(w) && (|rest| == 0 || IsSpace(rest[0]))
    ensures NonSpaceRun(w + rest) == |w|
    decreases |w|
  {
    var s := w + rest;
    if |w| == 1 {
      assert s[1..] == rest;
    } else {
      NonSpaceRunWord(w[1..], rest);
      assert s[1..] == w[1..] + rest;
    }
  }

  /** Leading whitespace does not change the words. */
  lemma {:induction false} SplitWhitespaceSkipSpace(s: string)
    requires |s| > 0 && IsSpace(s[0])
    ensures SplitWhitespace(s) == SplitWhitespace(s[1..])
  {
  }

  /** Every character of every word is a character of the text. */
  lemma {:induction false} SplitWhitespaceChars(s: string, P: char -> bool)
    requires forall i :: 0 <= i < |s| ==> P(s[i])
    ensures forall k, j :: 0 <= k < |SplitWhitespace(s)| && 0 <= j < |SplitWhitespace(s)[k]| ==>
      P(SplitWhitespace(s)[k][j])
    decreases |s|
  {
    if |s| > 0 {
      if IsSpace(s[0]) {
        SplitWhitespaceChars(s[1..], P);
      } else {
        var n := NonSpaceRun(s);
        SplitWhitespaceChars(s[n..], P);
        assert SplitWhitespace(s) == [s[..n]] + SplitWhitespace(s[n..]);
      }
    }
  }

  function Join(parts: seq<string>, sep: string): (r: string)
    ensures |parts| == 0 ==> r == ""
    ensures |parts| == 1 ==> r == parts[0]
  {
    if |parts| == 0 then ""
    else if |parts| == 1 then parts[0]
    else parts[0] + sep + Join(parts[1..], sep)
  }

  /** Every character of a join satisfies what its parts and separator satisfy. */
  lemma {:induction false} JoinChars(parts: seq<string>, sep: string, P: char -> bool)
    requires forall k, j :: 0 <= k < |parts| && 0 <= j < |parts[k]| ==> P(parts[k][j])
    requires forall j :: 0 <= j < |sep| ==> P(sep[j])
    ensures forall i :: 0 <= i < |Join(parts, sep)| ==> P(Join(parts, sep)[i])
    decreases |parts|
  {
    if |parts| > 1 {
      JoinChars(parts[1..], sep, P);
      var rest := Join(parts[1..], sep);
      assert Join(parts, sep) == parts[0] + sep + rest;
      forall i | 0 <= i < |Join(parts, sep)| ensures P(Join(parts, sep)[i]) {
        if i < |parts[0]| {
          assert Join(parts, sep)[i] == parts[0][i];
        } else if i < |parts[0]| + |sep| {
          assert Join(parts, sep)[i] == sep[i - |parts[0]|];
        } else {
          assert Join(parts, sep)[i] == rest[i - |parts[0]| - |sep|];
        }
      }
    }
  }

  /** Splitting words joined by single spaces gives back the words. */
  lemma {:induction false} SplitWhitespaceJoin(words: seq<string>)
    requires forall k :: 0 <= k < |words| ==> IsWord(words[k])
    ensures SplitWhitespace(Join(words, " ")) == words
    decreases |words|
  {
    if |words| == 1 {
      var w := words[0];
      NonSpaceRunWord(w, "");
      assert w + "" == w;
      assert w[..|w|] == w && w[|w|..] == "";
    } else if |words| > 1 {
      var w := words[0];
      var rest := " " + Join(words[1..], " ");
      var s := w + rest;
      assert Join(words, " ") == s;
      NonSpaceRunWord(w, rest);
      assert s[..|w|] == w && s[|w|..] == rest;
      SplitWhitespaceSkipSpace(rest);
      assert rest[1..] == Join(words[1..], " ");
      SplitWhitespaceJoin(words[1..]);
      assert [words[0]] + words[1..] == words;
    }
  }

  /** `str::split(p)` for a non-empty pattern: the pieces between non-overlapping occurrences, scanning left to right. */
  function SplitOn(s: string, p: string): (r: seq<string>)
    requires |p| > 0
    ensures |r| >= 1
    ensures |r| == 1 <==> !Contains(s, p)
    ensures Contains(s, p) ==> r[0] == s[..Find(s, p).value]
    decreases |s|
  {
    match Find(s, p)
    case None => [s]
    case Some(i) => [s[..i]] + SplitOn(s[i + |p|..], p)
  }

  /** No piece of a split contains the pattern. */
  lemma {:induction false} SplitPiecesFree(s: string, p: string)
    requires |p| > 0
    ensures forall k :: 0 <= k < |SplitOn(s, p)| ==> !Contains(SplitOn(s, p)[k], p)
    decreases |s|
  {
    match Find(s, p)
    case None =>
    case Some(i) =>
      NoOccurrenceInPrefix(s, p, i);
      SplitPiecesFree(s[i + |p|..], p);
      var r := SplitOn(s[i + |p|..], p);
      assert SplitOn(s, p) == [s[..i]] + r;
  }

  /** The last piece of a split, trimmed, holds no occurrence of the pattern. */
  lemma LastPieceFree(s: string, p: string)
    requires |p| > 0
    ensures !Contains(Trim(SplitOn(s, p)[|SplitOn(s, p)| - 1]), p)
  {
    SplitPiecesFree(s, p);
    TrimmedFree(SplitOn(s, p)[|SplitOn(s, p)| - 1], p);
  }

  /** Trimming a text cannot create an occurrence. */
  lemma TrimmedFree(piece: string, p: string)
    requires !Contains(piece, p)
    ensures !Contains(Trim(piece), p)
  {
    if Contains(Trim(piece), p) { ContainsTrans(piece, Trim(piece), p); }
  }

  /** A prefix that ends before the first occurrence contains no occurrence. */
  lemma NoOccurrenceInPrefix(s: string, p: string, i: nat)
    requires |p| > 0 && i <= |s|
    requires forall j :: 0 <= j < i ==> !OccursAt(s, p, j)
    ensures !Contains(s[..i], p)
  {
    forall j | 0 <= j && j + |p| <= i ensures !OccursAt(s[..i], p, j) {
      assert !OccursAt(s, p, j);
      assert s[..i][j..j + |p|] == s[j..j + |p|];
    }
  }

  /** Splitting at an occurrence that no earlier one precedes: the lead, then the split of the rest. */
  lemma SplitAfterLead(lead: string, p: string, rest: string)
    requires |p| > 0
    requires forall j :: 0 <= j < |lead| ==> !OccursAt(lead + p, p, j)
    ensures SplitOn(lead + p + rest, p) == [lead] + SplitOn(rest, p)
  {
    var s := lead + p + rest;
    forall j | 0 <= j < |lead| ensures !OccursAt(s, p, j) {
      if OccursAt(s, p, j) {
        assert (lead + p)[j..j + |p|] == s[j..j + |p|];
        assert OccursAt(lead + p, p, j);
      }
    }
    assert s[|lead|..|lead| + |p|] == p;
    FindFromFirst(s, p, |lead|);
    assert s[..|lead|] == lead;
    assert s[|lead| + |p|..] == rest;
  }

  /** A text without the pattern splits into itself. */
  lemma SplitAbsent(s: string, p: string)
    requires |p| > 0 && !Contains(s, p)
    ensures SplitOn(s, p) == [s]
  {
  }

  /** Joining the pieces with the pattern gives back the text. */
  lemma {:induction false} SplitJoin(s: string, p: string)
    requires |p| > 0
    ensures Join(SplitOn(s, p), p) == s
    decreases |s|
  {
    match Find(s, p)
    case None =>
    case Some(i) =>
      var rest := s[i + |p|..];
      SplitJoin(rest, p);
      var r := SplitOn(rest, p);
      var parts := [s[..i]] + r;
      assert SplitOn(s, p) == parts;
      assert parts[1..] == r;
      assert Join(parts, p) == s[..i] + p + Join(r, p);
      assert s == s[..i] + p + rest;
  }

  /** `str::split(c)` for a single character: always at least one piece, empty pieces kept. */
  function SplitChar(s: string, c: char): (r: seq<string>)
    ensures |r| >= 1
    decreases |s|
  {
    if |s| == 0 then [""]
    else
      var rest := SplitChar(s[1..], c);
      if s[0] == c then [""] + rest else [[s[0]] + rest[0]] + rest[1..]
  }

  /** A text without the character is a single piece. */
  lemma {:induction false} SplitCharAbsent(w: string, c: char)
    requires c !in w
    ensures SplitChar(w, c) == [w]
    decreases |w|
  {
    if |w| > 0 {
      assert c !in w[1..] by { assert forall x :: x in w[1..] ==> x in w; }
      SplitCharAbsent(w[1..], c);
      assert [w[0]] + w[1..] == w;
    }
  }

  /** A leading piece without the character is split off first. */
  lemma {:induction false} SplitCharLead(w: string, c: char, rest: string)
    requires c !in w
    ensures SplitChar(w + [c] + rest, c) == [w] + SplitChar(rest, c)
    decreases |w|
  {
    var s := w + [c] + rest;
    if |w| == 0 {
      assert s == [c] + rest;
      assert s[1..] == rest;
    } else {
      assert c !in w[1..] by { assert forall x :: x in w[1..] ==> x in w; }
      SplitCharLead(w[1..], c, rest);
      assert s[1..] == w[1..] + [c] + rest;
      assert s[0] == w[0];
      assert [w[0]] + w[1..] == w;
    }
  }

  /** Splitting a join of pieces free of the separator gives back the pieces. */
  lemma {:induction false} SplitCharJoin(parts: seq<string>, c: char)
    requires |parts| >= 1
    requires forall k :: 0 <= k < |parts| ==> c !in parts[k]
    ensures SplitChar(Join(parts, [c]), c) == parts
    decreases |parts|
  {
    if |parts| == 1 {
      SplitCharAbsent(parts[0], c);
    } else {
      SplitCharJoin(parts[1..], c);
      SplitCharLead(parts[0], c, Join(parts[1..], [c]));
      assert [parts[0]] + parts[1..] == parts;
    }
  }

  /** `str::replace(from, to)`: every non-overlapping occurrence, scanning left to right. */
  function ReplaceAll(s: string, from: string, to: string): (r: string)
    ensures |from| > 0 && !Contains(s, from) ==> r == s
    decreases |s|
  {
    if |from| == 0 then
      if |s| == 0 then to else to + [s[0]] + ReplaceAll(s[1..], from, to)
    else if |s| < |from| then s
    else if s[..|from|] == from then
      assert OccursAt(s, from, 0);
      to + ReplaceAll(s[|from|..], from, to)
    else
      var rest := ReplaceAll(s[1..], from, to);
      assert !Contains(s, from) ==> !Contains(s[1..], from) by {
        if !Contains(s, from) && Contains(s[1..], from) {
          var i :| 0 <= i <= |s[1..]| - |from| && OccursAt(s[1..], from, i);
          assert s[1..][i..i + |from|] == s[i + 1..i + 1 + |from|];
          assert OccursAt(s, from, i + 1);
        }
      }
      [s[0]] + rest
  }

  /** A text that starts with the pattern has it replaced there, and the rest is replaced in turn. */
  lemma ReplaceAllLeading(from: string, rest: string, to: string)
    requires |from| > 0
    ensures ReplaceAll(from + rest, from, to) == to + ReplaceAll(rest, from, to)
  {
    var s := from + rest;
    assert s[..|from|] == from;
    assert s[|from|..] == rest;
  }


  // ---------------------------------------------------------------------
  // Decimal numbers
  // ---------------------------------------------------------------------

  function DigitValue(c: char): nat
    requires IsDigit(c)
  {
    c as int - '0' as int
  }

  function DigitChar(d: nat): (c: char)
    requires d < 10
    ensures IsDigit(c) && DigitValue(c) == d
  {
    ('0' as int + d) as char
  }

  predicate AllDigits(s: string) { forall i :: 0 <= i < |s| ==> IsDigit(s[i]) }

  /** The value of a run of decimal digits. */
  function DigitsValue(s: string): nat
    requires AllDigits(s)
  {
    if |s| == 0 then 0 else DigitsValue(s[..|s| - 1]) * 10 + DigitValue(s[|s| - 1])
  }

  /** `format!("{}", n)` for a non-negative integer. */
  function NatToString(n: nat): (r: string)
    ensures |r| > 0 && AllDigits(r)
    ensures DigitsValue(r) == n
  {
    if n < 10 then [DigitChar(n)]
    else
      var r := NatToString(n / 10) + [DigitChar(n % 10)];
      assert r[..|r| - 1] == NatToString(n / 10);
      r
  }

  function IntToString(n: int): string
  {
    if n < 0 then "-" + NatToString(-n) else NatToString(n)
  }

  /** The exclusive upper bounds of Rust's `u8`, `u32` and `usize` (64-bit). */
  const U8Limit: nat := 0x100
  const U32Limit: nat := 0x1_0000_0000
  const UsizeLimit: nat := 0x1_0000_0000_0000_0000

  /**
   * `parse::<uN>()` on a string: an optional `+`, then at least one digit,
   * with a value below `limit` (2^N). Anything else is an error.
   */
  function ParseUnsigned(s: string, limit: nat): (r: Option<nat>)
    ensures r.Some? ==> r.value < limit
    ensures AllDigits(s) && |s| > 0 ==> (r.Some? <==> DigitsValue(s) < limit)
    ensures AllDigits(s) && |s| > 0 && r.Some? ==> r.value == DigitsValue(s)
  {
    var body := if |s| > 0 && s[0] == '+' then s[1..] else s;
    if |body| == 0 || !AllDigits(body) then
      assert AllDigits(s) && |s| > 0 ==> body == s;
      None
    else if DigitsValue(body) < limit then Some(DigitsValue(body))
    else None
  }

  lemma NatToStringParses(n: nat, limit: nat)
    requires n < limit
    ensures ParseUnsigned(NatToString(n), limit) == Some(n)
  {
    var s := NatToString(n);
    assert s[0] != '+';
  }

  /** Ten to the power `k`. */
  function Pow10(k: nat): (r: nat)
    ensures r >= 1
  {
    if k == 0 then 1 else 10 * Pow10(k - 1)
  }

  predicate DigitsAndDots(s: string) { forall i :: 0 <= i < |s| ==> IsDigit(s[i]) || s[i] == '.' }

  function CountChar(s: string, c: char): nat
  {
    if |s| == 0 then 0 else (if s[0] == c then 1 else 0) + CountChar(s[1..], c)
  }

  lemma CountCharNone(s: string, c: char)
    requires forall i :: 0 <= i < |s| ==> s[i] != c
    ensures CountChar(s, c) == 0
  {
  }

  lemma CountCharAppend(a: string, b: string, c: char)
    ensures CountChar(a + b, c) == CountChar(a, c) + CountChar(b, c)
  {
    if |a| > 0 {
      assert (a + b)[1..] == a[1..] + b;
      CountCharAppend(a[1..], b, c);
    } else {
      assert a + b == b;
    }
  }

  /**
   * `parse::<f32>()` restricted to strings made of digits and dots (the only
   * strings the command handlers ever pass it): accepted exactly when there is
   * at least one digit and at most one dot; the value is exact (no binary
   * rounding).
   */
  function ParseDecimal(s: string): (r: Option<real>)
    requires DigitsAndDots(s)
    ensures r.Some? ==> r.value >= 0.0
  {
    match Find(s, ".")
    case None =>
      assert AllDigits(s) by {
        forall i | 0 <= i < |s| ensures IsDigit(s[i]) {
          assert !OccursAt(s, ".", i);
          assert s[i..i + 1] == [s[i]];
        }
      }
      if |s| == 0 then None else Some(DigitsValue(s) as real)
    case Some(k) =>
      var ip := s[..k];
      var fp := s[k + 1..];
      assert AllDigits(ip) && DigitsAndDots(fp) by {
        forall i | 0 <= i < k ensures IsDigit(ip[i]) {
          assert !OccursAt(s, ".", i);
          assert s[i..i + 1] == [s[i]];
        }
      }
      if |ip| + |fp| == 0 || !AllDigits(fp) then None
      else Some(DigitsValue(ip) as real + DigitsValue(fp) as real / Pow10(|fp|) as real)
  }

  /** `format!("{:.2}", x)`: two decimals, rounding halves away from zero. */
  function Fixed2(x: real): string
  {
    var neg := x < 0.0;
    var a := if neg then -x else x;
    var hundredths := (a * 100.0 + 0.5).Floor;
    var units := hundredths / 100;
    var cents := hundredths % 100;
    (if neg && hundredths > 0 then "-" else "") + NatToString(units) + "." + [DigitChar(cents / 10), DigitChar(cents % 10)]
  }

  // ---------------------------------------------------------------------
  // Sequences
  // ---------------------------------------------------------------------

  /** `Vec::truncate(n)` / `iter().take(n)`. */
  function Take<T>(s: seq<T>, n: nat): (r: seq<T>)
    ensures |r| == if n < |s| then n else |s|
    ensures r == s[..|r|]
  {
    if n < |s| then s[..n] else s
  }

  function Reverse<T>(s: seq<T>): (r: seq<T>)
    ensures |r| == |s|
    ensures forall i :: 0 <= i < |s| ==> r[i] == s[|s| - 1 - i]
  {
    if |s| == 0 then [] else [s[|s| - 1]] + Reverse(s[..|s| - 1])
  }

  /** `VecDeque::push_back` followed by `pop_front` while longer than `cap`. */
  function PushBounded<T>(s: seq<T>, x: T, cap: nat): (r: seq<T>)
    requires |s| <= cap
    ensures |r| <= cap
    ensures |s| < cap ==> r == s + [x]
    ensures |s| == cap ==> r == (s + [x])[1..]
  {
    if |s| + 1 > cap then (s + [x])[1..] else s + [x]
  }

  /** The last `n` elements of `s` (all of it when shorter). */
  function LastN<T>(s: seq<T>, n: nat): (r: seq<T>)
    ensures |r| == if |s| < n then |s| else n
    ensures r == s[|s| - |r|..]
  {
    if |s| <= n then s else s[|s| - n..]
  }

  function Count<T(==)>(s: seq<T>, x: T): nat
  {
    if |s| == 0 then 0 else (if s[0] == x then 1 else 0) + Count(s[1..], x)
  }

  /** Counting the last element separately. */
  lemma CountLast<T>(s: seq<T>, x: T)
    requires |s| > 0
    ensures Count(s, x) == Count(s[..|s| - 1], x) + if s[|s| - 1] == x then 1 else 0
  {
    CountAppend(s[..|s| - 1], [s[|s| - 1]], x);
    assert s[..|s| - 1] + [s[|s| - 1]] == s;
  }

  /** Counting over a concatenation. */
  lemma {:induction false} CountAppend<T>(a: seq<T>, b: seq<T>, x: T)
    ensures Count(a + b, x) == Count(a, x) + Count(b, x)
    decreases |a|
  {
    if |a| == 0 {
      assert a + b == b;
    } else {
      CountAppend(a[1..], b, x);
      assert (a + b)[0] == a[0];
      assert (a + b)[1..] == a[1..] + b;
    }
  }

  /** `Vec::retain(|y| y != x)`: every occurrence of `x` dropped, the rest kept in order. */
  function DropAll<T(==)>(s: seq<T>, x: T): (r: seq<T>)
    ensures |r| <= |s|
  {
    if |s| == 0 then []
    else (if s[0] == x then [] else [s[0]]) + DropAll(s[1..], x)
  }

  lemma {:induction false} DropAllSpec<T>(s: seq<T>, x: T)
    ensures Count(DropAll(s, x), x) == 0
    ensures forall y :: y != x ==> Count(DropAll(s, x), y) == Count(s, y)
    ensures forall y :: y in DropAll(s, x) <==> y in s && y != x
    ensures Subseq(DropAll(s, x), s)
    decreases |s|
  {
    if |s| > 0 {
      DropAllSpec(s[1..], x);
      var head: seq<T> := if s[0] == x then [] else [s[0]];
      CountAppend(head, DropAll(s[1..], x), x);
      forall y | y != x ensures Count(DropAll(s, x), y) == Count(s, y) {
        CountAppend(head, DropAll(s[1..], x), y);
      }
      SubseqCons(s[0], DropAll(s[1..], x), s[1..]);
      assert [s[0]] + s[1..] == s;
      if s[0] == x {
        assert DropAll(s, x) == DropAll(s[1..], x);
      } else {
        assert DropAll(s, x) == [s[0]] + DropAll(s[1..], x);
      }
    }
  }

  lemma {:induction false} DropAllNotIn<T>(s: seq<T>, x: T)
    requires x !in s
    ensures DropAll(s, x) == s
    decreases |s|
  {
    if |s| > 0 {
      DropAllNotIn(s[1..], x);
      assert [s[0]] + s[1..] == s;
    }
  }

  lemma {:induction false} DropAllAppend<T>(a: seq<T>, b: seq<T>, x: T)
    ensures DropAll(a + b, x) == DropAll(a, x) + DropAll(b, x)
    decreases |a|
  {
    if |a| == 0 {
      assert a + b == b;
    } else {
      DropAllAppend(a[1..], b, x);
      assert (a + b)[0] == a[0] && (a + b)[1..] == a[1..] + b;
    }
  }

  /** `iter().filter(p)`: the elements satisfying `p`, in their order. */
  function Filter<T>(s: seq<T>, p: T -> bool): (r: seq<T>)
    ensures |r| <= |s|
  {
    if |s| == 0 then [] else Filter(s[..|s| - 1], p) + (if p(s[|s| - 1]) then [s[|s| - 1]] else [])
  }

  /** The filter keeps exactly the elements satisfying `p`, and adds no duplicate. */
  lemma {:induction false} FilterSpec<T>(s: seq<T>, p: T -> bool)
    ensures forall x :: x in Filter(s, p) <==> x in s && p(x)
    ensures NoDuplicates(s) ==> NoDuplicates(Filter(s, p))
    decreases |s|
  {
    if |s| > 0 {
      var init := s[..|s| - 1];
      var last := s[|s| - 1];
      FilterSpec(init, p);
      assert s == init + [last];
      var r0 := Filter(init, p);
      var r := Filter(s, p);
      if NoDuplicates(s) {
        assert NoDuplicates(init);
        if p(last) {
          assert last !in init by {
            forall k | 0 <= k < |init| ensures init[k] != last {
              assert init[k] == s[k];
            }
          }
          forall i, j | 0 <= i < j < |r| ensures r[i] != r[j] {
            assert r[i] == r0[i] && r[i] in r0;
            if j < |r0| {
              assert r[j] == r0[j];
            }
          }
        }
      }
    }
  }

  /** `order` lists the keys of a hash map once each, in its iteration order. */
  ghost predicate IsOrderOf<K(!new)>(order: seq<K>, keys: set<K>)
  {
    NoDuplicates(order) && (forall k :: k in order <==> k in keys)
  }

  /** A hash-map iteration visits as many keys as the map has. */
  lemma {:induction false} OrderCard<K(!new)>(order: seq<K>, keys: set<K>)
    requires IsOrderOf(order, keys)
    ensures |order| == |keys|
    decreases |order|
  {
    if |order| == 0 {
      assert forall k :: k !in keys;
      assert keys == {};
    } else {
      var init := order[..|order| - 1];
      var last := order[|order| - 1];
      assert order == init + [last];
      forall k ensures k in init <==> k in keys - {last} {
        if k in init {
          var i :| 0 <= i < |init| && init[i] == k;
          assert order[i] == k;
        }
      }
      OrderCard(init, keys - {last});
    }
  }

  /** `a` is `b` with some elements left out, the rest kept in their order. */
  predicate Subseq<T(==)>(a: seq<T>, b: seq<T>)
    decreases |b|
  {
    |a| == 0
    || (|b| > 0
        && ((a[|a| - 1] == b[|b| - 1] && Subseq(a[..|a| - 1], b[..|b| - 1]))
            || Subseq(a, b[..|b| - 1])))
  }

  lemma {:induction false} SubseqMembers<T>(a: seq<T>, b: seq<T>)
    requires Subseq(a, b)
    ensures forall x :: x in a ==> x in b
    decreases |b|
  {
    if |a| > 0 {
      var b0 := b[..|b| - 1];
      if a[|a| - 1] == b[|b| - 1] && Subseq(a[..|a| - 1], b0) {
        SubseqMembers(a[..|a| - 1], b0);
        forall x | x in a ensures x in b {
          var k :| 0 <= k < |a| && a[k] == x;
          if k < |a| - 1 {
            assert a[..|a| - 1][k] == x;
            assert x in a[..|a| - 1];
            var q :| 0 <= q < |b0| && b0[q] == x;
            assert b[q] == x;
          }
        }
      } else {
        SubseqMembers(a, b0);
        forall x | x in a ensures x in b {
          var q :| 0 <= q < |b0| && b0[q] == x;
          assert b[q] == x;
        }
      }
    }
  }

  /** Keeping a prefix of a subsequence keeps a subsequence. */
  lemma {:induction false} SubseqPrefix<T>(a: seq<T>, b: seq<T>, k: nat)
    requires Subseq(a, b) && k <= |a|
    ensures Subseq(a[..k], b)
    decreases |b|
  {
    if k < |a| && k > 0 {
      var b0 := b[..|b| - 1];
      if a[|a| - 1] == b[|b| - 1] && Subseq(a[..|a| - 1], b0) {
        SubseqPrefix(a[..|a| - 1], b0, k);
        assert a[..|a| - 1][..k] == a[..k];
      } else {
        SubseqPrefix(a, b0, k);
      }
    } else if k == |a| {
      assert a[..k] == a;
    }
  }

  /** A subsequence of a sequence sorted by descending key is sorted too. */
  lemma {:induction false} SubseqSortedDesc<T>(a: seq<T>, b: seq<T>, key: T -> real)
    requires Subseq(a, b) && SortedDesc(b, key)
    ensures SortedDesc(a, key)
    decreases |b|
  {
    if |a| > 0 {
      var b0 := b[..|b| - 1];
      assert SortedDesc(b0, key);
      if a[|a| - 1] == b[|b| - 1] && Subseq(a[..|a| - 1], b0) {
        var a0 := a[..|a| - 1];
        SubseqSortedDesc(a0, b0, key);
        SubseqMembers(a0, b0);
        forall i, j | 0 <= i < j < |a| ensures key(a[i]) >= key(a[j]) {
          assert a[i] == a0[i];
          if j < |a| - 1 {
            assert a[j] == a0[j];
          } else {
            assert a0[i] in a0;
            var q :| 0 <= q < |b0| && b0[q] == a0[i];
            assert b[q] == a[i];
          }
        }
      } else {
        SubseqSortedDesc(a, b0, key);
      }
    }
  }

  /** Subsequences extend by a common head, and by a head on the right alone. */
  lemma {:induction false} SubseqCons<T>(x: T, a: seq<T>, b: seq<T>)
    requires Subseq(a, b)
    ensures Subseq([x] + a, [x] + b) && Subseq(a, [x] + b)
    decreases |b|
  {
    if |a| == 0 {
      assert ([x] + a)[..0] == [];
      assert ([x] + a)[|[x] + a| - 1] == x && ([x] + a)[..|[x] + a| - 1] == [];
      var k := [x] + b;
      if |b| > 0 {
        assert Subseq([x] + a, k[..|k| - 1]) by {
          SubseqCons(x, a, b[..|b| - 1]);
          assert k[..|k| - 1] == [x] + b[..|b| - 1];
        }
      } else {
        assert Subseq([x] + a, k) by { assert k[..|k| - 1] == [] && ([x] + a)[..|[x] + a| - 1] == []; }
      }
    } else {
      var b0 := b[..|b| - 1];
      var a0 := a[..|a| - 1];
      assert ([x] + b)[..|[x] + b| - 1] == [x] + b0;
      assert ([x] + a)[..|[x] + a| - 1] == [x] + a0;
      if a[|a| - 1] == b[|b| - 1] && Subseq(a0, b0) {
        SubseqCons(x, a0, b0);
      } else {
        SubseqCons(x, a, b0);
      }
    }
  }

  predicate NoDuplicates<T(==)>(s: seq<T>)
  {
    forall i, j :: 0 <= i < j < |s| ==> s[i] != s[j]
  }

  /** The elements of a set in some order, each once: a hash-set or hash-map iteration. */
  method Enumerate<T(==)>(s: set<T>) returns (order: seq<T>)
    ensures NoDuplicates(order) && forall x :: x in order <==> x in s
  {
    order := [];
    var rest := s;
    while rest != {}
      invariant forall x :: x in order <==> x in s && x !in rest
      invariant rest <= s && NoDuplicates(order)
      decreases |rest|
    {
      var x :| x in rest;
      order := order + [x];
      rest := rest - {x};
    }
  }

  /** The sum of the values of a map. */
  ghost function MapSum<K(!new)>(m: map<K, nat>): nat
    decreases |m|
  {
    if m == map[] then 0
    else
      var k :| k in m;
      m[k] + MapSum(m - {k})
  }

  /** Any key can be taken out of the sum first. */
  lemma {:induction false} MapSumRemove<K(!new)>(m: map<K, nat>, k: K)
    requires k in m
    ensures MapSum(m) == m[k] + MapSum(m - {k})
    decreases |m|
  {
    var j :| j in m && MapSum(m) == m[j] + MapSum(m - {j});
    if j != k {
      var rest := m - {j};
      MapSumRemove(rest, k);
      MapSumRemove(m - {k}, j);
      assert rest - {k} == (m - {k}) - {j};
    }
  }

  /** Replacing one value changes the sum by the difference. */
  lemma MapSumUpdate<K(!new)>(m: map<K, nat>, k: K, v: nat)
    ensures MapSum(m[k := v]) + (if k in m then m[k] else 0) == MapSum(m) + v
  {
    MapSumRemove(m[k := v], k);
    assert m[k := v] - {k} == m - {k};
    if k in m {
      MapSumRemove(m, k);
    } else {
      assert m - {k} == m;
    }
  }

  /** The values of a map summed in the order of a sequence listing each key once. */
  function SeqSum<K>(m: map<K, nat>, keys: seq<K>): nat
    requires forall k :: k in keys ==> k in m
  {
    if |keys| == 0 then 0 else SeqSum(m, keys[..|keys| - 1]) + m[keys[|keys| - 1]]
  }

  /** Summing along an order of the keys gives the map's sum. */
  lemma {:induction false} SeqSumAll<K(!new)>(m: map<K, nat>, keys: seq<K>)
    requires NoDuplicates(keys) && forall k :: k in keys <==> k in m
    ensures SeqSum(m, keys) == MapSum(m)
    decreases |keys|
  {
    if |keys| == 0 {
      assert m == map[];
    } else {
      var last := keys[|keys| - 1];
      var init := keys[..|keys| - 1];
      MapSumRemove(m, last);
      assert forall k :: k in init <==> k in m - {last} by {
        forall k ensures k in init <==> k in m - {last} {
          if k in init {
            var i :| 0 <= i < |init| && init[i] == k;
            assert keys[i] == k && i < |keys| - 1;
          }
          if k in m && k != last {
            var i :| 0 <= i < |keys| && keys[i] == k;
            assert init[i] == k;
          }
        }
      }
      SeqSumAll(m - {last}, init);
      SeqSumSame(m, m - {last}, init);
    }
  }

  /** Summing with the first key taken apart. */
  lemma {:induction false} SeqSumCons<K>(m: map<K, nat>, k: K, keys: seq<K>)
    requires k in m && forall j :: j in keys ==> j in m
    ensures SeqSum(m, [k] + keys) == m[k] + SeqSum(m, keys)
    decreases |keys|
  {
    if |keys| > 0 {
      var init := keys[..|keys| - 1];
      assert ([k] + keys)[..|[k] + keys| - 1] == [k] + init;
      SeqSumCons(m, k, init);
    } else {
      assert ([k] + keys)[..0] == [];
    }
  }

  /** A sequence with the same elements as a duplicate-free one, as often, is duplicate-free. */
  lemma NoDuplicatesPermutation<T>(a: seq<T>, b: seq<T>)
    requires NoDuplicates(a) && multiset(a) == multiset(b)
    ensures NoDuplicates(b) && forall x :: x in a <==> x in b
  {
    forall x ensures x in a <==> x in b {
      assert x in a <==> x in multiset(a);
      assert x in b <==> x in multiset(b);
    }
    forall i, j | 0 <= i < j < |b| ensures b[i] != b[j] {
      if b[i] == b[j] {
        TwiceCounted(b, i, j);
        OnceCounted(a, b[i]);
        assert false;
      }
    }
  }

  lemma {:induction false} OnceCounted<T>(a: seq<T>, x: T)
    requires NoDuplicates(a)
    ensures multiset(a)[x] <= 1
    decreases |a|
  {
    if |a| > 0 {
      var init := a[..|a| - 1];
      assert a == init + [a[|a| - 1]];
      assert NoDuplicates(init);
      OnceCounted(init, x);
      if a[|a| - 1] == x {
        assert x !in init by {
          forall i | 0 <= i < |init| ensures init[i] != x {
            assert init[i] == a[i];
          }
        }
      }
    }
  }

  lemma TwiceCounted<T>(b: seq<T>, i: nat, j: nat)
    requires i < j < |b| && b[i] == b[j]
    ensures multiset(b)[b[i]] >= 2
  {
    assert b == b[..j] + b[j..];
    assert b[..j][i] == b[i];
    assert b[j..][0] == b[i];
    assert b[i] in multiset(b[..j]) && b[i] in multiset(b[j..]);
  }

  /** A common prefix cancels. */
  lemma CancelPrefix<T>(h: seq<T>, x: seq<T>, y: seq<T>)
    requires h + x == h + y
    ensures x == y
  {
    assert x == (h + x)[|h|..];
  }

  /** A common suffix cancels. */
  lemma CancelSuffix<T>(x: seq<T>, y: seq<T>, t: seq<T>)
    requires x + t == y + t
    ensures x == y
  {
    assert x == (x + t)[..|x|];
  }

  /** The sum along keys that two maps agree on. */
  lemma {:induction false} SeqSumSame<K>(a: map<K, nat>, b: map<K, nat>, keys: seq<K>)
    requires forall k :: k in keys ==> k in a && k in b && a[k] == b[k]
    ensures SeqSum(a, keys) == SeqSum(b, keys)
    decreases |keys|
  {
    if |keys| > 0 {
      SeqSumSame(a, b, keys[..|keys| - 1]);
    }
  }

  /** `map.entry(k).and_modify(|c| *c += 1).or_insert(1)`. */
  function Bump<K>(m: map<K, nat>, k: K): (r: map<K, nat>)
    ensures k in r && r[k] == (if k in m then m[k] else 0) + 1
    ensures r.Keys == m.Keys + {k}
    ensures forall j :: j in m && j != k ==> r[j] == m[j]
  {
    m[k := (if k in m then m[k] else 0) + 1]
  }

  /** The count under `k`, zero when absent. */
  function CountOf<K>(m: map<K, nat>, k: K): nat { if k in m then m[k] else 0 }

  /** Bumping each element of `ws` in turn. */
  function BumpAll<K>(m: map<K, nat>, ws: seq<K>): map<K, nat>
    decreases |ws|
  {
    if |ws| == 0 then m else Bump(BumpAll(m, ws[..|ws| - 1]), ws[|ws| - 1])
  }

  /** Bumping a sequence adds each key's number of occurrences to its count and adds exactly its keys. */
  lemma {:induction false} BumpAllCount<K>(m: map<K, nat>, ws: seq<K>, k: K)
    ensures CountOf(BumpAll(m, ws), k) == CountOf(m, k) + Count(ws, k)
    ensures k in BumpAll(m, ws) <==> k in m || k in ws
    decreases |ws|
  {
    if |ws| > 0 {
      var init := ws[..|ws| - 1];
      BumpAllCount(m, init, k);
      CountLast(ws, k);
      assert ws == init + [ws[|ws| - 1]];
      assert k in ws <==> k in init || k == ws[|ws| - 1];
    }
  }

  /** Bumping a concatenation bumps one part after the other. */
  lemma {:induction false} BumpAllAppend<K>(m: map<K, nat>, a: seq<K>, b: seq<K>)
    ensures BumpAll(m, a + b) == BumpAll(BumpAll(m, a), b)
    decreases |b|
  {
    if |b| == 0 {
      assert a + b == a;
    } else {
      var b0 := b[..|b| - 1];
      assert (a + b)[..|a + b| - 1] == a + b0;
      BumpAllAppend(m, a, b0);
    }
  }

  function MinReal(a: real, b: real): real { if a <= b then a else b }
  function MaxReal(a: real, b: real): real { if a >= b then a else b }

  /** `f32::clamp(lo, hi)`. */
  function Clamp(x: real, lo: real, hi: real): (r: real)
    requires lo <= hi
    ensures lo <= r <= hi
    ensures lo <= x <= hi ==> r == x
  {
    if x < lo then lo else if x > hi then hi else x
  }

  /** A subset is no larger than its superset. */
  lemma {:induction false} SubsetCard<T>(a: set<T>, b: set<T>)
    requires a <= b
    ensures |a| <= |b|
    decreases |b|
  {
    if a != {} {
      var x :| x in a;
      SubsetCard(a - {x}, b - {x});
    }
  }

  /** A ratio of a part to a non-empty whole lies in [0, 1]. */
  lemma RatioBounds(x: nat, y: nat)
    requires x <= y && y > 0
    ensures 0.0 <= x as real / y as real <= 1.0
  {
  }

  // ---------------------------------------------------------------------
  // Levenshtein edit distance
  // ---------------------------------------------------------------------

  function Min3(a: nat, b: nat, c: nat): (m: nat)
    ensures m <= a && m <= b && m <= c
    ensures m == a || m == b || m == c
  {
    if a <= b && a <= c then a else if b <= c then b else c
  }

  /** The edit distance between `a` and `b` (insertions, deletions, substitutions of cost 1). */
  function EditDistance<T(==)>(a: seq<T>, b: seq<T>): nat
    decreases |a| + |b|
  {
    if |a| == 0 then |b|
    else if |b| == 0 then |a|
    else
      Min3(EditDistance(a[..|a| - 1], b) + 1,
           EditDistance(a, b[..|b| - 1]) + 1,
           EditDistance(a[..|a| - 1], b[..|b| - 1]) + (if a[|a| - 1] == b[|b| - 1] then 0 else 1))
  }

  function Max(a: nat, b: nat): nat { if a >= b then a else b }

  lemma {:induction false} EditDistanceSelf<T>(a: seq<T>)
    ensures EditDistance(a, a) == 0
    decreases |a|
  {
    if |a| > 0 {
      EditDistanceSelf(a[..|a| - 1]);
    }
  }

  lemma {:induction false} EditDistanceUpper<T>(a: seq<T>, b: seq<T>)
    ensures EditDistance(a, b) <= Max(|a|, |b|)
    decreases |a| + |b|
  {
    if |a| > 0 && |b| > 0 {
      EditDistanceUpper(a[..|a| - 1], b[..|b| - 1]);
    }
  }

  lemma {:induction false} EditDistanceLower<T>(a: seq<T>, b: seq<T>)
    ensures EditDistance(a, b) >= |a| - |b| && EditDistance(a, b) >= |b| - |a|
    decreases |a| + |b|
  {
    if |a| > 0 && |b| > 0 {
      EditDistanceLower(a[..|a| - 1], b);
      EditDistanceLower(a, b[..|b| - 1]);
      EditDistanceLower(a[..|a| - 1], b[..|b| - 1]);
    }
  }

  lemma {:induction false} EditDistanceSymmetric<T>(a: seq<T>, b: seq<T>)
    ensures EditDistance(a, b) == EditDistance(b, a)
    decreases |a| + |b|
  {
    if |a| > 0 && |b| > 0 {
      EditDistanceSymmetric(a[..|a| - 1], b);
      EditDistanceSymmetric(a, b[..|b| - 1]);
      EditDistanceSymmetric(a[..|a| - 1], b[..|b| - 1]);
    }
  }

  lemma {:induction false} EditDistanceZeroIff<T>(a: seq<T>, b: seq<T>)
    ensures EditDistance(a, b) == 0 <==> a == b
    decreases |a| + |b|
  {
    if a == b {
      EditDistanceSelf(a);
    } else if |a| > 0 && |b| > 0 {
      EditDistanceZeroIff(a[..|a| - 1], b[..|b| - 1]);
      assert a == a[..|a| - 1] + [a[|a| - 1]];
      assert b == b[..|b| - 1] + [b[|b| - 1]];
    }
  }

  /** A common last element costs nothing. */
  lemma EditDistanceSameLast<T>(a: seq<T>, b: seq<T>, a0: seq<T>, b0: seq<T>, x: T)
    requires a == a0 + [x] && b == b0 + [x]
    ensures EditDistance(a, b) <= EditDistance(a0, b0)
  {
    assert a[..|a| - 1] == a0 && b[..|b| - 1] == b0;
  }

  /** Deleting the last element of the first sequence costs one. */
  lemma EditDistanceDropLast<T>(a: seq<T>, b: seq<T>, a0: seq<T>, x: T)
    requires a == a0 + [x]
    ensures EditDistance(a, b) <= EditDistance(a0, b) + 1
  {
    assert a[..|a| - 1] == a0;
  }

  /** A common suffix costs nothing. */
  lemma {:induction false} EditDistanceCommonSuffix<T>(a: seq<T>, b: seq<T>, r: seq<T>)
    ensures EditDistance(a + r, b + r) <= EditDistance(a, b)
    decreases |r|
  {
    if |r| == 0 {
      assert a + r == a && b + r == b;
    } else {
      var r0 := r[..|r| - 1];
      var x := r[|r| - 1];
      assert a + r == (a + r0) + [x] && b + r == (b + r0) + [x];
      EditDistanceSameLast(a + r, b + r, a + r0, b + r0, x);
      EditDistanceCommonSuffix(a, b, r0);
    }
  }

  /** One deleted element is exactly one edit. */
  lemma OneDeletion<T>(p: seq<T>, x: T, q: seq<T>)
    ensures EditDistance(p + [x] + q, p + q) == 1
  {
    EditDistanceCommonSuffix(p + [x], p, q);
    EditDistanceDropLast(p + [x], p, p, x);
    EditDistanceSelf(p);
    EditDistanceLower(p + [x] + q, p + q);
  }

  /** Two deleted elements are two edits. */
  lemma TwoDeletions<T>(p: seq<T>, u: T, q: seq<T>, v: T, r: seq<T>)
    ensures EditDistance(p + [u] + q + [v] + r, p + q + r) <= 2
  {
    EditDistanceCommonSuffix(p + [u] + q + [v], p + q, r);
    EditDistanceDropLast(p + [u] + q + [v], p + q, p + [u] + q, v);
    EditDistanceCommonSuffix(p + [u], p, q);
    EditDistanceDropLast(p + [u], p, p, u);
    EditDistanceSelf(p);
  }

  /** Deleting the last element of the second sequence costs at most one edit. */
  lemma {:induction false} EditDistanceDeleteRight<T>(x: seq<T>, y: seq<T>)
    requires |y| > 0
    ensures EditDistance(x, y[..|y| - 1]) <= EditDistance(x, y) + 1
    decreases |x| + |y|
  {
    var y0 := y[..|y| - 1];
    if |x| == 0 {
    } else if |y0| == 0 {
      EditDistanceLower(x, y);
    } else {
      var x0 := x[..|x| - 1];
      EditDistanceDeleteRight(x0, y);
      assert EditDistance(x, y0) <= EditDistance(x0, y0) + 1;
    }
  }

  /** Deleting the last element of the first sequence costs at most one edit. */
  lemma EditDistanceDeleteLeft<T>(x: seq<T>, y: seq<T>)
    requires |x| > 0
    ensures EditDistance(x[..|x| - 1], y) <= EditDistance(x, y) + 1
  {
    EditDistanceDeleteRight(y, x);
    EditDistanceSymmetric(y, x);
    EditDistanceSymmetric(y, x[..|x| - 1]);
  }

  /** Equal last elements: the distance is that of the two shorter sequences. */
  lemma EditDistanceMatchedLast<T>(a: seq<T>, b: seq<T>)
    requires |a| > 0 && |b| > 0 && a[|a| - 1] == b[|b| - 1]
    ensures EditDistance(a, b) == EditDistance(a[..|a| - 1], b[..|b| - 1])
  {
    EditDistanceDeleteRight(a[..|a| - 1], b);
    EditDistanceDeleteLeft(a, b[..|b| - 1]);
  }

  /** The edit distance between the prefixes `a[..i]` and `b[..j]`. */
  ghost function PrefixDistance<T>(a: seq<T>, b: seq<T>, i: nat, j: nat): nat
    requires i <= |a| && j <= |b|
  {
    EditDistance(a[..i], b[..j])
  }

  lemma PrefixDistanceBorder<T>(a: seq<T>, b: seq<T>, i: nat, j: nat)
    requires i <= |a| && j <= |b| && (i == 0 || j == 0)
    ensures PrefixDistance(a, b, i, j) == i + j
  {
  }

  lemma PrefixDistanceStep<T>(a: seq<T>, b: seq<T>, i: nat, j: nat)
    requires 1 <= i <= |a| && 1 <= j <= |b|
    ensures PrefixDistance(a, b, i, j) ==
      Min3(PrefixDistance(a, b, i - 1, j) + 1,
           PrefixDistance(a, b, i, j - 1) + 1,
           PrefixDistance(a, b, i - 1, j - 1) + (if a[i - 1] == b[j - 1] then 0 else 1))
  {
    assert a[..i][..i - 1] == a[..i - 1];
    assert b[..j][..j - 1] == b[..j - 1];
    assert a[..i][i - 1] == a[i - 1] && b[..j][j - 1] == b[j - 1];
  }

  /**
   * The dynamic-programming computation of the edit distance: a
   * (|a|+1)x(|b|+1) matrix whose first row and column count up from 0 and
   * whose cell (i, j) is the cheapest of the three neighbouring moves.
   */
  method LevenshteinMatrix<T(==)>(a: seq<T>, b: seq<T>) returns (d: nat)
    ensures d == EditDistance(a, b)
  {
    var m := new nat[|a| + 1, |b| + 1];
    var i := 0;
    while i <= |a|
      invariant 0 <= i <= |a| + 1
      invariant forall r :: 0 <= r < i ==> m[r, 0] == r
    {
      m[i, 0] := i;
      i := i + 1;
    }
    var j := 0;
    while j <= |b|
      invariant 0 <= j <= |b| + 1
      invariant forall r :: 0 <= r <= |a| ==> m[r, 0] == r
      invariant forall c :: 0 <= c < j ==> m[0, c] == c
    {
      m[0, j] := j;
      j := j + 1;
    }
    forall c | 0 <= c <= |b| ensures m[0, c] == PrefixDistance(a, b, 0, c) {
      PrefixDistanceBorder(a, b, 0, c);
    }
    i := 1;
    while i <= |a|
      invariant 1 <= i <= |a| + 1
      invariant forall r :: 0 <= r <= |a| ==> m[r, 0] == r
      invariant forall r, c :: 0 <= r < i && 0 <= c <= |b| ==> m[r, c] == PrefixDistance(a, b, r, c)
    {
      PrefixDistanceBorder(a, b, i, 0);
      j := 1;
      while j <= |b|
        invariant 1 <= j <= |b| + 1
        invariant forall r :: 0 <= r <= |a| ==> m[r, 0] == r
        invariant forall r, c :: 0 <= r < i && 0 <= c <= |b| ==> m[r, c] == PrefixDistance(a, b, r, c)
        invariant forall c :: 0 <= c < j ==> m[i, c] == PrefixDistance(a, b, i, c)
      {
        var cost := if a[i - 1] == b[j - 1] then 0 else 1;
        m[i, j] := Min3(m[i - 1, j] + 1, m[i, j - 1] + 1, m[i - 1, j - 1] + cost);
        PrefixDistanceStep(a, b, i, j);
        j := j + 1;
      }
      i := i + 1;
    }
    d := m[|a|, |b|];
    assert a[..|a|] == a && b[..|b|] == b;
  }

  // ---------------------------------------------------------------------
  // Stable sort by a descending key (`sort_by(|a, b| b.key.cmp(&a.key))`)
  // ---------------------------------------------------------------------

  predicate SortedDesc<T>(s: seq<T>, key: T -> real)
  {
    forall i, j :: 0 <= i < j < |s| ==> key(s[i]) >= key(s[j])
  }

  /** Inserts `x` after every element whose key is at least `key(x)`. */
  function InsertDesc<T>(x: T, s: seq<T>, key: T -> real): (r: seq<T>)
    ensures multiset(r) == multiset(s) + multiset{x}
    ensures |r| == |s| + 1
  {
    if |s| == 0 then [x]
    else if key(s[0]) >= key(x) then
      assert s == [s[0]] + s[1..];
      [s[0]] + InsertDesc(x, s[1..], key)
    else [x] + s
  }

  lemma {:induction false} InsertDescSorted<T>(x: T, s: seq<T>, key: T -> real)
    requires SortedDesc(s, key)
    ensures SortedDesc(InsertDesc(x, s, key), key)
    decreases |s|
  {
    if |s| > 0 && key(s[0]) >= key(x) {
      var t := InsertDesc(x, s[1..], key);
      InsertDescSorted(x, s[1..], key);
      forall k | 0 <= k < |t| ensures key(s[0]) >= key(t[k]) {
        assert t[k] in multiset(t);
        if t[k] != x {
          assert t[k] in multiset(s[1..]);
          var q :| 0 <= q < |s[1..]| && s[1..][q] == t[k];
          assert s[q + 1] == t[k];
        }
      }
    }
  }

  lemma SplitLast<T>(s: seq<T>)
    requires |s| > 0
    ensures s[..|s| - 1] + [s[|s| - 1]] == s
  {
  }

  /** Stable insertion sort, descending by `key`. */
  function SortDesc<T>(s: seq<T>, key: T -> real): (r: seq<T>)
    ensures multiset(r) == multiset(s)
    ensures |r| == |s|
  {
    if |s| == 0 then []
    else
      assert s == s[..|s| - 1] + [s[|s| - 1]];
      InsertDesc(s[|s| - 1], SortDesc(s[..|s| - 1], key), key)
  }

  lemma {:induction false} SortDescSorted<T>(s: seq<T>, key: T -> real)
    ensures SortedDesc(SortDesc(s, key), key)
    decreases |s|
  {
    if |s| > 0 {
      SortDescSorted(s[..|s| - 1], key);
      InsertDescSorted(s[|s| - 1], SortDesc(s[..|s| - 1], key), key);
    }
  }

  lemma {:induction false} InsertDescAllGe<T>(x: T, s: seq<T>, key: T -> real)
    requires forall i :: 0 <= i < |s| ==> key(s[i]) >= key(x)
    ensures InsertDesc(x, s, key) == s + [x]
    decreases |s|
  {
    if |s| > 0 {
      InsertDescAllGe(x, s[1..], key);
      assert [s[0]] + (s[1..] + [x]) == s + [x];
    }
  }

  /** Stability in its simplest form: when every key equals `k`, sorting changes nothing. */
  lemma {:induction false} SortDescSameKeys<T>(s: seq<T>, key: T -> real, k: real)
    requires forall i :: 0 <= i < |s| ==> key(s[i]) == k
    ensures SortDesc(s, key) == s
    decreases |s|
  {
    if |s| > 0 {
      var p := s[..|s| - 1];
      var x := s[|s| - 1];
      SplitLast(s);
      assert forall i :: 0 <= i < |p| ==> p[i] == s[i];
      SortDescSameKeys(p, key, k);
      assert forall i :: 0 <= i < |p| ==> key(p[i]) >= key(x);
      InsertDescAllGe(x, p, key);
    }
  }

  // ---------------------------------------------------------------------
  // Lexicographic order on strings (`Ord for str`), sort and dedup
  // ---------------------------------------------------------------------

  /** `a <= b` in the order of `str::cmp`: code point by code point, a prefix first. */
  predicate LexLe(a: string, b: string)
    decreases |a|
  {
    |a| == 0 || (|b| > 0 && (a[0] < b[0] || (a[0] == b[0] && LexLe(a[1..], b[1..]))))
  }

  lemma {:induction false} LexReflexive(a: string)
    ensures LexLe(a, a)
    decreases |a|
  {
    if |a| > 0 {
      LexReflexive(a[1..]);
    }
  }

  lemma {:induction false} LexTotal(a: string, b: string)
    ensures LexLe(a, b) || LexLe(b, a)
    decreases |a|
  {
    if |a| > 0 && |b| > 0 && a[0] == b[0] {
      LexTotal(a[1..], b[1..]);
    }
  }

  lemma {:induction false} LexAntisymmetric(a: string, b: string)
    requires LexLe(a, b) && LexLe(b, a)
    ensures a == b
    decreases |a|
  {
    if |a| > 0 {
      LexAntisymmetric(a[1..], b[1..]);
      assert a == [a[0]] + a[1..] && b == [b[0]] + b[1..];
    }
  }

  lemma {:induction false} LexTransitive(a: string, b: string, c: string)
    requires LexLe(a, b) && LexLe(b, c)
    ensures LexLe(a, c)
    decreases |a|
  {
    if |a| > 0 && a[0] == b[0] && b[0] == c[0] {
      LexTransitive(a[1..], b[1..], c[1..]);
    }
  }

  predicate SortedLex(s: seq<string>)
  {
    forall i, j :: 0 <= i < j < |s| ==> LexLe(s[i], s[j])
  }

  /** Sorted with no repeated element. */
  predicate StrictlySortedLex(s: seq<string>)
  {
    forall i, j :: 0 <= i < j < |s| ==> LexLe(s[i], s[j]) && s[i] != s[j]
  }

  /** Inserts `x` before the first element it does not exceed. */
  function InsertLex(x: string, s: seq<string>): (r: seq<string>)
    ensures multiset(r) == multiset(s) + multiset{x}
  {
    if |s| == 0 then [x]
    else if LexLe(x, s[0]) then [x] + s
    else
      assert s == [s[0]] + s[1..];
      [s[0]] + InsertLex(x, s[1..])
  }

  lemma {:induction false} InsertLexSorted(x: string, s: seq<string>)
    requires SortedLex(s)
    ensures SortedLex(InsertLex(x, s))
    decreases |s|
  {
    if |s| > 0 {
      if LexLe(x, s[0]) {
        forall j | 0 < j < |s| ensures LexLe(x, s[j]) {
          LexTransitive(x, s[0], s[j]);
        }
      } else {
        LexTotal(x, s[0]);
        var t := InsertLex(x, s[1..]);
        InsertLexSorted(x, s[1..]);
        forall k | 0 <= k < |t| ensures LexLe(s[0], t[k]) {
          assert t[k] in multiset(t);
          if t[k] != x {
            assert t[k] in multiset(s[1..]);
            var q :| 0 <= q < |s[1..]| && s[1..][q] == t[k];
            assert s[q + 1] == t[k];
          }
        }
      }
    }
  }

  /** `slice::sort` on strings. */
  function SortLex(s: seq<string>): (r: seq<string>)
    ensures multiset(r) == multiset(s)
  {
    if |s| == 0 then []
    else
      assert s == s[..|s| - 1] + [s[|s| - 1]];
      InsertLex(s[|s| - 1], SortLex(s[..|s| - 1]))
  }

  lemma {:induction false} SortLexSorted(s: seq<string>)
    ensures SortedLex(SortLex(s))
    decreases |s|
  {
    if |s| > 0 {
      SortLexSorted(s[..|s| - 1]);
      InsertLexSorted(s[|s| - 1], SortLex(s[..|s| - 1]));
    }
  }

  /** `Vec::dedup`: drops every element equal to the one before it. */
  function Dedup<T(==, !new)>(s: seq<T>): (r: seq<T>)
    ensures |r| <= |s|
    ensures |s| > 0 ==> |r| > 0 && r[0] == s[0]
    ensures forall x :: x in r <==> x in s
  {
    if |s| <= 1 then s
    else if s[0] == s[1] then
      assert forall x :: x in s <==> x in s[1..] by {
        forall x | x in s ensures x in s[1..] {
          var k :| 0 <= k < |s| && s[k] == x;
          if k == 0 { assert s[1..][0] == x; } else { assert s[1..][k - 1] == x; }
        }
      }
      Dedup(s[1..])
    else
      assert s == [s[0]] + s[1..];
      [s[0]] + Dedup(s[1..])
  }

  lemma {:induction false} DedupStrict(s: seq<string>)
    requires SortedLex(s)
    ensures StrictlySortedLex(Dedup(s))
    decreases |s|
  {
    if |s| > 1 {
      DedupStrict(s[1..]);
      if s[0] != s[1] {
        var t := Dedup(s[1..]);
        forall k | 0 <= k < |t| ensures LexLe(s[0], t[k]) && s[0] != t[k] {
          assert t[k] in s[1..];
          var q :| 0 <= q < |s[1..]| && s[1..][q] == t[k];
          assert s[q + 1] == t[k];
          if q == 0 {
            assert t[k] == s[1];
          } else {
            assert LexLe(s[1], s[q + 1]);
            if s[0] == t[k] {
              assert LexLe(s[1], s[0]);
              LexAntisymmetric(s[0], s[1]);
            }
          }
        }
      }
    }
  }

  /** Two strictly sorted sequences with the same elements are equal. */
  lemma {:induction false} StrictlySortedUnique(a: seq<string>, b: seq<string>)
    requires StrictlySortedLex(a) && StrictlySortedLex(b)
    requires forall x :: x in a <==> x in b
    ensures a == b
    decreases |a|
  {
    if |b| > 0 {
      assert b[0] in b;
    }
    if |a| > 0 {
      assert a[0] in b && b[0] in a;
      var i :| 0 <= i < |b| && b[i] == a[0];
      var j :| 0 <= j < |a| && a[j] == b[0];
      LexReflexive(a[0]);
      LexReflexive(b[0]);
      assert LexLe(a[0], b[0]) by { if j > 0 { assert LexLe(a[0], a[j]); } }
      assert LexLe(b[0], a[0]) by { if i > 0 { assert LexLe(b[0], b[i]); } }
      LexAntisymmetric(a[0], b[0]);
      forall x ensures x in a[1..] <==> x in b[1..] {
        if x in a[1..] {
          var k :| 0 <= k < |a[1..]| && a[1..][k] == x;
          assert a[k + 1] != a[0];
          assert x in b;
          var m :| 0 <= m < |b| && b[m] == x;
          assert m != 0;
          assert b[1..][m - 1] == x;
        }
        if x in b[1..] {
          var k :| 0 <= k < |b[1..]| && b[1..][k] == x;
          assert b[k + 1] != b[0];
          assert x in a;
          var m :| 0 <= m < |a| && a[m] == x;
          assert m != 0;
          assert a[1..][m - 1] == x;
        }
      }
      StrictlySortedUnique(a[1..], b[1..]);
      assert a == [a[0]] + a[1..] && b == [b[0]] + b[1..];
    }
  }

  /** Stability: a sequence already in order is left as it is. */
  lemma {:induction false} SortDescOfSorted<T>(s: seq<T>, key: T -> real)
    requires SortedDesc(s, key)
    ensures SortDesc(s, key) == s
    decreases |s|
  {
    if |s| > 0 {
      var p := s[..|s| - 1];
      SplitLast(s);
      assert forall i :: 0 <= i < |p| ==> p[i] == s[i];
      SortDescOfSorted(p, key);
      InsertDescAllGe(s[|s| - 1], p, key);
    }
  }

  lemma InMultisetMembers<T>(a: seq<T>, b: seq<T>, x: T)
    requires multiset(a) == multiset(b)
    ensures x in a <==> x in b
  {
    assert x in a <==> x in multiset(a);
    assert x in b <==> x in multiset(b);
  }
}
