/**
 * The regular expressions the voice commands use, as a small structured
 * language with an exact leftmost-first search.
 *
 * Every expression in the command set has the shape
 *   (?:alt1|alt2|...)(?:opt1)?(?:opt2)?...(group)suffix
 * where each alternative already ends with its trailing literal text, the
 * optional literals are tried greedily (take first, then skip) and the
 * capture group is one of a few character classes or a list of choices.
 * Trailing optional groups such as `(?:%|percent)?` or `(?: model)?` never
 * change whether or what the expression captures, so they are not written.
 */
module Regexes {
  import opened Common

  /** One alternative of a capture-group choice. */
  datatype Piece = AnyTwoLower | Lit(text: string)

  /** The capture group. */
  datatype Group =
    | Digits        // (\d+)
    | DigitsDots    // ([\d.]+)
    | Word          // (\w+)
    | RestOfLine    // (.+)
    | Decimal       // ([0-9]*\.?[0-9]+)
    | Choice(pieces: seq<Piece>)  // (a|b|...)

  datatype Rx = Rx(alts: seq<string>, opts: seq<string>, group: Group, suffix: string)

  /** A regex without alternation or optional parts: `prefix(group)suffix`. */
  function Simple(prefix: string, group: Group, suffix: string): Rx
  {
    Rx([prefix], [], group, suffix)
  }

  predicate InClass(g: Group, c: char)
  {
    match g
    case Digits => IsDigit(c)
    case DigitsDots => IsDigit(c) || c == '.'
    case Word => IsWordChar(c)
    case RestOfLine => c != '\n'
    case Decimal => IsDigit(c)
    case Choice(_) => false
  }

  /** Length of the longest run of characters of the class starting at `q`. */
  function RunLength(g: Group, t: string, q: nat): (n: nat)
    requires q <= |t|
    ensures q + n <= |t|
    ensures forall i :: q <= i < q + n ==> InClass(g, t[i])
    ensures q + n < |t| ==> !InClass(g, t[q + n])
    decreases |t| - q
  {
    if q < |t| && InClass(g, t[q]) then 1 + RunLength(g, t, q + 1) else 0
  }

  predicate PieceAt(pc: Piece, t: string, q: nat)
  {
    match pc
    case AnyTwoLower => q + 2 <= |t| && IsLower(t[q]) && IsLower(t[q + 1])
    case Lit(s) => OccursAt(t, s, q)
  }

  function PieceLength(pc: Piece): nat
  {
    match pc
    case AnyTwoLower => 2
    case Lit(s) => |s|
  }

  /** The first choice that matches at `q`, as the end position of the group. */
  function ChoiceAt(ps: seq<Piece>, t: string, q: nat): (r: Option<nat>)
    ensures r.Some? ==> exists k :: 0 <= k < |ps| && PieceAt(ps[k], t, q) && r.value == q + PieceLength(ps[k])
                                    && forall j :: 0 <= j < k ==> !PieceAt(ps[j], t, q)
    ensures r.None? <==> forall k :: 0 <= k < |ps| ==> !PieceAt(ps[k], t, q)
  {
    if |ps| == 0 then None
    else if PieceAt(ps[0], t, q) then Some(q + PieceLength(ps[0]))
    else
      var r := ChoiceAt(ps[1..], t, q);
      assert forall k :: 1 <= k < |ps| ==> ps[k] == ps[1..][k - 1];
      if r.Some? then
        var k' :| 0 <= k' < |ps| - 1 && PieceAt(ps[1..][k'], t, q) && r.value == q + PieceLength(ps[1..][k'])
                  && forall j :: 0 <= j < k' ==> !PieceAt(ps[1..][j], t, q);
        assert PieceAt(ps[k' + 1], t, q) && forall j :: 0 <= j < k' + 1 ==> !PieceAt(ps[j], t, q);
        r
      else r
  }

  /**
   * The end of the group when it matches at `q` (greedy, as the regex
   * engine would leave it when nothing but the suffix follows).
   */
  function GroupEnd(g: Group, t: string, q: nat): (r: Option<nat>)
    requires q <= |t|
    ensures r.Some? ==> q < r.value <= |t| || (g.Choice? && q <= r.value)
  {
    match g
    case Choice(ps) => ChoiceAt(ps, t, q)
    case Decimal =>
      var d := RunLength(Digits, t, q);
      var after := q + d;
      if after < |t| && t[after] == '.' && RunLength(Digits, t, after + 1) > 0 then
        Some(after + 1 + RunLength(Digits, t, after + 1))
      else if d > 0 then Some(after)
      else None
    case _ =>
      var n := RunLength(g, t, q);
      if n > 0 then Some(q + n) else None
  }

  /** The group followed by the suffix, starting at `q`: the captured span. */
  function GroupAndSuffix(rx: Rx, t: string, q: nat): (r: Option<(nat, nat)>)
    requires q <= |t|
    ensures r.Some? ==> q == r.value.0 <= r.value.1 <= |t|
  {
    match GroupEnd(rx.group, t, q)
    case None => None
    case Some(e) => if OccursAt(t, rx.suffix, e) then Some((q, e)) else None
  }

  /** The optional literals `opts`, each taken if that leads to a match and skipped otherwise. */
  function OptsAt(rx: Rx, opts: seq<string>, t: string, q: nat): (r: Option<(nat, nat)>)
    requires q <= |t|
    ensures r.Some? ==> q <= r.value.0 <= r.value.1 <= |t|
    decreases |opts|
  {
    if |opts| == 0 then GroupAndSuffix(rx, t, q)
    else
      var taken := if OccursAt(t, opts[0], q) then OptsAt(rx, opts[1..], t, q + |opts[0]|) else None;
      if taken.Some? then taken else OptsAt(rx, opts[1..], t, q)
  }

  /** The alternatives from index `k` on, tried in order at position `p`. */
  function AltsAt(rx: Rx, k: nat, t: string, p: nat): (r: Option<(nat, nat)>)
    requires p <= |t|
    ensures r.Some? ==> p <= r.value.0 <= r.value.1 <= |t|
    decreases |rx.alts| - k
  {
    if k >= |rx.alts| then None
    else
      var a := rx.alts[k];
      var r := if OccursAt(t, a, p) then OptsAt(rx, rx.opts, t, p + |a|) else None;
      if r.Some? then r else AltsAt(rx, k + 1, t, p)
  }

  function MatchAt(rx: Rx, t: string, p: nat): (r: Option<(nat, nat)>)
    requires p <= |t|
    ensures r.Some? ==> p <= r.value.0 <= r.value.1 <= |t|
  {
    AltsAt(rx, 0, t, p)
  }

  /** The leftmost start position at or after `p` where the expression matches. */
  function SearchFrom(rx: Rx, t: string, p: nat): (r: Option<(nat, (nat, nat))>)
    requires p <= |t|
    ensures r.Some? ==> p <= r.value.0 <= |t| && MatchAt(rx, t, r.value.0) == Some(r.value.1)
    ensures r.Some? ==> forall j :: p <= j < r.value.0 ==> MatchAt(rx, t, j).None?
    ensures r.None? ==> forall j :: p <= j <= |t| ==> MatchAt(rx, t, j).None?
    decreases |t| - p
  {
    match MatchAt(rx, t, p)
    case Some(span) => Some((p, span))
    case None => if p == |t| then None else SearchFrom(rx, t, p + 1)
  }

  /** `Regex::captures(t).get(1)`: the text of the group in the leftmost match. */
  function Capture(rx: Rx, t: string): (r: Option<string>)
  {
    match SearchFrom(rx, t, 0)
    case None => None
    case Some((p, span)) => Some(t[span.0..span.1])
  }

  /** `Regex::is_match(t)`. */
  predicate IsMatch(rx: Rx, t: string)
  {
    SearchFrom(rx, t, 0).Some?
  }

  lemma CaptureIffMatch(rx: Rx, t: string)
    ensures Capture(rx, t).Some? <==> IsMatch(rx, t)
  {
  }

  /** Leftmost: when the expression matches at `p` and at no earlier position, the search reports `p`. */
  lemma SearchLeftmost(rx: Rx, t: string, p: nat)
    requires p <= |t|
    requires MatchAt(rx, t, p).Some?
    requires forall j :: 0 <= j < p ==> MatchAt(rx, t, j).None?
    ensures SearchFrom(rx, t, 0) == Some((p, MatchAt(rx, t, p).value))
  {
    var r := SearchFrom(rx, t, 0);
    assert r.Some?;
  }

  // ---------------------------------------------------------------------
  // What a captured group looks like
  // ---------------------------------------------------------------------

  predicate GroupShape(g: Group, c: string)
  {
    match g
    case Choice(ps) =>
      exists k :: 0 <= k < |ps| && PieceAt(ps[k], c, 0) && |c| == PieceLength(ps[k])
                  && forall j :: 0 <= j < k ==> !PieceAt(ps[j], c, 0)
    case Decimal => |c| > 0 && DigitsAndDots(c) && IsDigit(c[|c| - 1]) && CountChar(c, '.') <= 1
    case _ => |c| > 0 && forall i :: 0 <= i < |c| ==> InClass(g, c[i])
  }

  lemma DigitsSlice(t: string, a: nat, b: nat)
    requires a <= b <= |t|
    requires forall i :: a <= i < b ==> IsDigit(t[i])
    ensures AllDigits(t[a..b])
  {
    assert forall i :: 0 <= i < b - a ==> t[a..b][i] == t[a + i];
  }

  lemma AllDigitsNoDot(s: string)
    requires AllDigits(s)
    ensures CountChar(s, '.') == 0
  {
    CountCharNone(s, '.');
  }

  lemma DecimalShape(u: string, v: string)
    requires AllDigits(u) && AllDigits(v) && |v| > 0
    ensures GroupShape(Decimal, u + "." + v)
  {
    var c := u + "." + v;
    AllDigitsNoDot(u);
    AllDigitsNoDot(v);
    CountCharAppend(u, ".", '.');
    CountCharAppend(u + ".", v, '.');
    assert c[|c| - 1] == v[|v| - 1];
    assert forall i :: 0 <= i < |c| ==> (i < |u| ==> c[i] == u[i]) && (i > |u| ==> c[i] == v[i - |u| - 1]);
  }

  /** A piece that matches at the start of `t[q..e]` matches at `q` in `t`. */
  lemma PieceInPrefix(pc: Piece, t: string, q: nat, e: nat)
    requires q <= e <= |t|
    ensures PieceAt(pc, t[q..e], 0) ==> PieceAt(pc, t, q)
  {
    match pc {
      case AnyTwoLower =>
      case Lit(s) =>
        if OccursAt(t[q..e], s, 0) {
          assert t[q..e][0..|s|] == t[q..q + |s|];
        }
    }
  }

  lemma GroupEndShape(g: Group, t: string, q: nat)
    requires q <= |t|
    requires GroupEnd(g, t, q).Some?
    ensures var e := GroupEnd(g, t, q).value; q <= e <= |t| && GroupShape(g, t[q..e])
  {
    var e := GroupEnd(g, t, q).value;
    var c := t[q..e];
    match g {
      case Choice(ps) =>
        var k :| 0 <= k < |ps| && PieceAt(ps[k], t, q) && e == q + PieceLength(ps[k])
                 && forall j :: 0 <= j < k ==> !PieceAt(ps[j], t, q);
        match ps[k] {
          case AnyTwoLower =>
          case Lit(s) => assert c[0..|s|] == s;
        }
        forall j | 0 <= j < k ensures !PieceAt(ps[j], c, 0) {
          PieceInPrefix(ps[j], t, q, e);
        }
      case Decimal =>
        var d := RunLength(Digits, t, q);
        var after := q + d;
        if after < |t| && t[after] == '.' && RunLength(Digits, t, after + 1) > 0 {
          DigitsSlice(t, q, after);
          DigitsSlice(t, after + 1, e);
          assert c == t[q..after] + "." + t[after + 1..e];
          DecimalShape(t[q..after], t[after + 1..e]);
        } else {
          DigitsSlice(t, q, e);
          AllDigitsNoDot(c);
        }
      case _ =>
    }
  }

  lemma {:induction false} OptsAtShape(rx: Rx, opts: seq<string>, t: string, q: nat)
    requires q <= |t|
    requires OptsAt(rx, opts, t, q).Some?
    ensures var s := OptsAt(rx, opts, t, q).value; s.0 <= s.1 <= |t| && GroupShape(rx.group, t[s.0..s.1])
    decreases |opts|
  {
    if |opts| == 0 {
      GroupEndShape(rx.group, t, q);
    } else {
      var taken := if OccursAt(t, opts[0], q) then OptsAt(rx, opts[1..], t, q + |opts[0]|) else None;
      if taken.Some? {
        OptsAtShape(rx, opts[1..], t, q + |opts[0]|);
      } else {
        OptsAtShape(rx, opts[1..], t, q);
      }
    }
  }

  lemma {:induction false} AltsAtShape(rx: Rx, k: nat, t: string, p: nat)
    requires p <= |t|
    requires AltsAt(rx, k, t, p).Some?
    ensures var s := AltsAt(rx, k, t, p).value; s.0 <= s.1 <= |t| && GroupShape(rx.group, t[s.0..s.1])
    decreases |rx.alts| - k
  {
    var a := rx.alts[k];
    var r := if OccursAt(t, a, p) then OptsAt(rx, rx.opts, t, p + |a|) else None;
    if r.Some? {
      OptsAtShape(rx, rx.opts, t, p + |a|);
    } else {
      AltsAtShape(rx, k + 1, t, p);
    }
  }

  /** Whatever an expression captures has the shape of its group. */
  lemma CaptureShape(rx: Rx, t: string)
    requires Capture(rx, t).Some?
    ensures GroupShape(rx.group, Capture(rx, t).value)
  {
    var r := SearchFrom(rx, t, 0);
    AltsAtShape(rx, 0, t, r.value.0);
  }

  /** A capture is a piece of the text it was taken from. */
  lemma CaptureInText(rx: Rx, t: string)
    requires Capture(rx, t).Some?
    ensures Contains(t, Capture(rx, t).value)
  {
    var r := SearchFrom(rx, t, 0).value;
    ContainsWitness(t, t[r.1.0..r.1.1], r.1.0);
  }

  /** An alternation of literals captures exactly one of the literals. */
  lemma LiteralChoiceCapture(rx: Rx, t: string)
    requires rx.group.Choice? && forall i :: 0 <= i < |rx.group.pieces| ==> rx.group.pieces[i].Lit?
    requires Capture(rx, t).Some?
    ensures exists i :: 0 <= i < |rx.group.pieces| && Capture(rx, t).value == rx.group.pieces[i].text
  {
    var c := Capture(rx, t).value;
    CaptureShape(rx, t);
    var ps := rx.group.pieces;
    var k :| 0 <= k < |ps| && PieceAt(ps[k], c, 0) && |c| == PieceLength(ps[k]);
    assert c == c[0..|ps[k].text|];
  }

  // ---------------------------------------------------------------------
  // Tools for working out a capture on a concrete text
  // ---------------------------------------------------------------------

  lemma {:induction false} AltsAbsent(rx: Rx, k: nat, t: string, p: nat)
    requires p <= |t|
    requires forall i :: k <= i < |rx.alts| ==> !OccursAt(t, rx.alts[i], p)
    ensures AltsAt(rx, k, t, p).None?
    decreases |rx.alts| - k
  {
    if k < |rx.alts| {
      AltsAbsent(rx, k + 1, t, p);
    }
  }

  /**
   * When no alternative occurs before `p` and the expression matches at `p`,
   * the capture is the group's span at `p`.
   */
  lemma CaptureAt(rx: Rx, t: string, p: nat)
    requires p <= |t|
    requires forall j, i :: 0 <= j < p && 0 <= i < |rx.alts| ==> !OccursAt(t, rx.alts[i], j)
    requires MatchAt(rx, t, p).Some?
    ensures var s := MatchAt(rx, t, p).value; Capture(rx, t) == Some(t[s.0..s.1])
  {
    forall j | 0 <= j < p ensures MatchAt(rx, t, j).None? {
      AltsAbsent(rx, 0, t, j);
    }
    SearchLeftmost(rx, t, p);
  }

  /** No alternative occurs anywhere, so nothing is captured. */
  lemma CaptureNone(rx: Rx, t: string)
    requires forall j, i :: 0 <= j <= |t| && 0 <= i < |rx.alts| ==> !OccursAt(t, rx.alts[i], j)
    ensures Capture(rx, t).None?
  {
    forall j | 0 <= j <= |t| ensures MatchAt(rx, t, j).None? {
      AltsAbsent(rx, 0, t, j);
    }
  }

  /** The capture of a one-alternative expression without optional parts or suffix. */
  lemma CaptureSimple(rx: Rx, t: string, p: nat, e: nat)
    requires |rx.alts| == 1 && rx.opts == [] && rx.suffix == ""
    requires p + |rx.alts[0]| <= |t|
    requires forall j :: 0 <= j < p ==> !OccursAt(t, rx.alts[0], j)
    requires OccursAt(t, rx.alts[0], p)
    requires GroupEnd(rx.group, t, p + |rx.alts[0]|) == Some(e)
    ensures e <= |t| && Capture(rx, t) == Some(t[p + |rx.alts[0]|..e])
  {
    assert OccursAt(t, "", e);
    assert MatchAt(rx, t, p) == Some((p + |rx.alts[0]|, e));
    CaptureAt(rx, t, p);
  }
}
