/**
 * The fragment of JavaScript regular expressions used by the PLACE grammar:
 * an anchored concatenation of literal words, `\s*`, `\d+`, `[A-Z]+` and the
 * optional quote `["']?`.
 *
 * A regular expression of this fragment matches a string when the string can
 * be cut into consecutive pieces, one per segment, each fitting its segment
 * (`Matches`). `Match` is a matcher without backtracking: every repeated
 * segment takes the longest run it can. It is sound for every pattern, and
 * for patterns where no repeated segment can swallow the first character of
 * what follows it (`Deterministic`) it is complete and the cut is unique.
 */
module Pattern {
  import opened Text
  import opened Wrappers

  /** `\s`, `\d`, `[A-Z]` and `["']`. */
  datatype CharClass = Spaces | Digits | Letters | Quotes

  predicate InClass(c: char, k: CharClass) {
    match k
    case Spaces => IsSpace(c)
    case Digits => IsDigit(c)
    case Letters => IsUpperLetter(c)
    case Quotes => c == '"' || c == '\''
  }

  /** No character belongs to two of the classes. */
  lemma ClassesDisjoint(c: char, a: CharClass, b: CharClass)
    requires InClass(c, a) && InClass(c, b)
    ensures a == b
  {
  }

  predicate AllIn(w: string, k: CharClass) {
    forall i :: 0 <= i < |w| ==> InClass(w[i], k)
  }

  /** A literal word, `k*`, `k+` or `k?`. */
  datatype Segment = Word(text: string) | Star(cls: CharClass) | Plus(cls: CharClass) | Opt(cls: CharClass)

  /** A pattern is a sequence of segments, matched from the start of the string to its end. */
  type Pat = seq<Segment>

  predicate FitsSegment(g: Segment, w: string) {
    match g
    case Word(text) => w == text
    case Star(k) => AllIn(w, k)
    case Plus(k) => |w| > 0 && AllIn(w, k)
    case Opt(k) => |w| <= 1 && AllIn(w, k)
  }

  /** `pieces` has one piece per segment of `p`, each fitting its segment. */
  predicate Fits(p: Pat, pieces: seq<string>) {
    |pieces| == |p| && forall i :: 0 <= i < |p| ==> FitsSegment(p[i], pieces[i])
  }

  function Concat(pieces: seq<string>): string {
    if pieces == [] then [] else pieces[0] + Concat(pieces[1..])
  }

  /** What the regular expression means: some cut of `s` fits the pattern. */
  ghost predicate Matches(p: Pat, s: string) {
    exists pieces :: Fits(p, pieces) && Concat(pieces) == s
  }

  // ------------------------------------------------------------ matching

  /** The length of the longest prefix of `s` inside class `k`. */
  function Span(s: string, k: CharClass): (n: nat)
    ensures n <= |s| && forall i :: 0 <= i < n ==> InClass(s[i], k)
    ensures n < |s| ==> !InClass(s[n], k)
  {
    if s != [] && InClass(s[0], k) then 1 + Span(s[1..], k) else 0
  }

  /** How many characters segment `g` consumes at the start of `s`, if it can. */
  function Take(g: Segment, s: string): (r: Option<nat>)
    ensures r.Some? ==> r.value <= |s| && FitsSegment(g, s[..r.value])
  {
    match g
    case Word(text) => if |text| <= |s| && s[..|text|] == text then Some(|text|) else None
    case Star(k) => Some(Span(s, k))
    case Plus(k) => var n := Span(s, k); if n > 0 then Some(n) else None
    case Opt(k) => if s != [] && InClass(s[0], k) then Some(1) else Some(0)
  }

  /** The greedy matcher: the pieces it returns fit the pattern and make up `s`. */
  function Match(p: Pat, s: string): (r: Option<seq<string>>)
    ensures r.Some? ==> Fits(p, r.value) && Concat(r.value) == s
  {
    if p == [] then (if s == [] then Some([]) else None)
    else
      match Take(p[0], s)
      case None => None
      case Some(n) =>
        match Match(p[1..], s[n..])
        case None => None
        case Some(rest) =>
          var pieces := [s[..n]] + rest;
          assert pieces[1..] == rest;
          assert s == s[..n] + s[n..];
          Some(pieces)
  }

  // ------------------------------------------------------- determinism

  /** Character `c` can begin a non-empty string that fits `p`. */
  predicate CanStart(p: Pat, c: char) {
    if p == [] then false
    else match p[0]
      case Word(text) => if text == [] then CanStart(p[1..], c) else c == text[0]
      case Star(k) => InClass(c, k) || CanStart(p[1..], c)
      case Opt(k) => InClass(c, k) || CanStart(p[1..], c)
      case Plus(k) => InClass(c, k)
  }

  /** No character of class `k` can begin a string that fits `p`; decided by the segments alone. */
  predicate Excludes(k: CharClass, p: Pat) {
    if p == [] then true
    else match p[0]
      case Word(text) => if text == [] then Excludes(k, p[1..]) else !InClass(text[0], k)
      case Star(k2) => k2 != k && Excludes(k, p[1..])
      case Opt(k2) => k2 != k && Excludes(k, p[1..])
      case Plus(k2) => k2 != k
  }

  /** Every repeated or optional segment is followed by something it cannot swallow. */
  predicate Deterministic(p: Pat) {
    forall i :: 0 <= i < |p| && !p[i].Word? ==> Excludes(p[i].cls, p[i + 1..])
  }

  /** `Excludes(k, p[j..])`, reading the segments by index. */
  predicate ExcludesFrom(k: CharClass, p: Pat, j: nat)
    decreases |p| - j
  {
    if j >= |p| then true
    else match p[j]
      case Word(text) => if text == [] then ExcludesFrom(k, p, j + 1) else !InClass(text[0], k)
      case Star(k2) => k2 != k && ExcludesFrom(k, p, j + 1)
      case Opt(k2) => k2 != k && ExcludesFrom(k, p, j + 1)
      case Plus(k2) => k2 != k
  }

  lemma {:induction false} ExcludesFromSound(k: CharClass, p: Pat, j: nat)
    requires j <= |p| && ExcludesFrom(k, p, j)
    ensures Excludes(k, p[j..])
    decreases |p| - j
  {
    if j < |p| {
      assert p[j..][0] == p[j] && p[j..][1..] == p[j + 1..];
      if (p[j].Word? && p[j].text == []) || p[j].Star? || p[j].Opt? {
        ExcludesFromSound(k, p, j + 1);
      }
    }
  }

  /** `Deterministic` for the segments from index `i` on, checked one segment at a time. */
  predicate DeterministicFrom(p: Pat, i: nat)
    decreases |p| - i
  {
    i >= |p| || ((p[i].Word? || ExcludesFrom(p[i].cls, p, i + 1)) && DeterministicFrom(p, i + 1))
  }

  lemma {:induction false} DeterministicFromSound(p: Pat, i: nat)
    requires DeterministicFrom(p, i)
    ensures forall j :: i <= j < |p| && !p[j].Word? ==> Excludes(p[j].cls, p[j + 1..])
    decreases |p| - i
  {
    if i < |p| {
      if !p[i].Word? {
        ExcludesFromSound(p[i].cls, p, i + 1);
      }
      DeterministicFromSound(p, i + 1);
    }
  }

  lemma DeterministicTail(p: Pat)
    requires Deterministic(p) && p != []
    ensures Deterministic(p[1..])
  {
    forall i | 0 <= i < |p| - 1 && !p[1..][i].Word?
      ensures Excludes(p[1..][i].cls, p[1..][i + 1..])
    {
      assert p[1..][i + 1..] == p[i + 2..];
    }
  }

  lemma {:induction false} ExcludesSound(k: CharClass, p: Pat, c: char)
    requires Excludes(k, p) && CanStart(p, c)
    ensures !InClass(c, k)
  {
    if p != [] && InClass(c, k) {
      match p[0]
      case Word(text) => if text == [] { ExcludesSound(k, p[1..], c); }
      case Star(k2) => if InClass(c, k2) { ClassesDisjoint(c, k, k2); } else { ExcludesSound(k, p[1..], c); }
      case Opt(k2) => if InClass(c, k2) { ClassesDisjoint(c, k, k2); } else { ExcludesSound(k, p[1..], c); }
      case Plus(k2) => ClassesDisjoint(c, k, k2);
    }
  }

  /** `Fits` for the segments from index `i` on, checked one segment at a time. */
  predicate FitsFrom(p: Pat, pieces: seq<string>, i: nat)
    decreases |p| - i
  {
    i >= |p| || (i < |pieces| && FitsSegment(p[i], pieces[i]) && FitsFrom(p, pieces, i + 1))
  }

  lemma {:induction false} FitsFromSound(p: Pat, pieces: seq<string>, i: nat)
    requires FitsFrom(p, pieces, i)
    ensures i < |p| ==> |p| <= |pieces|
    ensures forall j :: i <= j < |p| ==> FitsSegment(p[j], pieces[j])
    decreases |p| - i
  {
    if i < |p| {
      FitsFromSound(p, pieces, i + 1);
    }
  }

  /** The pieces after the first fit the rest of the pattern. */
  lemma FitsTail(p: Pat, pieces: seq<string>)
    requires Fits(p, pieces) && p != []
    ensures FitsSegment(p[0], pieces[0]) && Fits(p[1..], pieces[1..])
  {
    assert forall i :: 0 <= i < |p| - 1 ==> p[1..][i] == p[i + 1] && pieces[1..][i] == pieces[i + 1];
  }

  /** The first character of any non-empty string fitting `p` is one `p` can start with. */
  lemma {:induction false} FirstCharCanStart(p: Pat, pieces: seq<string>)
    requires Fits(p, pieces) && Concat(pieces) != []
    ensures CanStart(p, Concat(pieces)[0])
  {
    FitsTail(p, pieces);
    var s := Concat(pieces);
    if pieces[0] == [] {
      assert s == Concat(pieces[1..]);
      FirstCharCanStart(p[1..], pieces[1..]);
    } else {
      assert s[0] == pieces[0][0];
    }
  }

  /** A run of class `k` followed by something outside `k` is exactly what `Span` measures. */
  lemma SpanExact(w: string, rest: string, k: CharClass)
    requires AllIn(w, k)
    requires rest == [] || !InClass(rest[0], k)
    ensures Span(w + rest, k) == |w|
  {
    var s := w + rest;
    assert forall i :: 0 <= i < |w| ==> InClass(s[i], k);
    assert rest != [] ==> s[|w|] == rest[0];
  }

  /**
   * Completeness: for a deterministic pattern the greedy matcher finds every
   * cut that fits, so the cut of a matching string is unique.
   */
  lemma {:induction false} MatchComplete(p: Pat, pieces: seq<string>)
    requires Deterministic(p) && Fits(p, pieces)
    ensures Match(p, Concat(pieces)) == Some(pieces)
  {
    if p != [] {
      FitsTail(p, pieces);
      DeterministicTail(p);
      var g, t := p[0], p[1..];
      var s := Concat(pieces);
      var w, rest := pieces[0], Concat(pieces[1..]);
      assert s == w + rest;
      if !g.Word? && rest != [] {
        assert Excludes(g.cls, t);
        FirstCharCanStart(t, pieces[1..]);
        ExcludesSound(g.cls, t, rest[0]);
      }
      match g {
        case Word(text) =>
          assert s[..|text|] == text;
        case Star(k) =>
          SpanExact(w, rest, k);
        case Plus(k) =>
          SpanExact(w, rest, k);
        case Opt(k) =>
          if w == [] {
            assert s == rest;
          } else {
            assert s[0] == w[0];
          }
      }
      assert Take(g, s) == Some(|w|);
      assert s[..|w|] == w && s[|w|..] == rest;
      MatchComplete(t, pieces[1..]);
      assert [w] + pieces[1..] == pieces;
    }
  }

  /** For a deterministic pattern the greedy matcher succeeds exactly on the strings the pattern matches. */
  lemma MatchIffMatches(p: Pat, s: string)
    requires Deterministic(p)
    ensures Match(p, s).Some? <==> Matches(p, s)
  {
    if Matches(p, s) {
      var pieces :| Fits(p, pieces) && Concat(pieces) == s;
      MatchComplete(p, pieces);
    }
  }
}
