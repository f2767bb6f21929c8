/** Splitting one long answer into its numbered sub-questions (web/src/lib/segments.js).
    A cut is made at a marker such as （1） or ② that opens a sentence, never inside a
    `$...$` formula or a fenced code block. */
module Segments {
  import opened Basics

  /** The two flags of the scanner; they are never both set. */
  datatype Mode = Text | Math | Code

  // ---------- Characters ----------

  /** Characters removed by String.prototype.trim. */
  predicate IsSpace(c: char) {
    || '\t' <= c <= '\r'
    || c == ' ' || c == '\U{00A0}' || c == '\U{1680}'
    || '\U{2000}' <= c <= '\U{200A}'
    || c == '\U{2028}' || c == '\U{2029}' || c == '\U{202F}' || c == '\U{205F}'
    || c == '\U{3000}' || c == '\U{FEFF}'
  }

  /** Sentence-ending characters: only a marker right after one of them opens a sub-question. */
  predicate IsLead(c: char) {
    || c == '\U{3002}' || c == '\U{FF1B}' || c == '\U{FF1A}'
    || c == '\U{FF01}' || c == '\U{FF1F}' || c == '\U{2026}'
  }

  predicate InClass(c: char, roman: bool) {
    if roman then c == 'i' || c == 'v' || c == 'x' || c == 'I' || c == 'V' || c == 'X' else '0' <= c <= '9'
  }

  predicate ClosesWithin(s: string, i: nat, max: nat, close: char, roman: bool)
    decreases max
  {
    && i < |s|
    && (s[i] == close || (max > 0 && InClass(s[i], roman) && ClosesWithin(s, i + 1, max - 1, close, roman)))
  }

  /** An opening bracket, one to `max` characters of the class, and the closing bracket. */
  predicate Bracketed(s: string, i: nat, open: char, close: char, max: nat, roman: bool)
    requires max > 0
  {
    && i + 1 < |s|
    && s[i] == open
    && InClass(s[i + 1], roman)
    && ClosesWithin(s, i + 2, max - 1, close, roman)
  }

  predicate MarkerAt(s: string, i: nat) {
    || Bracketed(s, i, '\U{FF08}', '\U{FF09}', 2, false)
    || Bracketed(s, i, '(', ')', 2, false)
    || Bracketed(s, i, '\U{FF08}', '\U{FF09}', 4, true)
    || Bracketed(s, i, '(', ')', 4, true)
    || (i < |s| && '\U{2460}' <= s[i] <= '\U{2473}')
  }

  predicate FenceAt(s: string, i: nat) {
    i + 3 <= |s| && s[i] == '`' && s[i + 1] == '`' && s[i + 2] == '`'
  }

  /** A dollar sign that is not escaped by a backslash. */
  predicate DollarAt(s: string, i: nat) {
    i < |s| && s[i] == '$' && (i == 0 || s[i - 1] != '\\')
  }

  predicate OpensSentence(s: string, i: nat)
    requires i < |s|
  {
    i == 0 || IsLead(s[i - 1])
  }

  // ---------- Where a cut may fall ----------

  /** s[a..b] is one complete unit: a plain character, a closed formula or a closed code block. */
  ghost predicate Span(s: string, a: nat, b: nat) {
    && a < b <= |s|
    && (|| (b == a + 1 && !FenceAt(s, a) && !DollarAt(s, a))
        || (b >= a + 2 && DollarAt(s, a) && DollarAt(s, b - 1)
            && forall j :: a < j < b - 1 ==> !DollarAt(s, j))
        || (b >= a + 6 && FenceAt(s, a) && FenceAt(s, b - 3)
            && forall j :: a + 3 <= j < b - 3 ==> !FenceAt(s, j)))
  }

  /** s[a..p] is a concatenation of complete units, so nothing is open at p. */
  ghost predicate Tiled(s: string, a: nat, p: nat)
    decreases p - a
  {
    a == p || exists b :: a < b <= p && Span(s, a, b) && Tiled(s, b, p)
  }

  /** The cut positions: a marker that opens a sentence outside every formula and code block. */
  ghost predicate IsCut(s: string, p: nat) {
    p < |s| && Tiled(s, 0, p) && OpensSentence(s, p) && MarkerAt(s, p)
  }

  function TrimStart(s: string): string {
    if s != [] && IsSpace(s[0]) then TrimStart(s[1..]) else s
  }

  function TrimEnd(s: string): string {
    if s != [] && IsSpace(s[|s| - 1]) then TrimEnd(s[..|s| - 1]) else s
  }

  function Trim(s: string): string {
    TrimEnd(TrimStart(s))
  }

  /** The blank-free text of s[a..b], as a list of at most one piece. */
  function Emit(s: string, a: nat, b: nat): seq<string>
    requires a <= b <= |s|
  {
    if Trim(s[a..b]) == "" then [] else [Trim(s[a..b])]
  }

  ghost function Cuts(s: string): set<nat> {
    set p: nat | p < |s| && IsCut(s, p)
  }

  /** The pieces of s[from..] cut at `cuts`, where the piece under construction reaches up to i. */
  ghost function PiecesFrom(s: string, cuts: set<nat>, from: nat, i: nat): seq<string>
    requires from <= i <= |s|
    decreases |s| - i
  {
    if i == |s| then Emit(s, from, i)
    else if from < i && i in cuts then Emit(s, from, i) + PiecesFrom(s, cuts, i, i + 1)
    else PiecesFrom(s, cuts, from, i + 1)
  }

  /** What one line is split into; a line without cuts is returned as it is. */
  ghost function Pieces(block: string): seq<string> {
    if Cuts(block) == {} then [block] else PiecesFrom(block, Cuts(block), 0, 0)
  }

  lemma {:induction false} PiecesSkip(s: string, cuts: set<nat>, from: nat, i: nat, e: nat)
    requires from <= i <= e <= |s|
    requires forall p :: i <= p < e && from < p ==> p !in cuts
    ensures PiecesFrom(s, cuts, from, i) == PiecesFrom(s, cuts, from, e)
    decreases e - i
  {
    if i < e {
      PiecesSkip(s, cuts, from, i + 1, e);
    }
  }

  // ---------- The scanner agrees with the declarative cuts ----------

  /** The mode in force when the scanner, at i in mode m, has moved on to p;
      positions jumped over inside a fence count as code. */
  ghost function Walk(s: string, i: nat, m: Mode, p: nat): Mode
    decreases p - i
  {
    if i >= p then (if i == p then m else Code)
    else if m != Math && FenceAt(s, i) then Walk(s, i + 3, if m == Code then Text else Code, p)
    else if m == Code then Walk(s, i + 1, Code, p)
    else if DollarAt(s, i) then Walk(s, i + 1, if m == Math then Text else Math, p)
    else Walk(s, i + 1, m, p)
  }

  lemma {:induction false} TiledAppend(s: string, a: nat, b: nat, c: nat)
    requires a <= b <= c && Tiled(s, a, b) && Tiled(s, b, c)
    ensures Tiled(s, a, c)
    decreases b - a
  {
    if a < b {
      var e :| a < e <= b && Span(s, a, e) && Tiled(s, e, b);
      TiledAppend(s, e, b, c);
    }
  }

  /** Scanning a formula opened at a: at p the scanner is back in text iff the formula was closed
      before p and the rest up to p is complete. */
  lemma {:induction false} WalkTiles(s: string, a: nat, i: nat, m: Mode, p: nat)
    requires a <= i && p <= |s|
    requires m == Text ==> a == i
    requires m == Math ==> a < i && DollarAt(s, a) && forall j :: a < j < i ==> !DollarAt(s, j)
    requires m == Code ==> a + 3 <= i && FenceAt(s, a) && forall j :: a + 3 <= j < i ==> !FenceAt(s, j)
    requires Walk(s, i, m, p) == Text
    ensures a <= p && Tiled(s, a, p)
    decreases p - i
  {
    if i < p {
      if m != Math && FenceAt(s, i) {
        if m == Code {
          WalkTiles(s, i + 3, i + 3, Text, p);
          assert Span(s, a, i + 3);
        } else {
          WalkTiles(s, i, i + 3, Code, p);
        }
      } else if m == Code {
        WalkTiles(s, a, i + 1, Code, p);
      } else if DollarAt(s, i) {
        if m == Math {
          WalkTiles(s, i + 1, i + 1, Text, p);
          assert Span(s, a, i + 1);
        } else {
          WalkTiles(s, i, i + 1, Math, p);
        }
      } else if m == Math {
        WalkTiles(s, a, i + 1, Math, p);
      } else {
        WalkTiles(s, i + 1, i + 1, Text, p);
        assert Span(s, i, i + 1);
      }
    }
  }

  /** Inside a formula or a code block whose first closing delimiter ends at e, the scanner stays
      in that mode until e. */
  lemma {:induction false} WalkInside(s: string, i: nat, m: Mode, e: nat, p: nat)
    requires e <= p && e <= |s|
    requires m != Text
    requires m == Math ==> i < e && DollarAt(s, e - 1) && forall j :: i <= j < e - 1 ==> !DollarAt(s, j)
    requires m == Code ==> i + 3 <= e && FenceAt(s, e - 3) && forall j :: i <= j < e - 3 ==> !FenceAt(s, j)
    ensures Walk(s, i, m, p) == Walk(s, e, Text, p)
    decreases e - i
  {
    if (m == Math && i < e - 1) || (m == Code && i < e - 3) {
      WalkInside(s, i + 1, m, e, p);
    }
  }

  lemma {:induction false} TilesWalk(s: string, a: nat, p: nat)
    requires a <= p <= |s| && Tiled(s, a, p)
    ensures Walk(s, a, Text, p) == Text
    decreases p - a
  {
    if a < p {
      var b :| a < b <= p && Span(s, a, b) && Tiled(s, b, p);
      TilesWalk(s, b, p);
      if FenceAt(s, a) {
        WalkInside(s, a + 3, Code, b, p);
      } else if DollarAt(s, a) {
        WalkInside(s, a + 1, Math, b, p);
      }
    }
  }

  lemma {:induction false} WalkIffTiled(s: string, p: nat)
    requires p <= |s|
    ensures Walk(s, 0, Text, p) == Text <==> Tiled(s, 0, p)
  {
    if Tiled(s, 0, p) {
      TilesWalk(s, 0, p);
    } else if Walk(s, 0, Text, p) == Text {
      WalkTiles(s, 0, 0, Text, p);
    }
  }

  /** The scan of cutByMarkers: exactly the cuts, in order. */
  method FindCuts(block: string) returns (cuts: seq<nat>)
    ensures forall p: nat :: p in cuts <==> IsCut(block, p)
    ensures forall j, k :: 0 <= j < k < |cuts| ==> cuts[j] < cuts[k]
  {
    cuts := [];
    var inMath, inCode := false, false;
    var i: nat := 0;
    while i < |block|
      invariant i <= |block| && !(inMath && inCode)
      invariant forall p :: i <= p <= |block| ==>
        Walk(block, 0, Text, p) == Walk(block, i, if inMath then Math else if inCode then Code else Text, p)
      invariant forall k :: 0 <= k < |cuts| ==> cuts[k] < i
      invariant forall j, k :: 0 <= j < k < |cuts| ==> cuts[j] < cuts[k]
      invariant forall p: nat :: p in cuts <==> p < i && IsCut(block, p)
    {
      WalkIffTiled(block, i);
      if !inMath && FenceAt(block, i) {
        assert !IsCut(block, i) && !IsCut(block, i + 1) && !IsCut(block, i + 2);
        inCode := !inCode;
        i := i + 3;
        continue;
      }
      if inCode {
        i := i + 1;
        continue;
      }
      if DollarAt(block, i) {
        assert !MarkerAt(block, i);
        inMath := !inMath;
        i := i + 1;
        continue;
      }
      if inMath {
        i := i + 1;
        continue;
      }
      if OpensSentence(block, i) && MarkerAt(block, i) {
        cuts := cuts + [i];
      }
      i := i + 1;
    }

  }

  /** Slice starts: the beginning of the line and every cut after it, in order. */
  ghost predicate AreBounds(s: string, cuts: set<nat>, bounds: seq<nat>) {
    && bounds != [] && bounds[0] == 0
    && (forall j, k :: 0 <= j < k < |bounds| ==> bounds[j] < bounds[k])
    && (forall k :: 0 <= k < |bounds| ==> bounds[k] < |s|)
    && (forall p: nat :: 0 < p ==> (p in bounds <==> p in cuts))
  }

  lemma {:induction false} OneSlice(s: string, cuts: set<nat>, bounds: seq<nat>, k: nat, e: nat)
    requires AreBounds(s, cuts, bounds) && k < |bounds|
    requires e == if k + 1 < |bounds| then bounds[k + 1] else |s|
    ensures PiecesFrom(s, cuts, bounds[k], bounds[k]) == Emit(s, bounds[k], e)
         + if k + 1 < |bounds| then PiecesFrom(s, cuts, e, e) else []
  {
    forall p: nat | bounds[k] < p < e ensures p !in cuts {
      forall m | 0 <= m < |bounds| ensures bounds[m] != p {
        if m <= k {} else {}
      }
    }
    PiecesSkip(s, cuts, bounds[k], bounds[k], e);
    if k + 1 < |bounds| {
      assert e in bounds;
      PiecesSkip(s, cuts, e, e, e + 1);
    }
  }

  lemma {:induction false} BoundsOfCuts(s: string, cuts: seq<nat>)
    requires cuts != [] && forall p: nat :: p in cuts <==> p in Cuts(s)
    requires forall j, k :: 0 <= j < k < |cuts| ==> cuts[j] < cuts[k]
    ensures AreBounds(s, Cuts(s), if cuts[0] == 0 then cuts else [0] + cuts)
  {
    assert cuts[0] in cuts;
    forall k | 0 <= k < |cuts| ensures cuts[k] < |s| {
      assert cuts[k] in cuts;
    }
  }

  /** cutByMarkers: the trimmed, non-empty slices between the cuts; text before the first cut is kept. */
  method CutByMarkers(block: string) returns (parts: seq<string>)
    ensures parts == Pieces(block)
  {
    var cuts := FindCuts(block);
    assert forall p: nat :: p in cuts <==> p in Cuts(block);
    if |cuts| == 0 {
      return [block];
    }
    var bounds := if cuts[0] == 0 then cuts else [0] + cuts;
    BoundsOfCuts(block, cuts);
    assert cuts[0] in Cuts(block);
    parts := SliceAt(block, Cuts(block), bounds);
  }

  method SliceAt(block: string, ghost cuts: set<nat>, bounds: seq<nat>) returns (parts: seq<string>)
    requires AreBounds(block, cuts, bounds)
    ensures parts == PiecesFrom(block, cuts, 0, 0)
  {
    hide Trim, PiecesFrom;
    parts := [];
    var k := 0;
    while k < |bounds|
      invariant 0 <= k <= |bounds|
      invariant PiecesFrom(block, cuts, 0, 0)
             == parts + if k < |bounds| then PiecesFrom(block, cuts, bounds[k], bounds[k]) else []
    {
      var end := if k + 1 < |bounds| then bounds[k + 1] else |block|;
      OneSlice(block, cuts, bounds, k, end);
      var body := Trim(block[bounds[k]..end]);
      if body != "" {
        parts := parts + [body];
      }
      k := k + 1;
    }
  }

  // ---------- Nothing is lost ----------

  function Concat(parts: seq<string>): string {
    if parts == [] then "" else parts[0] + Concat(parts[1..])
  }

  /** The characters of s other than white space, in order. */
  function Ink(s: string): string {
    if s == "" then "" else (if IsSpace(s[0]) then "" else [s[0]]) + Ink(s[1..])
  }

  predicate Trimmed(s: string) {
    s != "" ==> !IsSpace(s[0]) && !IsSpace(s[|s| - 1])
  }

  lemma {:induction false} InkAppend(a: string, b: string)
    ensures Ink(a + b) == Ink(a) + Ink(b)
  {
    if a == "" {
      assert a + b == b;
    } else {
      assert (a + b)[1..] == a[1..] + b;
      InkAppend(a[1..], b);
    }
  }

  lemma {:induction false} ConcatAppend(a: seq<string>, b: seq<string>)
    ensures Concat(a + b) == Concat(a) + Concat(b)
  {
    if a == [] {
      assert a + b == b;
    } else {
      assert (a + b)[1..] == a[1..] + b;
      ConcatAppend(a[1..], b);
    }
  }

  lemma {:induction false} TrimStartFacts(s: string)
    ensures Ink(TrimStart(s)) == Ink(s)
    ensures TrimStart(s) != "" ==> !IsSpace(TrimStart(s)[0])
    ensures TrimStart(s) != "" ==> s != "" && TrimStart(s)[|TrimStart(s)| - 1] == s[|s| - 1]
  {
    if s != "" && IsSpace(s[0]) {
      TrimStartFacts(s[1..]);
    }
  }

  lemma {:induction false} TrimEndFacts(s: string)
    ensures Ink(TrimEnd(s)) == Ink(s)
    ensures TrimEnd(s) != "" ==> !IsSpace(TrimEnd(s)[|TrimEnd(s)| - 1]) && TrimEnd(s)[0] == s[0]
  {
    if s != "" && IsSpace(s[|s| - 1]) {
      assert s == s[..|s| - 1] + [s[|s| - 1]];
      InkAppend(s[..|s| - 1], [s[|s| - 1]]);
      TrimEndFacts(s[..|s| - 1]);
    }
  }

  lemma {:induction false} TrimFacts(s: string)
    ensures Trimmed(Trim(s)) && Ink(Trim(s)) == Ink(s)
  {
    TrimStartFacts(s);
    TrimEndFacts(TrimStart(s));
  }

  /** s[b..e] lies between two neighbouring slice boundaries. */
  ghost predicate IsSlice(s: string, cuts: set<nat>, b: nat, e: nat) {
    && b < e <= |s|
    && (b == 0 || b in cuts) && (e == |s| || e in cuts)
    && forall p :: b < p < e ==> p !in cuts
  }

  ghost predicate SomeSlice(s: string, cuts: set<nat>, q: string) {
    exists b: nat, e: nat :: IsSlice(s, cuts, b, e) && q == s[b..e]
  }

  /** No white space touches a cut: a marker follows it and a sentence end precedes it. */
  ghost predicate CleanCuts(s: string, cuts: set<nat>) {
    forall p :: p in cuts ==> p < |s| && !IsSpace(s[p]) && (p > 0 ==> !IsSpace(s[p - 1]))
  }

  lemma {:induction false} CutsAreClean(s: string)
    ensures CleanCuts(s, Cuts(s))
  {
    forall p | p in Cuts(s) ensures p < |s| && !IsSpace(s[p]) && (p > 0 ==> !IsSpace(s[p - 1])) {
      assert MarkerAt(s, p) && OpensSentence(s, p);
    }
  }

  lemma {:induction false} SliceIsTrimmed(s: string, cuts: set<nat>, b: nat, e: nat)
    requires Trimmed(s) && CleanCuts(s, cuts) && IsSlice(s, cuts, b, e)
    ensures Trimmed(s[b..e]) && Trim(s[b..e]) == s[b..e] && Emit(s, b, e) == [s[b..e]]
  {
  }

  lemma {:induction false} ConcatPrepend(a: string, rest: seq<string>)
    ensures Concat([a] + rest) == a + Concat(rest)
  {
    assert ([a] + rest)[1..] == rest;
  }

  lemma {:induction false} ConcatOne(a: string)
    ensures Concat([a]) == a
  {
    ConcatPrepend(a, []);
    assert [a] + [] == [a];
  }

  /** Joining the pieces gives the text back. */
  lemma {:induction false} PiecesFromJoin(s: string, cuts: set<nat>, b: nat, i: nat)
    requires Trimmed(s) && CleanCuts(s, cuts) && b <= i <= |s| && b < |s| && (b == 0 || b in cuts)
    requires forall p :: b < p < i ==> p !in cuts
    ensures Concat(PiecesFrom(s, cuts, b, i)) == s[b..]
    decreases |s| - i
  {
    hide Trim, IsSpace, Emit, Concat, Trimmed, CleanCuts;
    if i == |s| {
      SliceIsTrimmed(s, cuts, b, i);
      assert s[b..i] == s[b..];
      ConcatOne(s[b..]);
    } else if b < i && i in cuts {
      SliceIsTrimmed(s, cuts, b, i);
      PiecesFromJoin(s, cuts, i, i + 1);
      ConcatPrepend(s[b..i], PiecesFrom(s, cuts, i, i + 1));
      assert s[b..] == s[b..i] + s[i..];
    } else {
      PiecesFromJoin(s, cuts, b, i + 1);
    }
  }

  /** Every piece is a slice between neighbouring cuts. */
  lemma {:induction false} PieceIsSlice(s: string, cuts: set<nat>, b: nat, i: nat, q: string)
    requires Trimmed(s) && CleanCuts(s, cuts) && b <= i <= |s| && b < |s| && (b == 0 || b in cuts)
    requires forall p :: b < p < i ==> p !in cuts
    requires q in PiecesFrom(s, cuts, b, i)
    ensures SomeSlice(s, cuts, q)
    decreases |s| - i
  {
    hide Trim, IsSpace;
    if i == |s| || (b < i && i in cuts) {
      SliceIsTrimmed(s, cuts, b, i);
      if q != s[b..i] {
        PieceIsSlice(s, cuts, i, i + 1, q);
      }
    } else {
      PieceIsSlice(s, cuts, b, i + 1, q);
    }
  }

  /** On a trimmed line the pieces concatenate to exactly the line: the cuts add and drop nothing. */
  lemma {:induction false} PiecesJoin(block: string)
    requires Trimmed(block) && block != ""
    ensures Concat(Pieces(block)) == block
    ensures forall q :: q in Pieces(block) ==> SomeSlice(block, Cuts(block), q)
  {
    CutsAreClean(block);
    if Cuts(block) == {} {
      assert IsSlice(block, Cuts(block), 0, |block|) && block == block[0..|block|];
    } else {
      PiecesFromJoin(block, Cuts(block), 0, 0);
      forall q | q in Pieces(block) ensures SomeSlice(block, Cuts(block), q) {
        PieceIsSlice(block, Cuts(block), 0, 0, q);
      }
    }
  }

  // ---------- Splitting a piece again ----------

  lemma {:induction false} SliceTokens(s: string, b: nat, e: nat)
    requires IsSlice(s, Cuts(s), b, e)
    ensures forall i :: 0 <= i < e - b ==> (DollarAt(s[b..e], i) <==> DollarAt(s, b + i))
    ensures forall i :: 0 <= i < e - b ==> (FenceAt(s[b..e], i) <==> FenceAt(s, b + i))
    ensures forall j :: b <= j < e ==> (DollarAt(s[b..e], j - b) <==> DollarAt(s, j))
    ensures forall j :: b <= j < e ==> (FenceAt(s[b..e], j - b) <==> FenceAt(s, j))
  {
    var t := s[b..e];
    forall i | 0 <= i < e - b ensures DollarAt(t, i) <==> DollarAt(s, b + i) {
      if i == 0 && b > 0 {
        assert MarkerAt(s, b);
      }
    }
    forall i | 0 <= i < e - b ensures FenceAt(t, i) <==> FenceAt(s, b + i) {
      if FenceAt(s, b + i) && e < |s| {
        assert MarkerAt(s, e) && s[e] != '`';
      }
    }
  }

  lemma {:induction false} SliceTiled(s: string, b: nat, e: nat, a: nat, q: nat)
    requires IsSlice(s, Cuts(s), b, e) && a <= q <= e - b && Tiled(s[b..e], a, q)
    ensures Tiled(s, b + a, b + q)
    decreases q - a
  {
    if a < q {
      SliceTokens(s, b, e);
      var t := s[b..e];
      var c: nat :| a < c <= q && Span(t, a, c) && Tiled(t, c, q);
      SliceTiled(s, b, e, c, q);
      assert Span(s, b + a, b + c);
    }
  }

  lemma {:induction false} ClosesExtend(s: string, b: nat, e: nat, i: nat, max: nat, close: char, roman: bool)
    requires b <= e <= |s| && ClosesWithin(s[b..e], i, max, close, roman)
    ensures ClosesWithin(s, b + i, max, close, roman)
    decreases max
  {
    if s[b + i] != close {
      ClosesExtend(s, b, e, i + 1, max - 1, close, roman);
    }
  }

  lemma {:induction false} MarkerExtend(s: string, b: nat, e: nat, i: nat)
    requires b <= e <= |s| && i < e - b && MarkerAt(s[b..e], i)
    ensures MarkerAt(s, b + i)
  {
    var t := s[b..e];
    if Bracketed(t, i, '\U{FF08}', '\U{FF09}', 2, false) {
      ClosesExtend(s, b, e, i + 2, 1, '\U{FF09}', false);
    } else if Bracketed(t, i, '(', ')', 2, false) {
      ClosesExtend(s, b, e, i + 2, 1, ')', false);
    } else if Bracketed(t, i, '\U{FF08}', '\U{FF09}', 4, true) {
      ClosesExtend(s, b, e, i + 2, 3, '\U{FF09}', true);
    } else if Bracketed(t, i, '(', ')', 4, true) {
      ClosesExtend(s, b, e, i + 2, 3, ')', true);
    }
  }

  /** A slice has no cut of its own beyond its first position. */
  lemma {:induction false} SliceHasNoCut(s: string, b: nat, e: nat, q: nat)
    requires IsSlice(s, Cuts(s), b, e) && 0 < q < e - b
    ensures !IsCut(s[b..e], q)
  {
    assert b + q !in Cuts(s);
    if IsCut(s[b..e], q) {
      SliceTiled(s, b, e, 0, q);
      assert Tiled(s, 0, b);
      TiledAppend(s, 0, b, b + q);
      MarkerExtend(s, b, e, q);
    }
  }

  lemma {:induction false} UncutPieces(q: string)
    requires forall p: nat :: 0 < p < |q| ==> p !in Cuts(q)
    requires Trim(q) == q && q != ""
    ensures Pieces(q) == [q]
  {
    hide Trim, Cuts;
    PiecesSkip(q, Cuts(q), 0, 0, |q|);
    assert q[0..|q|] == q;
  }

  /** Idempotence: splitting a piece of a line again gives that piece alone. */
  lemma {:induction false} PiecesIdempotent(block: string, q: string)
    requires Trimmed(block) && block != "" && q in Pieces(block)
    ensures Pieces(q) == [q] && Trim(q) == q && q != ""
  {
    PiecesJoin(block);
    CutsAreClean(block);
    hide Trim, Pieces, PiecesFrom, Concat;
    var c: nat, e: nat :| IsSlice(block, Cuts(block), c, e) && q == block[c..e];
    SliceIsTrimmed(block, Cuts(block), c, e);
    forall p: nat | 0 < p < |q| ensures p !in Cuts(q) {
      SliceHasNoCut(block, c, e, p);
    }
    UncutPieces(q);
  }

  // ---------- The whole text ----------

  /** The lines of a text. Runs of line feeds give blank lines, which are skipped when splitting,
      exactly as if the runs had been single separators. */
  function Lines(s: string): seq<string> {
    var p := IndexOf(s, '\n');
    if p == |s| then [s] else [s[..p]] + Lines(s[p + 1..])
  }

  ghost function LinePieces(line: string): seq<string> {
    if Trim(line) == "" then [] else Pieces(Trim(line))
  }

  ghost function AllPieces(lines: seq<string>): seq<string> {
    if lines == [] then [] else
      LinePieces(lines[0]) + AllPieces(lines[1..])
  }

  lemma {:induction false} LinesInk(s: string)
    ensures Ink(Concat(Lines(s))) == Ink(s)
  {
    hide Ink, Concat, IsSpace;
    var p := IndexOf(s, '\n');
    if p == |s| {
      ConcatOne(s);
    } else {
      var rest := s[p + 1..];
      LinesInk(rest);
      ConcatPrepend(s[..p], Lines(rest));
      InkAppend(s[..p], Concat(Lines(rest)));
      InkAppend(s[..p], ['\n'] + rest);
      LineFeedHasNoInk(rest);
      assert s == s[..p] + (['\n'] + rest);
    }
  }

  lemma {:induction false} LineFeedHasNoInk(rest: string)
    ensures Ink(['\n'] + rest) == Ink(rest)
  {
    assert (['\n'] + rest)[1..] == rest;
  }

  lemma {:induction false} AllPiecesInk(lines: seq<string>)
    ensures Ink(Concat(AllPieces(lines))) == Ink(Concat(lines))
  {
    if lines != [] {
      var block := Trim(lines[0]);
      var mine := if block == "" then [] else Pieces(block);
      TrimFacts(lines[0]);
      if block != "" {
        PiecesJoin(block);
      }
      AllPiecesInk(lines[1..]);
      ConcatAppend(mine, AllPieces(lines[1..]));
      InkAppend(Concat(mine), Concat(AllPieces(lines[1..])));
      InkAppend(lines[0], Concat(lines[1..]));
    }
  }

  /** Splitting a text loses no character but white space, and keeps their order. */
  lemma {:induction false} SplitLosesNothing(text: string)
    ensures Ink(Concat(AllPieces(Lines(Trim(text))))) == Ink(text)
  {
    TrimFacts(text);
    LinesInk(Trim(text));
    AllPiecesInk(Lines(Trim(text)));
  }

  lemma {:induction false} AllPiecesStep(lines: seq<string>, n: nat)
    requires n < |lines|
    ensures AllPieces(lines[n..]) == LinePieces(lines[n]) + AllPieces(lines[n + 1..])
  {
    assert lines[n..][1..] == lines[n + 1..];
  }

  /** The body of the loop over the lines of splitSubQuestions. */
  method SplitLine(line: string) returns (parts: seq<string>)
    ensures parts == LinePieces(line)
  {
    parts := [];
    var block := Trim(line);
    if block != "" {
      parts := CutByMarkers(block);
    }
  }

  method SplitLines(lines: seq<string>) returns (parts: seq<string>)
    ensures parts == AllPieces(lines)
  {
    hide LinePieces;
    parts := [];
    var n := 0;
    while n < |lines|
      invariant 0 <= n <= |lines|
      invariant AllPieces(lines) == parts + AllPieces(lines[n..])
    {
      AllPiecesStep(lines, n);
      var more := SplitLine(lines[n]);
      parts := parts + more;
      n := n + 1;
    }
  }

  /** splitSubQuestions: null for a blank or missing text and when fewer than two pieces are found;
      the caller then renders the text whole. */
  method SplitSubQuestions(text: Option<string>) returns (parts: Option<seq<string>>)
    ensures var src := Trim(if text.None? then "" else text.value);
            var pieces := if src == "" then [] else AllPieces(Lines(src));
            parts == if |pieces| >= 2 then Some(pieces) else None
  {
    var src := Trim(if text.None? then "" else text.value);
    if src == "" {
      return None;
    }
    var found := SplitLines(Lines(src));
    return if |found| >= 2 then Some(found) else None;
  }

  lemma {:induction false} PieceOrigin(lines: seq<string>, q: string) returns (l: string)
    requires q in AllPieces(lines)
    ensures l in lines && Trim(l) != "" && q in Pieces(Trim(l))
  {
    hide Trim, Pieces;
    if q in LinePieces(lines[0]) {
      l := lines[0];
    } else {
      l := PieceOrigin(lines[1..], q);
    }
  }

  lemma {:induction false} LinesKeepOut(s: string, l: string)
    requires l in Lines(s)
    ensures '\n' !in l
  {
    var p := IndexOf(s, '\n');
    if p < |s| && l != s[..p] {
      LinesKeepOut(s[p + 1..], l);
    }
  }

  lemma {:induction false} TrimKeepsOut(s: string, c: char)
    requires c !in s
    ensures c !in TrimStart(s) && c !in TrimEnd(s)
    decreases |s|
  {
    if s != "" {
      TrimKeepsOut(s[1..], c);
      TrimKeepsOut(s[..|s| - 1], c);
    }
  }

  lemma {:induction false} ConcatKeepsOut(parts: seq<string>, q: string, c: char)
    requires c !in Concat(parts) && q in parts
    ensures c !in q
  {
    if q != parts[0] {
      ConcatKeepsOut(parts[1..], q, c);
    }
  }

  /** A piece that splits into itself is, as a whole text, one line with one piece. */
  lemma {:induction false} OnePieceText(q: string)
    requires '\n' !in q && q != "" && Trim(q) == q && Pieces(q) == [q]
    ensures AllPieces(Lines(q)) == [q]
  {
    hide Trim, Pieces;
    assert IndexOf(q, '\n') == |q|;
    assert Lines(q)[1..] == [];
    assert LinePieces(q) == [q];
  }

  /** Splitting any returned part as a text of its own finds that part alone. */
  lemma {:induction false} SplitIdempotent(text: string, q: string)
    requires q in AllPieces(Lines(Trim(text)))
    ensures q != "" && Trim(q) == q && AllPieces(Lines(q)) == [q]
  {
    hide Pieces, AllPieces, Lines, Concat, TrimStart, TrimEnd;
    var l := PieceOrigin(Lines(Trim(text)), q);
    LinesKeepOut(Trim(text), l);
    TrimKeepsOut(l, '\n');
    TrimKeepsOut(TrimStart(l), '\n');
    TrimFacts(l);
    PiecesJoin(Trim(l));
    ConcatKeepsOut(Pieces(Trim(l)), q, '\n');
    PiecesIdempotent(Trim(l), q);
    OnePieceText(q);
  }
}
