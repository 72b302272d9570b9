/** The numbered-placeholder scheme shared by the two query builders
    (backend/internal/repositories/schedule_repository.go and
    client_repository.go): clauses are appended with placeholders `?1`, `?2`,
    …, and a final loop rewrites `?n`, `?n-1`, …, `?1` into SQLite's `?`. */
module Placeholders {
  import opened Wrappers
  import opened Text

  /** A query argument. */
  datatype Arg = IntArg(i: int) | TextArg(s: string) | BoolArg(b: bool)

  /** A part of a query under construction: SQL text, or the k-th placeholder. */
  datatype Piece = Lit(text: string) | Slot(k: nat)

  predicate IsDigit(c: char) { '0' <= c <= '9' }

  /** `fmt.Sprintf("?%d", k)`. */
  function Marker(k: nat): string {
    "?" + NatToString(k)
  }

  /** The text of the pieces with every placeholder numbered at most `upto`
      still in its `?k` form and every later one already rewritten to `?`. */
  function Render(ps: seq<Piece>, upto: nat): string {
    if ps == [] then "" else RenderPiece(ps[0], upto) + Render(ps[1..], upto)
  }

  function RenderPiece(p: Piece, upto: nat): string {
    match p
    case Lit(t) => t
    case Slot(k) => if k <= upto then Marker(k) else "?"
  }

  lemma {:induction false} RenderAppend(ps: seq<Piece>, qs: seq<Piece>, upto: nat)
    ensures Render(ps + qs, upto) == Render(ps, upto) + Render(qs, upto)
  {
    if ps == [] {
      assert ps + qs == qs;
    } else {
      assert (ps + qs)[1..] == ps[1..] + qs;
      RenderAppend(ps[1..], qs, upto);
    }
  }

  /** Literal text never holds a `?` nor starts with a digit, and the
      placeholders are numbered 1..n with n a single digit. */
  predicate WellFormed(ps: seq<Piece>, n: nat) {
    n <= 9 &&
    forall i | 0 <= i < |ps| ::
      match ps[i]
      case Lit(t) => '?' !in t && (t == "" || !IsDigit(t[0]))
      case Slot(k) => 1 <= k <= n
  }

  /** Go's `strings.ReplaceAll`: leftmost, non-overlapping replacement. */
  function ReplaceAll(s: string, pat: string, rep: string): string
    requires |pat| > 0
    decreases |s|
  {
    if |s| < |pat| then s
    else if s[..|pat|] == pat then rep + ReplaceAll(s[|pat|..], pat, rep)
    else [s[0]] + ReplaceAll(s[1..], pat, rep)
  }

  /** Text without the pattern's first character passes through unchanged. */
  lemma {:induction false} ReplaceAllSkips(t: string, rest: string, pat: string, rep: string)
    requires |pat| > 0 && pat[0] !in t
    ensures ReplaceAll(t + rest, pat, rep) == t + ReplaceAll(rest, pat, rep)
    decreases |t|
  {
    if t == [] {
      assert t + rest == rest;
    } else {
      var s := t + rest;
      if |s| < |pat| {
        ReplaceAllShort(rest, pat, rep);
      } else {
        assert s[0] == t[0] && s[..|pat|][0] == s[0];
        assert s[..|pat|] != pat;
        assert ReplaceAll(s, pat, rep) == [s[0]] + ReplaceAll(s[1..], pat, rep);
        assert s[1..] == t[1..] + rest;
        ReplaceAllSkips(t[1..], rest, pat, rep);
        assert t == [t[0]] + t[1..];
      }
    }
  }

  lemma ReplaceAllShort(s: string, pat: string, rep: string)
    requires 0 < |pat| && |s| < |pat|
    ensures ReplaceAll(s, pat, rep) == s
  {
  }

  lemma {:induction false} RenderStart(ps: seq<Piece>, n: nat, upto: nat)
    requires WellFormed(ps, n)
    ensures Render(ps, upto) == "" || !IsDigit(Render(ps, upto)[0])
  {
    if ps != [] {
      assert WellFormed(ps[1..], n) by {
        forall i | 0 <= i < |ps[1..]| ensures ps[1..][i] == ps[i + 1] { }
      }
      RenderStart(ps[1..], n, upto);
      match ps[0]
      case Lit(t) =>
      case Slot(k) =>
    }
  }

  lemma MarkerDigits(k: nat)
    requires 1 <= k <= 9
    ensures Marker(k) == ['?', DigitChar(k)]
  {
  }

  lemma ReplaceMatched(r: string, i: nat)
    requires 1 <= i <= 9
    ensures ReplaceAll(Marker(i) + r, Marker(i), "?") == "?" + ReplaceAll(r, Marker(i), "?")
  {
    MarkerDigits(i);
    var s := Marker(i) + r;
    assert s[..2] == Marker(i);
    assert s[2..] == r;
  }

  lemma ReplaceEarlier(r: string, k: nat, i: nat)
    requires 1 <= k < i <= 9
    ensures ReplaceAll(Marker(k) + r, Marker(i), "?") == Marker(k) + ReplaceAll(r, Marker(i), "?")
  {
    MarkerDigits(k);
    MarkerDigits(i);
    var s := Marker(k) + r;
    assert s[..2] == Marker(k) != Marker(i);
    assert s[1..] == [DigitChar(k)] + r;
    ReplaceAllSkips([DigitChar(k)], r, Marker(i), "?");
  }

  lemma ReplaceRewritten(r: string, i: nat)
    requires 1 <= i <= 9
    requires r == "" || !IsDigit(r[0])
    ensures ReplaceAll("?" + r, Marker(i), "?") == "?" + ReplaceAll(r, Marker(i), "?")
  {
    MarkerDigits(i);
    var s := "?" + r;
    if r == "" {
      assert s == "?";
    } else {
      assert s[..2] == ['?', r[0]];
      assert s[1..] == r;
    }
  }

  /** One step of the rewrite loop: replacing `?i` rewrites placeholder i and
      nothing else. */
  lemma {:induction false} RewriteStep(ps: seq<Piece>, n: nat, i: nat)
    requires WellFormed(ps, n) && 1 <= i <= n
    ensures ReplaceAll(Render(ps, i), Marker(i), "?") == Render(ps, i - 1)
  {
    if ps == [] {
      return;
    }
    var rest := ps[1..];
    assert WellFormed(rest, n) by {
      forall j | 0 <= j < |rest| ensures rest[j] == ps[j + 1] { }
    }
    RewriteStep(rest, n, i);
    var r := Render(rest, i);
    assert Render(ps, i) == RenderPiece(ps[0], i) + r;
    match ps[0]
    case Lit(t) =>
      MarkerDigits(i);
      ReplaceAllSkips(t, r, Marker(i), "?");
    case Slot(k) =>
      if k == i {
        ReplaceMatched(r, i);
      } else if k < i {
        ReplaceEarlier(r, k, i);
      } else {
        RenderStart(rest, n, i);
        ReplaceRewritten(r, i);
      }
  }

  /** The rewrite loop: for i from n down to 1, every `?i` becomes `?`. */
  method RewritePlaceholders(query: string, n: nat, ghost ps: seq<Piece>) returns (r: string)
    requires WellFormed(ps, n) && query == Render(ps, n)
    ensures r == Render(ps, 0)
  {
    r := query;
    var i := n;
    while i >= 1
      invariant 0 <= i <= n
      invariant r == Render(ps, i)
    {
      RewriteStep(ps, n, i);
      r := ReplaceAll(r, Marker(i), "?");
      i := i - 1;
    }
  }

  function Slots(ps: seq<Piece>): nat {
    if ps == [] then 0 else (if ps[0].Slot? then 1 else 0) + Slots(ps[1..])
  }

  lemma {:induction false} SlotsAppend(ps: seq<Piece>, qs: seq<Piece>)
    ensures Slots(ps + qs) == Slots(ps) + Slots(qs)
  {
    if ps == [] {
      assert ps + qs == qs;
    } else {
      assert (ps + qs)[1..] == ps[1..] + qs;
      SlotsAppend(ps[1..], qs);
    }
  }

  /** After the rewrite the query holds one `?` per placeholder and no other. */
  lemma {:induction false} PlaceholderCount(ps: seq<Piece>, n: nat)
    requires WellFormed(ps, n)
    ensures CountChar(Render(ps, 0), '?') == Slots(ps)
  {
    if ps != [] {
      var rest := ps[1..];
      assert WellFormed(rest, n) by {
        forall j | 0 <= j < |rest| ensures rest[j] == ps[j + 1] { }
      }
      PlaceholderCount(rest, n);
      CountCharAppend(RenderPiece(ps[0], 0), Render(rest, 0), '?');
      match ps[0]
      case Lit(t) => CountCharAbsent(t, '?');
      case Slot(k) =>
    }
  }

  /** A clause with one placeholder, as SQLite receives it. */
  function Clause(before: string, after: string): string {
    before + "?" + after
  }

  /** `text` when `present`, else nothing. */
  function When(present: bool, text: string): string {
    if present then text else ""
  }

  function OptArg(present: bool, a: Arg): seq<Arg> {
    if present then [a] else []
  }

  /** Appending `before ?k after` keeps the pieces well formed and adds the
      same text to the numbered and to the rewritten query. */
  lemma Extend(ps: seq<Piece>, n: nat, before: string, after: string)
    requires WellFormed(ps, n) && n < 9
    requires '?' !in before && (before == "" || !IsDigit(before[0]))
    requires '?' !in after && (after == "" || !IsDigit(after[0]))
    ensures WellFormed(ps + [Lit(before), Slot(n + 1), Lit(after)], n + 1)
    ensures Render(ps + [Lit(before), Slot(n + 1), Lit(after)], 9) == Render(ps, 9) + (before + Marker(n + 1) + after)
    ensures Render(ps + [Lit(before), Slot(n + 1), Lit(after)], 0) == Render(ps, 0) + Clause(before, after)
    ensures Slots(ps + [Lit(before), Slot(n + 1), Lit(after)]) == Slots(ps) + 1
  {
    var qs := [Lit(before), Slot(n + 1), Lit(after)];
    ExtendWellFormed(ps, n, before, after);
    SlotsAppend(ps, qs);
    assert qs[1..][1..] == [Lit(after)];
    assert Slots([Lit(after)]) == 0;
    RenderAppend(ps, qs, 9);
    RenderAppend(ps, qs, 0);
    RenderClause(before, Slot(n + 1), after, 9);
    RenderClause(before, Slot(n + 1), after, 0);
  }

  lemma ExtendWellFormed(ps: seq<Piece>, n: nat, before: string, after: string)
    requires WellFormed(ps, n) && n < 9
    requires '?' !in before && (before == "" || !IsDigit(before[0]))
    requires '?' !in after && (after == "" || !IsDigit(after[0]))
    ensures WellFormed(ps + [Lit(before), Slot(n + 1), Lit(after)], n + 1)
  {
    var rs := ps + [Lit(before), Slot(n + 1), Lit(after)];
    assert forall i | 0 <= i < |ps| :: rs[i] == ps[i];
    assert rs[|ps|] == Lit(before) && rs[|ps| + 1] == Slot(n + 1) && rs[|ps| + 2] == Lit(after);
  }

  lemma RenderClause(before: string, p: Piece, after: string, u: nat)
    ensures Render([Lit(before), p, Lit(after)], u) == before + RenderPiece(p, u) + after
  {
    var qs := [Lit(before), p, Lit(after)];
    assert qs[1..] == [p, Lit(after)];
    assert qs[1..][1..] == [Lit(after)];
    assert Render([Lit(after)], u) == after + Render([], u);
    assert Render([Lit(after)], u) == after;
  }

  lemma ExtendLit(ps: seq<Piece>, n: nat, text: string)
    requires WellFormed(ps, n)
    requires '?' !in text && (text == "" || !IsDigit(text[0]))
    ensures WellFormed(ps + [Lit(text)], n)
    ensures Render(ps + [Lit(text)], 9) == Render(ps, 9) + text
    ensures Render(ps + [Lit(text)], 0) == Render(ps, 0) + text
    ensures Slots(ps + [Lit(text)]) == Slots(ps)
  {
    var rs := ps + [Lit(text)];
    assert forall i | 0 <= i < |ps| :: rs[i] == ps[i];
    assert rs[|ps|] == Lit(text);
    assert WellFormed(rs, n);
    SlotsAppend(ps, [Lit(text)]);
    RenderAppend(ps, [Lit(text)], 9);
    RenderAppend(ps, [Lit(text)], 0);
  }

  /** Rendering with a bound at or above the largest placeholder changes nothing. */
  lemma {:induction false} RenderAbove(ps: seq<Piece>, n: nat, u: nat)
    requires WellFormed(ps, n) && u >= n
    ensures Render(ps, u) == Render(ps, n)
  {
    if ps != [] {
      assert WellFormed(ps[1..], n) by {
        forall j | 0 <= j < |ps[1..]| ensures ps[1..][j] == ps[j + 1] { }
      }
      RenderAbove(ps[1..], n, u);
    }
  }

  /** One `query += fmt.Sprintf(before + "?%d" + after, argIndex)` with its
      `args = append(args, a)` and `argIndex++`. */
  method AddClause(query: string, args: seq<Arg>, argIndex: nat, before: string, after: string, a: Arg,
                   ghost ps: seq<Piece>)
    returns (query': string, args': seq<Arg>, argIndex': nat, ghost ps': seq<Piece>)
    requires argIndex == |args| + 1 <= 9 && WellFormed(ps, |args|) && query == Render(ps, 9) && Slots(ps) == |args|
    requires '?' !in before && (before == "" || !IsDigit(before[0]))
    requires '?' !in after && (after == "" || !IsDigit(after[0]))
    ensures argIndex' == |args'| + 1 && args' == args + [a]
    ensures WellFormed(ps', |args'|) && query' == Render(ps', 9) && Slots(ps') == |args'|
    ensures Render(ps', 0) == Render(ps, 0) + Clause(before, after)
  {
    Extend(ps, argIndex - 1, before, after);
    query' := query + (before + Marker(argIndex) + after);
    ps' := ps + [Lit(before), Slot(argIndex), Lit(after)];
    args' := args + [a];
    argIndex' := argIndex + 1;
  }

  /** `if present { query += …; args = append(args, a); argIndex++ }`. */
  method AddOptional(present: bool, query: string, args: seq<Arg>, argIndex: nat, before: string, after: string,
                     a: Arg, ghost ps: seq<Piece>)
    returns (query': string, args': seq<Arg>, argIndex': nat, ghost ps': seq<Piece>)
    requires argIndex == |args| + 1 <= 9 && WellFormed(ps, |args|) && query == Render(ps, 9) && Slots(ps) == |args|
    requires '?' !in before && (before == "" || !IsDigit(before[0]))
    requires '?' !in after && (after == "" || !IsDigit(after[0]))
    ensures argIndex' == |args'| + 1 && args' == args + OptArg(present, a)
    ensures WellFormed(ps', |args'|) && query' == Render(ps', 9) && Slots(ps') == |args'|
    ensures Render(ps', 0) == Render(ps, 0) + When(present, Clause(before, after))
  {
    if present {
      query', args', argIndex', ps' := AddClause(query, args, argIndex, before, after, a, ps);
    } else {
      query', args', argIndex', ps' := query, args, argIndex, ps;
      AppendEmpty(Render(ps, 0));
      AppendEmpty(args);
    }
  }

  lemma AppendAssoc<T>(a: seq<T>, b: seq<T>, c: seq<T>)
    ensures (a + b) + c == a + (b + c)
  {
  }

  lemma AppendEmpty<T>(a: seq<T>)
    ensures a + [] == a && [] + a == a
  {
  }

  lemma WellFormedSingle(text: string)
    requires '?' !in text && (text == "" || !IsDigit(text[0]))
    ensures WellFormed([Lit(text)], 0)
  {
  }

  lemma RenderSingle(text: string, u: nat)
    ensures Render([Lit(text)], u) == text
  {
    assert Render([Lit(text)], u) == text + Render([], u);
  }

  /** The LIMIT and OFFSET clauses that end both listing queries. */
  function PagingSql(limit: Option<int>, offset: Option<int>): string {
    When(limit.Some?, Clause(" LIMIT ", "")) + When(offset.Some?, Clause(" OFFSET ", ""))
  }

  function PagingArgs(limit: Option<int>, offset: Option<int>): seq<Arg> {
    OptArg(limit.Some?, IntArg(limit.GetOr(0))) + OptArg(offset.Some?, IntArg(offset.GetOr(0)))
  }

  /** `if limit != nil { … }` and `if offset != nil { … }`. */
  method AddPaging(limit: Option<int>, offset: Option<int>, query: string, args: seq<Arg>, argIndex: nat,
                   ghost ps: seq<Piece>)
    returns (query': string, args': seq<Arg>, argIndex': nat, ghost ps': seq<Piece>)
    requires argIndex == |args| + 1 && |args| <= 7 && WellFormed(ps, |args|) && query == Render(ps, 9) && Slots(ps) == |args|
    ensures argIndex' == |args'| + 1 && args' == args + PagingArgs(limit, offset) && |args'| <= |args| + 2
    ensures WellFormed(ps', |args'|) && query' == Render(ps', 9) && Slots(ps') == |args'|
    ensures Render(ps', 0) == Render(ps, 0) + PagingSql(limit, offset)
  {
    var q1, a1, i1, p1 := AddOptional(limit.Some?, query, args, argIndex, " LIMIT ", "", IntArg(limit.GetOr(0)), ps);
    query', args', argIndex', ps' := AddOptional(offset.Some?, q1, a1, i1, " OFFSET ", "", IntArg(offset.GetOr(0)), p1);
    AppendAssoc(Render(ps, 0), When(limit.Some?, Clause(" LIMIT ", "")), When(offset.Some?, Clause(" OFFSET ", "")));
    AppendAssoc(args, OptArg(limit.Some?, IntArg(limit.GetOr(0))), OptArg(offset.Some?, IntArg(offset.GetOr(0))));
  }
}
