/**
 The substitution `FormatLog` performs with the pattern `\[(.*?)\]` and Go's
 `ReplaceAllStringFunc` (format.go), written as a direct left-to-right scan.
 A match is a `[`, then the shortest run of characters other than a line
 break, then `]`: it ends at the first `]`, and may contain further `[`.
 Matches are taken leftmost first and never overlap; the text between them
 is copied, and a replacement is never scanned again.
 */
module Scanner {
  import opened Wrappers

  /** One piece of a scanned string: a character copied as it is, or a whole match. */
  datatype Piece = Lit(c: char) | Token(text: string)

  function PieceText(p: Piece): string {
    match p
    case Lit(c) => [c]
    case Token(t) => t
  }

  /** The text the pieces were cut from. */
  function Join(ps: seq<Piece>): string {
    if ps == [] then [] else PieceText(ps[0]) + Join(ps[1..])
  }

  /** `s[i..k]` holds neither a `]` nor a line break. */
  predicate Clean(s: string, i: nat, k: nat)
    requires i <= k <= |s|
  {
    forall m :: i <= m < k ==> s[m] != ']' && s[m] != '\n'
  }

  /** `t` is, as a whole, a match of `\[(.*?)\]`. */
  predicate IsMatch(t: string) {
    2 <= |t| && t[0] == '[' && t[|t| - 1] == ']' && Clean(t, 1, |t| - 1)
  }

  /** No match occurs anywhere in `s`. */
  predicate NoMatch(s: string) {
    forall i, j :: 0 <= i <= j <= |s| ==> !IsMatch(s[i..j])
  }

  /** The first `]` at or after `i`, unless a line break comes first. */
  function FirstClose(s: string, i: nat): (r: Option<nat>)
    requires i <= |s|
    ensures r.Some? ==> i <= r.value < |s| && s[r.value] == ']' && Clean(s, i, r.value)
    ensures r.None? ==> forall k :: i <= k < |s| && s[k] == ']' ==> !Clean(s, i, k)
    decreases |s| - i
  {
    if i == |s| then None
    else if s[i] == ']' then Some(i)
    else if s[i] == '\n' then None
    else FirstClose(s, i + 1)
  }

  lemma CleanPrefix(s: string, n: nat, i: nat, k: nat)
    requires i <= k <= n <= |s|
    ensures Clean(s[..n], i, k) <==> Clean(s, i, k)
  {
    assert forall m :: i <= m < k ==> s[..n][m] == s[m];
  }

  /** The length of the match that starts `s`, if one does; there is at most one. */
  function MatchAt(s: string): (r: Option<nat>)
    ensures forall n :: 2 <= n <= |s| ==> (IsMatch(s[..n]) <==> r == Some(n))
    ensures r.Some? ==> 2 <= r.value <= |s|
  {
    if |s| == 0 || s[0] != '[' then None
    else
      match FirstClose(s, 1)
      case Some(k) =>
        MatchAtSome(s, k);
        Some(k + 1)
      case None =>
        MatchAtNone(s);
        None
  }

  lemma MatchAtSome(s: string, k: nat)
    requires 1 <= k < |s| && s[0] == '[' && s[k] == ']' && Clean(s, 1, k)
    ensures forall n :: 2 <= n <= |s| ==> (IsMatch(s[..n]) <==> n == k + 1)
  {
    forall n | 2 <= n <= |s|
      ensures IsMatch(s[..n]) <==> n == k + 1
    {
      CleanPrefix(s, n, 1, n - 1);
      if n - 1 < k {
        assert s[..n][n - 1] == s[n - 1] != ']';
      } else if n - 1 > k {
        assert !Clean(s, 1, n - 1) by { assert s[k] == ']'; }
      }
    }
  }

  lemma MatchAtNone(s: string)
    requires 1 <= |s| && s[0] == '['
    requires forall k :: 1 <= k < |s| && s[k] == ']' ==> !Clean(s, 1, k)
    ensures forall n :: 2 <= n <= |s| ==> !IsMatch(s[..n])
  {
    forall n | 2 <= n <= |s|
      ensures !IsMatch(s[..n])
    {
      CleanPrefix(s, n, 1, n - 1);
      assert s[..n][n - 1] == s[n - 1];
    }
  }

  /** Cuts `s` into copied characters and matches, leftmost match first. */
  function Scan(s: string): (ps: seq<Piece>)
    ensures Join(ps) == s
    ensures forall p :: p in ps && p.Token? ==> IsMatch(p.text)
    decreases |s|
  {
    if s == [] then []
    else
      match MatchAt(s)
      case Some(n) =>
        assert s[..n] + s[n..] == s;
        [Token(s[..n])] + Scan(s[n..])
      case None =>
        assert [s[0]] + s[1..] == s;
        [Lit(s[0])] + Scan(s[1..])
  }

  /** The pieces with every match replaced by `f` of it. */
  function Render(ps: seq<Piece>, f: string -> string): string {
    if ps == [] then []
    else
      match ps[0]
      case Lit(c) => [c] + Render(ps[1..], f)
      case Token(t) => f(t) + Render(ps[1..], f)
  }

  /** Go's `ReplaceAllStringFunc(s, f)` for the pattern `\[(.*?)\]`: text
      without any `[` comes back unchanged, whatever `f` is. */
  function ReplaceAll(s: string, f: string -> string): (r: string)
    ensures '[' !in s ==> r == s
  {
    PlainNoMatch(s);
    RenderNoMatch(s, f);
    Render(Scan(s), f)
  }

  /** Every match starts with `[`, so text without one holds no match. */
  lemma PlainNoMatch(s: string)
    ensures '[' !in s ==> NoMatch(s)
  {
    if '[' !in s {
      forall i, j | 0 <= i <= j <= |s| ensures !IsMatch(s[i..j]) {
        if i < j { assert s[i..j][0] == s[i]; }
      }
    }
  }

  /** A match at the front of `s` is consumed whole. */
  lemma ScanAtMatch(t: string, s: string)
    requires IsMatch(t)
    ensures Scan(t + s) == [Token(t)] + Scan(s)
  {
    assert (t + s)[..|t|] == t;
    assert (t + s)[|t|..] == s;
  }

  /** Where no match starts, one character is copied and the scan moves on. */
  lemma ScanAtLiteral(s: string)
    requires s != []
    requires forall n :: 2 <= n <= |s| ==> !IsMatch(s[..n])
    ensures Scan(s) == [Lit(s[0])] + Scan(s[1..])
  {
  }

  /** The match at the front is replaced, and the replacement is not rescanned. */
  lemma ReplaceAllAtMatch(t: string, s: string, f: string -> string)
    requires IsMatch(t)
    ensures ReplaceAll(t + s, f) == f(t) + ReplaceAll(s, f)
  {
    ScanAtMatch(t, s);
  }

  /** A character other than `[` at the front is copied. */
  lemma ReplaceAllAtLiteral(c: char, s: string, f: string -> string)
    requires c != '['
    ensures ReplaceAll([c] + s, f) == [c] + ReplaceAll(s, f)
  {
    assert ([c] + s)[1..] == s;
  }

  /** Text without `[` at the front is copied whole. */
  lemma {:induction false} ReplaceAllAtPlain(lit: string, s: string, f: string -> string)
    requires '[' !in lit
    ensures ReplaceAll(lit + s, f) == lit + ReplaceAll(s, f)
    decreases |lit|
  {
    if lit == [] {
      assert lit + s == s;
    } else {
      var c, t, r := lit[0], lit[1..] + s, ReplaceAll(s, f);
      assert [c] + lit[1..] == lit;
      assert [c] + t == lit + s;
      assert [c] + (lit[1..] + r) == lit + r;
      ReplaceAllAtPlain(lit[1..], s, f);
      ReplaceAllAtLiteral(c, t, f);
    }
  }

  /** A template: a run of plain text, or a span meant to be matched whole. */
  datatype Segment = Plain(plain: string) | Whole(span: string)

  /** The string a template spells. */
  function Spell(segs: seq<Segment>): string {
    if segs == [] then []
    else
      match segs[0]
      case Plain(p) => p + Spell(segs[1..])
      case Whole(t) => t + Spell(segs[1..])
  }

  /** The template with each whole span replaced by `f` of it. */
  function Fill(segs: seq<Segment>, f: string -> string): string {
    if segs == [] then []
    else
      match segs[0]
      case Plain(p) => p + Fill(segs[1..], f)
      case Whole(t) => f(t) + Fill(segs[1..], f)
  }

  /** Plain runs hold no `[` and whole spans are matches. */
  predicate WellCut(segs: seq<Segment>) {
    forall i :: 0 <= i < |segs| ==>
      match segs[i]
      case Plain(p) => '[' !in p
      case Whole(t) => IsMatch(t)
  }

  /** A string cut into plain runs and whole matches is rendered piece by
      piece: each match replaced, the text between copied. */
  lemma {:induction false} ReplaceAllTemplate(segs: seq<Segment>, f: string -> string)
    requires WellCut(segs)
    ensures ReplaceAll(Spell(segs), f) == Fill(segs, f)
    decreases |segs|
  {
    if segs != [] {
      assert WellCut(segs[1..]) by {
        forall i | 0 <= i < |segs[1..]| ensures segs[1..][i] == segs[i + 1] { }
      }
      ReplaceAllTemplate(segs[1..], f);
      assert WellCut(segs) ==> (match segs[0] case Plain(p) => '[' !in p case Whole(t) => IsMatch(t));
      match segs[0]
      case Plain(p) => ReplaceAllAtPlain(p, Spell(segs[1..]), f);
      case Whole(t) => ReplaceAllAtMatch(t, Spell(segs[1..]), f);
    }
  }

  /** Replacement functions that agree on every match render the same text. */
  lemma {:induction false} RenderAgree(ps: seq<Piece>, f: string -> string, g: string -> string)
    requires forall p :: p in ps && p.Token? ==> f(p.text) == g(p.text)
    ensures Render(ps, f) == Render(ps, g)
    decreases |ps|
  {
    if ps != [] {
      assert forall p :: p in ps[1..] ==> p in ps;
      RenderAgree(ps[1..], f, g);
    }
  }

  lemma {:induction false} RenderFixed(ps: seq<Piece>, f: string -> string)
    requires forall p :: p in ps && p.Token? ==> f(p.text) == p.text
    ensures Render(ps, f) == Join(ps)
    decreases |ps|
  {
    if ps != [] {
      assert forall p :: p in ps[1..] ==> p in ps;
      RenderFixed(ps[1..], f);
    }
  }

  /** If `f` gives back every match it is handed, the string comes back unchanged. */
  lemma ReplaceAllFixed(s: string, f: string -> string)
    requires forall p :: p in Scan(s) && p.Token? ==> f(p.text) == p.text
    ensures ReplaceAll(s, f) == s
  {
    RenderFixed(Scan(s), f);
  }

  /** The scan of a string without any match copies it, whatever `f` is. */
  lemma {:induction false} RenderNoMatch(s: string, f: string -> string)
    ensures NoMatch(s) ==> Render(Scan(s), f) == s
    decreases |s|
  {
    if s != [] && NoMatch(s) {
      assert forall n :: 2 <= n <= |s| ==> !IsMatch(s[..n]) by {
        forall n | 2 <= n <= |s| ensures !IsMatch(s[..n]) {
          assert s[..n] == s[0..n];
        }
      }
      assert NoMatch(s[1..]) by {
        forall i, j | 0 <= i <= j <= |s[1..]| ensures !IsMatch(s[1..][i..j]) {
          assert s[1..][i..j] == s[i + 1..j + 1];
        }
      }
      ScanAtLiteral(s);
      RenderNoMatch(s[1..], f);
    }
  }

  /** A string without any match comes back unchanged, whatever `f` is. */
  lemma ReplaceAllNoMatchIf(s: string, f: string -> string)
    ensures NoMatch(s) ==> ReplaceAll(s, f) == s
  {
    RenderNoMatch(s, f);
  }
}
