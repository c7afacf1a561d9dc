/** SQL text as the dataset service builds it: literal text interleaved with
    asyncpg's positional placeholders `$1`, `$2`, ...  Keeping each placeholder
    as its own piece lets the model say which `$k` the builders emitted, apart
    from whatever the caller-supplied column and operator text contains. */
module Sql {
  import opened Text

  datatype Piece = Lit(text: string) | Ph(index: nat)

  type Sql = seq<Piece>

  /** The characters a piece contributes: its text, or `$` and the index in decimal. */
  function PieceText(p: Piece): string {
    match p
    case Lit(t) => t
    case Ph(k) => "$" + Decimal(k)
  }

  /** The SQL string handed to the database. */
  function Render(q: Sql): string
    decreases |q|
  {
    if q == [] then "" else PieceText(q[0]) + Render(q[1..])
  }

  /** The placeholder indices emitted, in textual order. */
  function Placeholders(q: Sql): seq<nat>
    decreases |q|
  {
    if q == [] then [] else (if q[0].Ph? then [q[0].index] else []) + Placeholders(q[1..])
  }

  /** The rendering of `$k` starts with `$` and its digits read back as `k`. */
  lemma PlaceholderText(k: nat)
    ensures |PieceText(Ph(k))| >= 2 && PieceText(Ph(k))[0] == '$'
    ensures ParseDecimal(PieceText(Ph(k))[1..]) == k
  {
    assert PieceText(Ph(k))[1..] == Decimal(k);
    DecimalRoundTrip(k);
  }

  lemma {:induction false} RenderAppend(a: Sql, b: Sql)
    ensures Render(a + b) == Render(a) + Render(b)
    decreases |a|
  {
    if a != [] {
      assert (a + b)[1..] == a[1..] + b;
      RenderAppend(a[1..], b);
    } else {
      assert a + b == b;
    }
  }

  lemma {:induction false} PlaceholdersAppend(a: Sql, b: Sql)
    ensures Placeholders(a + b) == Placeholders(a) + Placeholders(b)
    decreases |a|
  {
    if a != [] {
      assert (a + b)[1..] == a[1..] + b;
      PlaceholdersAppend(a[1..], b);
    } else {
      assert a + b == b;
    }
  }

  lemma OnePiece(p: Piece)
    ensures Render([p]) == PieceText(p)
    ensures Placeholders([p]) == if p.Ph? then [p.index] else []
  {
    assert [p][1..] == [];
  }

  lemma PairPieces(a: Piece, b: Piece)
    ensures Render([a, b]) == PieceText(a) + PieceText(b)
    ensures Placeholders([a, b]) == (if a.Ph? then [a.index] else []) + (if b.Ph? then [b.index] else [])
  {
    assert [a, b] == [a] + [b];
    RenderAppend([a], [b]);
    PlaceholdersAppend([a], [b]);
    OnePiece(a);
    OnePiece(b);
  }

  /** Literal text, then `q`, then `tail`: the placeholders are those of `q` and `tail`. */
  lemma FramedPlaceholders(head: string, q: Sql, tail: Sql)
    ensures Placeholders([Lit(head)] + q + tail) == Placeholders(q) + Placeholders(tail)
  {
    var x := [Lit(head)];
    assert Placeholders(x) == [] by {
      OnePiece(Lit(head));
    }
    PlaceholdersAppend(x, q);
    PlaceholdersAppend(x + q, tail);
  }

  /** Literal text, then `q`, then `tail`: the texts line up. */
  lemma FramedRender(head: string, q: Sql, tail: Sql)
    ensures Render([Lit(head)] + q + tail) == head + Render(q) + Render(tail)
  {
    var x := [Lit(head)];
    RenderAppend(x + q, tail);
    RenderAppend(x, q);
    OnePiece(Lit(head));
    assert Render(x) == head;
  }

  /** Two placeholders, each after a literal, then closing text. */
  lemma TwoPlaceholders(a: string, j: nat, b: string, k: nat, c: string)
    ensures Placeholders([Lit(a), Ph(j)] + [Lit(b), Ph(k)] + [Lit(c)]) == [j, k]
  {
    var p1, p2, p3 := [Lit(a), Ph(j)], [Lit(b), Ph(k)], [Lit(c)];
    PlaceholdersAppend(p1 + p2, p3);
    PlaceholdersAppend(p1, p2);
    PairPieces(Lit(a), Ph(j));
    PairPieces(Lit(b), Ph(k));
    OnePiece(Lit(c));
    OnePiece(Ph(j));
    OnePiece(Ph(k));
    assert Placeholders(p1) == [j];
    assert Placeholders(p2) == [k];
    assert Placeholders(p3) == [];
  }

  /** The text of two placeholders, each after a literal, then closing text. */
  lemma TwoPlaceholdersText(a: string, j: nat, b: string, k: nat, c: string)
    ensures Render([Lit(a), Ph(j)] + [Lit(b), Ph(k)] + [Lit(c)])
         == a + PieceText(Ph(j)) + b + PieceText(Ph(k)) + c
  {
    var p1, p2, p3 := [Lit(a), Ph(j)], [Lit(b), Ph(k)], [Lit(c)];
    RenderAppend(p1 + p2, p3);
    RenderAppend(p1, p2);
    PairPieces(Lit(a), Ph(j));
    PairPieces(Lit(b), Ph(k));
    OnePiece(Lit(c));
    var tj, tk := PieceText(Ph(j)), PieceText(Ph(k));
    assert (a + tj) + (b + tk) == a + tj + b + tk;
  }

  /** Python's `sep.join(parts)` on SQL fragments. */
  function JoinSql(parts: seq<Sql>, sep: string): Sql
    decreases |parts|
  {
    if |parts| == 0 then []
    else if |parts| == 1 then parts[0]
    else parts[0] + [Lit(sep)] + JoinSql(parts[1..], sep)
  }

  /** The placeholders of a list of fragments, fragment after fragment. */
  function AllPlaceholders(parts: seq<Sql>): seq<nat>
    decreases |parts|
  {
    if parts == [] then [] else Placeholders(parts[0]) + AllPlaceholders(parts[1..])
  }

  /** The separator is literal text: joining adds no placeholder and reorders none. */
  lemma {:induction false} JoinPlaceholders(parts: seq<Sql>, sep: string)
    ensures Placeholders(JoinSql(parts, sep)) == AllPlaceholders(parts)
    decreases |parts|
  {
    if |parts| == 1 {
      assert parts[1..] == [];
    } else if |parts| > 1 {
      JoinPlaceholders(parts[1..], sep);
      PlaceholdersAppend(parts[0] + [Lit(sep)], JoinSql(parts[1..], sep));
      PlaceholdersAppend(parts[0], [Lit(sep)]);
    }
  }

  /** Rendering a joined list is joining the rendered fragments. */
  lemma {:induction false} JoinRender(parts: seq<Sql>, sep: string)
    ensures Render(JoinSql(parts, sep)) == Join(RenderAll(parts), sep)
    decreases |parts|
  {
    if |parts| > 1 {
      JoinRender(parts[1..], sep);
      RenderAppend(parts[0] + [Lit(sep)], JoinSql(parts[1..], sep));
      RenderAppend(parts[0], [Lit(sep)]);
      assert RenderAll(parts)[1..] == RenderAll(parts[1..]);
    }
  }

  function RenderAll(parts: seq<Sql>): (r: seq<string>)
    ensures |r| == |parts|
  {
    seq(|parts|, i requires 0 <= i < |parts| => Render(parts[i]))
  }

  lemma {:induction false} AllPlaceholdersSnoc(parts: seq<Sql>, q: Sql)
    ensures AllPlaceholders(parts + [q]) == AllPlaceholders(parts) + Placeholders(q)
    decreases |parts|
  {
    if parts == [] {
      assert [q][1..] == [];
    } else {
      assert (parts + [q])[1..] == parts[1..] + [q];
      AllPlaceholdersSnoc(parts[1..], q);
    }
  }

  /** `n` consecutive numbers starting at `lo`. */
  function Consecutive(lo: nat, n: nat): seq<nat> {
    seq(n, i requires 0 <= i < n => lo + i)
  }

  lemma ConsecutiveSplit(lo: nat, m: nat, n: nat)
    ensures Consecutive(lo, m) + Consecutive(lo + m, n) == Consecutive(lo, m + n)
  {
  }

  /** The central placeholder invariant: the placeholders of `q` are exactly
      `$1, $2, ..., $n` in order, where `n` is the number of parameters, so
      `$k` refers to `params[k-1]`. */
  ghost predicate WellNumbered<T>(q: Sql, params: seq<T>) {
    Placeholders(q) == Consecutive(1, |params|)
  }

  /** What the invariant gives a reader of the SQL: every placeholder names an
      existing parameter, and every parameter is named by exactly one placeholder. */
  lemma WellNumberedMeaning<T>(q: Sql, params: seq<T>)
    requires WellNumbered(q, params)
    ensures |Placeholders(q)| == |params|
    ensures forall k :: k in Placeholders(q) <==> 1 <= k <= |params|
    ensures forall i, j :: 0 <= i < j < |Placeholders(q)| ==> Placeholders(q)[i] < Placeholders(q)[j]
  {
    forall k | 1 <= k <= |params| ensures k in Placeholders(q) {
      assert Placeholders(q)[k - 1] == k;
    }
  }
}
