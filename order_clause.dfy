/** `build_order_clause` of the dataset service: sort conditions, taken in
    ascending priority, become the body of an ORDER BY. */
module OrderBuilder {
  import opened Text

  /** `SortCondition`: column, direction text as the client sent it, priority
      (a smaller number sorts first). */
  datatype SortCondition = SortCondition(column: string, direction: string, priority: int)

  /** `"ASC" if direction.lower() == "asc" else "DESC"`. */
  function DirectionKeyword(direction: string): string {
    if Lower(direction) == "asc" then "ASC" else "DESC"
  }

  /** One ORDER BY term: the column and its keyword. */
  function OrderTerm(s: SortCondition): string {
    s.column + " " + DirectionKeyword(s.direction)
  }

  /** The spellings of `asc` in any mix of cases. */
  const AscSpellings: set<string> := {"asc", "asC", "aSc", "aSC", "Asc", "AsC", "ASc", "ASC"}

  /** A direction renders as ASC exactly when it is `asc` in some mix of
      cases; every other string, `desc` or not, renders as DESC. */
  lemma DirectionAscIff(direction: string)
    ensures DirectionKeyword(direction) == "ASC" <==> direction in AscSpellings
    ensures DirectionKeyword(direction) != "ASC" ==> DirectionKeyword(direction) == "DESC"
  {
    assert IsLowered("asc");
    LowerMatches(direction, "asc");
    if |direction| == 3 {
      assert direction == [direction[0], direction[1], direction[2]];
    }
  }

  // ---------------------------------------------------------------------------
  // Python's `sorted(sorts, key=lambda x: x.priority)`

  ghost predicate NonDecreasing(s: seq<SortCondition>) {
    forall i, j :: 0 <= i < j < |s| ==> s[i].priority <= s[j].priority
  }

  /** The conditions of priority `p`, in their order in `s`. */
  function WithPriority(s: seq<SortCondition>, p: int): seq<SortCondition>
    decreases |s|
  {
    if s == [] then [] else (if s[0].priority == p then [s[0]] else []) + WithPriority(s[1..], p)
  }

  /** Puts `x` before the first element whose priority is not smaller. */
  function Insert(x: SortCondition, t: seq<SortCondition>): seq<SortCondition>
    decreases |t|
  {
    if t == [] || x.priority <= t[0].priority then [x] + t else [t[0]] + Insert(x, t[1..])
  }

  /** A stable sort by priority (insertion sort). */
  function SortByPriority(s: seq<SortCondition>): seq<SortCondition>
    decreases |s|
  {
    if s == [] then [] else Insert(s[0], SortByPriority(s[1..]))
  }

  lemma {:induction false} InsertFacts(x: SortCondition, t: seq<SortCondition>)
    requires NonDecreasing(t)
    ensures NonDecreasing(Insert(x, t))
    ensures multiset(Insert(x, t)) == multiset(t) + multiset{x}
    decreases |t|
  {
    if t == [] || x.priority <= t[0].priority {
    } else {
      var rest := Insert(x, t[1..]);
      InsertFacts(x, t[1..]);
      assert multiset(t) == multiset{t[0]} + multiset(t[1..]) by {
        assert t == [t[0]] + t[1..];
      }
      forall y | y in rest ensures t[0].priority <= y.priority {
        assert y in multiset(rest);
        if y != x {
          assert y in t[1..];
        }
      }
      ConsNonDecreasing(t[0], rest);
    }
  }

  lemma ConsNonDecreasing(y: SortCondition, s: seq<SortCondition>)
    requires NonDecreasing(s)
    requires forall z :: z in s ==> y.priority <= z.priority
    ensures NonDecreasing([y] + s)
  {
    forall i, j | 0 <= i < j < |[y] + s| ensures ([y] + s)[i].priority <= ([y] + s)[j].priority {
      if i > 0 {
        assert ([y] + s)[i] == s[i - 1];
      }
      assert ([y] + s)[j] == s[j - 1];
    }
  }

  lemma {:induction false} InsertWithPriority(x: SortCondition, t: seq<SortCondition>, p: int)
    ensures WithPriority(Insert(x, t), p) == (if x.priority == p then [x] else []) + WithPriority(t, p)
    decreases |t|
  {
    if t == [] || x.priority <= t[0].priority {
      WithPriorityCons(x, t, p);
    } else {
      InsertWithPriority(x, t[1..], p);
      WithPriorityCons(t[0], Insert(x, t[1..]), p);
    }
  }

  lemma WithPriorityCons(y: SortCondition, s: seq<SortCondition>, p: int)
    ensures WithPriority([y] + s, p) == (if y.priority == p then [y] else []) + WithPriority(s, p)
  {
    assert ([y] + s)[1..] == s;
  }

  /** The sort orders conditions by non-decreasing priority and keeps every
      condition exactly once. */
  lemma {:induction false} SortSortsAndPermutes(s: seq<SortCondition>)
    ensures NonDecreasing(SortByPriority(s))
    ensures multiset(SortByPriority(s)) == multiset(s)
    ensures |SortByPriority(s)| == |s|
    decreases |s|
  {
    if s != [] {
      SortSortsAndPermutes(s[1..]);
      InsertFacts(s[0], SortByPriority(s[1..]));
      assert s == [s[0]] + s[1..];
    }
    assert |multiset(SortByPriority(s))| == |multiset(s)|;
  }

  /** The sort is stable: conditions of equal priority keep their input order. */
  lemma {:induction false} SortStable(s: seq<SortCondition>, p: int)
    ensures WithPriority(SortByPriority(s), p) == WithPriority(s, p)
    decreases |s|
  {
    if s != [] {
      SortStable(s[1..], p);
      InsertWithPriority(s[0], SortByPriority(s[1..]), p);
    }
  }

  lemma {:induction false} WithPriorityBelow(s: seq<SortCondition>, p: int)
    requires NonDecreasing(s) && s != [] && p < s[0].priority
    ensures WithPriority(s, p) == []
    decreases |s|
  {
    if |s| > 1 {
      WithPriorityBelow(s[1..], p);
    } else {
      assert s[1..] == [];
    }
  }

  lemma HeadPriorityPresent(s: seq<SortCondition>)
    requires s != []
    ensures WithPriority(s, s[0].priority) != []
  {
  }

  /** A non-decreasing order that keeps each priority's conditions in input
      order is unique, so `SortByPriority` is exactly what a stable sort by
      priority returns. */
  lemma {:induction false} StableOrderUnique(a: seq<SortCondition>, b: seq<SortCondition>)
    requires NonDecreasing(a) && NonDecreasing(b)
    requires forall p :: WithPriority(a, p) == WithPriority(b, p)
    ensures a == b
    decreases |a| + |b|
  {
    if a == [] && b != [] {
      HeadPriorityPresent(b);
    } else if a != [] && b == [] {
      HeadPriorityPresent(a);
    } else if a != [] && b != [] {
      {
        var pa, pb := a[0].priority, b[0].priority;
        assert WithPriority(a, pa) != [];
        assert WithPriority(b, pb) != [];
        if pa < pb {
          WithPriorityBelow(b, pa);
        }
        if pb < pa {
          WithPriorityBelow(a, pb);
        }
        assert pa == pb;
        assert WithPriority(a, pa) == [a[0]] + WithPriority(a[1..], pa);
        assert WithPriority(b, pa) == [b[0]] + WithPriority(b[1..], pa);
        assert WithPriority(a, pa) == WithPriority(b, pa);
        assert a[0] == WithPriority(a, pa)[0] == WithPriority(b, pa)[0] == b[0];
        forall p ensures WithPriority(a[1..], p) == WithPriority(b[1..], p) {
          assert WithPriority(a, p) == WithPriority(b, p);
          if p == pa {
            assert ([a[0]] + WithPriority(a[1..], pa))[1..] == WithPriority(a[1..], pa);
            assert ([b[0]] + WithPriority(b[1..], pa))[1..] == WithPriority(b[1..], pa);
          } else {
            assert WithPriority(a, p) == WithPriority(a[1..], p);
            assert WithPriority(b, p) == WithPriority(b[1..], p);
          }
        }
        StableOrderUnique(a[1..], b[1..]);
        assert a == [a[0]] + a[1..];
        assert b == [b[0]] + b[1..];
      }
    }
  }

  // ---------------------------------------------------------------------------
  // The clause

  /** The ORDER BY terms, one per condition in sorted order. */
  function OrderTerms(sorts: seq<SortCondition>): seq<string> {
    var sorted := SortByPriority(sorts);
    seq(|sorted|, i requires 0 <= i < |sorted| => OrderTerm(sorted[i]))
  }

  function OrderClause(sorts: seq<SortCondition>): string {
    if sorts == [] then "id ASC" else Join(OrderTerms(sorts), ", ")
  }

  /** `build_order_clause(sorts)`. */
  method BuildOrderClause(sorts: seq<SortCondition>) returns (clause: string)
    ensures clause == OrderClause(sorts)
    ensures sorts == [] ==> clause == "id ASC"
  {
    if |sorts| == 0 {
      return "id ASC";
    }
    var sortedSorts := SortByPriority(sorts);
    var orderParts: seq<string> := [];
    for k := 0 to |sortedSorts|
      invariant orderParts == seq(k, i requires 0 <= i < k => OrderTerm(sortedSorts[i]))
    {
      var direction := if Lower(sortedSorts[k].direction) == "asc" then "ASC" else "DESC";
      orderParts := orderParts + [sortedSorts[k].column + " " + direction];
    }
    clause := Join(orderParts, ", ");
  }

  /** For a non-empty sort list the clause joins exactly one term per
      condition with ", ", the terms following the conditions in
      non-decreasing priority, ties in input order. */
  lemma OrderClauseTerms(sorts: seq<SortCondition>)
    requires sorts != []
    ensures OrderClause(sorts) == Join(OrderTerms(sorts), ", ")
    ensures |OrderTerms(sorts)| == |sorts|
    ensures var r := SortByPriority(sorts);
      && |r| == |sorts|
      && NonDecreasing(r)
      && multiset(r) == multiset(sorts)
      && (forall p :: WithPriority(r, p) == WithPriority(sorts, p))
      && (forall i :: 0 <= i < |r| ==> OrderTerms(sorts)[i] == OrderTerm(r[i]))
  {
    SortSortsAndPermutes(sorts);
    forall p ensures WithPriority(SortByPriority(sorts), p) == WithPriority(sorts, p) {
      SortStable(sorts, p);
    }
  }
}
