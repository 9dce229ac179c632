/**
 Assignment of form inputs to field types in the sign-up form analysis
 (internal/agent/js_scripts/form_analysis.js): all pairs above a threshold are sorted by
 score and taken greedily. The guarantee of that rule is one half of the optimum, which is
 stated here against every possible matching; it is not an optimal assignment.
 */
module FieldMatching {
  import opened Basics

  /** The identity of an INPUT element. */
  type Input = nat
  type FieldType = string

  datatype Entry = Entry(input: Input, field: FieldType, score: int)

  const MIN_SCORE_THRESHOLD := 5

  type Scorer = (Input, FieldType) -> int

  /** A pair that the analysis considers at all. */
  ghost predicate Eligible(inputs: seq<Input>, fields: seq<FieldType>, scoreOf: Scorer, e: Entry) {
    e.input in inputs && e.field in fields && e.score == scoreOf(e.input, e.field) && e.score > MIN_SCORE_THRESHOLD
  }

  predicate Conflict(a: Entry, b: Entry) {
    a.input == b.input || a.field == b.field
  }

  /** No input and no field type twice. */
  ghost predicate Matching(m: set<Entry>) {
    forall a <- m, b <- m :: a != b ==> !Conflict(a, b)
  }

  /** Every entry scores at least as much as everything after it. */
  ghost predicate Descending(list: seq<Entry>) {
    list != [] ==> (forall e <- list[1..] :: e.score <= list[0].score) && Descending(list[1..])
  }

  ghost predicate Positive(list: seq<Entry>) {
    forall e <- list :: e.score > 0
  }

  /** An (input, field type) pair occurs once. */
  ghost predicate PairsDiffer(list: seq<Entry>) {
    forall i, j :: 0 <= i < j < |list| ==> list[i].input != list[j].input || list[i].field != list[j].field
  }

  // --- The greedy rule ---------------------------------------------------------------------

  function Greedy(list: seq<Entry>, inputs: set<Input>, fields: set<FieldType>): seq<Entry> {
    if list == [] then []
    else if list[0].input !in inputs && list[0].field !in fields then
      [list[0]] + Greedy(list[1..], inputs + {list[0].input}, fields + {list[0].field})
    else Greedy(list[1..], inputs, fields)
  }

  function Total(list: seq<Entry>): int {
    if list == [] then 0 else list[0].score + Total(list[1..])
  }

  ghost function Sum(m: set<Entry>): int {
    if m == {} then 0 else var e :| e in m; e.score + Sum(m - {e})
  }

  lemma {:induction false} SumWithout(m: set<Entry>, e: Entry)
    requires e in m
    ensures Sum(m) == e.score + Sum(m - {e})
  {
    var x :| x in m && Sum(m) == x.score + Sum(m - {x});
    if x != e {
      SumWithout(m - {x}, e);
      SumWithout(m - {e}, x);
      assert m - {x} - {e} == m - {e} - {x};
    }
  }

  /** The members of a matching that clash with h: at most one by input and one by field type. */
  ghost function Without(m: set<Entry>, h: Entry): set<Entry> {
    set e | e in m && !Conflict(e, h)
  }

  /** What h displaces is nothing, one entry, or one entry by input and one by field type. */
  lemma Displaced(m: set<Entry>, h: Entry, bound: int, pairBound: int)
    requires Matching(m) && 0 <= bound <= pairBound
    requires forall e <- m :: Conflict(e, h) ==> e.score <= bound
    requires forall a <- m, b <- m :: a.input == h.input && b.field == h.field && a != b ==> a.score + b.score <= pairBound
    ensures Sum(m) <= pairBound + Sum(Without(m, h))
  {
    hide Sum;
    if a :| a in m && a.input == h.input {
      SumWithout(m, a);
      if b :| b in m && b.field == h.field && b != a {
        SumWithout(m - {a}, b);
        assert Without(m, h) == m - {a} - {b};
      } else {
        assert Without(m, h) == m - {a};
      }
    } else if b :| b in m && b.field == h.field {
      SumWithout(m, b);
      assert Without(m, h) == m - {b};
    } else {
      assert Without(m, h) == m;
    }
  }

  ghost predicate Avoids(m: set<Entry>, inputs: set<Input>, fields: set<FieldType>) {
    forall e <- m :: e.input !in inputs && e.field !in fields
  }

  /** One step of the rule when the head is free. */
  lemma GreedyTakes(list: seq<Entry>, inputs: set<Input>, fields: set<FieldType>)
    requires list != [] && list[0].input !in inputs && list[0].field !in fields
    ensures var later := Greedy(list[1..], inputs + {list[0].input}, fields + {list[0].field});
            && Greedy(list, inputs, fields) == [list[0]] + later
            && Total(Greedy(list, inputs, fields)) == list[0].score + Total(later)
  {
    assert Greedy(list, inputs, fields)[1..] == Greedy(list[1..], inputs + {list[0].input}, fields + {list[0].field});
  }

  lemma HeadOrTail(list: seq<Entry>)
    requires list != []
    ensures forall e :: e in list <==> e == list[0] || e in list[1..]
  {
  }

  /** What a head leaves of a matching lies in the tail and avoids the head. */
  lemma WithoutHead(list: seq<Entry>, inputs: set<Input>, fields: set<FieldType>, m: set<Entry>)
    requires list != [] && Matching(m) && Avoids(m, inputs, fields) && forall e <- m :: e in list
    ensures var m' := Without(m, list[0]);
            && Matching(m') && Avoids(m', inputs + {list[0].input}, fields + {list[0].field})
            && (forall e <- m' :: e in list[1..])
    ensures list[0].input in inputs || list[0].field in fields ==> forall e <- m :: e in list[1..]
  {
    HeadOrTail(list);
  }

  /** The greedy total is at least half of any matching over the same entries. */
  lemma {:induction false} HalfOfAnyMatching(list: seq<Entry>, inputs: set<Input>, fields: set<FieldType>, m: set<Entry>)
    requires Descending(list) && Positive(list)
    requires Matching(m) && Avoids(m, inputs, fields) && forall e <- m :: e in list
    ensures Sum(m) <= 2 * Total(Greedy(list, inputs, fields))
  {
    if list == [] {
      assert m == {};
    } else {
      var h, rest := list[0], list[1..];
      HeadOrTail(list);
      WithoutHead(list, inputs, fields, m);
      if h.input !in inputs && h.field !in fields {
        Displaced(m, h, h.score, 2 * h.score);
        HalfOfAnyMatching(rest, inputs + {h.input}, fields + {h.field}, Without(m, h));
        GreedyTakes(list, inputs, fields);
      } else {
        HalfOfAnyMatching(rest, inputs, fields, m);
      }
    }
  }

  ghost predicate Disjoint(chosen: seq<Entry>) {
    forall i, j :: 0 <= i < j < |chosen| ==> !Conflict(chosen[i], chosen[j])
  }

  /** The entry can no longer be assigned. */
  ghost predicate Blocked(e: Entry, inputs: set<Input>, fields: set<FieldType>, chosen: seq<Entry>) {
    e.input in inputs || e.field in fields || exists c <- chosen :: Conflict(e, c)
  }

  /** The chosen entries form a matching that avoids what was taken, and nothing can be added to it. */
  lemma {:induction false} GreedyIsMaximalMatching(list: seq<Entry>, inputs: set<Input>, fields: set<FieldType>)
    ensures MaximalOver(list, inputs, fields, Greedy(list, inputs, fields))
  {
    if list != [] {
      var h, rest := list[0], list[1..];
      HeadOrTail(list);
      if h.input !in inputs && h.field !in fields {
        GreedyIsMaximalMatching(rest, inputs + {h.input}, fields + {h.field});
        GreedyTakes(list, inputs, fields);
        MaximalStep(list, inputs, fields, Greedy(rest, inputs + {h.input}, fields + {h.field}));
      } else {
        GreedyIsMaximalMatching(rest, inputs, fields);
      }
    }
  }

  ghost predicate MaximalOver(list: seq<Entry>, inputs: set<Input>, fields: set<FieldType>, chosen: seq<Entry>) {
    && Disjoint(chosen)
    && (forall e <- chosen :: e in list && e.input !in inputs && e.field !in fields)
    && (forall e <- list :: Blocked(e, inputs, fields, chosen))
  }

  lemma MaximalStep(list: seq<Entry>, inputs: set<Input>, fields: set<FieldType>, later: seq<Entry>)
    requires list != [] && list[0].input !in inputs && list[0].field !in fields
    requires MaximalOver(list[1..], inputs + {list[0].input}, fields + {list[0].field}, later)
    ensures MaximalOver(list, inputs, fields, [list[0]] + later)
  {
    hide Disjoint, Blocked;
    var h := list[0];
    DisjointGrows(h, later);
    assert forall e <- list :: e == h || e in list[1..];
    assert forall e <- [h] + later :: e == h || e in later;
    forall e <- list ensures Blocked(e, inputs, fields, [h] + later) {
      BlockedEarlier(e, h, inputs, fields, later);
    }
  }

  lemma DisjointGrows(h: Entry, later: seq<Entry>)
    requires Disjoint(later) && forall e <- later :: !Conflict(h, e)
    ensures Disjoint([h] + later)
  {
    assert forall k :: 0 <= k < |later| ==> later[k] in later;
  }

  lemma BlockedEarlier(e: Entry, h: Entry, inputs: set<Input>, fields: set<FieldType>, later: seq<Entry>)
    requires e == h || Blocked(e, inputs + {h.input}, fields + {h.field}, later)
    ensures Blocked(e, inputs, fields, [h] + later)
  {
    if e.input == h.input || e.field == h.field {
      assert h in [h] + later;
    } else if e.input !in inputs && e.field !in fields {
      var c :| c in later && Conflict(e, c);
      assert c in [h] + later;
    }
  }

  // --- When the greedy rule is optimal -----------------------------------------------------

  /** No entry is outweighed by two later ones, one sharing its input and one sharing its field type. */
  ghost predicate NoBetterPair(list: seq<Entry>) {
    list != [] ==>
      && (forall a <- list[1..], b <- list[1..] ::
            a.input == list[0].input && b.field == list[0].field ==> a.score + b.score <= list[0].score)
      && NoBetterPair(list[1..])
  }

  /** The score matrix restricted to some of its entries. */
  ghost function Keep(list: seq<Entry>, keep: set<Entry>): seq<Entry> {
    if list == [] then []
    else (if list[0] in keep then [list[0]] else []) + Keep(list[1..], keep)
  }

  ghost predicate Optimal(list: seq<Entry>) {
    forall m: set<Entry> :: Matching(m) && (forall e <- m :: e in list) ==> Sum(m) <= Total(Greedy(list, {}, {}))
  }

  /** What the sorted score matrix satisfies. */
  ghost predicate Proper(list: seq<Entry>) {
    PairsDiffer(list) && Descending(list) && Positive(list)
  }

  lemma {:induction false} KeepMembers(list: seq<Entry>, keep: set<Entry>)
    ensures forall e :: e in Keep(list, keep) <==> e in list && e in keep
  {
    if list != [] {
      KeepMembers(list[1..], keep);
      HeadOrTail(list);
    }
  }

  lemma {:induction false} KeptPart(list: seq<Entry>, keep: set<Entry>)
    requires Proper(list)
    ensures Proper(Keep(list, keep))
    ensures NoBetterPair(list) ==> NoBetterPair(Keep(list, keep))
  {
    if list != [] {
      var rest := Keep(list[1..], keep);
      KeptPart(list[1..], keep);
      KeepMembers(list[1..], keep);
      if list[0] in keep {
        assert Keep(list, keep) == [list[0]] + rest;
        KeptHead(list[0], list[1..], rest);
      } else {
        assert Keep(list, keep) == rest;
      }
    }
  }

  /** Prepending the old head to a part of the old tail. */
  lemma KeptHead(h: Entry, rest: seq<Entry>, part: seq<Entry>)
    requires Proper([h] + rest) && Proper(part) && forall e <- part :: e in rest
    ensures Proper([h] + part)
    ensures NoBetterPair([h] + rest) && NoBetterPair(part) ==> NoBetterPair([h] + part)
  {
    assert ([h] + rest)[1..] == rest && ([h] + part)[1..] == part;
    forall e <- rest ensures e.input != h.input || e.field != h.field {
      var k :| 0 <= k < |rest| && rest[k] == e;
      assert ([h] + rest)[k + 1] == e;
    }
    assert forall k :: 0 <= k < |part| ==> part[k] in rest;
  }

  lemma {:induction false} OptimalWithoutBetterPair(list: seq<Entry>, inputs: set<Input>, fields: set<FieldType>, m: set<Entry>)
    requires Descending(list) && Positive(list) && NoBetterPair(list)
    requires Matching(m) && Avoids(m, inputs, fields) && forall e <- m :: e in list
    ensures Sum(m) <= Total(Greedy(list, inputs, fields))
  {
    if list == [] {
      assert m == {};
    } else {
      var h, rest := list[0], list[1..];
      HeadOrTail(list);
      WithoutHead(list, inputs, fields, m);
      forall a <- m, b <- m | a.input == h.input && b.field == h.field && a != b ensures a.score + b.score <= h.score {
        assert a != h && b != h;
      }
      if h.input !in inputs && h.field !in fields {
        Displaced(m, h, h.score, h.score);
        OptimalWithoutBetterPair(rest, inputs + {h.input}, fields + {h.field}, Without(m, h));
        GreedyTakes(list, inputs, fields);
      } else {
        OptimalWithoutBetterPair(rest, inputs, fields, m);
      }
    }
  }

  lemma {:induction false} AllBlocked(list: seq<Entry>, inputs: set<Input>, fields: set<FieldType>)
    requires forall e <- list :: e.input in inputs || e.field in fields
    ensures Greedy(list, inputs, fields) == []
  {
    if list != [] {
      AllBlocked(list[1..], inputs, fields);
    }
  }

  lemma SumOfTwo(a: Entry, b: Entry)
    requires a != b
    ensures Sum({a, b}) == a.score + b.score
  {
    SumWithout({a, b}, a);
    SumWithout({b}, b);
    assert {a, b} - {a} == {b} && {b} - {b} == {};
  }

  /** A list whose tail clashes with its head yields the head alone. */
  lemma OnlyHead(list: seq<Entry>)
    requires list != [] && forall e <- list[1..] :: Conflict(e, list[0])
    ensures Greedy(list, {}, {}) == [list[0]] && Total(Greedy(list, {}, {})) == list[0].score
  {
    AllBlocked(list[1..], {} + {list[0].input}, {} + {list[0].field});
    GreedyTakes(list, {}, {});
  }

  /** Two compatible entries that outweigh the only choice of the rule. */
  lemma BeatenByTwo(list: seq<Entry>, a: Entry, b: Entry)
    requires a in list && b in list && a != b && !Conflict(a, b) && a.score + b.score > Total(Greedy(list, {}, {}))
    ensures !Optimal(list)
  {
    SumOfTwo(a, b);
    assert Matching({a, b});
  }

  lemma HeadDiffers(list: seq<Entry>, e: Entry)
    requires PairsDiffer(list) && list != [] && e in list[1..]
    ensures e.input != list[0].input || e.field != list[0].field
  {
    var k :| 0 <= k < |list[1..]| && list[1..][k] == e;
    assert list[k + 1] == e;
  }

  lemma KeptThree(list: seq<Entry>, a: Entry, b: Entry)
    requires list != [] && a in list[1..] && b in list[1..]
    ensures var kept := Keep(list, {list[0], a, b});
            kept != [] && kept[0] == list[0] && a in kept && b in kept && forall e <- kept[1..] :: e in {list[0], a, b}
  {
    var keep := {list[0], a, b};
    KeepMembers(list[1..], keep);
    var later := Keep(list[1..], keep);
    assert Keep(list, keep) == [list[0]] + later;
    assert ([list[0]] + later)[1..] == later;
  }

  /** On the three entries alone the greedy rule takes the head and loses the better pair. */
  lemma BetterPairLoses(list: seq<Entry>, a: Entry, b: Entry)
    requires Proper(list) && list != [] && a in list[1..] && b in list[1..]
    requires a.input == list[0].input && b.field == list[0].field && a.score + b.score > list[0].score
    ensures !Optimal(Keep(list, {list[0], a, b}))
  {
    HeadDiffers(list, a);
    HeadDiffers(list, b);
    KeptThree(list, a, b);
    OnlyHead(Keep(list, {list[0], a, b}));
    BeatenByTwo(Keep(list, {list[0], a, b}), a, b);
  }

  /** Dropping the head keeps the sub-matrices. */
  lemma TailKeeps(list: seq<Entry>, keep: set<Entry>)
    requires list != [] && list[0] !in keep
    ensures Keep(list, keep) == Keep(list[1..], keep)
  {
  }

  lemma {:induction false} KeepIgnoresOthers(list: seq<Entry>, keep: set<Entry>, e: Entry)
    requires e !in list
    ensures Keep(list, keep) == Keep(list, keep - {e})
  {
    if list != [] {
      KeepIgnoresOthers(list[1..], keep, e);
    }
  }

  lemma OptimalParts(list: seq<Entry>, keep: set<Entry>)
    requires Proper(list) && NoBetterPair(list)
    ensures Optimal(Keep(list, keep))
  {
    KeptPart(list, keep);
    var kept := Keep(list, keep);
    forall m: set<Entry> | Matching(m) && (forall e <- m :: e in kept) ensures Sum(m) <= Total(Greedy(kept, {}, {})) {
      OptimalWithoutBetterPair(kept, {}, {}, m);
    }
  }

  lemma {:induction false} BetterPairBreaksSomePart(list: seq<Entry>) returns (keep: set<Entry>)
    requires Proper(list) && !NoBetterPair(list)
    ensures !Optimal(Keep(list, keep))
  {
    hide Optimal;
    var rest := list[1..];
    if NoBetterPair(rest) {
      var a, b :| a in rest && b in rest && a.input == list[0].input && b.field == list[0].field
                  && a.score + b.score > list[0].score;
      BetterPairLoses(list, a, b);
      keep := {list[0], a, b};
    } else {
      var part := BetterPairBreaksSomePart(rest);
      assert list[0] !in rest;
      KeepIgnoresOthers(rest, part, list[0]);
      keep := part - {list[0]};
      TailKeeps(list, keep);
    }
  }

  /** The greedy rule is optimal on every part of a score matrix exactly when no entry has a better pair. */
  lemma GreedyOptimalIff(list: seq<Entry>)
    requires Proper(list)
    ensures (forall keep: set<Entry> :: Optimal(Keep(list, keep))) <==> NoBetterPair(list)
  {
    hide Optimal, Keep, Proper;
    if NoBetterPair(list) {
      forall keep: set<Entry> ensures Optimal(Keep(list, keep)) {
        OptimalParts(list, keep);
      }
    } else {
      var keep := BetterPairBreaksSomePart(list);
    }
  }

  // --- The code ----------------------------------------------------------------------------

  /** All pairs above the threshold, each once. */
  method ScoreMatrix(inputs: seq<Input>, fields: seq<FieldType>, scoreOf: Scorer) returns (matrix: seq<Entry>)
    requires NoDup(inputs) && NoDup(fields)
    ensures NoDup(matrix) && forall e :: e in matrix <==> Eligible(inputs, fields, scoreOf, e)
  {
    matrix := [];
    for i := 0 to |inputs|
      invariant NoDup(matrix)
      invariant forall e :: e in matrix <==> Eligible(inputs[..i], fields, scoreOf, e)
    {
      ghost var before := matrix;
      assert inputs[..i + 1] == inputs[..i] + [inputs[i]];
      assert inputs[i] !in inputs[..i];
      for j := 0 to |fields|
        invariant NoDup(matrix)
        invariant forall e :: e in matrix <==>
                                e in before || (e.input == inputs[i] && Eligible([inputs[i]], fields[..j], scoreOf, e))
      {
        var score := scoreOf(inputs[i], fields[j]);
        assert fields[..j + 1] == fields[..j] + [fields[j]];
        if score > MIN_SCORE_THRESHOLD {
          assert Entry(inputs[i], fields[j], score) !in matrix;
          matrix := matrix + [Entry(inputs[i], fields[j], score)];
        }
      }
      assert fields[..|fields|] == fields;
    }
    assert inputs[..|inputs|] == inputs;
  }

  method Swap(a: array<Entry>, i: nat, j: nat)
    requires i < j < a.Length
    modifies a
    ensures a[..] == old(a[..])[i := old(a[j])][j := old(a[i])]
    ensures multiset(a[..]) == multiset(old(a[..]))
  {
    a[i], a[j] := a[j], a[i];
  }

  /** Everything before position n is in order, position k aside. */
  ghost predicate OrderedBut(list: seq<Entry>, n: nat, k: nat) {
    forall i, j :: 0 <= i < j < |list| && j <= n && j != k ==> list[i].score >= list[j].score
  }

  lemma SwapKeepsOrder(list: seq<Entry>, n: nat, k: nat)
    requires 0 < k <= n < |list| && OrderedBut(list, n, k) && list[k - 1].score < list[k].score
    ensures OrderedBut(list[k - 1 := list[k]][k := list[k - 1]], n, k - 1)
  {
  }

  /** The comparator b.score - a.score orders the matrix in place. */
  method SortByScore(matrix: array<Entry>)
    modifies matrix
    ensures multiset(matrix[..]) == multiset(old(matrix[..]))
    ensures forall i, j :: 0 <= i < j < matrix.Length ==> matrix[..][i].score >= matrix[..][j].score
  {
    for n := 0 to matrix.Length
      invariant multiset(matrix[..]) == multiset(old(matrix[..]))
      invariant OrderedBut(matrix[..], n, n)
    {
      var k := n;
      while k > 0 && matrix[k - 1].score < matrix[k].score
        invariant 0 <= k <= n
        invariant multiset(matrix[..]) == multiset(old(matrix[..]))
        invariant OrderedBut(matrix[..], n, k)
      {
        SwapKeepsOrder(matrix[..], n, k);
        Swap(matrix, k - 1, k);
        k := k - 1;
      }
    }
  }

  /** The form's field table holds exactly the chosen entries. */
  ghost predicate Records(fields: map<FieldType, Input>, chosen: seq<Entry>) {
    && (forall e <- chosen :: e.field in fields && fields[e.field] == e.input)
    && (forall f <- fields :: exists e <- chosen :: e.field == f && e.input == fields[f])
  }

  lemma RecordsGrows(fields: map<FieldType, Input>, chosen: seq<Entry>, e: Entry)
    requires Records(fields, chosen) && e.field !in fields
    ensures Records(fields[e.field := e.input], chosen + [e])
  {
    var longer := chosen + [e];
    assert forall x :: x in longer <==> x in chosen || x == e;
    assert e in longer;
  }

  lemma GreedyOfNothing(matrix: seq<Entry>, inputs: set<Input>, fields: set<FieldType>)
    ensures Greedy(matrix[|matrix|..], inputs, fields) == []
  {
  }

  /** What the loop has taken so far, one step on. */
  lemma GreedyAt(matrix: seq<Entry>, k: nat, inputs: set<Input>, fields: set<FieldType>, taken: seq<Entry>)
    requires k < |matrix|
    ensures taken + Greedy(matrix[k..], inputs, fields) ==
              if matrix[k].input !in inputs && matrix[k].field !in fields
              then (taken + [matrix[k]]) + Greedy(matrix[k + 1..], inputs + {matrix[k].input}, fields + {matrix[k].field})
              else taken + Greedy(matrix[k + 1..], inputs, fields)
  {
    assert matrix[k..][0] == matrix[k] && matrix[k..][1..] == matrix[k + 1..];
  }

  /** The assignment loop over a sorted matrix. */
  method Assign(matrix: seq<Entry>) returns (fields: map<FieldType, Input>, score: int)
    ensures score == Total(Greedy(matrix, {}, {}))
    ensures Records(fields, Greedy(matrix, {}, {}))
  {
    fields, score := map[], 0;
    assert Records(fields, []) && score == Total([]);
    var assignedInputs: set<Input>, assignedFieldTypes: set<FieldType> := {}, {};
    ghost var taken: seq<Entry> := [];
    assert matrix[0..] == matrix;
    for k := 0 to |matrix|
      invariant Greedy(matrix, {}, {}) == taken + Greedy(matrix[k..], assignedInputs, assignedFieldTypes)
      invariant score == Total(taken)
      invariant assignedFieldTypes == fields.Keys
      invariant Records(fields, taken)
    {
      var match_ := matrix[k];
      GreedyAt(matrix, k, assignedInputs, assignedFieldTypes, taken);
      if match_.input !in assignedInputs && match_.field !in assignedFieldTypes {
        TotalAppend(taken, match_);
        RecordsGrows(fields, taken, match_);
        taken := taken + [match_];
        fields := fields[match_.field := match_.input];
        score := score + match_.score;
        assignedInputs := assignedInputs + {match_.input};
        assignedFieldTypes := assignedFieldTypes + {match_.field};
      }
    }
    GreedyOfNothing(matrix, assignedInputs, assignedFieldTypes);
    assert taken == Greedy(matrix, {}, {});
  }

  lemma {:induction false} TotalAppend(list: seq<Entry>, e: Entry)
    ensures Total(list + [e]) == Total(list) + e.score
  {
    if list != [] {
      TotalAppend(list[1..], e);
      assert (list + [e])[1..] == list[1..] + [e];
    }
  }

  /** Pairwise order gives the recursive order. */
  lemma {:induction false} SortedIsDescending(list: seq<Entry>)
    requires forall i, j :: 0 <= i < j < |list| ==> list[i].score >= list[j].score
    ensures Descending(list)
  {
    if list != [] {
      SortedIsDescending(list[1..]);
    }
  }

  method Sorted(unsorted: seq<Entry>) returns (matrix: seq<Entry>)
    ensures Descending(matrix) && multiset(matrix) == multiset(unsorted) && forall e :: e in matrix <==> e in unsorted
  {
    var a := new Entry[|unsorted|](i requires 0 <= i < |unsorted| => unsorted[i]);
    assert a[..] == unsorted;
    SortByScore(a);
    matrix := a[..];
    SortedIsDescending(matrix);
    forall e ensures e in matrix <==> e in unsorted {
      assert e in multiset(matrix) <==> e in multiset(unsorted);
    }
  }

  /** Exactly the eligible pairs, the best first. */
  ghost predicate SortedMatrix(inputs: seq<Input>, fieldTypes: seq<FieldType>, scoreOf: Scorer, matrix: seq<Entry>) {
    Descending(matrix) && forall e :: e in matrix <==> Eligible(inputs, fieldTypes, scoreOf, e)
  }

  /**
   The assigned fields are an injective and maximal matching of eligible pairs whose score is at
   least half of the score of every other such matching.
   */
  method AssignFields(inputs: seq<Input>, fieldTypes: seq<FieldType>, scoreOf: Scorer)
    returns (fields: map<FieldType, Input>, score: int)
    requires NoDup(inputs) && NoDup(fieldTypes)
    ensures forall f <- fields :: Eligible(inputs, fieldTypes, scoreOf, Entry(fields[f], f, scoreOf(fields[f], f)))
    ensures forall f <- fields, g <- fields :: f != g ==> fields[f] != fields[g]
    ensures forall e :: Eligible(inputs, fieldTypes, scoreOf, e) ==> e.field in fields || e.input in fields.Values
    ensures forall m: set<Entry> :: Matching(m) && (forall e <- m :: Eligible(inputs, fieldTypes, scoreOf, e)) ==> Sum(m) <= 2 * score
    ensures score == Sum(set f | f in fields :: Entry(fields[f], f, scoreOf(fields[f], f)))
    ensures exists matrix :: SortedMatrix(inputs, fieldTypes, scoreOf, matrix) && Records(fields, Greedy(matrix, {}, {}))
  {
    hide Greedy, Total, Sum, Descending, Records, Matching, Eligible, NoDup;
    var unsorted := ScoreMatrix(inputs, fieldTypes, scoreOf);
    var matrix := Sorted(unsorted);
    fields, score := Assign(matrix);
    Conclude(inputs, fieldTypes, scoreOf, matrix, fields);
    assert SortedMatrix(inputs, fieldTypes, scoreOf, matrix);
    forall m: set<Entry> | Matching(m) && (forall e <- m :: Eligible(inputs, fieldTypes, scoreOf, e))
      ensures Sum(m) <= 2 * score {
      HalfOfEligible(inputs, fieldTypes, scoreOf, matrix, m);
    }
  }

  lemma {:induction false} TotalIsSum(list: seq<Entry>)
    requires NoDup(list)
    ensures Total(list) == Sum(set e | e in list)
  {
    if list != [] {
      var all := set e | e in list;
      SumWithout(all, list[0]);
      assert all - {list[0]} == set e | e in list[1..];
      TotalIsSum(list[1..]);
    }
  }

  /** The table read back as entries is the chosen set. */
  lemma RecordsIsChosen(scoreOf: Scorer, chosen: seq<Entry>, fields: map<FieldType, Input>)
    requires Disjoint(chosen) && Records(fields, chosen) && forall e <- chosen :: e.score == scoreOf(e.input, e.field)
    ensures Total(chosen) == Sum(set f | f in fields :: Entry(fields[f], f, scoreOf(fields[f], f)))
    ensures forall f <- fields :: Entry(fields[f], f, scoreOf(fields[f], f)) in chosen
  {
    TotalIsSum(chosen);
    var named := set f | f in fields :: Entry(fields[f], f, scoreOf(fields[f], f));
    assert named == set e | e in chosen;
  }

  lemma FieldsInjective(chosen: seq<Entry>, fields: map<FieldType, Input>)
    requires Disjoint(chosen) && Records(fields, chosen)
    ensures forall f <- fields, g <- fields :: f != g ==> fields[f] != fields[g]
  {
    forall f <- fields, g <- fields | f != g ensures fields[f] != fields[g] {
      var c :| c in chosen && c.field == f && c.input == fields[f];
      var d :| d in chosen && d.field == g && d.input == fields[g];
    }
  }

  lemma BlockedIsAssigned(e: Entry, chosen: seq<Entry>, fields: map<FieldType, Input>)
    requires Blocked(e, {}, {}, chosen) && Records(fields, chosen)
    ensures e.field in fields || e.input in fields.Values
  {
    var c :| c in chosen && Conflict(e, c);
    assert c.field in fields && fields[c.field] == c.input;
  }

  lemma Conclude(inputs: seq<Input>, fieldTypes: seq<FieldType>, scoreOf: Scorer, matrix: seq<Entry>, fields: map<FieldType, Input>)
    requires Descending(matrix) && forall e :: e in matrix <==> Eligible(inputs, fieldTypes, scoreOf, e)
    requires Records(fields, Greedy(matrix, {}, {}))
    ensures forall f <- fields :: Eligible(inputs, fieldTypes, scoreOf, Entry(fields[f], f, scoreOf(fields[f], f)))
    ensures forall f <- fields, g <- fields :: f != g ==> fields[f] != fields[g]
    ensures forall e :: Eligible(inputs, fieldTypes, scoreOf, e) ==> e.field in fields || e.input in fields.Values
    ensures Total(Greedy(matrix, {}, {})) == Sum(set f | f in fields :: Entry(fields[f], f, scoreOf(fields[f], f)))
  {
    var chosen := Greedy(matrix, {}, {});
    GreedyIsMaximalMatching(matrix, {}, {});
    RecordsIsChosen(scoreOf, chosen, fields);
    FieldsInjective(chosen, fields);
    forall e | Eligible(inputs, fieldTypes, scoreOf, e) ensures e.field in fields || e.input in fields.Values {
      BlockedIsAssigned(e, chosen, fields);
    }
  }

  lemma HalfOfEligible(inputs: seq<Input>, fieldTypes: seq<FieldType>, scoreOf: Scorer, matrix: seq<Entry>, m: set<Entry>)
    requires Descending(matrix) && forall e :: e in matrix <==> Eligible(inputs, fieldTypes, scoreOf, e)
    requires Matching(m) && (forall e <- m :: Eligible(inputs, fieldTypes, scoreOf, e))
    ensures Sum(m) <= 2 * Total(Greedy(matrix, {}, {}))
  {
    HalfOfAnyMatching(matrix, {}, {}, m);
  }

  // --- A form on which the rule falls short ------------------------------------------------------------

  const FIELD_TYPES := ["firstName", "lastName", "email", "username", "password", "passwordConfirm"]

  /**
   What scoreElement gives two text inputs with the ids "email e-mail user" and "email" and no labels: ten for
   every keyword found as a word, and five for the input type on the first four field types.
   */
  function ExampleScore(input: Input, field: FieldType): int {
    var byType := if field in ["firstName", "lastName", "email", "username"] then 5 else 0;
    var byKeyword := match input
      case 0 => if field == "email" then 20 else if field == "username" then 10 else 0
      case 1 => if field == "email" then 10 else 0
      case _ => 0;
    byType + byKeyword
  }

  /** Only three pairs pass the threshold, and the best of them comes first. */
  lemma ExampleMatrix(matrix: seq<Entry>)
    requires SortedMatrix([0, 1], FIELD_TYPES, ExampleScore, matrix)
    ensures matrix != [] && matrix[0] == Entry(0, "email", 25)
    ensures forall e <- matrix :: e in {Entry(0, "email", 25), Entry(0, "username", 15), Entry(1, "email", 15)}
  {
    var best := Entry(0, "email", 25);
    assert FIELD_TYPES[2] == "email" && [0, 1][0] == 0;
    assert Eligible([0, 1], FIELD_TYPES, ExampleScore, best);
    forall e <- matrix ensures e in {best, Entry(0, "username", 15), Entry(1, "email", 15)} {
      assert Eligible([0, 1], FIELD_TYPES, ExampleScore, e);
    }
    assert best in matrix;
    HeadOrTail(matrix);
    assert matrix[0] in matrix;
    assert best.score <= matrix[0].score;
  }

  /** After its first choice nothing is left for the greedy rule. */
  lemma ExampleGreedy(matrix: seq<Entry>)
    requires SortedMatrix([0, 1], FIELD_TYPES, ExampleScore, matrix)
    ensures forall e <- Greedy(matrix, {}, {}) :: e == Entry(0, "email", 25)
    ensures Entry(0, "email", 25) in Greedy(matrix, {}, {})
  {
    var chosen := Greedy(matrix, {}, {});
    ExampleMatrix(matrix);
    GreedyIsMaximalMatching(matrix, {}, {});
    assert chosen[0] == matrix[0];
    forall e <- chosen ensures e == matrix[0] {
      var i :| 0 <= i < |chosen| && chosen[i] == e;
      assert i > 0 ==> !Conflict(chosen[0], chosen[i]);
    }
  }

  lemma ExampleFields(matrix: seq<Entry>, fields: map<FieldType, Input>, scoreOf: Scorer)
    requires scoreOf == ExampleScore
    requires SortedMatrix([0, 1], FIELD_TYPES, ExampleScore, matrix) && Records(fields, Greedy(matrix, {}, {}))
    ensures fields == map["email" := 0]
    ensures Sum(set f | f in fields :: Entry(fields[f], f, scoreOf(fields[f], f))) == 25
  {
    hide Greedy, SortedMatrix;
    ExampleGreedy(matrix);
    assert fields == map["email" := 0];
    var e := Entry(0, "email", 25);
    assert (set f | f in fields :: Entry(fields[f], f, scoreOf(fields[f], f))) == {e};
    SumWithout({e}, e);
  }

  lemma ExampleBetter() returns (better: set<Entry>)
    ensures Matching(better) && (forall e <- better :: Eligible([0, 1], FIELD_TYPES, ExampleScore, e)) && Sum(better) == 30
  {
    var a, b := Entry(0, "username", 15), Entry(1, "email", 15);
    assert FIELD_TYPES[2] == "email" && FIELD_TYPES[3] == "username" && [0, 1][0] == 0 && [0, 1][1] == 1;
    better := {a, b};
    SumOfTwo(a, b);
  }

  lemma FieldTypesDiffer()
    ensures NoDup(FIELD_TYPES)
  {
  }

  /** "Globally optimal" fails: this form gets one field and 25 points where two fields and 30 are possible. */
  method FallsShort() returns (fields: map<FieldType, Input>, score: int, ghost better: set<Entry>)
    ensures fields == map["email" := 0] && score == 25
    ensures Matching(better) && (forall e <- better :: Eligible([0, 1], FIELD_TYPES, ExampleScore, e)) && Sum(better) == 30
  {
    hide Greedy, SortedMatrix, Records, Eligible, Matching, Sum, ExampleScore;
    FieldTypesDiffer();
    var scorer: Scorer := ExampleScore;
    fields, score := AssignFields([0, 1], FIELD_TYPES, scorer);
    ghost var matrix :| SortedMatrix([0, 1], FIELD_TYPES, scorer, matrix) && Records(fields, Greedy(matrix, {}, {}));
    ExampleFields(matrix, fields, scorer);
    better := ExampleBetter();
  }
}
