/**
 JSON normalisation before comparison (internal/jsoncompare/service.go). Objects are filled
 in Go's arbitrary map iteration order, dynamic keys are renamed to placeholders, and
 placeholders that collide are numbered; the questions are whether the result depends on
 the order, whether keys get lost, and whether normalising twice changes anything.
 */
module JsonNormal {

  datatype Json = Null | Bool(b: bool) | Number(text: string) | Str(s: string) | Arr(items: seq<Json>) | Obj(fields: map<string, Json>)

  /** The key patterns and the value heuristics and overrides, kept abstract. */
  datatype Options = Options(keyDynamic: string -> bool, valueDynamic: Json -> bool)

  const DYNAMIC_KEY := "__DYNAMIC_KEY__"
  const NUMBERED_BASE := "__DYNAMIC_KEY_"
  const DYNAMIC_VALUE := Str("__DYNAMIC_VALUE__")

  function Decimal(n: nat): string {
    if n < 10 then [('0' as int + n) as char] else Decimal(n / 10) + Decimal(n % 10)
  }

  /** The i-th candidate of the collision search. */
  function Slot(i: nat): string {
    if i == 0 then DYNAMIC_KEY else NUMBERED_BASE + Decimal(i)
  }

  lemma {:induction false} DecimalDigits(n: nat)
    ensures |Decimal(n)| > 0 && forall c <- Decimal(n) :: '0' <= c <= '9'
    ensures n > 0 ==> Decimal(n)[0] != '0'
  {
    if n >= 10 {
      DecimalDigits(n / 10);
      DecimalDigits(n % 10);
    }
  }

  lemma {:induction false} DecimalInjective(m: nat, n: nat)
    requires Decimal(m) == Decimal(n)
    ensures m == n
  {
    DecimalDigits(m / 10);
    DecimalDigits(n / 10);
    if m >= 10 && n >= 10 {
      var s := Decimal(m);
      assert s[..|s| - 1] == Decimal(m / 10) && s[|s| - 1] == Decimal(m % 10)[0];
      assert s[..|s| - 1] == Decimal(n / 10) && s[|s| - 1] == Decimal(n % 10)[0];
      DecimalInjective(m / 10, n / 10);
    }
  }

  lemma SlotsDiffer(i: nat, j: nat)
    requires i != j
    ensures Slot(i) != Slot(j)
  {
    var base := |NUMBERED_BASE|;
    DecimalDigits(i);
    DecimalDigits(j);
    assert DYNAMIC_KEY[base] == '_';
    assert i > 0 ==> Slot(i)[base] == Decimal(i)[0] && Slot(i)[base..] == Decimal(i);
    assert j > 0 ==> Slot(j)[base] == Decimal(j)[0] && Slot(j)[base..] == Decimal(j);
    if Decimal(i) == Decimal(j) {
      DecimalInjective(i, j);
    }
  }

  /** The first n placeholder keys. */
  ghost function Slots(n: nat): set<string> {
    set i | 0 <= i < n :: Slot(i)
  }

  lemma FreshSlot(n: nat)
    ensures Slot(n) !in Slots(n)
  {
    forall i | 0 <= i < n ensures Slot(i) != Slot(n) {
      SlotsDiffer(i, n);
    }
  }

  lemma {:induction false} SlotCount(n: nat)
    ensures |Slots(n)| == n
  {
    if n > 0 {
      SlotCount(n - 1);
      assert Slots(n) == Slots(n - 1) + {Slot(n - 1)};
      FreshSlot(n - 1);
    }
  }

  /** The search over all placeholders meets a free one: a finite map cannot hold them all. */
  lemma Pigeonhole(m: map<string, Json>, n: nat)
    requires Slots(n) <= m.Keys
    ensures n <= |m|
  {
    SlotCount(n);
    Subset(Slots(n), m.Keys);
    assert |m.Keys| == |m|;
  }

  lemma {:induction false} Subset(a: set<string>, b: set<string>)
    requires a <= b
    ensures |a| <= |b|
    ensures a < b ==> |a| < |b|
  {
    if a != {} {
      var x :| x in a;
      Subset(a - {x}, b - {x});
    } else if b != {} {
      var x :| x in b;
    }
  }

  // --- One object, filled in a given order ----------------------------------------------------

  /** Keys that go through the collision search: dynamic ones, and a literal placeholder key. */
  predicate Taker(o: Options, key: string) {
    o.keyDynamic(key) || key == DYNAMIC_KEY
  }

  function FirstFree(acc: map<string, Json>, i: nat): (r: nat)
    requires Slots(i) <= acc.Keys
    ensures Slot(r) !in acc && Slots(r) <= acc.Keys && i <= r
    decreases |acc| - i
  {
    Pigeonhole(acc, i);
    if Slot(i) !in acc then i
    else
      assert Slots(i + 1) == Slots(i) + {Slot(i)};
      Pigeonhole(acc, i + 1);
      FirstFree(acc, i + 1)
  }

  /** The value stored for a key whose normalised values are given by `norm`. */
  function Stored(o: Options, norm: map<string, Json>, key: string): Json {
    if o.keyDynamic(key) || key !in norm then DYNAMIC_VALUE else norm[key]
  }

  function Put(o: Options, norm: map<string, Json>, acc: map<string, Json>, key: string): map<string, Json> {
    acc[(if Taker(o, key) then Slot(FirstFree(acc, 0)) else key) := Stored(o, norm, key)]
  }

  function Fill(o: Options, norm: map<string, Json>, order: seq<string>): map<string, Json> {
    if order == [] then map[]
    else Put(o, norm, Fill(o, norm, order[..|order| - 1]), order[|order| - 1])
  }

  ghost predicate Order(keys: set<string>, order: seq<string>) {
    (forall i, j :: 0 <= i < j < |order| ==> order[i] != order[j]) && forall k :: k in order <==> k in keys
  }

  ghost function Takers(o: Options, keys: set<string>): set<string> {
    set k | k in keys && Taker(o, k)
  }

  ghost function Plain(o: Options, keys: set<string>): set<string> {
    set k | k in keys && !Taker(o, k)
  }

  /** A literal numbered key inside the range the takers use up. */
  ghost predicate NumberedClash(o: Options, keys: set<string>) {
    exists i :: 1 <= i < |Takers(o, keys)| && Slot(i) in Plain(o, keys)
  }

  /** A literal placeholder key whose value is told apart from the dynamic ones it shares slots with. */
  ghost predicate LiteralClash(o: Options, norm: map<string, Json>) {
    DYNAMIC_KEY in norm && |Takers(o, norm.Keys)| > 1 && Stored(o, norm, DYNAMIC_KEY) != DYNAMIC_VALUE
  }

  /** What every taker stores when there is no literal clash. */
  ghost function TakerValue(o: Options, norm: map<string, Json>): Json {
    if DYNAMIC_KEY in norm && |Takers(o, norm.Keys)| == 1 then Stored(o, norm, DYNAMIC_KEY) else DYNAMIC_VALUE
  }

  /** The order-free meaning: plain keys keep their names, takers use the first slots. */
  ghost function Canonical(o: Options, norm: map<string, Json>, keys: set<string>): map<string, Json>
    requires keys <= norm.Keys
  {
    var plain, slots := Plain(o, keys), Slots(|Takers(o, keys)|);
    map k | k in plain + slots :: if k in slots then TakerValue(o, norm) else norm[k]
  }

  lemma TakersGrow(o: Options, keys: set<string>, key: string)
    requires key !in keys
    ensures Taker(o, key) ==> |Takers(o, keys + {key})| == |Takers(o, keys)| + 1 && Plain(o, keys + {key}) == Plain(o, keys)
    ensures !Taker(o, key) ==> Takers(o, keys + {key}) == Takers(o, keys) && Plain(o, keys + {key}) == Plain(o, keys) + {key}
  {
    if Taker(o, key) {
      assert Takers(o, keys + {key}) == Takers(o, keys) + {key};
      assert Plain(o, keys + {key}) == Plain(o, keys);
    } else {
      assert Takers(o, keys + {key}) == Takers(o, keys);
      assert Plain(o, keys + {key}) == Plain(o, keys) + {key};
    }
  }

  /** Every taker stores the common value unless there is a literal clash. */
  lemma TakersStoreAlike(o: Options, norm: map<string, Json>, key: string)
    requires key in norm && Taker(o, key) && !LiteralClash(o, norm)
    ensures Stored(o, norm, key) == TakerValue(o, norm)
  {
    var takers := Takers(o, norm.Keys);
    assert key in takers;
    if DYNAMIC_KEY in norm && |takers| == 1 {
      assert DYNAMIC_KEY in takers;
      assert takers == {key} by {
        assert |takers - {key}| == 0;
      }
    }
  }

  /** The free slot is the next unused one. */
  lemma NextSlot(o: Options, norm: map<string, Json>, keys: set<string>)
    requires keys <= norm.Keys && !NumberedClash(o, norm.Keys) && |Takers(o, keys)| < |Takers(o, norm.Keys)|
    ensures FirstFree(Canonical(o, norm, keys), 0) == |Takers(o, keys)|
  {
    var acc, n := Canonical(o, norm, keys), |Takers(o, keys)|;
    var r := FirstFree(acc, 0);
    assert acc.Keys == Plain(o, keys) + Slots(n);
    FreshSlot(n);
    assert Plain(o, keys) <= Plain(o, norm.Keys);
    assert Slot(n) !in acc;
    assert forall i | 0 <= i < r :: Slot(i) in acc;
  }

  lemma CanonicalStep(o: Options, norm: map<string, Json>, keys: set<string>, key: string)
    requires keys <= norm.Keys && key in norm && key !in keys
    requires !NumberedClash(o, norm.Keys) && !LiteralClash(o, norm)
    ensures Put(o, norm, Canonical(o, norm, keys), key) == Canonical(o, norm, keys + {key})
  {
    var n := |Takers(o, keys)|;
    TakersGrow(o, keys, key);
    if Taker(o, key) {
      Subset(Takers(o, keys + {key}), Takers(o, norm.Keys));
      NextSlot(o, norm, keys);
      TakersStoreAlike(o, norm, key);
      assert Slots(n + 1) == Slots(n) + {Slot(n)};
    } else {
      Subset(Takers(o, keys), Takers(o, norm.Keys));
      assert key in Plain(o, norm.Keys);
      assert key !in Slots(n);
    }
    assert Put(o, norm, Canonical(o, norm, keys), key) == Canonical(o, norm, keys + {key});
  }

  /** Without a clash the filled object does not depend on the iteration order. */
  lemma {:induction false} OrderIrrelevant(o: Options, norm: map<string, Json>, keys: set<string>, order: seq<string>)
    requires keys <= norm.Keys && Order(keys, order)
    requires !NumberedClash(o, norm.Keys) && !LiteralClash(o, norm)
    ensures Fill(o, norm, order) == Canonical(o, norm, keys)
    decreases |order|
  {
    if order == [] {
      assert keys == {};
      assert Takers(o, keys) == {};
    } else {
      var key, before := order[|order| - 1], order[..|order| - 1];
      assert order == before + [key];
      assert Order(keys - {key}, before);
      OrderIrrelevant(o, norm, keys - {key}, before);
      CanonicalStep(o, norm, keys - {key}, key);
      assert keys - {key} + {key} == keys;
    }
  }

  /** Without a numbered clash no key is lost. */
  lemma KeyCountKept(o: Options, norm: map<string, Json>)
    requires !NumberedClash(o, norm.Keys)
    ensures |Canonical(o, norm, norm.Keys)| == |norm|
  {
    var keys := norm.Keys;
    var n := |Takers(o, keys)|;
    var plain, slots := Plain(o, keys), Slots(n);
    SlotCount(n);
    assert plain !! slots;
    Partition(o, norm);
    assert Canonical(o, norm, keys).Keys == plain + slots;
    assert |Canonical(o, norm, keys)| == |Canonical(o, norm, keys).Keys|;
  }

  // --- With a clash the order shows ------------------------------------------------------------

  lemma {:induction false} Enumerate(keys: set<string>) returns (order: seq<string>)
    ensures Order(keys, order) && |order| == |keys|
  {
    if keys == {} {
      order := [];
    } else {
      var k :| k in keys;
      var rest := Enumerate(keys - {k});
      order := [k] + rest;
      assert forall x :: x in order <==> x == k || x in rest;
    }
  }

  lemma FillLast(o: Options, norm: map<string, Json>, order: seq<string>, key: string)
    ensures Fill(o, norm, order + [key]) == Put(o, norm, Fill(o, norm, order), key)
  {
    assert (order + [key])[..|order|] == order;
  }

  /** Takers never overwrite: each adds one key. */
  lemma {:induction false} TakersAdd(o: Options, norm: map<string, Json>, before: seq<string>, takers: seq<string>)
    requires forall k <- takers :: Taker(o, k)
    ensures |Fill(o, norm, before + takers)| == |Fill(o, norm, before)| + |takers|
  {
    hide Fill, Put, FirstFree, Slot;
    if takers == [] {
      assert before + takers == before;
    } else {
      var n := |takers| - 1;
      TakersAdd(o, norm, before, takers[..n]);
      assert before + takers == before + takers[..n] + [takers[n]];
      FillLast(o, norm, before + takers[..n], takers[n]);
      PutTakerAdds(o, norm, Fill(o, norm, before + takers[..n]), takers[n]);
    }
  }

  lemma PutTakerAdds(o: Options, norm: map<string, Json>, acc: map<string, Json>, key: string)
    requires Taker(o, key)
    ensures |Put(o, norm, acc, key)| == |acc| + 1
  {
    var put := Put(o, norm, acc, key);
    assert put.Keys == acc.Keys + {Slot(FirstFree(acc, 0))};
    assert |put| == |put.Keys| && |acc| == |acc.Keys|;
  }

  /** Plain keys keep their names. */
  lemma {:induction false} PlainKeep(o: Options, norm: map<string, Json>, before: seq<string>, plain: seq<string>)
    requires forall k <- plain :: !Taker(o, k)
    ensures Fill(o, norm, before + plain).Keys == Fill(o, norm, before).Keys + set k | k in plain
  {
    hide Fill, FirstFree, Slot;
    if plain == [] {
      assert before + plain == before;
    } else {
      var n := |plain| - 1;
      PlainKeep(o, norm, before, plain[..n]);
      assert before + plain == before + plain[..n] + [plain[n]];
      FillLast(o, norm, before + plain[..n], plain[n]);
      assert plain == plain[..n] + [plain[n]];
    }
  }

  /** Takers alone occupy the first slots. */
  lemma {:induction false} TakersAlone(o: Options, norm: map<string, Json>, takers: seq<string>)
    requires forall k <- takers :: Taker(o, k)
    ensures Fill(o, norm, takers).Keys == Slots(|takers|)
  {
    hide Fill, FirstFree, Slot, Slots;
    if takers == [] {
      FillOfNothing(o, norm);
      SlotCount(0);
    } else {
      var n := |takers| - 1;
      TakersAlone(o, norm, takers[..n]);
      FreshSlot(n);
      FreeIs(Fill(o, norm, takers[..n]), n);
      assert takers == takers[..n] + [takers[n]];
      FillLast(o, norm, takers[..n], takers[n]);
      MoreSlots(n);
    }
  }

  lemma MoreSlots(n: nat)
    ensures Slots(n + 1) == Slots(n) + {Slot(n)}
  {
  }

  lemma FreeIs(acc: map<string, Json>, n: nat)
    requires Slot(n) !in acc && Slots(n) <= acc.Keys
    ensures FirstFree(acc, 0) == n
  {
    var r := FirstFree(acc, 0);
    assert forall i | 0 <= i < r :: Slot(i) in Slots(r);
    assert forall i | 0 <= i < n :: Slot(i) in Slots(n);
  }

  lemma FillOfNothing(o: Options, norm: map<string, Json>)
    ensures Fill(o, norm, []).Keys == {}
  {
  }

  lemma OrderConcat(a: set<string>, s: seq<string>, b: set<string>, t: seq<string>)
    requires Order(a, s) && Order(b, t) && a !! b
    ensures Order(a + b, s + t)
  {
    assert forall k :: k in s + t <==> k in s || k in t;
    assert forall i :: 0 <= i < |s| ==> s[i] in a;
    assert forall i :: 0 <= i < |t| ==> t[i] in b;
  }

  lemma Partition(o: Options, norm: map<string, Json>)
    ensures var t, p := Takers(o, norm.Keys), Plain(o, norm.Keys);
            t + p == norm.Keys && p + t == norm.Keys && t !! p && |t| + |p| == |norm|
  {
    var t, p := Takers(o, norm.Keys), Plain(o, norm.Keys);
    assert t + p == norm.Keys;
    assert |norm.Keys| == |norm|;
  }

  lemma PlainAlone(o: Options, norm: map<string, Json>, names: set<string>, plain: seq<string>)
    requires Order(names, plain) && forall k <- names :: !Taker(o, k)
    ensures |Fill(o, norm, plain)| == |names|
  {
    hide Fill;
    PlainKeep(o, norm, [], plain);
    assert [] + plain == plain;
    FillOfNothing(o, norm);
    assert (set k | k in plain) == names;
    assert |Fill(o, norm, plain)| == |Fill(o, norm, plain).Keys|;
  }

  lemma PlainThenTakers(o: Options, norm: map<string, Json>, plain: seq<string>, takers: seq<string>)
    requires Order(Plain(o, norm.Keys), plain) && Order(Takers(o, norm.Keys), takers)
    requires |takers| == |Takers(o, norm.Keys)|
    ensures |Fill(o, norm, plain + takers)| == |norm|
  {
    hide Fill, Taker;
    Partition(o, norm);
    PlainAlone(o, norm, Plain(o, norm.Keys), plain);
    TakersAdd(o, norm, plain, takers);
  }

  lemma TakersThenPlain(o: Options, norm: map<string, Json>, plain: seq<string>, takers: seq<string>)
    requires Order(Plain(o, norm.Keys), plain) && Order(Takers(o, norm.Keys), takers)
    requires |takers| == |Takers(o, norm.Keys)| && NumberedClash(o, norm.Keys)
    ensures |Fill(o, norm, takers + plain)| < |norm|
  {
    Partition(o, norm);
    TakersAlone(o, norm, takers);
    PlainKeep(o, norm, takers, plain);
    assert (set k | k in plain) == Plain(o, norm.Keys);
    LostKey(o, norm, takers + plain);
  }

  lemma NumberedClashDiverges(o: Options, norm: map<string, Json>) returns (a: seq<string>, b: seq<string>)
    requires NumberedClash(o, norm.Keys)
    ensures Order(norm.Keys, a) && Order(norm.Keys, b)
    ensures |Fill(o, norm, a)| == |norm| && |Fill(o, norm, b)| < |norm|
  {
    hide Order, Fill, NumberedClash, Takers, Plain;
    var takers := Enumerate(Takers(o, norm.Keys));
    var plain := Enumerate(Plain(o, norm.Keys));
    a, b := plain + takers, takers + plain;
    Partition(o, norm);
    OrderConcat(Plain(o, norm.Keys), plain, Takers(o, norm.Keys), takers);
    OrderConcat(Takers(o, norm.Keys), takers, Plain(o, norm.Keys), plain);
    PlainThenTakers(o, norm, plain, takers);
    TakersThenPlain(o, norm, plain, takers);
  }

  lemma LostKey(o: Options, norm: map<string, Json>, b: seq<string>)
    requires NumberedClash(o, norm.Keys)
    requires Fill(o, norm, b).Keys == Slots(|Takers(o, norm.Keys)|) + Plain(o, norm.Keys)
    ensures |Fill(o, norm, b)| < |Takers(o, norm.Keys)| + |Plain(o, norm.Keys)|
  {
    var n, p := |Takers(o, norm.Keys)|, Plain(o, norm.Keys);
    var i :| 1 <= i < n && Slot(i) in p;
    SlotCount(n);
    assert Slots(n) + p == Slots(n) + (p - {Slot(i)});
    assert |Fill(o, norm, b)| == |Fill(o, norm, b).Keys|;
  }

  /** The first taker of an order keeps the unnumbered placeholder. */
  lemma {:induction false} FirstTakerKeepsPlaceholder(o: Options, norm: map<string, Json>, first: string, rest: seq<string>)
    requires Taker(o, first)
    ensures DYNAMIC_KEY in Fill(o, norm, [first] + rest)
    ensures Fill(o, norm, [first] + rest)[DYNAMIC_KEY] == Stored(o, norm, first)
  {
    var order := [first] + rest;
    if rest == [] {
      assert order[..0] == [];
      FreeIs(map[], 0);
    } else {
      FirstTakerKeepsPlaceholder(o, norm, first, rest[..|rest| - 1]);
      assert order[..|order| - 1] == [first] + rest[..|rest| - 1];
    }
  }

  /** An order that starts with a chosen taker. */
  lemma StartWith(o: Options, norm: map<string, Json>, first: string) returns (order: seq<string>)
    requires first in norm && Taker(o, first)
    ensures Order(norm.Keys, order) && DYNAMIC_KEY in Fill(o, norm, order)
    ensures Fill(o, norm, order)[DYNAMIC_KEY] == Stored(o, norm, first)
  {
    var rest := Enumerate(norm.Keys - {first});
    OrderConcat({first}, [first], norm.Keys - {first}, rest);
    assert {first} + (norm.Keys - {first}) == norm.Keys;
    order := [first] + rest;
    FirstTakerKeepsPlaceholder(o, norm, first, rest);
  }

  lemma LiteralClashDiverges(o: Options, norm: map<string, Json>) returns (a: seq<string>, b: seq<string>)
    requires LiteralClash(o, norm)
    ensures Order(norm.Keys, a) && Order(norm.Keys, b) && Fill(o, norm, a) != Fill(o, norm, b)
  {
    hide Order, Fill;
    var takers := Takers(o, norm.Keys);
    assert DYNAMIC_KEY in takers;
    assert |takers - {DYNAMIC_KEY}| > 0;
    var other :| other in takers - {DYNAMIC_KEY};
    a := StartWith(o, norm, DYNAMIC_KEY);
    b := StartWith(o, norm, other);
  }

  /** The result of filling an object is independent of the iteration order exactly when nothing clashes. */
  lemma OrderIndependentIff(o: Options, norm: map<string, Json>)
    ensures (forall a, b :: Order(norm.Keys, a) && Order(norm.Keys, b) ==> Fill(o, norm, a) == Fill(o, norm, b))
            <==> !NumberedClash(o, norm.Keys) && !LiteralClash(o, norm)
  {
    hide Fill, NumberedClash, LiteralClash;
    if NumberedClash(o, norm.Keys) {
      var a, b := NumberedClashDiverges(o, norm);
    } else if LiteralClash(o, norm) {
      var a, b := LiteralClashDiverges(o, norm);
    } else {
      forall a, b | Order(norm.Keys, a) && Order(norm.Keys, b) ensures Fill(o, norm, a) == Fill(o, norm, b) {
        OrderIrrelevant(o, norm, norm.Keys, a);
        OrderIrrelevant(o, norm, norm.Keys, b);
      }
    }
  }

  /** Which keys end up in the object does not depend on the values. */
  lemma {:induction false} KeysIgnoreValues(o: Options, a: map<string, Json>, b: map<string, Json>, order: seq<string>)
    ensures Fill(o, a, order).Keys == Fill(o, b, order).Keys
  {
    if order != [] {
      var before := order[..|order| - 1];
      KeysIgnoreValues(o, a, b, before);
      FreeIs(Fill(o, a, before), FirstFree(Fill(o, b, before), 0));
    }
  }

  lemma BlankIsClear(o: Options, blank: map<string, Json>)
    requires forall k <- blank :: blank[k] == DYNAMIC_VALUE
    ensures !LiteralClash(o, blank)
  {
  }

  /** No key is ever lost exactly when no literal key sits in the range of numbers the takers use. */
  lemma KeyCountKeptIff(o: Options, norm: map<string, Json>)
    ensures (forall order :: Order(norm.Keys, order) ==> |Fill(o, norm, order)| == |norm|) <==> !NumberedClash(o, norm.Keys)
  {
    hide Fill, Order, Canonical, NumberedClash;
    if NumberedClash(o, norm.Keys) {
      var _, b := NumberedClashDiverges(o, norm);
    } else {
      var blank := map k | k in norm :: DYNAMIC_VALUE;
      assert blank.Keys == norm.Keys;
      assert |blank| == |blank.Keys| == |norm.Keys| == |norm|;
      KeyCountKept(o, blank);
      BlankIsClear(o, blank);
      forall order | Order(norm.Keys, order) ensures |Fill(o, norm, order)| == |norm| {
        OrderIrrelevant(o, blank, norm.Keys, order);
        KeysIgnoreValues(o, norm, blank, order);
        assert |Fill(o, norm, order)| == |Fill(o, norm, order).Keys| && |Fill(o, blank, order)| == |Fill(o, blank, order).Keys|;
      }
    }
  }

  // --- Whole documents ---------------------------------------------------------------------------

  /** The order-free meaning of normalisation. */
  ghost function Norm(o: Options, v: Json): Json
    decreases v, 1
  {
    if o.valueDynamic(v) then DYNAMIC_VALUE
    else match v
      case Obj(m) => Obj(Canonical(o, NormFields(o, v), m.Keys))
      case Arr(items) => Arr(seq(|items|, i requires 0 <= i < |items| => Norm(o, items[i])))
      case _ => v
  }

  ghost function NormFields(o: Options, v: Json): (n: map<string, Json>)
    requires v.Obj?
    ensures n.Keys == v.fields.Keys
    decreases v, 0
  {
    map k | k in v.fields :: if o.keyDynamic(k) then DYNAMIC_VALUE else Norm(o, v.fields[k])
  }

  /** r is a result of normalising v, for some iteration order of every object that is visited. */
  ghost predicate CanBe(o: Options, v: Json, r: Json)
    decreases v, 1
  {
    if o.valueDynamic(v) then r == DYNAMIC_VALUE
    else match v
      case Obj(m) =>
        r.Obj? && exists values, order :: ValuesOf(o, v, values) && Order(m.Keys, order) && r.fields == Fill(o, values, order)
      case Arr(items) => r.Arr? && |r.items| == |items| && forall i :: 0 <= i < |items| ==> CanBe(o, items[i], r.items[i])
      case _ => r == v
  }

  /** A result for every field of an object. */
  ghost predicate ValuesOf(o: Options, v: Json, values: map<string, Json>)
    requires v.Obj?
    decreases v, 0
  {
    && values.Keys == v.fields.Keys
    && forall k <- v.fields :: if o.keyDynamic(k) then values[k] == DYNAMIC_VALUE else CanBe(o, v.fields[k], values[k])
  }

  /** No object that normalisation descends into has a clash. */
  ghost predicate Clear(o: Options, v: Json) {
    o.valueDynamic(v) ||
    match v
    case Obj(m) =>
      && !NumberedClash(o, m.Keys) && !LiteralClash(o, NormFields(o, v))
      && forall k <- m :: !o.keyDynamic(k) ==> Clear(o, m[k])
    case Arr(items) => forall i :: 0 <= i < |items| ==> Clear(o, items[i])
    case _ => true
  }

  /** Patterns match no placeholder key and only scalars are replaced as values. */
  ghost predicate Benign(o: Options) {
    && (forall i: nat :: !o.keyDynamic(Slot(i)))
    && (forall v :: o.valueDynamic(v) ==> !v.Obj? && !v.Arr?)
  }

  /** Nothing left to normalise. */
  ghost predicate Normal(o: Options, v: Json) {
    match v
    case Obj(m) => forall k <- m :: !o.keyDynamic(k) && Normal(o, m[k])
    case Arr(items) => forall i :: 0 <= i < |items| ==> Normal(o, items[i])
    case _ => o.valueDynamic(v) ==> v == DYNAMIC_VALUE
  }

  /** A normal document has no clashes and normalises to itself. */
  lemma {:induction false} NormalIsFixed(o: Options, v: Json)
    requires Benign(o) && Normal(o, v)
    ensures Clear(o, v) && Norm(o, v) == v
  {
    match v
    case Obj(m) =>
      forall k <- m ensures Clear(o, m[k]) && Norm(o, m[k]) == m[k] {
        NormalIsFixed(o, m[k]);
      }
      assert NormFields(o, v) == m;
      NormalFieldsFixed(o, m);
    case Arr(items) =>
      forall i | 0 <= i < |items| ensures Clear(o, items[i]) && Norm(o, items[i]) == items[i] {
        NormalIsFixed(o, items[i]);
      }
    case _ =>
  }

  lemma NormalFieldsFixed(o: Options, m: map<string, Json>)
    requires forall k <- m :: !o.keyDynamic(k)
    ensures !NumberedClash(o, m.Keys) && !LiteralClash(o, m) && Canonical(o, m, m.Keys) == m
  {
    var takers := Takers(o, m.Keys);
    assert takers == if DYNAMIC_KEY in m then {DYNAMIC_KEY} else {};
    SlotCount(0);
    SlotCount(1);
    assert Slot(0) in Slots(1);
    assert Slots(1) == {DYNAMIC_KEY} && Slots(0) == {};
    assert Canonical(o, m, m.Keys).Keys == m.Keys;
  }

  /** Without clashes the order-free meaning is the only result. */
  lemma {:induction false} ClearMeansNorm(o: Options, v: Json, r: Json)
    requires CanBe(o, v, r) && Clear(o, v)
    ensures r == Norm(o, v)
  {
    hide Fill, Order, NumberedClash, LiteralClash, Canonical;
    if !o.valueDynamic(v) {
      match v
      case Obj(m) =>
        var values, order :| ValuesOf(o, v, values) && Order(m.Keys, order) && r.fields == Fill(o, values, order);
        forall k <- m | !o.keyDynamic(k) ensures values[k] == Norm(o, m[k]) {
          ClearMeansNorm(o, m[k], values[k]);
        }
        assert values == NormFields(o, v);
        OrderIrrelevant(o, values, m.Keys, order);
      case Arr(items) =>
        forall i | 0 <= i < |items| ensures r.items[i] == Norm(o, items[i]) {
          ClearMeansNorm(o, items[i], r.items[i]);
        }
      case _ =>
    }
  }

  // --- The code ------------------------------------------------------------------------------------

  /** The collision search of normalizeMap. */
  method FreeSlot(acc: map<string, Json>) returns (key: string)
    ensures key == Slot(FirstFree(acc, 0))
  {
    var i := 0;
    var collisionKey := DYNAMIC_KEY;
    while collisionKey in acc
      invariant collisionKey == Slot(i) && Slots(i) <= acc.Keys && i <= |acc|
      decreases |acc| - i
    {
      assert Slots(i + 1) == Slots(i) + {Slot(i)};
      Pigeonhole(acc, i + 1);
      i := i + 1;
      collisionKey := NUMBERED_BASE + Decimal(i);
    }
    FreeIs(acc, i);
    key := collisionKey;
  }

  method NormalizeRecursive(v: Json, o: Options) returns (r: Json)
    ensures CanBe(o, v, r)
    ensures Clear(o, v) ==> r == Norm(o, v)
    ensures Benign(o) ==> Normal(o, r)
    decreases v, 1
  {
    hide Clear, Norm, Fill, Order;
    if o.valueDynamic(v) {
      r := DYNAMIC_VALUE;
    } else {
      match v
      case Obj(m) =>
        var fields, values, order := NormalizeMap(m, o, v);
        assert ValuesOf(o, v, values);
        r := Obj(fields);
      case Arr(items) =>
        r := NormalizeSlice(items, o, v);
      case _ =>
        r := v;
    }
    if Clear(o, v) {
      ClearMeansNorm(o, v, r);
    }
  }

  /** The value kept for key k is a result of normalising its own. */
  ghost predicate Value(o: Options, m: map<string, Json>, k: string, x: Json)
    requires k in m
  {
    if o.keyDynamic(k) then x == DYNAMIC_VALUE else CanBe(o, m[k], x) && (Benign(o) ==> Normal(o, x))
  }

  ghost predicate NormalFields(o: Options, fields: map<string, Json>) {
    forall k <- fields :: !o.keyDynamic(k) && Normal(o, fields[k])
  }

  /** Some order was used to fill the object with the normalised values. */
  method NormalizeMap(m: map<string, Json>, o: Options, ghost v: Json)
    returns (fields: map<string, Json>, ghost values: map<string, Json>, ghost order: seq<string>)
    requires v == Obj(m)
    ensures Order(m.Keys, order) && values.Keys == m.Keys && fields == Fill(o, values, order)
    ensures forall k <- m :: Value(o, m, k, values[k])
    ensures Benign(o) ==> NormalFields(o, fields)
    decreases v, 0
  {
    hide CanBe, Benign, FirstFree, Normal, Slot;
    fields, values, order := map[], map[], [];
    var todo := m.Keys;
    ghost var done: set<string> := {};
    while todo != {}
      invariant todo + done == m.Keys && todo !! done && Order(done, order) && values.Keys == done
      invariant fields == Fill(o, values, order)
      invariant forall k <- values :: Value(o, m, k, values[k])
      invariant Benign(o) ==> NormalFields(o, fields)
    {
      var key :| key in todo;
      var newKey, newVal;
      if o.keyDynamic(key) {
        newKey, newVal := DYNAMIC_KEY, DYNAMIC_VALUE;
      } else {
        newKey := key;
        newVal := NormalizeRecursive(m[key], o);
      }
      if newKey == DYNAMIC_KEY {
        newKey := FreeSlot(fields);
      }
      FillMore(o, values, order, done, key, newVal);
      NormalMore(o, fields, newKey, newVal, key);
      fields := fields[newKey := newVal];
      order, values := order + [key], values[key := newVal];
      todo, done := todo - {key}, done + {key};
    }
    assert done == m.Keys;
  }

  lemma FillMore(o: Options, values: map<string, Json>, order: seq<string>, done: set<string>, key: string, x: Json)
    requires Order(done, order) && values.Keys == done && key !in done && (o.keyDynamic(key) ==> x == DYNAMIC_VALUE)
    ensures Order(done + {key}, order + [key])
    ensures var acc := Fill(o, values, order);
            Fill(o, values[key := x], order + [key]) == acc[(if Taker(o, key) then Slot(FirstFree(acc, 0)) else key) := x]
  {
    FillFrame(o, values, values[key := x], order);
    OrderConcat(done, order, {key}, [key]);
    assert (order + [key])[..|order|] == order;
  }

  lemma NormalMore(o: Options, fields: map<string, Json>, newKey: string, x: Json, key: string)
    requires Benign(o) ==> NormalFields(o, fields)
    requires if Taker(o, key) then newKey == Slot(FirstFree(fields, 0)) else newKey == key
    requires if o.keyDynamic(key) then x == DYNAMIC_VALUE else Benign(o) ==> Normal(o, x)
    ensures Benign(o) ==> NormalFields(o, fields[newKey := x])
  {
  }

  lemma {:induction false} FillFrame(o: Options, a: map<string, Json>, b: map<string, Json>, order: seq<string>)
    requires forall k <- order :: k in a && k in b && a[k] == b[k]
    ensures Fill(o, a, order) == Fill(o, b, order)
  {
    if order != [] {
      FillFrame(o, a, b, order[..|order| - 1]);
    }
  }

  method NormalizeSlice(items: seq<Json>, o: Options, ghost v: Json) returns (r: Json)
    requires v == Arr(items) && !o.valueDynamic(v)
    ensures CanBe(o, v, r)
    ensures Benign(o) ==> Normal(o, r)
    decreases v, 0
  {
    var out: seq<Json> := [];
    for i := 0 to |items|
      invariant |out| == i
      invariant forall k :: 0 <= k < i ==> CanBe(o, items[k], out[k]) && (Benign(o) ==> Normal(o, out[k]))
    {
      var x := NormalizeRecursive(items[i], o);
      out := out + [x];
    }
    r := Arr(out);
  }

  /** Normalising twice is normalising once, whatever the document and whatever the orders. */
  method NormalizeTwice(v: Json, o: Options) returns (once: Json, twice: Json)
    requires Benign(o)
    ensures once == twice
  {
    once := NormalizeRecursive(v, o);
    NormalIsFixed(o, once);
    twice := NormalizeRecursive(once, o);
  }
}
