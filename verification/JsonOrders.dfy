/**
 Whole documents and all iteration orders (internal/jsoncompare/service.go): normalisation is a
 function of the document exactly when no object it visits has a clash.
 */
module JsonOrders {
  import opened JsonNormal

  /** Every document has a result. */
  lemma {:induction false} SomeResult(o: Options, v: Json) returns (r: Json)
    ensures CanBe(o, v, r)
    decreases v, 1
  {
    hide Fill;
    if o.valueDynamic(v) {
      return DYNAMIC_VALUE;
    }
    match v
    case Obj(m) =>
      var values := SomeValues(o, v, m.Keys);
      var order := Enumerate(m.Keys);
      assert ValuesOf(o, v, values);
      r := Obj(Fill(o, values, order));
    case Arr(items) =>
      var out := SomeItems(o, v, |items|);
      r := Arr(out);
    case _ =>
      r := v;
  }

  lemma {:induction false} SomeValues(o: Options, v: Json, keys: set<string>) returns (values: map<string, Json>)
    requires v.Obj? && keys <= v.fields.Keys
    ensures values.Keys == keys
    ensures forall k <- keys :: if o.keyDynamic(k) then values[k] == DYNAMIC_VALUE else CanBe(o, v.fields[k], values[k])
    decreases v, 0, |keys|
  {
    hide CanBe;
    if keys == {} {
      return map[];
    }
    var k :| k in keys;
    var others := SomeValues(o, v, keys - {k});
    var x := DYNAMIC_VALUE;
    if !o.keyDynamic(k) {
      x := SomeResult(o, v.fields[k]);
    }
    values := others[k := x];
  }

  lemma {:induction false} SomeItems(o: Options, v: Json, n: nat) returns (out: seq<Json>)
    requires v.Arr? && n <= |v.items|
    ensures |out| == n && forall i :: 0 <= i < n ==> CanBe(o, v.items[i], out[i])
    decreases v, 0, n
  {
    hide CanBe;
    if n == 0 {
      return [];
    }
    var init := SomeItems(o, v, n - 1);
    var x := SomeResult(o, v.items[n - 1]);
    out := init + [x];
  }

  /** An order that lets the value of a key show: the literal placeholder first, any other key last. */
  ghost predicate Showing(key: string, order: seq<string>) {
    order != [] && if key == DYNAMIC_KEY then order[0] == key else order[|order| - 1] == key
  }

  lemma ShowingOrder(keys: set<string>, key: string) returns (order: seq<string>)
    requires key in keys
    ensures Order(keys, order) && Showing(key, order)
  {
    var rest := Enumerate(keys - {key});
    assert keys - {key} + {key} == keys && {key} + (keys - {key}) == keys;
    if key == DYNAMIC_KEY {
      OrderConcat({key}, [key], keys - {key}, rest);
      order := [key] + rest;
    } else {
      OrderConcat(keys - {key}, rest, {key}, [key]);
      order := rest + [key];
    }
  }

  lemma Shows(o: Options, values: map<string, Json>, key: string, order: seq<string>)
    requires key in values && !o.keyDynamic(key) && Showing(key, order)
    ensures key in Fill(o, values, order) && Fill(o, values, order)[key] == values[key]
  {
    hide Fill, FirstFree, Slot;
    if key == DYNAMIC_KEY {
      assert order == [key] + order[1..];
      FirstTakerKeepsPlaceholder(o, values, key, order[1..]);
    } else {
      assert order == order[..|order| - 1] + [key];
      FillLast(o, values, order[..|order| - 1], key);
    }
  }

  lemma OtherValue(o: Options, v: Json, values: map<string, Json>, key: string, x: Json)
    requires v.Obj? && ValuesOf(o, v, values) && key in v.fields && !o.keyDynamic(key) && CanBe(o, v.fields[key], x)
    ensures ValuesOf(o, v, values[key := x])
  {
    hide CanBe;
  }

  lemma IsResult(o: Options, v: Json, values: map<string, Json>, order: seq<string>)
    requires v.Obj? && !o.valueDynamic(v) && ValuesOf(o, v, values) && Order(v.fields.Keys, order)
    ensures CanBe(o, v, Obj(Fill(o, values, order)))
  {
    hide Fill, Order, ValuesOf;
  }

  /** Two results of a field make two results of the object. */
  lemma FieldDiverges(o: Options, v: Json, key: string, x: Json, y: Json) returns (a: Json, b: Json)
    requires v.Obj? && !o.valueDynamic(v) && key in v.fields && !o.keyDynamic(key)
    requires CanBe(o, v.fields[key], x) && CanBe(o, v.fields[key], y) && x != y
    ensures CanBe(o, v, a) && CanBe(o, v, b) && a != b
  {
    hide Fill, Order, CanBe, Showing;
    var values := SomeValues(o, v, v.fields.Keys);
    var order := ShowingOrder(v.fields.Keys, key);
    OtherValue(o, v, values, key, x);
    OtherValue(o, v, values, key, y);
    IsResult(o, v, values[key := x], order);
    IsResult(o, v, values[key := y], order);
    Shows(o, values[key := x], key, order);
    Shows(o, values[key := y], key, order);
    a, b := Obj(Fill(o, values[key := x], order)), Obj(Fill(o, values[key := y], order));
    assert a.fields[key] == x && b.fields[key] == y;
  }

  /** A clash in the object itself makes two results. */
  lemma ClashDiverges(o: Options, v: Json) returns (a: Json, b: Json)
    requires v.Obj? && !o.valueDynamic(v)
    requires forall k <- v.fields :: !o.keyDynamic(k) ==> Clear(o, v.fields[k])
    requires NumberedClash(o, v.fields.Keys) || LiteralClash(o, NormFields(o, v))
    ensures CanBe(o, v, a) && CanBe(o, v, b) && a != b
  {
    hide Fill, Order, NumberedClash, LiteralClash, Clear;
    var values := SomeValues(o, v, v.fields.Keys);
    forall k <- v.fields | !o.keyDynamic(k) ensures values[k] == Norm(o, v.fields[k]) {
      ClearMeansNorm(o, v.fields[k], values[k]);
    }
    assert values == NormFields(o, v) && ValuesOf(o, v, values);
    var s, t;
    if NumberedClash(o, v.fields.Keys) {
      s, t := NumberedClashDiverges(o, values);
    } else {
      s, t := LiteralClashDiverges(o, values);
    }
    a, b := Obj(Fill(o, values, s)), Obj(Fill(o, values, t));
  }

  /** A clash anywhere that normalisation looks makes two results of the whole document. */
  lemma {:induction false} UnclearDiverges(o: Options, v: Json) returns (a: Json, b: Json)
    requires !Clear(o, v)
    ensures CanBe(o, v, a) && CanBe(o, v, b) && a != b
    decreases v
  {
    match v
    case Obj(m) =>
      if key :| key in m && !o.keyDynamic(key) && !Clear(o, m[key]) {
        var x, y := UnclearDiverges(o, m[key]);
        a, b := FieldDiverges(o, v, key, x, y);
      } else {
        a, b := ClashDiverges(o, v);
      }
    case Arr(items) =>
      var i :| 0 <= i < |items| && !Clear(o, items[i]);
      var x, y := UnclearDiverges(o, items[i]);
      var out := SomeItems(o, v, |items|);
      a, b := Arr(out[i := x]), Arr(out[i := y]);
      assert a.items[i] == x && b.items[i] == y;
  }

  /** All runs of the normaliser agree on a document if and only if nothing clashes in it. */
  lemma ResultsAgreeIff(o: Options, v: Json)
    ensures (forall a, b :: CanBe(o, v, a) && CanBe(o, v, b) ==> a == b) <==> Clear(o, v)
  {
    hide Clear;
    if Clear(o, v) {
      forall a, b | CanBe(o, v, a) && CanBe(o, v, b) ensures a == b {
        ClearMeansNorm(o, v, a);
        ClearMeansNorm(o, v, b);
      }
    } else {
      var a, b := UnclearDiverges(o, v);
      assert CanBe(o, v, a) && CanBe(o, v, b);
    }
  }

  /**
   What becomes of an object without placeholder keys: every static key keeps its name with a result of its value,
   and every other key of the result is one of the first numbered placeholders, with the placeholder value.
   */
  lemma ObjectBecomes(o: Options, m: map<string, Json>, r: Json)
    requires !o.valueDynamic(Obj(m)) && CanBe(o, Obj(m), r) && !NumberedClash(o, m.Keys) && "__DYNAMIC_KEY__" !in m
    ensures r.Obj? && |r.fields| == |m|
    ensures forall k <- m :: !o.keyDynamic(k) ==> k in r.fields && CanBe(o, m[k], r.fields[k])
    ensures forall k <- r.fields ::
              (k in m && !o.keyDynamic(k)) || (IsPlaceholder(k, |set x | x in m && o.keyDynamic(x)|) && r.fields[k] == Str("__DYNAMIC_VALUE__"))
  {
    hide Fill, Order, CanBe;
    var values := ObjectFill(o, m, r);
    var takers := Takers(o, m.Keys);
    assert takers == set x | x in m && o.keyDynamic(x);
    SlotsArePlaceholders(|takers|);
    assert forall k <- m :: !o.keyDynamic(k) ==> k in Plain(o, m.Keys) && k !in Slots(|takers|) by {
      PlainIsNoSlot(o, m);
    }
  }

  /** "__DYNAMIC_KEY__" or "__DYNAMIC_KEY_i" with i below n. */
  ghost predicate IsPlaceholder(k: string, n: nat) {
    (n > 0 && k == "__DYNAMIC_KEY__") || exists i: nat :: 0 < i < n && k == "__DYNAMIC_KEY_" + Decimal(i)
  }

  lemma SlotsArePlaceholders(n: nat)
    ensures forall k :: k in Slots(n) ==> IsPlaceholder(k, n)
  {
  }

  lemma PlainIsNoSlot(o: Options, m: map<string, Json>)
    requires !NumberedClash(o, m.Keys) && "__DYNAMIC_KEY__" !in m
    ensures Plain(o, m.Keys) !! Slots(|Takers(o, m.Keys)|)
  {
  }

  lemma ObjectFill(o: Options, m: map<string, Json>, r: Json) returns (values: map<string, Json>)
    requires !o.valueDynamic(Obj(m)) && CanBe(o, Obj(m), r) && !NumberedClash(o, m.Keys) && "__DYNAMIC_KEY__" !in m
    ensures r.Obj? && ValuesOf(o, Obj(m), values) && r.fields == Canonical(o, values, m.Keys) && |r.fields| == |m|
    ensures TakerValue(o, values) == DYNAMIC_VALUE
  {
    hide Fill, Order, Canonical, NumberedClash;
    var order;
    values, order :| ValuesOf(o, Obj(m), values) && Order(m.Keys, order) && r.fields == Fill(o, values, order);
    OrderIrrelevant(o, values, m.Keys, order);
    KeyCountKept(o, values);
    assert |values| == |values.Keys| == |m.Keys| == |m|;
  }
}
