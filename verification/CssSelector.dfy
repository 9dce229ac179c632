/**
 Selector generation in the sign-up form analysis
 (internal/agent/js_scripts/form_analysis.js, getCssSelector): unique id, name unique within
 a context, globally unique name, or a structural path of child combinators. The meaning of
 a selector is defined independently, as the set of attached elements it matches.
 */
module CssSelector {
  import opened Basics

  type Elem = nat

  /** `parentNode`: the document, an element, or null at the top of a detached tree. */
  datatype Parent = Document | Under(elem: Elem) | Detached

  /**
   A forest of elements. Tags are lower-cased node names; absent ids and names are empty strings;
   `depth` counts the ancestors of an element.
   */
  datatype Dom = Dom(elems: set<Elem>, parent: map<Elem, Parent>, kids: map<Elem, seq<Elem>>, depth: map<Elem, nat>,
                     tag: map<Elem, string>, id: map<Elem, string>, name: map<Elem, string>,
                     root: Elem, body: Option<Elem>) {

    ghost predicate Valid() {
      && parent.Keys == elems && kids.Keys == elems && depth.Keys == elems
      && tag.Keys == elems && id.Keys == elems && name.Keys == elems
      && (forall e <- elems :: parent[e] == Document <==> e == root)
      && root in elems && (body.Some? ==> body.value in elems)
      && (forall e <- elems :: parent[e].Under? ==> parent[e].elem in elems && e in kids[parent[e].elem]
                                                    && depth[parent[e].elem] < depth[e])
      && (forall p <- elems, i | 0 <= i < |kids[p]| :: kids[p][i] in elems && parent[kids[p][i]] == Under(p))
      && (forall p <- elems, i, j | 0 <= i < j < |kids[p]| :: kids[p][i] != kids[p][j])
    }

    predicate Attached(e: Elem)
      requires Valid() && e in elems
      decreases depth[e]
    {
      match parent[e]
      case Document => true
      case Under(p) => Attached(p)
      case Detached => false
    }

    /** a is a proper ancestor of e. */
    predicate Above(a: Elem, e: Elem)
      requires Valid() && e in elems
      decreases depth[e]
    {
      parent[e].Under? && (parent[e].elem == a || Above(a, parent[e].elem))
    }
  }

  // --- Selectors and their meaning -----------------------------------------------------------

  datatype Compound = ById(id: string) | ByTag(tag: string) | ByTagNth(tag: string, nth: nat) | ByTagName(tag: string, name: string)

  /** "c", "left > c" and "left c". */
  datatype Selector = Just(c: Compound) | Child(left: Selector, c: Compound) | Inside(left: Selector, c: Compound)

  function CountTag(d: Dom, list: seq<Elem>, tag: string): nat
    requires forall e <- list :: e in d.tag
  {
    if list == [] then 0
    else CountTag(d, list[..|list| - 1], tag) + if d.tag[list[|list| - 1]] == tag then 1 else 0
  }

  /** e is the n-th among the children of its parent that have its tag. */
  ghost predicate NthOfType(d: Dom, e: Elem, n: nat)
    requires d.Valid() && e in d.elems
  {
    if d.parent[e].Under? then
      var siblings := d.kids[d.parent[e].elem];
      exists i :: 0 <= i < |siblings| && siblings[i] == e && CountTag(d, siblings[..i + 1], d.tag[e]) == n
    else n == 1
  }

  /** The part of a compound that the element itself decides. */
  predicate Labelled(d: Dom, c: Compound, e: Elem)
    requires d.Valid() && e in d.elems
  {
    match c
    case ById(id) => d.id[e] == id
    case ByTag(tag) => d.tag[e] == tag
    case ByTagNth(tag, _) => d.tag[e] == tag
    case ByTagName(tag, name) => d.tag[e] == tag && d.name[e] == name
  }

  ghost predicate Fits(d: Dom, c: Compound, e: Elem)
    requires d.Valid() && e in d.elems
  {
    Labelled(d, c, e) && (c.ByTagNth? ==> NthOfType(d, e, c.nth))
  }

  ghost predicate Matches(d: Dom, s: Selector, e: Elem)
    requires d.Valid() && e in d.elems
    decreases s
  {
    match s
    case Just(c) => Fits(d, c, e)
    case Child(left, c) => Fits(d, c, e) && d.parent[e].Under? && Matches(d, left, d.parent[e].elem)
    case Inside(left, c) => Fits(d, c, e) && exists a <- d.elems :: d.Above(a, e) && Matches(d, left, a)
  }

  /** document.querySelectorAll finds e and nothing else. */
  ghost predicate SelectsOnly(d: Dom, s: Selector, e: Elem)
    requires d.Valid() && e in d.elems
  {
    forall x <- d.elems :: d.Attached(x) && Matches(d, s, x) <==> x == e
  }

  // --- The structural path ---------------------------------------------------------------------

  /** path.join(" > "), prefixed by s. */
  function Extend(s: Selector, path: seq<Compound>): Selector
    decreases |path|
  {
    if path == [] then s else Extend(Child(s, path[0]), path[1..])
  }

  /** Whatever selects `top` alone, followed by `path`, selects `e` alone. */
  ghost predicate LeadsTo(d: Dom, top: Elem, path: seq<Compound>, e: Elem)
    requires d.Valid() && top in d.elems && e in d.elems
  {
    forall s :: SelectsOnly(d, s, top) ==> SelectsOnly(d, Extend(s, path), e)
  }

  /** The compound that tells an element from its siblings. */
  ghost predicate TellsApart(d: Dom, c: Compound, e: Elem)
    requires d.Valid() && e in d.elems && d.parent[e].Under?
  {
    forall x <- d.kids[d.parent[e].elem] :: Fits(d, c, x) <==> x == e
  }

  lemma {:induction false} CountGrows(d: Dom, list: seq<Elem>, tag: string, i: nat, j: nat)
    requires (forall e <- list :: e in d.tag) && i <= j <= |list|
    ensures CountTag(d, list[..i], tag) <= CountTag(d, list[..j], tag)
    ensures i < j && d.tag[list[j - 1]] == tag ==> CountTag(d, list[..i], tag) < CountTag(d, list[..j], tag)
  {
    if i < j {
      CountGrows(d, list, tag, i, j - 1);
      assert list[..j][..j - 1] == list[..j - 1];
    }
  }

  lemma CountsDiffer(d: Dom, list: seq<Elem>, tag: string, i: nat, j: nat)
    requires (forall e <- list :: e in d.tag) && i < j < |list| && d.tag[list[j]] == tag
    ensures CountTag(d, list[..i + 1], tag) < CountTag(d, list[..j + 1], tag)
  {
    CountGrows(d, list, tag, i + 1, j + 1);
  }

  /** Two children of one parent with equal tags have different ordinals. */
  lemma OrdinalsDiffer(d: Dom, p: Elem, x: Elem, y: Elem, n: nat)
    requires d.Valid() && p in d.elems && x in d.kids[p] && y in d.kids[p] && d.tag[x] == d.tag[y]
    requires NthOfType(d, x, n) && NthOfType(d, y, n)
    ensures x == y
  {
    var siblings := d.kids[p];
    assert d.parent[x] == Under(p) && d.parent[y] == Under(p);
    var i :| 0 <= i < |siblings| && siblings[i] == x && CountTag(d, siblings[..i + 1], d.tag[x]) == n;
    var j :| 0 <= j < |siblings| && siblings[j] == y && CountTag(d, siblings[..j + 1], d.tag[y]) == n;
    if i < j {
      CountsDiffer(d, siblings, d.tag[x], i, j);
    } else if j < i {
      CountsDiffer(d, siblings, d.tag[x], j, i);
    }
  }

  lemma OrdinalTellsApart(d: Dom, e: Elem, n: nat)
    requires d.Valid() && e in d.elems && d.parent[e].Under? && NthOfType(d, e, n)
    ensures TellsApart(d, ByTagNth(d.tag[e], n), e)
  {
    var p := d.parent[e].elem;
    forall x <- d.kids[p] | Fits(d, ByTagNth(d.tag[e], n), x) ensures x == e {
      OrdinalsDiffer(d, p, x, e, n);
    }
  }

  lemma OnlyChildTellsApart(d: Dom, e: Elem)
    requires d.Valid() && e in d.elems && d.parent[e].Under? && |d.kids[d.parent[e].elem]| == 1
    ensures TellsApart(d, ByTag(d.tag[e]), e)
  {
  }

  /** One more step to the parent. */
  lemma StepUp(d: Dom, c: Compound, e: Elem)
    requires d.Valid() && e in d.elems && d.parent[e].Under? && d.Attached(e) && TellsApart(d, c, e)
    ensures forall s :: SelectsOnly(d, s, d.parent[e].elem) ==> SelectsOnly(d, Child(s, c), e)
  {
    forall s | SelectsOnly(d, s, d.parent[e].elem) ensures SelectsOnly(d, Child(s, c), e) {
      forall x <- d.elems ensures d.Attached(x) && Matches(d, Child(s, c), x) <==> x == e {
        if d.Attached(x) && Matches(d, Child(s, c), x) {
          assert d.Attached(d.parent[x].elem);
          assert x in d.kids[d.parent[e].elem];
        }
      }
    }
  }

  lemma PathGrows(d: Dom, c: Compound, cur: Elem, path: seq<Compound>, e: Elem)
    requires d.Valid() && cur in d.elems && e in d.elems && d.parent[cur].Under? && d.Attached(cur)
    requires TellsApart(d, c, cur) && LeadsTo(d, cur, path, e)
    ensures LeadsTo(d, d.parent[cur].elem, [c] + path, e)
  {
    StepUp(d, c, cur);
    forall s | SelectsOnly(d, s, d.parent[cur].elem) ensures SelectsOnly(d, Extend(s, [c] + path), e) {
      assert ([c] + path)[1..] == path;
      assert SelectsOnly(d, Child(s, c), cur);
    }
  }

  /** The walk over previousElementSibling. */
  method CountBack(d: Dom, siblings: seq<Elem>, at: nat, tag: string) returns (nth: nat)
    requires at < |siblings| && forall e <- siblings :: e in d.tag
    ensures nth == 1 + CountTag(d, siblings[..at], tag)
  {
    nth := 1;
    var k := at;
    while k > 0
      invariant 0 <= k <= at
      invariant nth + CountTag(d, siblings[..k], tag) == 1 + CountTag(d, siblings[..at], tag)
    {
      k := k - 1;
      assert siblings[..k + 1][..k] == siblings[..k];
      if d.tag[siblings[k]] == tag {
        nth := nth + 1;
      }
    }
  }

  /** The ordinal of e among the siblings with its tag, and whether it has no siblings at all. */
  method Ordinal(d: Dom, e: Elem) returns (nth: nat, alone: bool)
    requires d.Valid() && e in d.elems && d.parent[e].Under?
    ensures NthOfType(d, e, nth) && (alone <==> |d.kids[d.parent[e].elem]| == 1)
  {
    var siblings := d.kids[d.parent[e].elem];
    var at :| 0 <= at < |siblings| && siblings[at] == e;
    nth := CountBack(d, siblings, at, d.tag[e]);
    assert siblings[..at + 1][..at] == siblings[..at];
    var hasPrevious, hasNext := at > 0, at + 1 < |siblings|;
    alone := !(nth > 1 || hasPrevious || hasNext);
    assert at == 0 ==> siblings[..at] == [];
  }

  /** safeQuery(selector, scope).length === 1; scope None is the document. */
  predicate Once(d: Dom, c: Compound, scope: Option<Elem>)
    requires d.Valid()
  {
    |Found(d, c, scope)| == 1
  }

  function Found(d: Dom, c: Compound, scope: Option<Elem>): set<Elem>
    requires d.Valid()
  {
    set e | e in d.elems && (if scope.Some? then d.Above(scope.value, e) else d.Attached(e)) && Labelled(d, c, e)
  }

  lemma OnceSelects(d: Dom, c: Compound, e: Elem)
    requires d.Valid() && e in d.elems && d.Attached(e) && !c.ByTagNth? && Labelled(d, c, e) && Once(d, c, None)
    ensures SelectsOnly(d, Just(c), e)
  {
    OneMember(Found(d, c, None));
    forall x <- d.elems | d.Attached(x) && Matches(d, Just(c), x) ensures x == e {
      assert x in Found(d, c, None) && e in Found(d, c, None);
    }
  }

  lemma OneMember(s: set<Elem>)
    requires |s| == 1
    ensures forall x <- s, y <- s :: x == y
  {
    var a :| a in s;
    assert |s - {a}| == 0;
  }

  /** No other attached element has this tag. */
  ghost predicate OnlyTagged(d: Dom, tag: string, e: Elem)
    requires d.Valid() && e in d.elems
  {
    d.tag[e] == tag && forall x <- d.elems :: d.Attached(x) && d.tag[x] == tag ==> x == e
  }

  /** The walk from e to the top stops at a single body, a unique id, or a root with a tag of its own. */
  ghost predicate Anchored(d: Dom, e: Elem)
    requires d.Valid() && e in d.elems
    decreases d.depth[e]
  {
    if d.body == Some(e) then OnlyTagged(d, "body", e)
    else if d.parent[e] == Detached then false
    else if d.id[e] != "" && Once(d, ById(d.id[e]), None) then true
    else if d.parent[e] == Document then OnlyTagged(d, d.tag[e], e)
    else Anchored(d, d.parent[e].elem)
  }

  /** The step to an element from its parent: the tag, with an ordinal exactly where there are siblings. */
  ghost predicate IsStep(d: Dom, e: Elem, c: Compound)
    requires d.Valid() && e in d.elems && d.parent[e].Under?
  {
    if |d.kids[d.parent[e].elem]| == 1 then c == ByTag(d.tag[e]) else c.ByTagNth? && c.tag == d.tag[e] && NthOfType(d, e, c.nth)
  }

  /** The structural selector of an attached element, top down: the first stop on the way up, then one step per level. */
  ghost predicate IsPath(d: Dom, e: Elem, s: Selector)
    requires d.Valid() && e in d.elems && d.Attached(e)
    decreases d.depth[e]
  {
    if d.body == Some(e) then s == Just(ByTag("body"))
    else if d.id[e] != "" && Once(d, ById(d.id[e]), None) then s == Just(ById(d.id[e]))
    else if d.parent[e] == Document then s == Just(ByTag(d.tag[e]))
    else s.Child? && IsStep(d, e, s.c) && IsPath(d, d.parent[e].elem, s.left)
  }

  /** What selects `top` by its path, followed by `path`, is the path of `e`. */
  ghost predicate Completes(d: Dom, top: Elem, path: seq<Compound>, e: Elem)
    requires d.Valid() && top in d.elems && e in d.elems && d.Attached(top) && d.Attached(e)
  {
    forall s :: IsPath(d, top, s) ==> IsPath(d, e, Extend(s, path))
  }

  lemma CompletesMore(d: Dom, c: Compound, cur: Elem, path: seq<Compound>, e: Elem)
    requires d.Valid() && cur in d.elems && e in d.elems && d.Attached(cur) && d.Attached(e) && d.parent[cur].Under?
    requires d.body != Some(cur) && !(d.id[cur] != "" && Once(d, ById(d.id[cur]), None))
    requires IsStep(d, cur, c) && Completes(d, cur, path, e)
    ensures Completes(d, d.parent[cur].elem, [c] + path, e)
  {
    forall s | IsPath(d, d.parent[cur].elem, s) ensures IsPath(d, e, Extend(s, [c] + path)) {
      assert ([c] + path)[1..] == path;
      assert IsPath(d, cur, Child(s, c));
    }
  }

  /** Where the walk to the top stops: an anchor that is selected on its own. */
  method StructuralPath(d: Dom, el: Elem) returns (r: Option<Selector>)
    requires d.Valid() && el in d.elems
    ensures d.Attached(el) && Anchored(d, el) ==> r.Some? && SelectsOnly(d, r.value, el)
    ensures d.Attached(el) ==> r.Some? && IsPath(d, el, r.value)
  {
    hide NthOfType, TellsApart, LeadsTo, Completes, IsStep;
    var path: seq<Compound> := [];
    var cur := el;
    EmptyPath(d, el);
    ghost var good := d.Attached(el) && Anchored(d, el);
    while true
      invariant cur in d.elems
      invariant good ==> Anchored(d, cur) && LeadsTo(d, cur, path, el)
      invariant d.Attached(el) ==> d.Attached(cur) && Completes(d, cur, path, el)
      decreases d.depth[cur]
    {
      if d.body == Some(cur) {
        path := [ByTag("body")] + path;
        break;
      }
      if d.parent[cur] == Detached {
        break;
      }
      if d.id[cur] != "" && Once(d, ById(d.id[cur]), None) {
        path := [ById(d.id[cur])] + path;
        if good {
          OnceSelects(d, ById(d.id[cur]), cur);
        }
        break;
      }
      if d.parent[cur] == Document {
        path := [ByTag(d.tag[cur])] + path;
        break;
      }
      var nth, alone := Ordinal(d, cur);
      var c := if alone then ByTag(d.tag[cur]) else ByTagNth(d.tag[cur], nth);
      StepIs(d, cur, nth, alone, c);
      if good {
        PathGrows(d, c, cur, path, el);
      }
      if d.Attached(el) {
        CompletesMore(d, c, cur, path, el);
      }
      path := [c] + path;
      cur := d.parent[cur].elem;
    }
    if path == [] {
      return None;
    }
    r := Some(Extend(Just(path[0]), path[1..]));
    if good {
      assert SelectsOnly(d, Just(path[0]), cur);
      LeadsThere(d, cur, path[1..], el, Just(path[0]));
    }
    if d.Attached(el) {
      CompletesIt(d, cur, path[1..], el, Just(path[0]));
    }
  }

  lemma EmptyPath(d: Dom, e: Elem)
    requires d.Valid() && e in d.elems
    ensures LeadsTo(d, e, [], e) && (d.Attached(e) ==> Completes(d, e, [], e))
  {
  }

  lemma LeadsThere(d: Dom, top: Elem, path: seq<Compound>, e: Elem, s: Selector)
    requires d.Valid() && top in d.elems && e in d.elems && LeadsTo(d, top, path, e) && SelectsOnly(d, s, top)
    ensures SelectsOnly(d, Extend(s, path), e)
  {
  }

  lemma CompletesIt(d: Dom, top: Elem, path: seq<Compound>, e: Elem, s: Selector)
    requires d.Valid() && top in d.elems && e in d.elems && d.Attached(top) && d.Attached(e) && Completes(d, top, path, e) && IsPath(d, top, s)
    ensures IsPath(d, e, Extend(s, path))
  {
  }

  /** The compound of one level is a step, and tells the element from its siblings. */
  lemma StepIs(d: Dom, e: Elem, nth: nat, alone: bool, c: Compound)
    requires d.Valid() && e in d.elems && d.parent[e].Under? && NthOfType(d, e, nth)
    requires (alone <==> |d.kids[d.parent[e].elem]| == 1) && c == if alone then ByTag(d.tag[e]) else ByTagNth(d.tag[e], nth)
    ensures IsStep(d, e, c) && TellsApart(d, c, e)
  {
    if alone {
      OnlyChildTellsApart(d, e);
    } else {
      OrdinalTellsApart(d, e, nth);
    }
  }

  /** The whole generator; `context` is None for the document. */
  method GetCssSelector(d: Dom, el: Elem, context: Option<Elem>) returns (r: Option<Selector>)
    requires d.Valid() && el in d.elems && (context.Some? ==> context.value in d.elems)
    ensures d.Attached(el) && Anchored(d, el) && (context.Some? ==> d.Above(context.value, el) && Anchored(d, context.value)) ==>
              r.Some? && SelectsOnly(d, r.value, el)
    ensures var byName := ByTagName(d.tag[el], d.name[el]);
            var unique, named, inContext := d.id[el] != "" && Once(d, ById(d.id[el]), None), d.name[el] != "", context.Some? && Once(d, byName, context);
            && (unique ==> r == Some(Just(ById(d.id[el]))))
            && (!unique && named && inContext && d.Attached(context.value) ==> r.Some? && r.value.Inside? && r.value.c == byName)
            && (!unique && named && !inContext && Once(d, byName, None) ==> r == Some(Just(byName)))
            && (!unique && (!named || (!inContext && !Once(d, byName, None))) && d.Attached(el) ==> r.Some? && IsPath(d, el, r.value))
    ensures d.Attached(el) ==> r.Some?
    decreases context.Some?
  {
    ghost var good := d.Attached(el) && Anchored(d, el) && (context.Some? ==> d.Above(context.value, el) && Anchored(d, context.value));
    if d.id[el] != "" && Once(d, ById(d.id[el]), None) {
      if good {
        OnceSelects(d, ById(d.id[el]), el);
      }
      return Some(Just(ById(d.id[el])));
    }
    var byName := ByTagName(d.tag[el], d.name[el]);
    if d.name[el] != "" && context.Some? && Once(d, byName, context) {
      var contextSelector := GetCssSelector(d, context.value, None);
      if contextSelector.Some? {
        if good {
          AncestorsAttached(d, context.value, el);
          InsideContext(d, contextSelector.value, byName, context.value, el);
        }
        return Some(Inside(contextSelector.value, byName));
      }
    }
    if d.name[el] != "" && Once(d, byName, None) {
      if good {
        OnceSelects(d, byName, el);
      }
      return Some(Just(byName));
    }
    r := StructuralPath(d, el);
  }

  lemma {:induction false} AncestorsAttached(d: Dom, a: Elem, e: Elem)
    requires d.Valid() && e in d.elems && d.Above(a, e)
    ensures a in d.elems && (d.Attached(e) ==> d.Attached(a))
    decreases d.depth[e]
  {
    if d.parent[e].elem != a {
      AncestorsAttached(d, a, d.parent[e].elem);
    }
  }

  lemma InsideContext(d: Dom, s: Selector, c: Compound, ctx: Elem, el: Elem)
    requires d.Valid() && el in d.elems && ctx in d.elems && d.Attached(el) && d.Above(ctx, el) && Fits(d, c, el)
    requires SelectsOnly(d, s, ctx) && Once(d, c, Some(ctx))
    ensures SelectsOnly(d, Inside(s, c), el)
  {
    OneMember(Found(d, c, Some(ctx)));
    assert el in Found(d, c, Some(ctx));
    forall x <- d.elems ensures d.Attached(x) && Matches(d, Inside(s, c), x) <==> x == el {
      if d.Attached(x) && Matches(d, Inside(s, c), x) {
        var a :| a in d.elems && d.Above(a, x) && Matches(d, s, a);
        AncestorsAttached(d, a, x);
        assert x in Found(d, c, Some(ctx));
      }
    }
  }
}
