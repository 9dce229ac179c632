/**
 The subscriber table of the cognitive bus (internal/agent/cognitive_bus.go): channels per
 message type, with the empty type for subscribers to everything.
 */
module Subscribers {
  import opened Basics

  type Chan = nat
  type MsgType = string
  type Table = map<MsgType, seq<Chan>>

  function Listed(t: Table, k: MsgType): seq<Chan> {
    if k in t then t[k] else []
  }

  ghost function AllChans(t: Table): set<Chan> {
    set k, i | k in t && 0 <= i < |t[k]| :: t[k][i]
  }

  /** The distinct channels a message of this kind goes to. */
  ghost function Listening(t: Table, kind: MsgType): set<Chan> {
    (set ch | ch in Listed(t, kind)) + (set ch | ch in Listed(t, ""))
  }

  function Joined(t: Table, kinds: seq<MsgType>, ch: Chan): Table
    decreases |kinds|
  {
    if kinds == [] then t
    else Joined(t[kinds[0] := Listed(t, kinds[0]) + [ch]], kinds[1..], ch)
  }

  /** The list without the first occurrence of ch. */
  function WithoutFirst(list: seq<Chan>, ch: Chan): seq<Chan> {
    if list == [] then [] else if list[0] == ch then list[1..] else [list[0]] + WithoutFirst(list[1..], ch)
  }

  /** One list loses one occurrence; an emptied list loses its entry. */
  function LeftOne(t: Table, k: MsgType, ch: Chan): Table {
    if k !in t || ch !in t[k] then t
    else if WithoutFirst(t[k], ch) == [] then t - {k}
    else t[k := WithoutFirst(t[k], ch)]
  }

  function Left(t: Table, kinds: seq<MsgType>, ch: Chan): Table
    decreases |kinds|
  {
    if kinds == [] then t else Left(LeftOne(t, kinds[0], ch), kinds[1..], ch)
  }

  lemma NoChans()
    ensures AllChans(map[]) == {}
  {
  }

  lemma ListeningSubscribed(t: Table, kind: MsgType)
    ensures Listening(t, kind) <= AllChans(t)
  {
    forall ch | ch in Listening(t, kind) ensures ch in AllChans(t) {
      var k := if ch in Listed(t, kind) then kind else "";
      var i :| 0 <= i < |Listed(t, k)| && Listed(t, k)[i] == ch;
      assert k in t && t[k][i] == ch;
    }
  }

  lemma {:induction false} JoinedChans(t: Table, kinds: seq<MsgType>, ch: Chan)
    ensures AllChans(Joined(t, kinds, ch)) <= AllChans(t) + {ch}
    decreases |kinds|
  {
    if kinds != [] {
      var k := kinds[0];
      var t' := t[k := Listed(t, k) + [ch]];
      JoinedChans(t', kinds[1..], ch);
      forall c | c in AllChans(t') ensures c in AllChans(t) + {ch} {
        var j, i :| j in t' && 0 <= i < |t'[j]| && t'[j][i] == c;
        if j != k {
          assert t[j][i] == c;
        } else if i < |Listed(t, k)| {
          assert t[k][i] == c;
        }
      }
    }
  }

  lemma {:induction false} WithoutFirstMembers(list: seq<Chan>, ch: Chan)
    ensures forall c <- WithoutFirst(list, ch) :: c in list
  {
    if list != [] && list[0] != ch {
      WithoutFirstMembers(list[1..], ch);
    }
  }

  lemma {:induction false} LeftChans(t: Table, kinds: seq<MsgType>, ch: Chan)
    ensures AllChans(Left(t, kinds, ch)) <= AllChans(t)
    decreases |kinds|
  {
    if kinds != [] {
      var k := kinds[0];
      var t' := LeftOne(t, k, ch);
      LeftChans(t', kinds[1..], ch);
      forall c | c in AllChans(t') ensures c in AllChans(t) {
        var j, i :| j in t' && 0 <= i < |t'[j]| && t'[j][i] == c;
        assert c in t[j] by {
          WithoutFirstMembers(t[j], ch);
        }
        var i' :| 0 <= i' < |t[j]| && t[j][i'] == c;
      }
    }
  }

  // --- What joining and leaving do to the lists ----------------------------------------------------

  /** How often a channel is listed under a kind. */
  function Copies(t: Table, k: MsgType, x: Chan): nat {
    multiset(Listed(t, k))[x]
  }

  /** Joining lists the channel once more for every mention of a kind, and touches no other channel. */
  lemma {:induction false} JoinedCopies(t: Table, kinds: seq<MsgType>, ch: Chan, k: MsgType, x: Chan)
    ensures Copies(Joined(t, kinds, ch), k, x) == Copies(t, k, x) + if x == ch then multiset(kinds)[k] else 0
    decreases |kinds|
  {
    if kinds != [] {
      var t' := t[kinds[0] := Listed(t, kinds[0]) + [ch]];
      JoinedCopies(t', kinds[1..], ch, k, x);
      assert kinds == [kinds[0]] + kinds[1..];
      assert multiset(Listed(t, kinds[0]) + [ch]) == multiset(Listed(t, kinds[0])) + multiset{ch};
    }
  }

  lemma {:induction false} WithoutFirstCopies(list: seq<Chan>, ch: Chan)
    ensures multiset(WithoutFirst(list, ch)) == multiset(list) - multiset{ch}
  {
    if list != [] {
      assert list == [list[0]] + list[1..];
      if list[0] != ch {
        WithoutFirstCopies(list[1..], ch);
      }
    }
  }

  lemma LeftOneCopies(t: Table, j: MsgType, ch: Chan, k: MsgType, x: Chan)
    ensures Copies(LeftOne(t, j, ch), k, x) == if k == j && x == ch && Copies(t, k, x) > 0 then Copies(t, k, x) - 1 else Copies(t, k, x)
  {
    if j in t {
      WithoutFirstCopies(t[j], ch);
    }
  }

  /** Leaving drops one listing of the channel for every mention of a kind, and touches no other channel. */
  lemma {:induction false} LeftCopies(t: Table, kinds: seq<MsgType>, ch: Chan, k: MsgType, x: Chan)
    ensures Copies(Left(t, kinds, ch), k, x) ==
              if x != ch then Copies(t, k, x) else if Copies(t, k, x) <= multiset(kinds)[k] then 0 else Copies(t, k, x) - multiset(kinds)[k]
    decreases |kinds|
  {
    hide LeftOne;
    if kinds != [] {
      LeftOneCopies(t, kinds[0], ch, k, x);
      LeftCopies(LeftOne(t, kinds[0], ch), kinds[1..], ch, k, x);
      assert kinds == [kinds[0]] + kinds[1..];
    }
  }

  // --- Leaving undoes joining --------------------------------------------------------------------

  function Repeat(ch: Chan, n: nat): seq<Chan> {
    seq(n, _ => ch)
  }

  /** t is base with n(k) copies of ch appended to the list of each kind k, and no entry is empty. */
  ghost predicate Extra(base: Table, t: Table, ch: Chan, n: multiset<MsgType>) {
    && (forall k :: Listed(t, k) == Listed(base, k) + Repeat(ch, n[k]))
    && (forall k <- t :: t[k] != [])
  }

  lemma {:induction false} JoinedExtra(base: Table, t: Table, kinds: seq<MsgType>, ch: Chan, n: multiset<MsgType>)
    requires Extra(base, t, ch, n)
    ensures Extra(base, Joined(t, kinds, ch), ch, n + multiset(kinds))
    decreases |kinds|
  {
    hide Extra;
    if kinds == [] {
      assert n + multiset(kinds) == n;
    } else {
      var k := kinds[0];
      JoinedOneExtra(base, t, k, ch, n);
      JoinedExtra(base, t[k := Listed(t, k) + [ch]], kinds[1..], ch, n + multiset{k});
      assert kinds == [k] + kinds[1..];
      assert n + multiset{k} + multiset(kinds[1..]) == n + multiset(kinds);
    }
  }

  lemma RepeatMore(ch: Chan, n: nat)
    ensures Repeat(ch, n + 1) == Repeat(ch, n) + [ch]
  {
  }

  lemma JoinedOneExtra(base: Table, t: Table, k: MsgType, ch: Chan, n: multiset<MsgType>)
    requires Extra(base, t, ch, n)
    ensures Extra(base, t[k := Listed(t, k) + [ch]], ch, n + multiset{k})
  {
    hide Repeat;
    var t' := t[k := Listed(t, k) + [ch]];
    RepeatMore(ch, n[k]);
    forall j ensures Listed(t', j) == Listed(base, j) + Repeat(ch, (n + multiset{k})[j]) {
      if j == k {
        assert Listed(t', k) == Listed(base, k) + (Repeat(ch, n[k]) + [ch]);
      } else {
        assert Listed(t', j) == Listed(t, j);
      }
    }
  }

  lemma {:induction false} WithoutFirstRepeat(list: seq<Chan>, ch: Chan, n: nat)
    requires ch !in list && n > 0
    ensures WithoutFirst(list + Repeat(ch, n), ch) == list + Repeat(ch, n - 1)
  {
    var full := list + Repeat(ch, n);
    if list == [] {
      assert full == Repeat(ch, n) && full[1..] == Repeat(ch, n - 1);
    } else {
      WithoutFirstRepeat(list[1..], ch, n);
      assert full[1..] == list[1..] + Repeat(ch, n);
    }
  }

  lemma LeftOneExtra(base: Table, t: Table, k: MsgType, ch: Chan, n: multiset<MsgType>)
    requires Extra(base, t, ch, n) && k in n && forall j :: ch !in Listed(base, j)
    ensures Extra(base, LeftOne(t, k, ch), ch, n - multiset{k})
  {
    assert Listed(t, k)[|Listed(base, k)|] == ch;
    WithoutFirstRepeat(Listed(base, k), ch, n[k]);
    var t' := LeftOne(t, k, ch);
    forall j ensures Listed(t', j) == Listed(base, j) + Repeat(ch, (n - multiset{k})[j]) {
    }
  }

  lemma {:induction false} LeftExtra(base: Table, t: Table, kinds: seq<MsgType>, ch: Chan)
    requires Extra(base, t, ch, multiset(kinds)) && forall j :: ch !in Listed(base, j)
    ensures Extra(base, Left(t, kinds, ch), ch, multiset{})
    decreases |kinds|
  {
    if kinds == [] {
      assert multiset(kinds) == multiset{};
    } else {
      assert kinds == [kinds[0]] + kinds[1..];
      assert multiset(kinds) - multiset{kinds[0]} == multiset(kinds[1..]);
      LeftOneExtra(base, t, kinds[0], ch, multiset(kinds));
      LeftExtra(base, LeftOne(t, kinds[0], ch), kinds[1..], ch);
    }
  }

  /** Unsubscribing a fresh channel restores the table, whatever types (even repeated ones) it was subscribed to. */
  lemma LeaveUndoesJoin(t: Table, kinds: seq<MsgType>, ch: Chan)
    requires (forall k <- t :: t[k] != []) && forall k :: ch !in Listed(t, k)
    ensures Left(Joined(t, kinds, ch), kinds, ch) == t
  {
    hide Left, Joined;
    assert Extra(t, t, ch, multiset{});
    JoinedExtra(t, t, kinds, ch, multiset{});
    assert multiset{} + multiset(kinds) == multiset(kinds);
    LeftExtra(t, Joined(t, kinds, ch), kinds, ch);
    SameLists(Left(Joined(t, kinds, ch), kinds, ch), t, ch);
  }

  lemma SameLists(a: Table, b: Table, ch: Chan)
    requires Extra(b, a, ch, multiset{}) && forall k <- b :: b[k] != []
    ensures a == b
  {
    assert forall k :: Listed(a, k) == Listed(b, k);
    assert forall k :: k in a <==> Listed(a, k) != [];
    assert forall k :: k in b <==> Listed(b, k) != [];
    assert a.Keys == b.Keys;
  }

  // --- The loops of the source ---------------------------------------------------------------------

  class Registry {
    var subscribers: Table

    constructor ()
      ensures subscribers == map[]
    {
      subscribers := map[];
    }

    method Subscribe(msgTypes: seq<MsgType>, ch: Chan)
      modifies this
      ensures subscribers == Joined(old(subscribers), if msgTypes == [] then [""] else msgTypes, ch)
    {
      var types := if msgTypes == [] then [""] else msgTypes;
      assert types[0..] == types;
      for i := 0 to |types|
        invariant Joined(subscribers, types[i..], ch) == Joined(old(subscribers), types, ch)
      {
        assert types[i..][0] == types[i] && types[i..][1..] == types[i + 1..];
        subscribers := subscribers[types[i] := Listed(subscribers, types[i]) + [ch]];
      }
    }

    method Unsubscribe(msgTypes: seq<MsgType>, ch: Chan)
      modifies this
      ensures subscribers == Left(old(subscribers), if msgTypes == [] then [""] else msgTypes, ch)
    {
      var types := if msgTypes == [] then [""] else msgTypes;
      assert types[0..] == types;
      for i := 0 to |types|
        invariant Left(subscribers, types[i..], ch) == Left(old(subscribers), types, ch)
      {
        assert types[i..][0] == types[i] && types[i..][1..] == types[i + 1..];
        RemoveOne(types[i], ch);
      }
    }

    /** Shift the tail over the first occurrence and truncate. */
    method RemoveOne(k: MsgType, ch: Chan)
      modifies this
      ensures subscribers == LeftOne(old(subscribers), k, ch)
    {
      if k !in subscribers {
        return;
      }
      var subs := subscribers[k];
      for i := 0 to |subs|
        invariant ch !in subs[..i] && subscribers == old(subscribers)
      {
        if subs[i] == ch {
          WithoutFirstAt(subs, ch, i);
          var shifted := subs[..i] + subs[i + 1..];
          subscribers := if shifted == [] then subscribers - {k} else subscribers[k := shifted];
          return;
        }
      }
    }
  }

  /** Map keys in arbitrary order: every element once. */
  method Distinct(list: seq<Chan>) returns (order: seq<Chan>)
    ensures NoDup(order) && forall ch :: ch in order <==> ch in list
  {
    order := [];
    for i := 0 to |list|
      invariant NoDup(order) && forall ch :: ch in order <==> ch in list[..i]
    {
      if list[i] !in order {
        order := order + [list[i]];
      }
    }
    assert list[..|list|] == list;
  }

  lemma {:induction false} WithoutFirstAt(list: seq<Chan>, ch: Chan, i: nat)
    requires i < |list| && list[i] == ch && ch !in list[..i]
    ensures WithoutFirst(list, ch) == list[..i] + list[i + 1..]
  {
    if i > 0 {
      assert list[..i][0] == list[0];
      assert list[1..][..i - 1] == list[..i][1..];
      WithoutFirstAt(list[1..], ch, i - 1);
      assert list[1..][i..] == list[i + 1..];
    }
  }
}
