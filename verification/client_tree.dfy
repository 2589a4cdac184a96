/**
 Presentation order of a client table: every Run and Step is written as its
 Begin, its children in table order, and its End if it has one. The order is
 complete, free of repetition, and replayable.
 */
module ClientTree {
  import opened Common
  import opened ClientSpec

  ghost predicate Begun(rs: seq<Event>, key: Key) {
    Has(rs, Slot(true, key))
  }

  ghost function Index(rs: seq<Event>, slot: Slot): (i: nat)
    requires Has(rs, slot)
    ensures At(rs, i, slot)
  {
    var i: nat :| At(rs, i, slot); i
  }

  ghost function Birth(rs: seq<Event>, key: Key): (i: nat)
    requires Begun(rs, key)
    ensures At(rs, i, Slot(true, key))
  {
    Index(rs, Slot(true, key))
  }

  ghost function Parent(rs: seq<Event>, key: Key): Option<Key>
    requires Begun(rs, key)
  {
    ParentOf(rs[Birth(rs, key)])
  }

  lemma BirthIs(rs: seq<Event>, i: nat)
    requires Closed(rs) && i < |rs| && IsBegin(rs[i])
    ensures Begun(rs, KeyOf(rs[i])) && Birth(rs, KeyOf(rs[i])) == i
  {
    assert At(rs, i, Slot(true, KeyOf(rs[i])));
    SlotsUnique(rs, i, Birth(rs, KeyOf(rs[i])));
  }

  lemma ParentFirst(rs: seq<Event>, key: Key)
    requires Closed(rs) && Begun(rs, key) && Parent(rs, key).Some?
    ensures Begun(rs, Parent(rs, key).value)
    ensures Birth(rs, Parent(rs, key).value) < Birth(rs, key)
  {
    var i := Birth(rs, key);
    assert Fits(rs[..i], rs[i]);
    var j: nat :| At(rs[..i], j, Slot(true, Parent(rs, key).value));
    BirthIs(rs, j);
  }

  /** `a` is `x` or lies above it. */
  ghost predicate Anc(rs: seq<Event>, a: Key, x: Key)
    requires Closed(rs) && Begun(rs, x)
    decreases Birth(rs, x)
  {
    a == x || (Parent(rs, x).Some? && (ParentFirst(rs, x); Anc(rs, a, Parent(rs, x).value)))
  }

  lemma {:induction false} AncBegun(rs: seq<Event>, a: Key, x: Key)
    requires Closed(rs) && Begun(rs, x) && Anc(rs, a, x)
    ensures Begun(rs, a) && Birth(rs, a) <= Birth(rs, x)
    decreases Birth(rs, x)
  {
    if a != x {
      ParentFirst(rs, x);
      AncBegun(rs, a, Parent(rs, x).value);
    }
  }

  /** The Begin keys directly below `p`, in table order. */
  function Kids(rs: seq<Event>, p: Option<Key>): seq<Key> {
    if rs == [] then []
    else
      var e := rs[|rs| - 1];
      Kids(rs[..|rs| - 1], p) + if IsBegin(e) && ParentOf(e) == p then [KeyOf(e)] else []
  }

  predicate Distinct<T(==)>(s: seq<T>) {
    forall i, j :: 0 <= i < j < |s| ==> s[i] != s[j]
  }

  lemma {:induction false} KidsAt(rs: seq<Event>, p: Option<Key>, k: Key)
    ensures k in Kids(rs, p) <==> exists i: nat :: BornAt(rs, i, p, k)
  {
    if rs != [] {
      var n := |rs| - 1;
      KidsAt(rs[..n], p, k);
      forall i: nat | i < n ensures BornAt(rs[..n], i, p, k) <==> BornAt(rs, i, p, k) {
      }
      hide BornAt;
      KidsLast(rs, p, k);
      if i: nat :| BornAt(rs, i, p, k) {
        BornBelow(rs, i, p, k);
      }
      if i: nat :| BornAt(rs[..n], i, p, k) {
        BornBelow(rs[..n], i, p, k);
      }
    }
  }

  predicate BornAt(rs: seq<Event>, i: nat, p: Option<Key>, k: Key) {
    i < |rs| && IsBegin(rs[i]) && ParentOf(rs[i]) == p && KeyOf(rs[i]) == k
  }

  lemma BornBelow(rs: seq<Event>, i: nat, p: Option<Key>, k: Key)
    requires BornAt(rs, i, p, k)
    ensures i < |rs|
  {
  }

  lemma KidsLast(rs: seq<Event>, p: Option<Key>, k: Key)
    requires rs != []
    ensures k in Kids(rs, p) <==> k in Kids(rs[..|rs| - 1], p) || BornAt(rs, |rs| - 1, p, k)
  {
  }

  lemma KidsAre(rs: seq<Event>, p: Option<Key>, k: Key)
    requires Closed(rs)
    ensures k in Kids(rs, p) <==> Begun(rs, k) && Parent(rs, k) == p
  {
    hide Kids, Closed;
    KidsAt(rs, p, k);
    if i: nat :| BornAt(rs, i, p, k) {
      BirthIs(rs, i);
    }
    if Begun(rs, k) && Parent(rs, k) == p {
      assert BornAt(rs, Birth(rs, k), p, k);
    }
  }

  lemma {:induction false} KidsDistinct(rs: seq<Event>, p: Option<Key>)
    requires Closed(rs)
    ensures Distinct(Kids(rs, p))
  {
    if rs != [] {
      var init, e := rs[..|rs| - 1], rs[|rs| - 1];
      assert rs == init + [e];
      ClosedSnoc(init, e);
      KidsDistinct(init, p);
      if IsBegin(e) {
        KidsAre(init, p, KeyOf(e));
      }
    }
  }

  /** Every key of `keys` is begun at or after `lo`. */
  ghost predicate Late(rs: seq<Event>, lo: nat, keys: seq<Key>) {
    lo <= |rs| && forall i :: 0 <= i < |keys| ==> Begun(rs, keys[i]) && lo <= Birth(rs, keys[i])
  }

  lemma KidsLate(rs: seq<Event>, key: Key)
    requires Closed(rs) && Begun(rs, key)
    ensures Late(rs, Birth(rs, key) + 1, Kids(rs, Some(key)))
  {
    var kids := Kids(rs, Some(key));
    forall i | 0 <= i < |kids| ensures Begun(rs, kids[i]) && Birth(rs, key) + 1 <= Birth(rs, kids[i]) {
      KidsAre(rs, Some(key), kids[i]);
      ParentFirst(rs, kids[i]);
    }
  }

  lemma RootsLate(rs: seq<Event>)
    requires Closed(rs)
    ensures Late(rs, 0, Kids(rs, None))
  {
    var kids := Kids(rs, None);
    forall i | 0 <= i < |kids| ensures Begun(rs, kids[i]) {
      KidsAre(rs, None, kids[i]);
    }
  }

  ghost function Ending(rs: seq<Event>, key: Key): seq<Event> {
    if Has(rs, Slot(false, key)) then [rs[Index(rs, Slot(false, key))]] else []
  }

  ghost function Below(rs: seq<Event>, key: Key): seq<Event>
    requires Closed(rs) && Begun(rs, key)
    decreases |rs| - Birth(rs, key), 2, 0
  {
    KidsLate(rs, key);
    Forest(rs, Birth(rs, key) + 1, Kids(rs, Some(key)))
  }

  /** Begin, everything below, End. */
  ghost function Tree(rs: seq<Event>, key: Key): seq<Event>
    requires Closed(rs) && Begun(rs, key)
    decreases |rs| - Birth(rs, key), 3, 0
  {
    [rs[Birth(rs, key)]] + Below(rs, key) + Ending(rs, key)
  }

  ghost function Forest(rs: seq<Event>, lo: nat, keys: seq<Key>): seq<Event>
    requires Closed(rs) && Late(rs, lo, keys)
    decreases |rs| - lo, 4, |keys|
  {
    if keys == [] then [] else Tree(rs, keys[0]) + Forest(rs, lo, keys[1..])
  }

  ghost function Presented(rs: seq<Event>): seq<Event>
    requires Closed(rs)
  {
    RootsLate(rs);
    Forest(rs, 0, Kids(rs, None))
  }

  // ---------------------------------------------------------------------
  // Ancestry
  // ---------------------------------------------------------------------

  lemma KeyBegun(rs: seq<Event>, i: nat)
    requires Closed(rs) && i < |rs|
    ensures Structural(rs[i]) && Begun(rs, KeyOf(rs[i]))
  {
    assert Fits(rs[..i], rs[i]);
    var slot := Slot(true, KeyOf(rs[i]));
    if IsBegin(rs[i]) {
      assert At(rs, i, slot);
    } else {
      var j: nat :| At(rs[..i], j, slot);
      assert At(rs, j, slot);
    }
  }

  lemma {:induction false} AncDown(rs: seq<Event>, key: Key, x: Key) returns (kid: Key)
    requires Closed(rs) && Begun(rs, x) && Anc(rs, key, x) && key != x
    ensures kid in Kids(rs, Some(key)) && Begun(rs, kid) && Anc(rs, kid, x)
    decreases Birth(rs, x)
  {
    ParentFirst(rs, x);
    if Parent(rs, x).value == key {
      kid := x;
      KidsAre(rs, Some(key), x);
    } else {
      kid := AncDown(rs, key, Parent(rs, x).value);
    }
  }

  lemma {:induction false} AncUp(rs: seq<Event>, kid: Key, x: Key)
    requires Closed(rs) && Begun(rs, x) && Begun(rs, kid) && Anc(rs, kid, x) && Parent(rs, kid).Some?
    ensures Anc(rs, Parent(rs, kid).value, x)
    decreases Birth(rs, x)
  {
    ParentFirst(rs, kid);
    if kid != x {
      ParentFirst(rs, x);
      AncUp(rs, kid, Parent(rs, x).value);
    }
  }

  lemma {:induction false} RootAbove(rs: seq<Event>, x: Key) returns (root: Key)
    requires Closed(rs) && Begun(rs, x)
    ensures root in Kids(rs, None) && Begun(rs, root) && Anc(rs, root, x)
    decreases Birth(rs, x)
  {
    if Parent(rs, x).None? {
      root := x;
      KidsAre(rs, None, x);
    } else {
      ParentFirst(rs, x);
      root := RootAbove(rs, Parent(rs, x).value);
    }
  }

  /** A Step lies under its own Run. */
  lemma {:induction false} RunAbove(rs: seq<Event>, x: Key)
    requires Closed(rs) && Begun(rs, x)
    ensures Anc(rs, RunKey(x.run), x)
    decreases Birth(rs, x)
  {
    var i := Birth(rs, x);
    assert Fits(rs[..i], rs[i]);
    if x.StepKey? {
      assert Parent(rs, x) == Some(Above(x));
      ParentFirst(rs, x);
      RunAbove(rs, Above(x));
    }
  }

  lemma {:induction false} SiblingsApart(rs: seq<Event>, a: Key, b: Key, x: Key)
    requires Closed(rs) && Begun(rs, x) && Begun(rs, a) && Begun(rs, b)
    requires a != b && Parent(rs, a) == Parent(rs, b) && Anc(rs, a, x)
    ensures !Anc(rs, b, x)
    decreases Birth(rs, x)
  {
    if x == a || x == b {
      OlderApart(rs, a, b, x);
    } else {
      ParentFirst(rs, x);
      SiblingsApart(rs, a, b, Parent(rs, x).value);
    }
  }

  lemma OlderApart(rs: seq<Event>, a: Key, b: Key, x: Key)
    requires Closed(rs) && Begun(rs, a) && Begun(rs, b) && (x == a || x == b)
    requires a != b && Parent(rs, a) == Parent(rs, b)
    requires Anc(rs, a, x)
    ensures !Anc(rs, b, x)
  {
    hide Closed;
    var other := if x == a then b else a;
    if Anc(rs, b, x) {
      ParentFirst(rs, x);
      AncBegun(rs, other, Parent(rs, x).value);
      ParentFirst(rs, other);
    }
  }

  // ---------------------------------------------------------------------
  // The presentation holds every record once
  // ---------------------------------------------------------------------

  ghost predicate AnyAnc(rs: seq<Event>, keys: seq<Key>, x: Key)
    requires Closed(rs) && Begun(rs, x)
  {
    exists i :: 0 <= i < |keys| && Anc(rs, keys[i], x)
  }

  lemma AnyAncCons(rs: seq<Event>, keys: seq<Key>, x: Key)
    requires Closed(rs) && Begun(rs, x) && keys != []
    ensures AnyAnc(rs, keys, x) <==> Anc(rs, keys[0], x) || AnyAnc(rs, keys[1..], x)
  {
    if AnyAnc(rs, keys, x) {
      var i :| 0 <= i < |keys| && Anc(rs, keys[i], x);
      if i > 0 {
        assert Anc(rs, keys[1..][i - 1], x);
      }
    }
    if AnyAnc(rs, keys[1..], x) {
      var i :| 0 <= i < |keys[1..]| && Anc(rs, keys[1..][i], x);
      assert Anc(rs, keys[i + 1], x);
    }
  }

  lemma EndingIs(rs: seq<Event>, key: Key, i: nat)
    requires Closed(rs) && i < |rs| && Structural(rs[i])
    ensures rs[i] in Ending(rs, key) <==> !IsBegin(rs[i]) && KeyOf(rs[i]) == key
  {
    assert Fits(rs[..i], rs[i]);
    var slot := Slot(false, key);
    if !IsBegin(rs[i]) && KeyOf(rs[i]) == key {
      assert At(rs, i, slot);
      SlotsUnique(rs, i, Index(rs, slot));
    }
  }

  /** A Tree holds exactly the records at or under its key. */
  lemma {:induction false} TreeHas(rs: seq<Event>, key: Key, i: nat)
    requires Closed(rs) && Begun(rs, key) && i < |rs| && Structural(rs[i]) && Begun(rs, KeyOf(rs[i]))
    ensures rs[i] in Tree(rs, key) <==> Anc(rs, key, KeyOf(rs[i]))
    decreases |rs| - Birth(rs, key), 3, 0
  {
    hide Closed, Fits;
    var x := KeyOf(rs[i]);
    var kids := Kids(rs, Some(key));
    KidsLate(rs, key);
    ForestHas(rs, Birth(rs, key) + 1, kids, i);
    EndingIs(rs, key, i);
    if x == key {
      if IsBegin(rs[i]) {
        BirthIs(rs, i);
      }
    } else {
      if Anc(rs, key, x) {
        var kid := AncDown(rs, key, x);
        var j :| 0 <= j < |kids| && kids[j] == kid;
      }
      if AnyAnc(rs, kids, x) {
        var j :| 0 <= j < |kids| && Anc(rs, kids[j], x);
        KidsAre(rs, Some(key), kids[j]);
        AncUp(rs, kids[j], x);
      }
      assert rs[i] != rs[Birth(rs, key)];
    }
  }

  lemma {:induction false} ForestHas(rs: seq<Event>, lo: nat, keys: seq<Key>, i: nat)
    requires Closed(rs) && Late(rs, lo, keys) && i < |rs| && Structural(rs[i]) && Begun(rs, KeyOf(rs[i]))
    ensures rs[i] in Forest(rs, lo, keys) <==> AnyAnc(rs, keys, KeyOf(rs[i]))
    decreases |rs| - lo, 4, |keys|
  {
    hide Closed, Anc, AnyAnc, Tree;
    if keys == [] {
      NoneAnc(rs, KeyOf(rs[i]));
    } else {
      TreeHas(rs, keys[0], i);
      ForestHas(rs, lo, keys[1..], i);
      AnyAncCons(rs, keys, KeyOf(rs[i]));
    }
  }

  lemma NoneAnc(rs: seq<Event>, x: Key)
    requires Closed(rs) && Begun(rs, x)
    ensures !AnyAnc(rs, [], x)
  {
  }

  /** Nothing else is presented. */
  lemma {:induction false} TreeFrom(rs: seq<Event>, key: Key, e: Event)
    requires Closed(rs) && Begun(rs, key) && e in Tree(rs, key)
    ensures e in rs
    decreases |rs| - Birth(rs, key), 3, 0
  {
    if e in Below(rs, key) {
      KidsLate(rs, key);
      ForestFrom(rs, Birth(rs, key) + 1, Kids(rs, Some(key)), e);
    }
  }

  lemma {:induction false} ForestFrom(rs: seq<Event>, lo: nat, keys: seq<Key>, e: Event)
    requires Closed(rs) && Late(rs, lo, keys) && e in Forest(rs, lo, keys)
    ensures e in rs
    decreases |rs| - lo, 4, |keys|
  {
    hide Closed, Tree;
    if e in Tree(rs, keys[0]) {
      TreeFrom(rs, keys[0], e);
    } else {
      ForestFrom(rs, lo, keys[1..], e);
    }
  }

  lemma DistinctConcat<T>(a: seq<T>, b: seq<T>)
    requires Distinct(a) && Distinct(b) && forall x :: x in a ==> x !in b
    ensures Distinct(a + b)
  {
    forall i, j | 0 <= i < j < |a + b| ensures (a + b)[i] != (a + b)[j] {
      assert i < |a| ==> (a + b)[i] in a;
      assert j >= |a| ==> (a + b)[j] in b;
    }
  }

  ghost predicate Siblings(rs: seq<Event>, keys: seq<Key>) {
    && Distinct(keys) && (forall i :: 0 <= i < |keys| ==> Begun(rs, keys[i]))
    && forall i, j :: 0 <= i < |keys| && 0 <= j < |keys| ==> Parent(rs, keys[i]) == Parent(rs, keys[j])
  }

  lemma KidsSiblings(rs: seq<Event>, p: Option<Key>)
    requires Closed(rs)
    ensures Siblings(rs, Kids(rs, p))
  {
    hide Closed, Kids;
    KidsDistinct(rs, p);
    forall i | 0 <= i < |Kids(rs, p)| ensures Begun(rs, Kids(rs, p)[i]) && Parent(rs, Kids(rs, p)[i]) == p {
      KidsAre(rs, p, Kids(rs, p)[i]);
    }
  }

  lemma {:induction false} TreeDistinct(rs: seq<Event>, key: Key)
    requires Closed(rs) && Begun(rs, key)
    ensures Distinct(Tree(rs, key))
    decreases |rs| - Birth(rs, key), 3, 0
  {
    hide Closed, Forest;
    KidsLate(rs, key);
    KidsSiblings(rs, Some(key));
    ForestDistinct(rs, Birth(rs, key) + 1, Kids(rs, Some(key)));
    var begin := [rs[Birth(rs, key)]];
    forall e | e in begin + Ending(rs, key) ensures e !in Below(rs, key) {
      NotBelow(rs, key, e);
    }
    DistinctConcat(begin, Below(rs, key));
    DistinctConcat(begin + Below(rs, key), Ending(rs, key));
  }

  lemma NotBelow(rs: seq<Event>, key: Key, e: Event)
    requires Closed(rs) && Begun(rs, key) && Structural(e) && KeyOf(e) == key && e in rs
    ensures e !in Below(rs, key)
  {
    hide Closed, Forest, Anc;
    var i :| 0 <= i < |rs| && rs[i] == e;
    assert Structural(rs[i]);
    var kids := Kids(rs, Some(key));
    KidsLate(rs, key);
    ForestHas(rs, Birth(rs, key) + 1, kids, i);
    if AnyAnc(rs, kids, key) {
      var j :| 0 <= j < |kids| && Anc(rs, kids[j], key);
      AncBegun(rs, kids[j], key);
    }
  }

  lemma {:induction false} ForestDistinct(rs: seq<Event>, lo: nat, keys: seq<Key>)
    requires Closed(rs) && Late(rs, lo, keys) && Siblings(rs, keys)
    ensures Distinct(Forest(rs, lo, keys))
    decreases |rs| - lo, 4, |keys|
  {
    hide Closed, Tree;
    if keys != [] {
      TreeDistinct(rs, keys[0]);
      ForestDistinct(rs, lo, keys[1..]);
      forall e | e in Tree(rs, keys[0]) ensures e !in Forest(rs, lo, keys[1..]) {
        TreesApart(rs, lo, keys, e);
      }
      DistinctConcat(Tree(rs, keys[0]), Forest(rs, lo, keys[1..]));
    }
  }

  lemma TreesApart(rs: seq<Event>, lo: nat, keys: seq<Key>, e: Event)
    requires Closed(rs) && Late(rs, lo, keys) && Siblings(rs, keys) && keys != []
    requires e in Tree(rs, keys[0])
    ensures e !in Forest(rs, lo, keys[1..])
  {
    hide Closed, Tree, Forest, Anc;
    TreeFrom(rs, keys[0], e);
    var i :| 0 <= i < |rs| && rs[i] == e;
    KeyBegun(rs, i);
    TreeHas(rs, keys[0], i);
    ForestHas(rs, lo, keys[1..], i);
    if AnyAnc(rs, keys[1..], KeyOf(e)) {
      var j :| 0 <= j < |keys[1..]| && Anc(rs, keys[1..][j], KeyOf(e));
      SiblingsApart(rs, keys[0], keys[j + 1], KeyOf(e));
    }
  }

  lemma {:induction false} DistinctCount<T>(s: seq<T>, x: T)
    requires Distinct(s)
    ensures multiset(s)[x] == if x in s then 1 else 0
  {
    if s != [] {
      var init := s[..|s| - 1];
      DistinctCount(init, x);
      assert s == init + [s[|s| - 1]];
    }
  }

  lemma ClosedDistinct(rs: seq<Event>)
    requires Closed(rs)
    ensures Distinct(rs)
  {
    forall i, j | 0 <= i < j < |rs| ensures rs[i] != rs[j] {
      assert Fits(rs[..i], rs[i]) && Fits(rs[..j], rs[j]);
      if rs[i] == rs[j] {
        SlotsUnique(rs, i, j);
      }
    }
  }

  lemma PresentedSame(rs: seq<Event>, e: Event)
    requires Closed(rs)
    ensures e in Presented(rs) <==> e in rs
  {
    hide Closed, Forest, Anc;
    RootsLate(rs);
    if e in Presented(rs) {
      ForestFrom(rs, 0, Kids(rs, None), e);
    }
    if e in rs {
      var i :| 0 <= i < |rs| && rs[i] == e;
      KeyBegun(rs, i);
      var root := RootAbove(rs, KeyOf(e));
      var j :| 0 <= j < |Kids(rs, None)| && Kids(rs, None)[j] == root;
      ForestHas(rs, 0, Kids(rs, None), i);
    }
  }

  /** The snapshot is a permutation of the table; nothing is shown twice or dropped. */
  lemma PresentedOnce(rs: seq<Event>)
    requires Closed(rs)
    ensures Distinct(Presented(rs)) && multiset(Presented(rs)) == multiset(rs)
  {
    hide Closed, Forest, Distinct, Siblings;
    RootsLate(rs);
    KidsSiblings(rs, None);
    ForestDistinct(rs, 0, Kids(rs, None));
    ClosedDistinct(rs);
    forall e ensures multiset(Presented(rs))[e] == multiset(rs)[e] {
      DistinctCount(Presented(rs), e);
      DistinctCount(rs, e);
      PresentedSame(rs, e);
    }
  }

  // ---------------------------------------------------------------------
  // Order within the presentation
  // ---------------------------------------------------------------------

  lemma {:induction false} ForestSplit(rs: seq<Event>, lo: nat, keys: seq<Key>, key: Key)
    returns (a: seq<Event>, b: seq<Event>)
    requires Closed(rs) && Late(rs, lo, keys) && key in keys && Begun(rs, key)
    ensures Forest(rs, lo, keys) == a + Tree(rs, key) + b
    decreases |keys|
  {
    hide Closed, Tree;
    if keys[0] == key {
      a, b := [], Forest(rs, lo, keys[1..]);
    } else {
      a, b := ForestSplit(rs, lo, keys[1..], key);
      a := Tree(rs, keys[0]) + a;
    }
  }

  /** Every Tree is one unbroken stretch of the presentation. */
  lemma {:induction false} TreePlaced(rs: seq<Event>, key: Key) returns (a: seq<Event>, b: seq<Event>)
    requires Closed(rs) && Begun(rs, key)
    ensures Presented(rs) == a + Tree(rs, key) + b
    decreases Birth(rs, key)
  {
    hide Closed, Forest;
    if Parent(rs, key).None? {
      RootsLate(rs);
      KidsAre(rs, None, key);
      a, b := ForestSplit(rs, 0, Kids(rs, None), key);
    } else {
      var p := Parent(rs, key).value;
      ParentFirst(rs, key);
      var c, d := TreePlaced(rs, p);
      KidsAre(rs, Some(p), key);
      KidsLate(rs, p);
      var f, g := ForestSplit(rs, Birth(rs, p) + 1, Kids(rs, Some(p)), key);
      a, b := c + [rs[Birth(rs, p)]] + f, g + Ending(rs, p) + d;
    }
  }

  /** Whatever lies under a key is presented after its Begin and before its End. */
  lemma Nested(rs: seq<Event>, key: Key, n: nat) returns (m: nat)
    requires Closed(rs) && n < |Presented(rs)| && Presented(rs)[n] in rs
    requires Structural(Presented(rs)[n]) && Begun(rs, key)
    requires Begun(rs, KeyOf(Presented(rs)[n])) && Anc(rs, key, KeyOf(Presented(rs)[n]))
    ensures m <= n && Presented(rs)[m] == rs[Birth(rs, key)]
    ensures forall q :: 0 <= q < |Presented(rs)| && Presented(rs)[q] in Ending(rs, key) ==> n <= q
  {
    hide Closed, Forest, Anc, Presented;
    var s := Presented(rs);
    var i :| 0 <= i < |rs| && rs[i] == s[n];
    TreeHas(rs, key, i);
    var a, b := TreePlaced(rs, key);
    var t := Tree(rs, key);
    PresentedOnce(rs);
    var k :| 0 <= k < |t| && t[k] == s[n];
    assert s[|a| + k] == t[k];
    assert n == |a| + k;
    m := |a|;
    assert s[|a|] == t[0];
    forall q | 0 <= q < |s| && s[q] in Ending(rs, key) ensures n <= q {
      assert s[|a| + |t| - 1] == t[|t| - 1] == s[q];
    }
  }

  /** The presentation is itself a well-formed table. */
  lemma PresentedClosed(rs: seq<Event>)
    requires Closed(rs)
    ensures Closed(Presented(rs))
  {
    hide Presented, Fits;
    var s := Presented(rs);
    forall n {:trigger s[..n]} | 0 <= n < |s| ensures Fits(s[..n], s[n]) {
      PresentedFits(rs, n);
    }
  }

  lemma PresentedFits(rs: seq<Event>, n: nat)
    requires Closed(rs) && n < |Presented(rs)|
    ensures Fits(Presented(rs)[..n], Presented(rs)[n])
  {
    hide Presented, Closed, Anc;
    var s := Presented(rs);
    var e := s[n];
    PresentedSame(rs, e);
    var i :| 0 <= i < |rs| && rs[i] == e;
    KeyBegun(rs, i);
    PresentedFresh(rs, n, i);
    RecordFits(rs, i);
    var key := KeyOf(e);
    if IsBegin(e) {
      BirthIs(rs, i);
      if ParentOf(e).Some? {
        ParentFirst(rs, key);
        AncParent(rs, key);
        var m := Nested(rs, ParentOf(e).value, n);
        assert At(s[..n], m, Slot(true, ParentOf(e).value));
      }
    } else {
      AncSelf(rs, key);
      var m := Nested(rs, key, n);
      assert At(s[..n], m, Slot(true, key));
    }
  }

  lemma AncParent(rs: seq<Event>, key: Key)
    requires Closed(rs) && Begun(rs, key) && Parent(rs, key).Some?
    ensures Anc(rs, Parent(rs, key).value, key)
  {
    ParentFirst(rs, key);
  }

  lemma AncSelf(rs: seq<Event>, key: Key)
    requires Closed(rs) && Begun(rs, key)
    ensures Anc(rs, key, key)
  {
  }

  lemma RecordFits(rs: seq<Event>, i: nat)
    requires Closed(rs) && i < |rs|
    ensures Structural(rs[i]) && Fits(rs[..i], rs[i])
  {
  }

  lemma PresentedFresh(rs: seq<Event>, n: nat, i: nat)
    requires Closed(rs) && n < |Presented(rs)| && i < |rs| && rs[i] == Presented(rs)[n]
    ensures Structural(rs[i]) && !Has(Presented(rs)[..n], SlotOf(rs[i]))
  {
    hide Presented;
    RecordFits(rs, i);
    var s := Presented(rs);
    if Has(s[..n], SlotOf(rs[i])) {
      var m: nat :| At(s[..n], m, SlotOf(rs[i]));
      assert s[m] in s;
      PresentedSame(rs, s[m]);
      var j :| 0 <= j < |rs| && rs[j] == s[m];
      SlotsUnique(rs, i, j);
      PresentedOnce(rs);
    }
  }
}
