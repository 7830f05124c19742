// The sort keys that make lifting deterministic.
module Ordering {
  import opened Rdf

  // Lexicographic order on strings, and on nodes by their sort key: resources
  // before literals, IRIs before blank nodes.

  predicate StringLe(a: string, b: string) {
    a == [] || (b != [] && (a[0] < b[0] || (a[0] == b[0] && StringLe(a[1..], b[1..]))))
  }

  lemma {:induction false} StringLeTotal(a: string, b: string)
    ensures StringLe(a, b) || StringLe(b, a)
    ensures StringLe(a, b) && StringLe(b, a) ==> a == b
  {
    if a != [] && b != [] {
      StringLeTotal(a[1..], b[1..]);
      if a[0] == b[0] {
        assert a == [a[0]] + a[1..] && b == [b[0]] + b[1..];
      }
    }
  }

  lemma {:induction false} StringLeTransitive(a: string, b: string, c: string)
    requires StringLe(a, b) && StringLe(b, c)
    ensures StringLe(a, c)
  {
    if a != [] && a[0] == b[0] && b[0] == c[0] {
      StringLeTransitive(a[1..], b[1..], c[1..]);
    }
  }

  datatype NodeKey = NodeKey(rank: string, text: string)

  function KeyOf(n: Node): NodeKey {
    match n
    case IRI(value) => NodeKey("0-iri", value)
    case BNode(value) => NodeKey("1-bnode", value)
    case Literal(n3) => NodeKey("2-literal", n3)
  }

  lemma KeyIsInjective(a: Node, b: Node)
    requires KeyOf(a) == KeyOf(b)
    ensures a == b
  {
    assert "0-iri"[0] != "1-bnode"[0] && "0-iri"[0] != "2-literal"[0] && "1-bnode"[0] != "2-literal"[0];
  }

  predicate KeyLe(a: NodeKey, b: NodeKey) {
    if a.rank == b.rank then StringLe(a.text, b.text) else StringLe(a.rank, b.rank)
  }

  lemma KeyLeOrder(a: NodeKey, b: NodeKey, c: NodeKey)
    ensures KeyLe(a, b) || KeyLe(b, a)
    ensures KeyLe(a, b) && KeyLe(b, a) ==> a == b
    ensures KeyLe(a, b) && KeyLe(b, c) ==> KeyLe(a, c)
  {
    StringLeTotal(a.rank, b.rank);
    StringLeTotal(a.text, b.text);
    StringLeTotal(b.rank, c.rank);
    if KeyLe(a, b) && KeyLe(b, c) {
      if a.rank == b.rank && b.rank == c.rank {
        StringLeTransitive(a.text, b.text, c.text);
      } else if a.rank != b.rank && b.rank != c.rank {
        StringLeTransitive(a.rank, b.rank, c.rank);
      }
    }
  }

  predicate NodeLe(a: Node, b: Node) {
    KeyLe(KeyOf(a), KeyOf(b))
  }

  predicate TripleLe(a: Triple, b: Triple) {
    if a.s != b.s then NodeLe(a.s, b.s)
    else if a.p != b.p then NodeLe(a.p, b.p)
    else NodeLe(a.o, b.o)
  }

  lemma NodeLeOrder(a: Node, b: Node, c: Node)
    ensures NodeLe(a, b) || NodeLe(b, a)
    ensures NodeLe(a, b) && NodeLe(b, a) ==> a == b
    ensures NodeLe(a, b) && NodeLe(b, c) ==> NodeLe(a, c)
  {
    KeyLeOrder(KeyOf(a), KeyOf(b), KeyOf(c));
    if KeyOf(a) == KeyOf(b) {
      KeyIsInjective(a, b);
    }
  }

  lemma TripleLeOrder(a: Triple, b: Triple, c: Triple)
    ensures TripleLe(a, b) || TripleLe(b, a)
    ensures TripleLe(a, b) && TripleLe(b, a) ==> a == b
    ensures TripleLe(a, b) && TripleLe(b, c) ==> TripleLe(a, c)
  {
    hide NodeLe;
    NodeLeOrder(a.s, b.s, c.s);
    NodeLeOrder(a.p, b.p, c.p);
    NodeLeOrder(a.o, b.o, c.o);
    NodeLeOrder(b.s, c.s, a.s);
    NodeLeOrder(b.p, c.p, a.p);
  }

  // Sorting a set

  ghost predicate TotalOrder<T(!new)>(le: (T, T) -> bool) {
    && (forall a, b :: le(a, b) || le(b, a))
    && (forall a, b :: le(a, b) && le(b, a) ==> a == b)
    && (forall a, b, c :: le(a, b) && le(b, c) ==> le(a, c))
  }

  lemma NodesOrdered()
    ensures TotalOrder(NodeLe)
  {
    forall a, b, c
      ensures (NodeLe(a, b) || NodeLe(b, a)) && (NodeLe(a, b) && NodeLe(b, a) ==> a == b) && (NodeLe(a, b) && NodeLe(b, c) ==> NodeLe(a, c))
    {
      NodeLeOrder(a, b, c);
    }
  }

  lemma TriplesOrdered()
    ensures TotalOrder(TripleLe)
  {
    forall a, b, c
      ensures (TripleLe(a, b) || TripleLe(b, a)) && (TripleLe(a, b) && TripleLe(b, a) ==> a == b) && (TripleLe(a, b) && TripleLe(b, c) ==> TripleLe(a, c))
    {
      TripleLeOrder(a, b, c);
    }
  }

  ghost predicate Ascending<T>(q: seq<T>, le: (T, T) -> bool) {
    forall i, j :: 0 <= i < j < |q| ==> le(q[i], q[j]) && q[i] != q[j]
  }

  ghost predicate Sorts<T(!new)>(q: seq<T>, s: set<T>, le: (T, T) -> bool) {
    Ascending(q, le) && forall t :: t in q <==> t in s
  }

  // A set has one sorting only, so the order its elements are met in is
  // immaterial.
  lemma {:induction false} SortingIsUnique<T(!new)>(a: seq<T>, b: seq<T>, s: set<T>, le: (T, T) -> bool)
    requires TotalOrder(le) && Sorts(a, s, le) && Sorts(b, s, le)
    ensures a == b
    decreases |s|
  {
    if s == {} {
      NoneSorted(a, le);
      NoneSorted(b, le);
    } else {
      FirstIsLeast(a, s, le);
      FirstIsLeast(b, s, le);
      SortsRest(a, s, le);
      SortsRest(b, s, le);
      SortingIsUnique(a[1..], b[1..], s - {a[0]}, le);
      assert a == [a[0]] + a[1..] && b == [b[0]] + b[1..];
    }
  }

  lemma NoneSorted<T(!new)>(q: seq<T>, le: (T, T) -> bool)
    requires Sorts(q, {}, le)
    ensures q == []
  {
    hide Ascending;
    if q != [] {
      FirstIsIn(q);
    }
  }

  lemma FirstIsIn<T>(q: seq<T>)
    requires q != []
    ensures q[0] in q
  {
  }

  lemma FirstIsLeast<T(!new)>(q: seq<T>, s: set<T>, le: (T, T) -> bool)
    requires Sorts(q, s, le) && s != {}
    ensures q != [] && q[0] in s && forall t :: t in s && t != q[0] ==> le(q[0], t)
  {
    var t :| t in s;
    assert t in q;
  }

  lemma SortsRest<T(!new)>(q: seq<T>, s: set<T>, le: (T, T) -> bool)
    requires Sorts(q, s, le) && q != []
    ensures Sorts(q[1..], s - {q[0]}, le)
  {
    forall t ensures t in q[1..] <==> t in s - {q[0]} {
      if t in s - {q[0]} {
        var i :| 0 <= i < |q| && q[i] == t;
        assert q[1..][i - 1] == t;
      }
      if t in q[1..] {
        var i :| 0 <= i < |q[1..]| && q[1..][i] == t;
        assert q[i + 1] == t;
      }
    }
  }

  function InsertSorted<T>(t: T, q: seq<T>, le: (T, T) -> bool): seq<T> {
    if q == [] || le(t, q[0]) then [t] + q else [q[0]] + InsertSorted(t, q[1..], le)
  }

  lemma {:induction false} InsertSortedSorts<T(!new)>(t: T, q: seq<T>, s: set<T>, le: (T, T) -> bool)
    requires TotalOrder(le) && Sorts(q, s, le) && t !in s
    ensures Sorts(InsertSorted(t, q, le), s + {t}, le)
    decreases |q|
  {
    if q == [] {
    } else if le(t, q[0]) {
      forall u | u in q ensures le(t, u) {
        var i :| 0 <= i < |q| && q[i] == u;
        assert i > 0 ==> le(q[0], u);
      }
    } else {
      assert q[0] in s;
      FirstIsLeast(q, s, le);
      SortsRest(q, s, le);
      InsertSortedSorts(t, q[1..], s - {q[0]}, le);
      var rest := InsertSorted(t, q[1..], le);
      forall u | u in rest ensures le(q[0], u) && u != q[0] {}
    }
  }

  method SortSet<T(!new,==)>(s: set<T>, le: (T, T) -> bool) returns (q: seq<T>)
    requires TotalOrder(le)
    ensures Sorts(q, s, le)
  {
    q := [];
    var rest := s;
    while rest != {}
      invariant rest <= s && Sorts(q, s - rest, le)
    {
      var t :| t in rest;
      InsertSortedSorts(t, q, s - rest, le);
      q := InsertSorted(t, q, le);
      assert s - rest + {t} == s - (rest - {t});
      rest := rest - {t};
    }
  }

  // The sorting as a function: the elements in whatever order, inserted one by
  // one.
  ghost function Sorted<T(!new)>(s: set<T>, le: (T, T) -> bool): (q: seq<T>)
    requires TotalOrder(le)
    ensures Sorts(q, s, le)
  {
    if s == {} then []
    else
      var t :| t in s;
      InsertSortedSorts(t, Sorted(s - {t}, le), s - {t}, le);
      assert s - {t} + {t} == s;
      InsertSorted(t, Sorted(s - {t}, le), le)
  }

  // Stable sorting of elements by key

  datatype ElementKey = ElementKey(name: NodeKey, fallback: bool, kind: string)

  predicate ElementLe(a: ElementKey, b: ElementKey) {
    if a.name != b.name then KeyLe(a.name, b.name)
    else if a.fallback != b.fallback then b.fallback
    else StringLe(a.kind, b.kind)
  }

  lemma ElementLeOrder(a: ElementKey, b: ElementKey, c: ElementKey)
    ensures ElementLe(a, b) || ElementLe(b, a)
    ensures ElementLe(a, b) && ElementLe(b, a) ==> a == b
    ensures ElementLe(a, b) && ElementLe(b, c) ==> ElementLe(a, c)
  {
    KeyLeOrder(a.name, b.name, c.name);
    KeyLeOrder(b.name, c.name, a.name);
    StringLeTotal(a.kind, b.kind);
    if StringLe(a.kind, b.kind) && StringLe(b.kind, c.kind) {
      StringLeTransitive(a.kind, b.kind, c.kind);
    }
  }

  // Insert behind every element whose key is not greater.
  function Insert<T>(x: T, q: seq<T>, key: T -> ElementKey): seq<T> {
    if q == [] then [x]
    else if ElementLe(key(q[|q| - 1]), key(x)) then q + [x]
    else Insert(x, q[..|q| - 1], key) + [q[|q| - 1]]
  }

  function StableSort<T>(q: seq<T>, key: T -> ElementKey): seq<T> {
    if q == [] then [] else Insert(q[|q| - 1], StableSort(q[..|q| - 1], key), key)
  }

  ghost predicate SortedByKey<T>(q: seq<T>, key: T -> ElementKey) {
    forall i, j :: 0 <= i < j < |q| ==> ElementLe(key(q[i]), key(q[j]))
  }

  // The elements with one key, in order.
  ghost function WithKey<T>(q: seq<T>, key: T -> ElementKey, k: ElementKey): seq<T> {
    if q == [] then []
    else WithKey(q[..|q| - 1], key, k) + if key(q[|q| - 1]) == k then [q[|q| - 1]] else []
  }

  lemma {:induction false} WithKeyAppend<T>(q: seq<T>, x: T, key: T -> ElementKey, k: ElementKey)
    ensures WithKey(q + [x], key, k) == WithKey(q, key, k) + if key(x) == k then [x] else []
  {
    assert (q + [x])[..|q|] == q;
  }

  lemma {:induction false} InsertKeeps<T>(x: T, q: seq<T>, key: T -> ElementKey)
    ensures multiset(Insert(x, q, key)) == multiset(q) + multiset{x}
    decreases |q|
  {
    if q != [] {
      var init, last := q[..|q| - 1], q[|q| - 1];
      assert q == init + [last];
      InsertKeeps(x, init, key);
    }
  }

  lemma {:induction false} InsertSorts<T>(x: T, q: seq<T>, key: T -> ElementKey)
    requires SortedByKey(q, key)
    ensures SortedByKey(Insert(x, q, key), key)
    decreases |q|
  {
    hide ElementLe;
    if q != [] {
      var init, last := q[..|q| - 1], q[|q| - 1];
      if ElementLe(key(last), key(x)) {
        forall i | 0 <= i < |q| ensures ElementLe(key(q[i]), key(x)) {
          ElementLeOrder(key(q[i]), key(last), key(x));
        }
      } else {
        InsertSorts(x, init, key);
        InsertKeeps(x, init, key);
        ElementLeOrder(key(x), key(last), key(x));
        var rest := Insert(x, init, key);
        forall i | 0 <= i < |rest| ensures ElementLe(key(rest[i]), key(last)) {
          assert rest[i] in multiset(rest);
          if rest[i] != x {
            assert rest[i] in init;
          }
        }
      }
    }
  }

  lemma {:induction false} InsertIsStable<T>(x: T, q: seq<T>, key: T -> ElementKey, k: ElementKey)
    ensures WithKey(Insert(x, q, key), key, k) == WithKey(q, key, k) + if key(x) == k then [x] else []
    decreases |q|
  {
    if q == [] {
      assert [] + [x] == [x];
      WithKeyAppend([], x, key, k);
    } else {
      var init, last := q[..|q| - 1], q[|q| - 1];
      assert q == init + [last];
      WithKeyAppend(init, last, key, k);
      if ElementLe(key(last), key(x)) {
        WithKeyAppend(q, x, key, k);
      } else {
        InsertIsStable(x, init, key, k);
        WithKeyAppend(Insert(x, init, key), last, key, k);
        assert key(last) != key(x) by { ElementLeOrder(key(x), key(x), key(x)); }
      }
    }
  }

  // Sorted, a permutation, and elements with equal keys keep their order.
  lemma {:induction false} StableSortSorts<T>(q: seq<T>, key: T -> ElementKey)
    ensures SortedByKey(StableSort(q, key), key)
    ensures multiset(StableSort(q, key)) == multiset(q)
    ensures forall k :: WithKey(StableSort(q, key), key, k) == WithKey(q, key, k)
  {
    if q != [] {
      var init, last := q[..|q| - 1], q[|q| - 1];
      assert q == init + [last];
      StableSortSorts(init, key);
      InsertSorts(last, StableSort(init, key), key);
      InsertKeeps(last, StableSort(init, key), key);
      forall k ensures WithKey(StableSort(q, key), key, k) == WithKey(q, key, k) {
        InsertIsStable(last, StableSort(init, key), key, k);
      }
    }
  }
}
