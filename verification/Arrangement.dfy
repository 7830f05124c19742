// The order of the lifted elements, told without sort keys.
module Arrangement {
  import opened Rdf
  import opened Ordering
  import opened Kinds
  import opened Elements
  import opened Lifting
  import opened Conformance

  // Up to some place the strings are the same, and there the first one ends or
  // has the smaller character.
  ghost predicate Alphabetical(a: string, b: string) {
    exists k :: AlphabeticalAt(a, b, k)
  }

  ghost predicate AlphabeticalAt(a: string, b: string, k: nat) {
    k <= |a| && k <= |b| && a[..k] == b[..k] && (k == |a| || (k < |b| && a[k] < b[k]))
  }

  // IRIs, then blank nodes, then literals; each of them by their text.
  ghost predicate NodeBefore(a: Node, b: Node) {
    match (a, b)
    case (IRI(x), IRI(y)) => Alphabetical(x, y)
    case (BNode(x), BNode(y)) => Alphabetical(x, y)
    case (Literal(x), Literal(y)) => Alphabetical(x, y)
    case _ => a.IRI? || b.Literal?
  }

  // A declaration that is no more than that.
  predicate Declared(e: Element) {
    && e.Declaration?
    && (e.rdfType == Owl(Class) || e.rdfType == Rdfs(Datatype) || e.rdfType == Owl(ObjectProperty) ||
          e.rdfType == Owl(DatatypeProperty) || e.rdfType == Owl(AnnotationProperty) ||
              e.rdfType == Owl(Word.NamedIndividual))
  }

  // Elements of one name: declarations come last, and otherwise class names decide.
  ghost predicate Arranged(e: Element, f: Element) {
    if e.name != f.name then NodeBefore(e.name, f.name)
    else if Declared(e) != Declared(f) then Declared(f)
    else Alphabetical(ClassName(e.kind), ClassName(f.kind))
  }

  lemma {:induction false} StringLeIs(a: string, b: string)
    ensures StringLe(a, b) <==> Alphabetical(a, b)
  {
    if a == [] {
      assert AlphabeticalAt(a, b, 0);
    } else if b != [] {
      StringLeIs(a[1..], b[1..]);
      if a[0] < b[0] {
        assert AlphabeticalAt(a, b, 0);
      }
      if k: nat :| k > 0 && AlphabeticalAt(a, b, k) {
        assert a[..k] == [a[0]] + a[1..][..k - 1] && b[..k] == [b[0]] + b[1..][..k - 1];
        assert a[0] == a[..k][0] == b[..k][0] == b[0];
        assert AlphabeticalAt(a[1..], b[1..], k - 1);
      }
      if a[0] == b[0] {
        if k: nat :| AlphabeticalAt(a[1..], b[1..], k) {
          assert a[..k + 1] == [a[0]] + a[1..][..k] && b[..k + 1] == [b[0]] + b[1..][..k];
          assert AlphabeticalAt(a, b, k + 1);
        }
      }
    }
  }

  lemma NodeLeIs(a: Node, b: Node)
    ensures NodeLe(a, b) <==> NodeBefore(a, b)
  {
    assert "0-iri"[0] == '0' && "1-bnode"[0] == '1' && "2-literal"[0] == '2';
    match (a, b) {
      case (IRI(x), IRI(y)) => StringLeIs(x, y);
      case (BNode(x), BNode(y)) => StringLeIs(x, y);
      case (Literal(x), Literal(y)) => StringLeIs(x, y);
      case _ =>
    }
  }

  // Triples are worked through by subject, then predicate, then object.
  lemma TripleLeIs(a: Triple, b: Triple)
    ensures TripleLe(a, b) <==>
      || (a.s != b.s && NodeBefore(a.s, b.s))
      || (a.s == b.s && a.p != b.p && NodeBefore(a.p, b.p))
      || (a.s == b.s && a.p == b.p && NodeBefore(a.o, b.o))
  {
    hide NodeLe, NodeBefore;
    NodeLeIs(a.s, b.s);
    NodeLeIs(a.p, b.p);
    NodeLeIs(a.o, b.o);
  }

  lemma DeclaredIs(e: Element)
    requires Conforms(e)
    ensures Declared(e) <==> IsFallback(e.kind)
  {
    hide Owl, Rdfs;
    if e.kind.Entity? {
      DeclarationTypes(e.kind.entity);
    } else {
      NoDeclaration(e);
    }
  }

  lemma NoDeclaration(e: Element)
    requires Conforms(e) && !e.kind.Entity?
    ensures !e.Declaration?
  {
  }

  lemma DeclarationTypes(c: EntityClass)
    ensures var r := EntityType(c);
      IsFallback(Entity(c)) <==>
        || r == Owl(Class) || r == Rdfs(Datatype) || r == Owl(ObjectProperty) || r == Owl(DatatypeProperty)
        || r == Owl(AnnotationProperty) || r == Owl(Word.NamedIndividual)
  {
    hide Owl, Rdfs, TYPE, MeaningOf;
    Meanings();
  }

  // The theorem: the lifted elements stand in this order.
  lemma LiftIsArranged(graph: set<Triple>)
    requires Lift(graph).Ok?
    ensures var lifted := Lift(graph).value; forall i, j :: 0 <= i < j < |lifted| ==> Arranged(lifted[i], lifted[j])
  {
    hide ApplyPasses, AllPasses, StableSort, Conforms, Declared, IsFallback, ClassName, StringLe, NodeLe;
    hide Alphabetical, NodeBefore;
    var claims := ApplyPasses(graph, [], AllPasses()).value;
    var lifted := Lift(graph).value;
    StableSortSorts(ElementsOf(claims), SortKey);
    LiftConforms(graph);
    forall i, j | 0 <= i < j < |lifted| ensures Arranged(lifted[i], lifted[j]) {
      assert ElementLe(SortKey(lifted[i]), SortKey(lifted[j]));
      KeyOrder(lifted[i], lifted[j]);
    }
  }

  lemma KeyOrder(e: Element, f: Element)
    requires Conforms(e) && Conforms(f) && ElementLe(SortKey(e), SortKey(f))
    ensures Arranged(e, f)
  {
    hide Conforms, Declared, IsFallback, ClassName, StringLe, Alphabetical, NodeBefore, KeyOf, KeyLe;
    DeclaredIs(e);
    DeclaredIs(f);
    NodeLeIs(e.name, f.name);
    StringLeIs(ClassName(e.kind), ClassName(f.kind));
    if KeyOf(e.name) == KeyOf(f.name) {
      KeyIsInjective(e.name, f.name);
    }
  }
}
