// RDF terms and triples, shared by every component.
//
// A literal is identified with its N3 form and a resource with its lexical
// value, so term equality is equality of these strings.
module Rdf {

  datatype Option<+T> = None | Some(value: T)

  datatype Result<+T, +E> = Ok(value: T) | Err(error: E)

  datatype Node = IRI(value: string) | BNode(value: string) | Literal(n3: string)

  datatype Triple = Triple(s: Node, p: Node, o: Node)

  // rdflib's IdentifiedNode: an IRI or a blank node.
  predicate IsResource(n: Node) {
    !n.Literal?
  }

  // RDF 1.1 Concepts, section 3.1: the subject is not a literal and the
  // predicate is an IRI.
  predicate Permitted(t: Triple) {
    IsResource(t.s) && t.p.IRI?
  }
}
