/** The loader's collection of the payload fields that a template mentions. */
module Extraction {
  import opened Values
  import opened References

  /** Some string inside the value makes the scanner report this field. */
  ghost predicate Mentions(node: Value, field: string)
    decreases node
  {
    match node
    case Str(s) => Reports(Hits(s, 0), field)
    case Obj(fields) => exists k :: k in fields && Mentions(fields[k], field)
    case Arr(elems) => exists i :: 0 <= i < |elems| && Mentions(elems[i], field)
    case _ => false
  }

  ghost predicate Reports(hits: seq<Hit>, field: string) {
    exists i :: 0 <= i < |hits| && hits[i].field == field
  }

  /** The slice that the recursion appends to. */
  class RefList {
    var items: seq<string>

    constructor ()
      ensures items == []
    {
      items := [];
    }
  }

  method ExtractPayloadRefs(node: Value) returns (refs: seq<string>)
    ensures forall f :: f in refs <==> Mentions(node, f)
  {
    var list := new RefList();
    ExtractPayloadRefsRecursive(node, list);
    refs := list.items;
  }

  /** Appends the fields that `node` mentions, in some order, and keeps what is there. */
  method ExtractPayloadRefsRecursive(node: Value, refs: RefList)
    modifies refs
    ensures old(refs.items) <= refs.items
    ensures forall f :: f in refs.items <==> f in old(refs.items) || Mentions(node, f)
    decreases node
  {
    match node {
      case Str(s) =>
        var hits := Scan(s);
        for i := 0 to |hits|
          invariant old(refs.items) <= refs.items
          invariant forall f :: f in refs.items <==> f in old(refs.items) || Reports(hits[..i], f)
        {
          ghost var was := refs.items;
          refs.items := refs.items + [hits[i].field];
          ReportsOneMore(hits, i);
          assert forall f :: f in refs.items <==> f in was || f == hits[i].field;
        }
        assert hits[..|hits|] == hits;
      case Obj(fields) =>
        var keys := fields.Keys;
        while keys != {}
          invariant keys <= fields.Keys
          invariant old(refs.items) <= refs.items
          invariant forall f :: f in refs.items <==>
            f in old(refs.items) || exists k :: k in fields && k !in keys && Mentions(fields[k], f)
          decreases keys
        {
          var key :| key in keys;
          assert fields[key] < node;
          ExtractPayloadRefsRecursive(fields[key], refs);
          keys := keys - {key};
        }
      case Arr(elems) =>
        for i := 0 to |elems|
          invariant old(refs.items) <= refs.items
          invariant forall f :: f in refs.items <==>
            f in old(refs.items) || exists j :: 0 <= j < i && Mentions(elems[j], f)
        {
          ExtractPayloadRefsRecursive(elems[i], refs);
        }
      case _ =>
    }
  }

  lemma ReportsOneMore(hits: seq<Hit>, i: nat)
    requires i < |hits|
    ensures forall f :: Reports(hits[..i + 1], f) <==> Reports(hits[..i], f) || f == hits[i].field
  {
    assert hits[..i + 1] == hits[..i] + [hits[i]];
    forall f ensures Reports(hits[..i + 1], f) <==> Reports(hits[..i], f) || f == hits[i].field {
      if f == hits[i].field { assert hits[..i + 1][i].field == f; }
      if Reports(hits[..i], f) {
        var j :| 0 <= j < i && hits[..i][j].field == f;
        assert hits[..i + 1][j].field == f;
      }
    }
  }
}
