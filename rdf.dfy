/** The RDF side: nodes, triples, and a graph that keeps its triples as a
    duplicate-free sequence in insertion order. */
module Rdf {

  /** A URI node (kept in the form the converter writes it, a full URI or a
      prefixed name such as "rdf:type") or a plain literal. */
  datatype Node = Uri(iri: string) | Literal(text: string)

  datatype Triple = Triple(subj: Node, pred: Node, obj: Node)

  predicate NoDup(s: seq<Triple>)
  {
    forall i, j :: 0 <= i < j < |s| ==> s[i] != s[j]
  }

  /** Adding t to a graph's triples: appended when absent, no change when
      already present. */
  function Ins(s: seq<Triple>, t: Triple): seq<Triple>
  {
    if t in s then s else s + [t]
  }

  /** Asserting keeps the old triples as a prefix, adds exactly t, keeps the
      triples distinct, and is a no-op for a triple already present. */
  lemma InsFacts(s: seq<Triple>, t: Triple)
    ensures t in Ins(s, t)
    ensures forall x :: x in Ins(s, t) <==> x in s || x == t
    ensures t in s ==> Ins(s, t) == s
    ensures |Ins(s, t)| == if t in s then |s| else |s| + 1
    ensures s <= Ins(s, t)
    ensures NoDup(s) ==> NoDup(Ins(s, t))
  {
  }

  /** The set of triples left after asserting every element of s, in order,
      into an empty graph. */
  function Dedup(s: seq<Triple>): (r: seq<Triple>)
    ensures NoDup(r)
    ensures forall x :: x in r <==> x in s
    ensures |r| <= |s|
    decreases |s|
  {
    if |s| == 0 then []
    else
      var init := Dedup(s[..|s| - 1]);
      InsFacts(init, s[|s| - 1]);
      Ins(init, s[|s| - 1])
  }

  /** A triple asserted twice leaves fewer triples than assertions. */
  lemma {:induction false} DedupShrinks(s: seq<Triple>, i: nat, j: nat)
    requires i < j < |s| && s[i] == s[j]
    ensures |Dedup(s)| < |s|
    decreases |s|
  {
    var init := s[..|s| - 1];
    if j < |s| - 1 {
      DedupShrinks(init, i, j);
    } else {
      assert s[j] == init[i];
      InsFacts(Dedup(init), s[j]);
    }
  }

  lemma DedupSnoc(s: seq<Triple>, t: Triple)
    ensures Dedup(s + [t]) == Ins(Dedup(s), t)
  {
    assert (s + [t])[..|s|] == s;
  }

  /** A sequence that already has no duplicates is left as it is. */
  lemma {:induction false} DedupOfNoDup(s: seq<Triple>)
    requires NoDup(s)
    ensures Dedup(s) == s
    decreases |s|
  {
    if |s| > 0 {
      var init := s[..|s| - 1];
      DedupOfNoDup(init);
      assert init + [s[|s| - 1]] == s;
    }
  }

  /** Asserting a sequence twice leaves the same graph as asserting it once. */
  lemma DedupTwice(s: seq<Triple>)
    ensures Dedup(s + s) == Dedup(s)
  {
    DedupAppendKnown(Dedup(s), s, s);
  }

  lemma {:induction false} DedupAppendKnown(d: seq<Triple>, s: seq<Triple>, extra: seq<Triple>)
    requires d == Dedup(s)
    requires forall x :: x in extra ==> x in s
    ensures Dedup(s + extra) == d
    decreases |extra|
  {
    if |extra| == 0 {
      assert s + extra == s;
    } else {
      var init := extra[..|extra| - 1];
      forall x | x in init ensures x in s {
        assert x in extra;
      }
      DedupAppendKnown(d, s, init);
      assert s + extra == (s + init) + [extra[|extra| - 1]];
      DedupSnoc(s + init, extra[|extra| - 1]);
      assert extra[|extra| - 1] in extra;
    }
  }

  /** A graph: a duplicate-free sequence of triples in insertion order.
      The ghost history `asserted` records every triple ever asserted. */
  class Graph {
    var triples: seq<Triple>
    ghost var asserted: seq<Triple>

    ghost predicate Valid()
      reads this
    {
      triples == Dedup(asserted)
    }

    constructor ()
      ensures Valid()
      ensures asserted == [] && triples == []
    {
      triples := [];
      asserted := [];
    }

    /** Adds t unless it is already present. */
    method Assert(t: Triple)
      requires Valid()
      modifies this
      ensures Valid()
      ensures asserted == old(asserted) + [t]
      ensures triples == Ins(old(triples), t)
    {
      DedupSnoc(asserted, t);
      if t !in triples {
        triples := triples + [t];
      }
      asserted := asserted + [t];
    }
  }
}
