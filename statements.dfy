/** Statements as the batching decorator sees them: RDF triples and quads
    over terms that are only ever compared for equality. */
module Statements {

  datatype Option<T> = None | Some(value: T)

  /** An RDF term (IRI, blank node or literal). */
  type Term(==)

  /** The identity of a graph; the context (fourth) position of a quad names one. */
  type GraphId(==)

  datatype Stmt =
    | Triple(s: Term, p: Term, o: Term)
    | Quad(s: Term, p: Term, o: Term, ctx: GraphId)

  /** True when a graph with identity `id` would store `st` as it is. */
  predicate InGraph(st: Stmt, id: GraphId) {
    st.Quad? && st.ctx == id
  }

  /** What a graph with identity `id` makes of `st`: a triple is placed in
      that graph, a quad of that graph is kept, and a quad of any other
      graph is dropped. */
  function InContext(st: Stmt, id: GraphId): (r: Option<Stmt>)
    ensures r.None? <==> st.Quad? && st.ctx != id
    ensures r.Some? ==> r.value == Quad(st.s, st.p, st.o, id)
    ensures InGraph(st, id) ==> r == Some(st)
  {
    match st
    case Triple(s, p, o) => Some(Quad(s, p, o, id))
    case Quad(_, _, _, ctx) => if ctx == id then Some(st) else None
  }

  /** The statements of `stmts` that a graph with identity `id` keeps, in
      their order, each placed in that graph. */
  function InContextAll(stmts: seq<Stmt>, id: GraphId): (r: seq<Stmt>)
    ensures |r| <= |stmts|
    ensures forall i :: 0 <= i < |r| ==> InGraph(r[i], id)
    ensures (forall i :: 0 <= i < |stmts| ==> !InGraph(stmts[i], id) ==> stmts[i].Triple?) ==> |r| == |stmts|
    ensures (forall i :: 0 <= i < |stmts| ==> InGraph(stmts[i], id)) ==> r == stmts
    ensures (forall i :: 0 <= i < |stmts| ==> stmts[i].Quad? && stmts[i].ctx != id) ==> r == []
    decreases |stmts|
  {
    if stmts == [] then []
    else
      var init := InContextAll(stmts[..|stmts| - 1], id);
      match InContext(stmts[|stmts| - 1], id)
      case None => init
      case Some(q) => init + [q]
  }

  /** Every statement the graph keeps is among the kept statements, wherever
      it stands in the input. */
  lemma {:induction false} InContextAllKeeps(stmts: seq<Stmt>, id: GraphId, k: nat)
    requires k < |stmts| && InContext(stmts[k], id).Some?
    ensures InContext(stmts[k], id).value in InContextAll(stmts, id)
    decreases |stmts|
  {
    var init := stmts[..|stmts| - 1];
    if k < |stmts| - 1 {
      assert init[k] == stmts[k];
      InContextAllKeeps(init, id, k);
    }
  }

  /** Every kept statement comes from some statement of the input. */
  lemma {:induction false} InContextAllFrom(stmts: seq<Stmt>, id: GraphId, i: nat)
    requires i < |InContextAll(stmts, id)|
    ensures exists k :: 0 <= k < |stmts| && InContext(stmts[k], id) == Some(InContextAll(stmts, id)[i])
    decreases |stmts|
  {
    var init := stmts[..|stmts| - 1];
    var last := |stmts| - 1;
    if i < |InContextAll(init, id)| {
      InContextAllFrom(init, id, i);
      var k :| 0 <= k < |init| && InContext(init[k], id) == Some(InContextAll(init, id)[i]);
      assert InContextAll(stmts, id)[i] == InContextAll(init, id)[i];
      assert stmts[k] == init[k];
    } else {
      assert InContext(stmts[last], id) == Some(InContextAll(stmts, id)[i]);
    }
  }

  /** Keeping statements works piece by piece: the kept statements of `x + y`
      are those of `x` followed by those of `y`. */
  lemma {:induction false} InContextAllConcat(x: seq<Stmt>, y: seq<Stmt>, id: GraphId)
    ensures InContextAll(x + y, id) == InContextAll(x, id) + InContextAll(y, id)
    decreases |y|
  {
    if y == [] {
      assert x + y == x;
    } else {
      var init := y[..|y| - 1];
      assert (x + y)[..|x + y| - 1] == x + init;
      assert (x + y)[|x + y| - 1] == y[|y| - 1];
      InContextAllConcat(x, init, id);
    }
  }

  /** When nothing is dropped, the kept statements are the inputs placed in
      the graph, one for one and in their order. */
  lemma {:induction false} InContextAllNoneDropped(stmts: seq<Stmt>, id: GraphId)
    requires forall k :: 0 <= k < |stmts| ==> InContext(stmts[k], id).Some?
    ensures |InContextAll(stmts, id)| == |stmts|
    ensures forall i :: 0 <= i < |stmts| ==> InContextAll(stmts, id)[i] == InContext(stmts[i], id).value
    decreases |stmts|
  {
    if stmts != [] {
      var init := stmts[..|stmts| - 1];
      assert forall k :: 0 <= k < |init| ==> init[k] == stmts[k];
      InContextAllNoneDropped(init, id);
    }
  }
}
