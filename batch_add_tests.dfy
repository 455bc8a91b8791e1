/** The scenarios of `TestBatchAddGraph`, each as a method that builds a
    wrapped graph and a decorator, drives them, and promises what the
    scenario checks. Each returns what the graph ends up holding (its
    statements, or the sizes of its `addN` calls). */
module BatchAddTests {
  import opened Statements
  import opened Batches
  import opened Graphs
  import opened BatchAdd

  predicate AllTriples(stmts: seq<Stmt>) {
    forall i :: 0 <= i < |stmts| ==> stmts[i].Triple?
  }

  predicate AllIn(stmts: seq<Stmt>, id: GraphId) {
    forall i :: 0 <= i < |stmts| ==> InGraph(stmts[i], id)
  }

  /** Sizes zero, missing, one and negative are all refused. */
  method BufferSizeDenied(graph: Graph) returns (zero: bool, none: bool, one: bool, negative: bool)
    ensures zero && none && one && negative
  {
    var r := BatchAddGraph.Create(graph, Some(0), false);
    zero := r.Err?;
    r := BatchAddGraph.Create(graph, None, false);
    none := r.Err?;
    r := BatchAddGraph.Create(graph, Some(1), false);
    one := r.Err?;
    r := BatchAddGraph.Create(graph, Some(-12), false);
    negative := r.Err?;
  }

  /** One triple, then a normal exit: the triple reaches the graph. */
  method ExitSubmitsPartialBatch(id: GraphId, trip: Stmt) returns (held: seq<Stmt>)
    requires trip.Triple?
    ensures held == [Quad(trip.s, trip.p, trip.o, id)]
  {
    var g := new Graph(id);
    var cut := new BatchAddGraph(g, 10, false);
    cut.Add(trip);
    assert cut.State() == Snapshot([], [Quad(trip.s, trip.p, trip.o, id)]);
    cut.Exit(false);
    assert g.addNCalls == [[Quad(trip.s, trip.p, trip.o, id)]];
    assert g.addNCalls[1..] == [];
    assert Flatten(g.addNCalls) == [Quad(trip.s, trip.p, trip.o, id)] + Flatten([]);
    held := g.Contents();
  }

  /** Adds `trips` one by one to a fresh decorator of size `size`, then
      leaves the `with` block, normally or on a fault raised after the last
      add; gives the graph's batches. */
  method AddEachThenExit(id: GraphId, size: nat, stmts: seq<Stmt>, fault: bool)
    returns (calls: seq<seq<Stmt>>)
    requires size > 1
    ensures !fault ==> calls == Chunks(InContextAll(stmts, id), size)
    ensures fault ==> calls == AddEach(size, id, Snapshot([], []), stmts).sent
  {
    var g := new Graph(id);
    var cut := new BatchAddGraph(g, size, false);
    for i := 0 to |stmts|
      invariant cut.Valid() && cut.open
      invariant cut.State() == AddEach(size, id, Snapshot([], []), stmts[..i])
    {
      cut.Add(stmts[i]);
      assert stmts[..i + 1][..i] == stmts[..i];
    }
    assert stmts[..|stmts|] == stmts;
    cut.Exit(fault);
    AddEachThenFlushIsChunks(size, id, [], stmts);
    calls := g.addNCalls;
  }

  /** Twelve triples with size ten, then a normal exit: all twelve arrive,
      in calls of ten and two. */
  method AddMoreThanBufferSize(id: GraphId, trips: seq<Stmt>) returns (held: seq<Stmt>, counts: seq<nat>)
    requires |trips| == 12 && AllTriples(trips)
    ensures |held| == 12 && counts == [10, 2]
  {
    var calls := AddEachThenExit(id, 10, trips, false);
    var kept := InContextAll(trips, id);
    assert |kept| == 12;
    assert calls == [kept[..10]] + Chunks(kept[10..], 10);
    held, counts := Flatten(calls), Sizes(calls);
  }

  /** A quad of another graph is dropped. */
  method QuadForOtherGraphDropped(id: GraphId, other: GraphId, size: nat, t: Stmt) returns (held: seq<Stmt>)
    requires id != other && size > 1
    ensures held == []
  {
    var g := new Graph(id);
    var cut := new BatchAddGraph(g, size, false);
    cut.Add(Quad(t.s, t.p, t.o, other));
    cut.Exit(false);
    held := g.Contents();
  }

  /** A quad of the wrapped graph is passed on. */
  method QuadForThisGraphPassed(id: GraphId, size: nat, t: Stmt) returns (held: seq<Stmt>)
    requires size > 1
    ensures held == [Quad(t.s, t.p, t.o, id)]
  {
    var g := new Graph(id);
    var cut := new BatchAddGraph(g, size, false);
    cut.Add(Quad(t.s, t.p, t.o, id));
    assert cut.State() == Snapshot([], [Quad(t.s, t.p, t.o, id)]);
    cut.Exit(false);
    assert g.addNCalls == [[Quad(t.s, t.p, t.o, id)]];
    assert g.addNCalls[1..] == [];
    assert Flatten(g.addNCalls) == [Quad(t.s, t.p, t.o, id)] + Flatten([]);
    held := g.Contents();
  }

  /** Twelve triples with size ten and a fault after the twelfth: only the
      ten sent automatically arrive. */
  method NoAddNOnException(id: GraphId, trips: seq<Stmt>) returns (held: seq<Stmt>, counts: seq<nat>)
    requires |trips| == 12 && AllTriples(trips)
    ensures |held| == 10 && counts == [10]
  {
    var calls := AddEachThenExit(id, 10, trips, true);
    AddEachWithoutFlush(10, id, [], trips);
    var kept := InContextAll(trips, id);
    assert |kept| == 12;
    assert calls == Chunks(kept[..10], 10);
    held, counts := Flatten(calls), Sizes(calls);
  }

  /** Twelve quads through `addN` with `bufferAddN` and size ten: two calls,
      of ten and two, made by `addN` itself. */
  method AddNBatchingAddN(id: GraphId, quads: seq<Stmt>) returns (counts: seq<nat>)
    requires |quads| == 12 && AllIn(quads, id)
    ensures counts == [10, 2]
  {
    var g := new Graph(id);
    var cut := new BatchAddGraph(g, 10, true);
    cut.AddN(quads);
    assert g.addNCalls == [quads[..10]] + Chunks(quads[10..], 10);
    cut.Exit(false);
    counts := g.Counts();
  }

  /** Twelve quads of the wrapped graph through `addN` with size ten, then a
      normal exit: the graph holds exactly those quads. */
  method TriplesAfterAddN(id: GraphId, quads: seq<Stmt>) returns (held: seq<Stmt>)
    requires |quads| == 12 && AllIn(quads, id)
    ensures held == quads
  {
    var g := new Graph(id);
    var cut := new BatchAddGraph(g, 10, false);
    cut.AddN(quads);
    cut.Exit(false);
    AddEachThenFlushIsChunks(10, id, [], quads);
    assert InContextAll(quads, id) == quads;
    assert g.addNCalls == Chunks(quads, 10);
    held := g.Contents();
  }

  /** An update inserting four statements with size three and `bufferAddN`:
      three arrive before the exit, all four after it, in calls of three
      and one. */
  method UpdateGoesThroughAdd(id: GraphId, inserts: seq<Stmt>)
    returns (heldBefore: seq<Stmt>, heldAfter: seq<Stmt>, counts: seq<nat>)
    requires |inserts| == 4 && AllTriples(inserts)
    ensures |heldBefore| == 3 && |heldAfter| == 4 && counts == [3, 1]
    ensures heldBefore == heldAfter[..3]
    ensures heldAfter == InContextAll(inserts, id)
    ensures heldAfter[3] == Quad(inserts[3].s, inserts[3].p, inserts[3].o, id)
  {
    var g := new Graph(id);
    var cut := new BatchAddGraph(g, 3, true);
    cut.Update(inserts);
    InContextAllNoneDropped(inserts, id);
    AddEachWithoutFlush(3, id, [], inserts);
    AddEachThenFlushIsChunks(3, id, [], inserts);
    var kept := InContextAll(inserts, id);
    assert |kept| == 4;
    assert g.addNCalls == Chunks(kept[..3], 3);
    heldBefore := g.Contents();
    cut.Exit(false);
    assert g.addNCalls == [kept[..3]] + Chunks(kept[3..], 3);
    heldAfter, counts := g.Contents(), g.Counts();
  }

  /** One triple with size two, then `flush`: the graph holds it and the
      buffer is empty; before the flush `count` was one. */
  method FlushFlushes(id: GraphId, trip: Stmt) returns (countBefore: nat, held: seq<Stmt>, countAfter: nat)
    requires trip.Triple?
    ensures countBefore == 1 && |held| == 1 && countAfter == 0
  {
    var g := new Graph(id);
    var cut := new BatchAddGraph(g, 2, false);
    cut.Add(trip);
    countBefore := cut.Count();
    cut.Flush();
    assert |g.addNCalls| == 1 && |g.addNCalls[0]| == 1;
    assert g.addNCalls[1..] == [];
    assert Flatten(g.addNCalls) == g.addNCalls[0] + Flatten([]);
    held, countAfter := g.Contents(), cut.Count();
  }

  /** `flush` with nothing buffered makes no call. */
  method FlushEmpty(id: GraphId, size: nat) returns (counts: seq<nat>, count: nat)
    requires size > 1
    ensures counts == [] && count == 0
  {
    var g := new Graph(id);
    var cut := new BatchAddGraph(g, size, false);
    cut.Flush();
    counts, count := g.Counts(), cut.Count();
  }
}
