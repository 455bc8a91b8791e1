/** `BatchAddGraph`: a decorator in front of a graph that collects single
    additions into a buffer and forwards them to the graph's `addN` in
    batches of at most `bufferSize` statements. */
module BatchAdd {
  import opened Statements
  import opened Batches
  import opened Graphs

  datatype Result<T, E> = Ok(value: T) | Err(error: E)

  /** The `ValueError` raised by construction. */
  datatype ConfigError = InvalidBufferSize(size: Option<int>)

  /** The buffer size check of construction: a missing size, or anything
      below two, is refused. */
  function CheckBufferSize(size: Option<int>): (r: Result<nat, ConfigError>)
    ensures r.Ok? <==> size.Some? && size.value > 1
    ensures r.Ok? ==> r.value == size.value
    ensures r.Err? ==> r.error == InvalidBufferSize(size)
  {
    if size.None? || size.value < 2 then Err(InvalidBufferSize(size))
    else Ok(size.value)
  }

  // ---------------------------------------------------------------------
  // The behaviour of the decorator on values: what the wrapped graph has
  // been sent, batch by batch, and what is still pending in the buffer.
  // ---------------------------------------------------------------------

  datatype Snapshot = Snapshot(sent: seq<seq<Stmt>>, pending: seq<Stmt>)

  /** One `add`: the statement is placed in the wrapped graph's context (or
      dropped), appended, and the buffer is sent once it reaches `size`. */
  function AddStep(size: nat, id: GraphId, s: Snapshot, st: Stmt): Snapshot
  {
    match InContext(st, id)
    case None => s
    case Some(q) =>
      if |s.pending| + 1 >= size then Snapshot(s.sent + [s.pending + [q]], [])
      else Snapshot(s.sent, s.pending + [q])
  }

  /** One `add` per statement of `stmts`, in order. */
  function AddEach(size: nat, id: GraphId, s: Snapshot, stmts: seq<Stmt>): Snapshot
    decreases |stmts|
  {
    if stmts == [] then s
    else AddStep(size, id, AddEach(size, id, s, stmts[..|stmts| - 1]), stmts[|stmts| - 1])
  }

  /** `flush`: a non-empty buffer goes to the graph in one call. */
  function FlushPending(s: Snapshot): Snapshot
  {
    if s.pending == [] then s else Snapshot(s.sent + [s.pending], [])
  }

  /** `r` is `s` after some additions whose kept statements are `kept`:
      the batches sent meanwhile are full and, followed by what is still
      pending, are the old pending statements followed by `kept`. */
  ghost predicate Batched(size: nat, s: Snapshot, r: Snapshot, kept: seq<Stmt>)
  {
    && |r.pending| < size
    && |s.sent| <= |r.sent| && r.sent[..|s.sent|] == s.sent
    && (forall i :: |s.sent| <= i < |r.sent| ==> |r.sent[i]| == size)
    && Flatten(r.sent[|s.sent|..]) + r.pending == s.pending + kept
  }

  lemma AddStepBatched(size: nat, id: GraphId, s: Snapshot, r0: Snapshot, kept: seq<Stmt>, st: Stmt)
    requires size > 1 && Batched(size, s, r0, kept)
    ensures InContext(st, id).None? ==> Batched(size, s, AddStep(size, id, r0, st), kept)
    ensures InContext(st, id).Some? ==>
      Batched(size, s, AddStep(size, id, r0, st), kept + [InContext(st, id).value])
  {
    var new0 := r0.sent[|s.sent|..];
    var r := AddStep(size, id, r0, st);
    match InContext(st, id)
    case None =>
    case Some(q) =>
      if |r0.pending| + 1 >= size {
        var batch := r0.pending + [q];
        assert r.sent == r0.sent + [batch] && r.pending == [];
        assert r.sent[..|s.sent|] == r0.sent[..|s.sent|];
        assert r.sent[|s.sent|..] == new0 + [batch];
        FlattenConcat(new0, [batch]);
        assert Flatten([batch]) == batch;
        assert Flatten(r.sent[|s.sent|..]) + r.pending == (Flatten(new0) + r0.pending) + [q];
      } else {
        assert r.sent == r0.sent && r.pending == r0.pending + [q];
        assert Flatten(new0) + r.pending == (Flatten(new0) + r0.pending) + [q];
      }
  }

  /** Adding one statement at a time loses nothing and reorders nothing:
      the batches sent meanwhile, followed by what is still pending, are
      the old pending statements followed by the kept new ones; every batch
      sent meanwhile is full, and the buffer stays below `size`. */
  lemma {:induction false} AddEachBatches(size: nat, id: GraphId, s: Snapshot, stmts: seq<Stmt>)
    requires size > 1 && |s.pending| < size
    ensures Batched(size, s, AddEach(size, id, s, stmts), InContextAll(stmts, id))
    decreases |stmts|
  {
    if stmts == [] {
      assert s.sent[|s.sent|..] == [];
      assert Batched(size, s, s, []);
    } else {
      var init := stmts[..|stmts| - 1];
      var last := stmts[|stmts| - 1];
      AddEachBatches(size, id, s, init);
      var r0 := AddEach(size, id, s, init);
      assert Batched(size, s, r0, InContextAll(init, id));
      AddStepBatched(size, id, s, r0, InContextAll(init, id), last);
      assert Batched(size, s, AddEach(size, id, s, stmts), InContextAll(stmts, id));
    }
  }

  /** Adding statements one at a time and then flushing sends the graph
      exactly the chunks of the kept statements: `ceil(N / size)` calls of
      `size` statements each, the last holding the remainder. */
  lemma AddEachThenFlushIsChunks(size: nat, id: GraphId, sent: seq<seq<Stmt>>, stmts: seq<Stmt>)
    requires size > 1
    ensures FlushPending(AddEach(size, id, Snapshot(sent, []), stmts))
         == Snapshot(sent + Chunks(InContextAll(stmts, id), size), [])
  {
    var s := Snapshot(sent, []);
    var r := AddEach(size, id, s, stmts);
    AddEachBatches(size, id, s, stmts);
    var added := r.sent[|sent|..];
    assert r.sent == sent + added;
    assert Flatten(added) + r.pending == InContextAll(stmts, id);
    ChunksOfFull(added, r.pending, size);
    if r.pending == [] {
      assert FlushPending(r) == Snapshot(sent + added, []);
    } else {
      assert FlushPending(r) == Snapshot(sent + added + [r.pending], []);
    }
  }

  /** Adding statements one at a time without flushing (the exit on a
      fault) sends the graph only full batches: `N / size` of them, and the
      `N % size` statements left over are never sent. */
  lemma AddEachWithoutFlush(size: nat, id: GraphId, sent: seq<seq<Stmt>>, stmts: seq<Stmt>)
    requires size > 1
    ensures var kept := InContextAll(stmts, id);
      var r := AddEach(size, id, Snapshot(sent, []), stmts);
      && |r.pending| == |kept| % size
      && r.sent == sent + Chunks(kept[..|kept| - |kept| % size], size)
      && |r.sent| - |sent| == |kept| / size
      && r.pending == kept[|kept| - |kept| % size..]
  {
    var kept := InContextAll(stmts, id);
    var s := Snapshot(sent, []);
    var r := AddEach(size, id, s, stmts);
    AddEachBatches(size, id, s, stmts);
    var added := r.sent[|sent|..];
    assert r.sent == sent + added;
    FlattenFull(added, size);
    DivModOf(size, |added|, |r.pending|);
    assert kept == Flatten(added) + r.pending;
    assert kept[..|kept| - |kept| % size] == Flatten(added) + [];
    ChunksOfFull(added, [], size);
  }

  /** The decorator itself. `buffer` is the pending batch; `open` is false
      once the `with` block has been left. */
  class BatchAddGraph {
    const graph: Graph
    const bufferSize: nat
    const bufferAddN: bool
    var buffer: seq<Stmt>
    var open: bool

    /** The buffer holds statements of the wrapped graph only. */
    ghost predicate Consistent()
      reads this
    {
      bufferSize > 1 && forall i :: 0 <= i < |buffer| ==> InGraph(buffer[i], graph.identifier)
    }

    /** Between calls the buffer is below the threshold. */
    ghost predicate Valid()
      reads this
    {
      Consistent() && |buffer| < bufferSize
    }

    function State(): Snapshot
      reads this, graph
    {
      Snapshot(graph.addNCalls, buffer)
    }

    constructor (graph: Graph, bufferSize: nat, bufferAddN: bool)
      requires bufferSize > 1
      ensures Valid() && open && buffer == []
      ensures this.graph == graph && this.bufferSize == bufferSize && this.bufferAddN == bufferAddN
    {
      this.graph := graph;
      this.bufferSize := bufferSize;
      this.bufferAddN := bufferAddN;
      buffer := [];
      open := true;
    }

    /** Construction with the buffer size check: refused exactly when the
      size is not an integer above one. */
    static method Create(graph: Graph, bufferSize: Option<int>, bufferAddN: bool)
      returns (r: Result<BatchAddGraph, ConfigError>)
      ensures r.Err? <==> !(bufferSize.Some? && bufferSize.value > 1)
      ensures r.Ok? ==> fresh(r.value) && r.value.Valid() && r.value.open && r.value.buffer == []
      ensures r.Ok? ==> r.value.graph == graph && r.value.bufferSize == bufferSize.value
      ensures r.Ok? ==> r.value.bufferAddN == bufferAddN
    {
      match CheckBufferSize(bufferSize)
      case Err(e) =>
        r := Err(e);
      case Ok(n) =>
        var cut := new BatchAddGraph(graph, n, bufferAddN);
        r := Ok(cut);
    }

    /** `count`: the number of statements buffered and not yet sent. */
    function Count(): (n: nat)
      reads this
      requires Valid()
      ensures n < bufferSize
    {
      |buffer|
    }

    /** `add`: buffer one statement, sending the buffer once it is full. */
    method Add(st: Stmt)
      requires Valid() && open
      modifies this`buffer, graph
      ensures Valid() && open
      ensures State() == AddStep(bufferSize, graph.identifier, old(State()), st)
    {
      match InContext(st, graph.identifier)
      case None =>
      case Some(q) =>
        buffer := buffer + [q];
        if |buffer| >= bufferSize {
          Flush();
        }
    }

    /** `flush`: send whatever is buffered in one `addN` call, if anything. */
    method Flush()
      requires Consistent() && open
      modifies this`buffer, graph
      ensures Valid() && open && buffer == []
      ensures State() == FlushPending(old(State()))
    {
      if buffer != [] {
        graph.AddN(buffer);
        buffer := [];
      }
    }

    /** One `add` per statement, in order. */
    method AddEachOf(stmts: seq<Stmt>)
      requires Valid() && open
      modifies this`buffer, graph
      ensures Valid() && open
      ensures State() == AddEach(bufferSize, graph.identifier, old(State()), stmts)
    {
      for i := 0 to |stmts|
        invariant Valid() && open
        invariant State() == AddEach(bufferSize, graph.identifier, old(State()), stmts[..i])
      {
        Add(stmts[i]);
        assert stmts[..i + 1][..i] == stmts[..i];
      }
      assert stmts[..|stmts|] == stmts;
    }

    /** The `bufferAddN` mode of `addN`: fill a piece of `bufferSize`
        statements, send it when full, and send the last, shorter piece at
        the end of the input. */
    method SendChunks(quads: seq<Stmt>)
      requires bufferSize > 0
      modifies graph
      ensures graph.addNCalls == old(graph.addNCalls) + Chunks(quads, bufferSize)
    {
      var chunk: seq<Stmt> := [];
      ghost var full: seq<seq<Stmt>> := [];
      for i := 0 to |quads|
        invariant |chunk| < bufferSize
        invariant Flatten(full) + chunk == quads[..i]
        invariant forall k :: 0 <= k < |full| ==> |full[k]| == bufferSize
        invariant graph.addNCalls == old(graph.addNCalls) + full
      {
        chunk := chunk + [quads[i]];
        assert Flatten(full) + chunk == quads[..i + 1];
        if |chunk| == bufferSize {
          graph.AddN(chunk);
          FlattenSnoc(full, chunk);
          full := full + [chunk];
          chunk := [];
        }
      }
      assert quads[..|quads|] == quads;
      ChunksOfFull(full, chunk, bufferSize);
      if chunk != [] {
        graph.AddN(chunk);
      }
    }

    /** `addN`: with `bufferAddN`, the input is cut into pieces of
        `bufferSize` that go straight to the graph, bypassing the buffer;
        otherwise each statement goes through `add`. */
    method AddN(quads: seq<Stmt>)
      requires Valid() && open
      modifies this`buffer, graph
      ensures Valid() && open
      ensures bufferAddN ==> graph.addNCalls == old(graph.addNCalls) + Chunks(quads, bufferSize)
      ensures bufferAddN ==> buffer == old(buffer)
      ensures !bufferAddN ==> State() == AddEach(bufferSize, graph.identifier, old(State()), quads)
    {
      if bufferAddN {
        SendChunks(quads);
      } else {
        AddEachOf(quads);
      }
    }

    /** `update`: the statements an update inserts go through `add`, so a
        large insertion is sent in intermediate batches. */
    method Update(insertions: seq<Stmt>)
      requires Valid() && open
      modifies this`buffer, graph
      ensures Valid() && open
      ensures State() == AddEach(bufferSize, graph.identifier, old(State()), insertions)
    {
      AddEachOf(insertions);
    }

    /** Leaving the `with` block: a normal exit flushes, an exit on a fault
        sends nothing more. */
    method Exit(fault: bool)
      requires Valid() && open
      modifies this`buffer, this`open, graph
      ensures Valid() && !open
      ensures fault ==> State() == old(State())
      ensures !fault ==> State() == FlushPending(old(State()))
    {
      if !fault {
        Flush();
      }
      open := false;
    }
  }
}
