# BatchAddGraph, modelled in Dafny

rdflib's `BatchAddGraph` is a decorator placed in front of a graph. It
collects single `add` calls in a buffer and passes them to the wrapped
graph's bulk-insert entry point, `addN`, in batches of at most
`buffer_size` statements:

- construction refuses a `buffer_size` that is missing, zero, one or negative;
- `add` places a triple in the wrapped graph's context and drops a quad whose
  context is another graph; once the buffer holds `buffer_size` statements
  it is sent in one `addN` call and emptied;
- `flush` sends a non-empty buffer in one call; `count` is the number of
  statements still buffered;
- leaving a `with` block normally flushes; leaving it on an exception sends
  nothing more;
- `addN` with `buffer_addn` cuts its input into pieces of `buffer_size` and
  sends each piece directly; without it, each statement goes through `add`;
- the insertions made by `update` go through `add`.

The behaviour is taken from `TestBatchAddGraph`
(`test/test_batch_add.py`); the module `rdflib.graph` that implements it is
not part of this model. Four choices the tests leave open are this model's
own:

- the buffer is sent right after the append that fills it; every outcome the
  tests at test/test_batch_add.py:23-141 assert is the same if it is instead
  sent just before the append that would overfill it;
- `addN` without `buffer_addn` adds its statements one by one through `add`;
- `addN` with `buffer_addn` sends its pieces directly and leaves the buffer
  alone; the tests at test/test_batch_add.py:75-89 are met just as well if
  that mode also goes through `add` (ten sent when the buffer fills, two at
  the exit), so the evidence `FlushEmpty` draws from lines 87-89 (no call
  before the exit) rests on this choice;
- `count` is the number of statements still buffered; the test at
  test/test_batch_add.py:136-141 is met just as well by a running total of
  adds.

Modules:

- `statements.dfy` (`Statements`): terms, graph identities, triples and quads,
  and the context rule (`InContext`, `InContextAll`).
- `batches.dfy` (`Batches`): sequences of batches. `Chunks` is the reference
  definition of "cut into pieces of `n`"; `ChunksOfFull` shows that it is the
  only cut into full pieces and one short tail.
- `graph.dfy` (`Graphs`): the wrapped graph as its identity plus the history of
  its `addN` calls. `Contents` is everything received and `Counts` the size
  of each call (the test's `MockGraph.counts`).
- `batch_add.dfy` (`BatchAdd`): the size check; the behaviour on values
  (`AddStep`, `AddEach`, `FlushPending` over a `Snapshot` of batches sent and
  statements pending) with its lemmas; and the `BatchAddGraph` class, whose
  methods are proved to follow those functions.
- `batch_add_tests.dfy` (`BatchAddTests`): each test scenario as a method that
  builds a graph and a decorator, drives them, and promises what the test
  asserts.

## Model

| member | source | states |
|---|---|---|
| `BatchAdd.CheckBufferSize` | test/test_batch_add.py:7-21 | a buffer size is accepted exactly when it is present and above one, and an accepted size is kept unchanged; anything else is refused with an error naming the size |
| `BatchAdd.BatchAddGraph.Create` | test/test_batch_add.py:7-21 | construction fails exactly when the size is not an integer above one; otherwise it gives a new, open decorator with an empty buffer over the given graph |
| `BatchAddTests.BufferSizeDenied` | test/test_batch_add.py:7-21 | sizes 0, missing, 1 and -12 are each refused |
| `BatchAdd.BatchAddGraph.constructor` | test/test_batch_add.py:123 | a new decorator is open, wraps the given graph, keeps the given size and mode, and has an empty buffer |
| `Statements.InContext` | test/test_batch_add.py:39-53 | a statement is dropped exactly when it is a quad of another graph; otherwise it becomes a quad of the wrapped graph, and a quad of that graph is kept as it is |
| `Statements.InContextAll` | test/test_batch_add.py:39-53 | the kept statements all belong to the wrapped graph and are no more than the input; triples and quads of the graph are all kept; quads of other graphs only give nothing |
| `Statements.InContextAllKeeps` | test/test_batch_add.py:39-53 | every statement of the input that the graph keeps, wherever it stands and whatever is dropped around it, is among the kept statements |
| `Statements.InContextAllFrom` | test/test_batch_add.py:39-53 | every kept statement is some input statement placed in the graph |
| `Statements.InContextAllConcat` | test/test_batch_add.py:39-53 | filtering distributes over concatenation: the kept statements of two inputs in a row are those of the first followed by those of the second, so order and multiplicity are kept |
| `Statements.InContextAllNoneDropped` | test/test_batch_add.py:39-53 | when nothing is dropped, the kept statements are the inputs placed in the graph, one for one and in their order |
| `Graphs.Graph.AddN` | test/test_batch_add.py:80-81 | each `addN` call is recorded once, after the earlier ones: the graph's contents grow by exactly the batch and its counts by the batch's size |
| `BatchAdd.BatchAddGraph.Add` | test/test_batch_add.py:23-37 | one `add` is one step of `AddStep`: drop or place the statement, append it, send the buffer when it reaches the size; the buffer stays below the size and holds only statements of the graph |
| `BatchAdd.AddStepBatched` | test/test_batch_add.py:30-37 | one `add` keeps the batching invariant: batches sent are full and, followed by the buffer, equal all kept statements in order |
| `BatchAdd.AddEachBatches` | test/test_batch_add.py:30-37 | after any sequence of adds, nothing is lost or reordered: batches sent meanwhile followed by the buffer are the old buffer followed by the kept statements; every such batch holds exactly the size; earlier batches are untouched |
| `BatchAdd.AddEachThenFlushIsChunks` | test/test_batch_add.py:30-37 | adds followed by a flush send exactly the chunks of the kept statements: ceil(N / size) calls of the size, the last with the remainder |
| `BatchAdd.AddEachWithoutFlush` | test/test_batch_add.py:55-73 | adds without a final flush send N / size full batches, the chunks of the first N - N % size kept statements; the last N % size stay pending |
| `BatchAdd.BatchAddGraph.AddEachOf` | test/test_batch_add.py:34-36 | the loop of single adds leaves the decorator and the graph exactly as `AddEach` says |
| `BatchAdd.BatchAddGraph.Flush` | test/test_batch_add.py:120-134 | a non-empty buffer is sent in one call and then emptied; an empty buffer makes no call |
| `BatchAdd.BatchAddGraph.Count` | test/test_batch_add.py:136-141 | `count` is the number of statements buffered, always below the size |
| `BatchAdd.BatchAddGraph.Exit` | test/test_batch_add.py:64-73 | a normal exit flushes; an exit on a fault sends nothing and leaves the graph's history unchanged; either way the decorator is closed |
| `BatchAdd.BatchAddGraph.AddN` | test/test_batch_add.py:75-98 | with `buffer_addn`, the graph receives exactly the chunks of the input and the buffer is untouched; without it, the result is one `add` per statement |
| `BatchAdd.BatchAddGraph.SendChunks` | test/test_batch_add.py:75-89 | the `buffer_addn` loop of `addN` sends the graph exactly the chunks of its input, in order, one call per chunk |
| `BatchAdd.BatchAddGraph.Update` | test/test_batch_add.py:100-118 | the insertions of an update go through `add` one by one, whatever the `buffer_addn` mode |
| `Batches.SizesConcat` | test/test_batch_add.py:80-81 | the call sizes of two runs of `addN` calls are those of the first followed by those of the second |
| `Batches.SizesSum` | test/test_batch_add.py:80-81 | the recorded call sizes add up to the number of statements the graph received |
| `Batches.Chunks` | test/test_batch_add.py:75-89 | the pieces, joined, give back the input; no piece is empty or above the size, and all but the last hold exactly the size |
| `Batches.ChunksOfFull` | test/test_batch_add.py:75-89 | full pieces followed by one shorter tail are the chunks of their concatenation, so chunking is the only such cut |
| `Batches.ChunkSizes` | test/test_batch_add.py:75-89 | there are ceil(N / n) chunks, and the last holds N % n, or n when n divides N |
| `BatchAddTests.ExitSubmitsPartialBatch` | test/test_batch_add.py:23-28 | one triple, size 10, normal exit: the graph holds exactly that triple |
| `BatchAddTests.AddEachThenExit` | test/test_batch_add.py:34-37 | adds in a loop then an exit: a normal exit gives the chunks of the kept statements; a faulting one gives only the batches sent during the adds |
| `BatchAddTests.AddMoreThanBufferSize` | test/test_batch_add.py:30-37 | 12 triples, size 10, normal exit: the graph holds 12 statements, received in calls of 10 and 2 |
| `BatchAddTests.QuadForOtherGraphDropped` | test/test_batch_add.py:39-47 | a quad of another graph leaves the graph empty |
| `BatchAddTests.QuadForThisGraphPassed` | test/test_batch_add.py:49-53 | a quad of the wrapped graph is its one statement |
| `BatchAddTests.NoAddNOnException` | test/test_batch_add.py:55-73 | 12 triples, size 10, fault after the 12th: the graph holds only 10, from a single call |
| `BatchAddTests.AddNBatchingAddN` | test/test_batch_add.py:75-89 | 12 quads through `addN` with `buffer_addn` and size 10: calls of 10 and 2, in that order |
| `BatchAddTests.TriplesAfterAddN` | test/test_batch_add.py:91-98 | 12 quads of the graph through `addN`, size 10, normal exit: the graph holds exactly those quads |
| `BatchAddTests.UpdateGoesThroughAdd` | test/test_batch_add.py:100-118 | an update inserting 4 statements, size 3, `buffer_addn` on: the graph holds the first 3 before the exit and, after it, exactly the 4 insertions in order, the 4th (still buffered before the exit) included; calls of 3 and 1 |
| `BatchAddTests.FlushFlushes` | test/test_batch_add.py:120-141 | one triple, size 2: `count` is 1; after `flush` the graph holds 1 statement and `count` is 0 |
| `BatchAddTests.FlushEmpty` | test/test_batch_add.py:87-89 | `flush` with an empty buffer makes no `addN` call and `count` stays 0 |

## Left out

- The SPARQL parsing and execution of `update` (test/test_batch_add.py:104-114): `Update` takes the statements the update inserts.
- The `triples` pattern query (test/test_batch_add.py:98) and every other read: they go straight to the wrapped graph, so the model only gives what the graph has received (`Graph.Contents`).
- The graph's storage engine: `Graph` records `addN` calls and does not remove duplicates, so "the graph holds N statements" counts statements received; the tests only add distinct statements.
- `URIRef`, `Literal` and graph identifiers: terms and graph identities are opaque values compared for equality.
- Python's `with` statement and exceptions: `Exit(fault)` stands for `__exit__`; the exception object is not modelled.
- CheckBufferSize (and BatchAddGraph.Create, which uses it): only an integer size or a missing one is modelled; a size of another type (a float such as 2.5) cannot be written, so the refusal of non-integers reduces to refusing a missing size or one below two.
- The default `buffer_size` used at test/test_batch_add.py:45 and :51 is not visible in the tests; those scenarios take any size above one.
- Failures of the wrapped graph's `addN`: `Graph.AddN` always succeeds, so an error raised by the graph while flushing (which would leave the buffer in place) is not modelled.
- `addN` with `buffer_addn` sends its input as it is: it does not place triples in the graph's context or drop quads of other graphs, and it neither reads nor sends the buffer.
- Calls on a decorator after its `with` block has been left: every operation requires the decorator to be open.
