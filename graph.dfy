/** The wrapped graph, seen only through its bulk-insert entry point
    (`addN`): it has an identity and records every batch it is sent. */
module Graphs {
  import opened Statements
  import opened Batches

  class Graph {
    const identifier: GraphId
    /** The batches passed to `addN`, one per call, in call order. */
    var addNCalls: seq<seq<Stmt>>

    constructor (identifier: GraphId)
      ensures this.identifier == identifier && addNCalls == []
    {
      this.identifier := identifier;
      addNCalls := [];
    }

    /** Records one bulk insertion of `quads`. */
    method AddN(quads: seq<Stmt>)
      modifies this
      ensures addNCalls == old(addNCalls) + [quads]
      ensures Contents() == old(Contents()) + quads
      ensures Counts() == old(Counts()) + [|quads|]
    {
      addNCalls := addNCalls + [quads];
      FlattenConcat(old(addNCalls), [quads]);
      assert Flatten([quads]) == quads;
      SizesConcat(old(addNCalls), [quads]);
    }

    /** Every statement the graph has received, in order of arrival. */
    function Contents(): seq<Stmt>
      reads this
    {
      Flatten(addNCalls)
    }

    /** The number of statements in each `addN` call, in call order. */
    function Counts(): seq<nat>
      reads this
    {
      Sizes(addNCalls)
    }
  }
}
