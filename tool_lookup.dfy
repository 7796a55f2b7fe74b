/** Reading several rows of the `tools` table by id. */
module ToolLookup {

  type ToolId = nat

  /** A row of `tools`. */
  datatype Tool = Tool(name: string)

  /** The rows found for `ids`, in the order of `ids`; ids without a row are skipped. */
  function Found(table: map<ToolId, Tool>, ids: seq<ToolId>): seq<Tool> {
    if ids == [] then []
    else
      var last := ids[|ids| - 1];
      Found(table, ids[..|ids| - 1]) + (if last in table then [table[last]] else [])
  }

  /** `getByIds`: looks each id up in turn and keeps the rows that exist. */
  method GetByIds(table: map<ToolId, Tool>, ids: seq<ToolId>) returns (tools: seq<Tool>)
    ensures tools == Found(table, ids)
  {
    tools := [];
    for i := 0 to |ids|
      invariant tools == Found(table, ids[..i])
    {
      assert ids[..i + 1][..i] == ids[..i];
      var id := ids[i];
      if id in table {
        tools := tools + [table[id]];
      }
    }
    assert ids[..|ids|] == ids;
  }

  /** The lookup distributes over concatenation of the id lists, so the rows come out
      in the order of their ids. */
  lemma {:induction false} FoundAppend(table: map<ToolId, Tool>, a: seq<ToolId>, b: seq<ToolId>)
    ensures Found(table, a + b) == Found(table, a) + Found(table, b)
    decreases |b|
  {
    if b == [] {
      assert a + b == a;
    } else {
      var n := |b| - 1;
      assert (a + b)[..|a + b| - 1] == a + b[..n];
      FoundAppend(table, a, b[..n]);
    }
  }

  /** The result is never longer than `ids`; it is exactly one row per id when every id
      has a row, and a row is in it exactly when some requested id has that row. */
  lemma {:induction false} FoundSpec(table: map<ToolId, Tool>, ids: seq<ToolId>)
    ensures |Found(table, ids)| <= |ids|
    ensures (forall i :: 0 <= i < |ids| ==> ids[i] in table) ==>
      Found(table, ids) == seq(|ids|, i requires 0 <= i < |ids| => table[ids[i]])
    ensures forall t :: t in Found(table, ids) <==> exists i :: 0 <= i < |ids| && ids[i] in table && table[ids[i]] == t
  {
    if ids != [] {
      var n := |ids| - 1;
      var init := ids[..n];
      FoundSpec(table, init);
      forall t | t in Found(table, ids)
        ensures exists i :: 0 <= i < |ids| && ids[i] in table && table[ids[i]] == t
      {
        if t in Found(table, init) {
          var i :| 0 <= i < |init| && init[i] in table && table[init[i]] == t;
          assert ids[i] == init[i];
        } else {
          assert ids[n] in table && table[ids[n]] == t;
        }
      }
      forall t | exists i :: 0 <= i < |ids| && ids[i] in table && table[ids[i]] == t
        ensures t in Found(table, ids)
      {
        var i :| 0 <= i < |ids| && ids[i] in table && table[ids[i]] == t;
        if i < n {
          assert init[i] == ids[i];
        }
      }
    }
  }
}
