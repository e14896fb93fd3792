/**
 * The connection graph of a v3 workflow (functions/api/pipeline-v3/WorkflowEngine.ts):
 * the depth-first cycle search of `detectCycles`, and the lookups of the
 * entry node, the next node and the error handler. The engine itself is in
 * module Engine.
 */
module WorkflowGraph {
  import opened Common

  /** `NodeDefinition`; `position` is not modelled. */
  datatype NodeDef = NodeDef(id: string, typeName: string, name: string, config: Option<map<string, Value>>)

  /** `ConnectionDefinition`; `toInput` is not read by the engine. */
  datatype Connection = Connection(from: string, fromOutput: string, to: string)

  /** The ids of the defined nodes. */
  function NodeIds(defs: seq<NodeDef>): set<string>
  {
    set k | 0 <= k < |defs| :: defs[k].id
  }

  // ---------------------------------------------------------------------
  // The connection graph

  /** Some connection goes from `u` to `v`. */
  predicate Edge(conns: seq<Connection>, u: string, v: string)
  {
    exists i :: 0 <= i < |conns| && conns[i].from == u && conns[i].to == v
  }

  /** Consecutive entries of `p` are connected. */
  predicate IsPath(conns: seq<Connection>, p: seq<string>)
  {
    forall i :: 0 <= i < |p| - 1 ==> Edge(conns, p[i], p[i + 1])
  }

  /** A path of at least one connection that comes back to where it started. */
  ghost predicate HasCycle(conns: seq<Connection>)
  {
    exists p :: |p| >= 2 && IsPath(conns, p) && p[0] == p[|p| - 1]
  }

  /** Every connection leaving a ranked node goes to a ranked node of lower rank. */
  ghost predicate RankedEdges(conns: seq<Connection>, rank: map<string, nat>)
  {
    forall i :: 0 <= i < |conns| && conns[i].from in rank ==>
      conns[i].to in rank && rank[conns[i].to] < rank[conns[i].from]
  }

  /** Along a path from a ranked node the rank strictly falls. */
  lemma {:induction false} PathDescends(conns: seq<Connection>, rank: map<string, nat>, p: seq<string>, k: nat)
    requires RankedEdges(conns, rank) && IsPath(conns, p)
    requires |p| > 0 && p[0] in rank && 1 <= k < |p|
    ensures p[k] in rank && rank[p[k]] < rank[p[0]]
  {
    assert Edge(conns, p[k - 1], p[k]);
    if k > 1 {
      PathDescends(conns, rank, p, k - 1);
    }
  }

  /** A ranking of every connection's source rules out cycles. */
  lemma NoCycleUnderRanking(conns: seq<Connection>, rank: map<string, nat>)
    requires RankedEdges(conns, rank)
    requires forall i :: 0 <= i < |conns| ==> conns[i].from in rank
    ensures !HasCycle(conns)
  {
    if HasCycle(conns) {
      var p :| |p| >= 2 && IsPath(conns, p) && p[0] == p[|p| - 1];
      assert Edge(conns, p[0], p[1]);
      var i :| 0 <= i < |conns| && conns[i].from == p[0] && conns[i].to == p[1];
      PathDescends(conns, rank, p, |p| - 1);
    }
  }

  /** Some path leads from `x` to `y` (possibly the empty one, when they are equal). */
  ghost predicate Reaches(conns: seq<Connection>, x: string, y: string)
  {
    exists p :: |p| >= 1 && p[0] == x && p[|p| - 1] == y && IsPath(conns, p)
  }

  /** Every node reaches itself. */
  lemma ReachSelf(conns: seq<Connection>, x: string)
    ensures Reaches(conns, x, x)
  {
    assert IsPath(conns, [x]);
  }

  /** A path extended by one connection is a path. */
  lemma ReachStep(conns: seq<Connection>, x: string, u: string, v: string)
    requires Reaches(conns, x, u) && Edge(conns, u, v)
    ensures Reaches(conns, x, v)
  {
    var p :| |p| >= 1 && p[0] == x && p[|p| - 1] == u && IsPath(conns, p);
    var q := p + [v];
    forall i | 0 <= i < |q| - 1
      ensures Edge(conns, q[i], q[i + 1])
    {
      if i < |p| - 1 {
        assert q[i] == p[i] && q[i + 1] == p[i + 1];
      }
    }
    assert q[0] == x && q[|q| - 1] == v && IsPath(conns, q);
  }

  /** A connection back to a node that reaches its source closes a cycle. */
  lemma CycleFromReach(conns: seq<Connection>, u: string, v: string)
    requires Reaches(conns, v, u) && Edge(conns, u, v)
    ensures HasCycle(conns)
  {
    var p :| |p| >= 1 && p[0] == v && p[|p| - 1] == u && IsPath(conns, p);
    var q := p + [v];
    forall i | 0 <= i < |q| - 1
      ensures Edge(conns, q[i], q[i + 1])
    {
      if i < |p| - 1 {
        assert q[i] == p[i] && q[i + 1] == p[i + 1];
      }
    }
    assert |q| >= 2 && IsPath(conns, q) && q[0] == q[|q| - 1];
  }

  // ---------------------------------------------------------------------
  // detectCycles

  /** A proper subset is smaller: the depth-first search terminates. */
  lemma {:induction false} FewerLeft(a: set<string>, b: set<string>)
    requires a <= b && a != b
    ensures |a| < |b|
  {
    var x :| x in b && x !in a;
    var b' := b - {x};
    if a == b' {
    } else {
      assert a <= b';
      SubsetNoLarger(a, b');
    }
  }

  lemma {:induction false} SubsetNoLarger(a: set<string>, b: set<string>)
    requires a <= b
    ensures |a| <= |b|
  {
    if a != {} {
      var x :| x in a;
      SubsetNoLarger(a - {x}, b - {x});
    }
  }

  /**
   * The state of the depth-first search: `visited` nodes are on the
   * recursion stack or finished, finished nodes are ranked, and every
   * connection from a finished node goes to a finished node of lower rank.
   */
  ghost predicate SearchInv(conns: seq<Connection>, universe: set<string>, visited: set<string>,
                            onStack: set<string>, rank: map<string, nat>)
  {
    && visited <= universe
    && (forall i :: 0 <= i < |conns| ==> conns[i].to in universe)
    && onStack <= visited
    && rank.Keys == visited - onStack
    && RankedEdges(conns, rank)
  }

  /** A rank above that of every target of a connection from `u`. */
  ghost function Above(rank: map<string, nat>, conns: seq<Connection>, u: string): (h: nat)
    requires forall k :: 0 <= k < |conns| && conns[k].from == u ==> conns[k].to in rank
    ensures forall k :: 0 <= k < |conns| && conns[k].from == u ==> rank[conns[k].to] < h
  {
    if conns == [] then 0
    else
      var rest := Above(rank, conns[1..], u);
      assert forall k :: 1 <= k < |conns| ==> conns[k] == conns[1..][k - 1];
      var here := if conns[0].from == u then rank[conns[0].to] + 1 else 0;
      if here < rest then rest else here
  }

  /** Entering `u`: it joins the visited nodes and the recursion stack. */
  lemma PushNode(conns: seq<Connection>, universe: set<string>, visited: set<string>,
                 onStack: set<string>, rank: map<string, nat>, u: string)
    requires SearchInv(conns, universe, visited, onStack, rank)
    requires u in universe && u !in visited
    ensures SearchInv(conns, universe, visited + {u}, onStack + {u}, rank)
    ensures |universe - (visited + {u})| < |universe - visited|
  {
    assert u in universe - visited && u !in universe - (visited + {u});
    FewerLeft(universe - (visited + {u}), universe - visited);
  }

  /** Leaving `u` once the targets of its connections are finished: `u` is ranked above them. */
  lemma FinishNode(conns: seq<Connection>, universe: set<string>, visited: set<string>,
                   onStack: set<string>, rank: map<string, nat>, u: string)
    requires SearchInv(conns, universe, visited, onStack + {u}, rank)
    requires u !in onStack && u in visited
    requires forall k :: 0 <= k < |conns| && conns[k].from == u ==> conns[k].to in rank
    ensures SearchInv(conns, universe, visited, onStack, rank[u := Above(rank, conns, u)])
  {
    var rank' := rank[u := Above(rank, conns, u)];
    assert rank'.Keys == visited - onStack;
  }

  /**
   * The inner `dfs(nodeId)` of `detectCycles`, entered with every node of
   * the recursion stack reaching `u`: an error names a connection that
   * closes a cycle; otherwise `u` and everything reachable from it are
   * finished.
   */
  method Search(conns: seq<Connection>, ghost universe: set<string>, u: string,
                visited: set<string>, onStack: set<string>, ghost rank: map<string, nat>)
    returns (r: Result<(), string>, visitedOut: set<string>, ghost rankOut: map<string, nat>)
    requires SearchInv(conns, universe, visited, onStack, rank)
    requires u in universe && u !in visited
    requires forall x :: x in onStack ==> Reaches(conns, x, u)
    ensures r.Err? ==> HasCycle(conns)
    ensures r.Ok? ==> SearchInv(conns, universe, visitedOut, onStack, rankOut)
    ensures r.Ok? ==> u in rankOut && visited <= visitedOut
    decreases |universe - visited|, 0
  {
    var vis := visited + {u};
    var inner := onStack + {u};
    ghost var rk := rank;
    PushNode(conns, universe, visited, onStack, rank, u);
    ReachSelf(conns, u);
    var j := 0;
    while j < |conns|
      invariant 0 <= j <= |conns|
      invariant SearchInv(conns, universe, vis, inner, rk)
      invariant visited + {u} <= vis
      invariant forall k :: 0 <= k < j && conns[k].from == u ==> conns[k].to in rk
    {
      if conns[j].from == u {
        assert u in universe - visited && u !in universe - vis;
        FewerLeft(universe - vis, universe - visited);
        ghost var before := rk;
        ghost var seen := vis;
        var res;
        res, vis, rk := Follow(conns, universe, u, j, vis, inner, rk);
        if res.Err? {
          return res, vis, rk;
        }
        forall k | 0 <= k < j + 1 && conns[k].from == u
          ensures conns[k].to in rk
        {
          if k < j {
            assert conns[k].to in seen - inner;
          }
        }
      }
      j := j + 1;
    }
    FinishNode(conns, universe, vis, onStack, rk, u);
    rankOut := rk[u := Above(rk, conns, u)];
    visitedOut := vis;
    r := Ok(());
  }

  /**
   * One connection `u -> v` of the search from `u`: an unvisited `v` is
   * searched, a `v` still on the recursion stack closes a cycle, and a
   * finished `v` is skipped.
   */
  method Follow(conns: seq<Connection>, ghost universe: set<string>, u: string, j: nat,
                visited: set<string>, onStack: set<string>, ghost rank: map<string, nat>)
    returns (r: Result<(), string>, visitedOut: set<string>, ghost rankOut: map<string, nat>)
    requires SearchInv(conns, universe, visited, onStack, rank)
    requires j < |conns| && conns[j].from == u
    requires forall x :: x in onStack ==> Reaches(conns, x, u)
    ensures r.Err? ==> HasCycle(conns)
    ensures r.Ok? ==> SearchInv(conns, universe, visitedOut, onStack, rankOut)
    ensures r.Ok? ==> conns[j].to in rankOut && visited <= visitedOut
    decreases |universe - visited|, 1
  {
    var v := conns[j].to;
    assert Edge(conns, u, v);
    if v !in visited {
      forall x | x in onStack
        ensures Reaches(conns, x, v)
      {
        ReachStep(conns, x, u, v);
      }
      r, visitedOut, rankOut := Search(conns, universe, v, visited, onStack, rank);
    } else if v in onStack {
      CycleFromReach(conns, u, v);
      r, visitedOut, rankOut := Err("Cycle detected in workflow: " + u + " -> " + v), visited, rank;
    } else {
      r, visitedOut, rankOut := Ok(()), visited, rank;
    }
  }

  /**
   * `detectCycles()`: a depth-first search from every node not yet visited,
   * in definition order. It fails exactly when the connections contain a
   * cycle; otherwise the ranking it builds orders every node above the
   * targets of its connections.
   */
  method DetectCycles(defs: seq<NodeDef>, conns: seq<Connection>) returns (r: Result<(), string>, ghost rank: map<string, nat>)
    requires forall i :: 0 <= i < |conns| ==> conns[i].from in NodeIds(defs) && conns[i].to in NodeIds(defs)
    ensures r.Err? <==> HasCycle(conns)
    ensures r.Ok? ==> RankedEdges(conns, rank) && NodeIds(defs) <= rank.Keys
  {
    ghost var universe := NodeIds(defs);
    var visited: set<string> := {};
    rank := map[];
    var i := 0;
    while i < |defs|
      invariant 0 <= i <= |defs|
      invariant SearchInv(conns, universe, visited, {}, rank)
      invariant forall k :: 0 <= k < i ==> defs[k].id in visited
    {
      if defs[i].id !in visited {
        var res;
        res, visited, rank := Search(conns, universe, defs[i].id, visited, {}, rank);
        if res.Err? {
          return res, rank;
        }
      }
      i := i + 1;
    }
    assert NodeIds(defs) <= rank.Keys by {
      forall x | x in NodeIds(defs)
        ensures x in rank
      {
        var k :| 0 <= k < |defs| && defs[k].id == x;
      }
    }
    NoCycleUnderRanking(conns, rank);
    r := Ok(());
  }

  // ---------------------------------------------------------------------
  // findEntryNode, findNextNode, findErrorHandler

  /** Some connection ends at `x`. */
  predicate HasIncoming(conns: seq<Connection>, x: string)
  {
    exists i :: 0 <= i < |conns| && conns[i].to == x
  }

  /** `findEntryNode()`: the first node, in definition order, that no connection leads to. */
  function FindEntryNode(defs: seq<NodeDef>, conns: seq<Connection>): (r: Option<string>)
    ensures r.None? <==> forall k :: 0 <= k < |defs| ==> HasIncoming(conns, defs[k].id)
    ensures r.Some? ==> exists k :: 0 <= k < |defs| && defs[k].id == r.value && !HasIncoming(conns, r.value)
                                    && forall j :: 0 <= j < k ==> HasIncoming(conns, defs[j].id)
  {
    if defs == [] then None
    else if !HasIncoming(conns, defs[0].id) then Some(defs[0].id)
    else
      var rest := FindEntryNode(defs[1..], conns);
      assert forall k :: 1 <= k < |defs| ==> defs[k] == defs[1..][k - 1];
      if rest.Some? then
        var k :| 0 <= k < |defs[1..]| && defs[1..][k].id == rest.value && !HasIncoming(conns, rest.value)
                 && forall j :: 0 <= j < k ==> HasIncoming(conns, defs[1..][j].id);
        assert defs[k + 1].id == rest.value;
        assert forall j :: 0 <= j < k + 1 ==> HasIncoming(conns, defs[j].id) by {
          forall j | 0 <= j < k + 1
            ensures HasIncoming(conns, defs[j].id)
          {
            if j > 0 {
              assert defs[j] == defs[1..][j - 1];
            }
          }
        }
        rest
      else
        rest
  }

  /** The index of a node of highest rank. */
  ghost function TopRanked(defs: seq<NodeDef>, rank: map<string, nat>): (k: nat)
    requires |defs| > 0 && NodeIds(defs) <= rank.Keys
    ensures k < |defs| && forall j :: 0 <= j < |defs| ==> rank[defs[j].id] <= rank[defs[k].id]
  {
    assert defs[|defs| - 1].id in NodeIds(defs);
    if |defs| == 1 then 0
    else
      assert NodeIds(defs[..|defs| - 1]) <= NodeIds(defs) by {
        forall x | x in NodeIds(defs[..|defs| - 1])
          ensures x in NodeIds(defs)
        {
          var k :| 0 <= k < |defs| - 1 && defs[..|defs| - 1][k].id == x;
          assert defs[k].id == x;
        }
      }
      var k := TopRanked(defs[..|defs| - 1], rank);
      assert forall j :: 0 <= j < |defs| - 1 ==> defs[j] == defs[..|defs| - 1][j];
      if rank[defs[|defs| - 1].id] <= rank[defs[k].id] then k else |defs| - 1
  }

  /**
   * A ranked workflow has an entry node: nothing leads to a node of
   * highest rank, since its source would rank higher still.
   */
  lemma EntryExists(defs: seq<NodeDef>, conns: seq<Connection>, rank: map<string, nat>)
    requires |defs| > 0 && NodeIds(defs) <= rank.Keys && RankedEdges(conns, rank)
    requires forall i :: 0 <= i < |conns| ==> conns[i].from in NodeIds(defs)
    ensures FindEntryNode(defs, conns).Some?
  {
    var k := TopRanked(defs, rank);
    forall i | 0 <= i < |conns|
      ensures conns[i].to != defs[k].id
    {
      var j :| 0 <= j < |defs| && defs[j].id == conns[i].from;
    }
  }

  /** `c.from === from && c.fromOutput === output`. */
  predicate Leaves(c: Connection, from: string, output: string)
  {
    c.from == from && c.fromOutput == output
  }

  /** `r` is the target of the first connection leaving `from` through `output`, or none is. */
  predicate IsFirstTarget(conns: seq<Connection>, from: string, output: string, r: Option<string>)
  {
    && (r.None? <==> forall i :: 0 <= i < |conns| ==> !Leaves(conns[i], from, output))
    && (r.Some? ==> exists i :: 0 <= i < |conns| && Leaves(conns[i], from, output) && conns[i].to == r.value
                               && forall j :: 0 <= j < i ==> !Leaves(conns[j], from, output))
  }

  function FirstTarget(conns: seq<Connection>, from: string, output: string): (r: Option<string>)
    ensures IsFirstTarget(conns, from, output, r)
  {
    if conns == [] then None
    else if Leaves(conns[0], from, output) then Some(conns[0].to)
    else
      var rest := FirstTarget(conns[1..], from, output);
      assert forall k :: 1 <= k < |conns| ==> conns[k] == conns[1..][k - 1];
      if rest.Some? then
        var i :| 0 <= i < |conns[1..]| && Leaves(conns[1..][i], from, output) && conns[1..][i].to == rest.value
                 && forall j :: 0 <= j < i ==> !Leaves(conns[1..][j], from, output);
        assert forall j :: 0 <= j < i + 1 ==> !Leaves(conns[j], from, output) by {
          forall j | 0 <= j < i + 1
            ensures !Leaves(conns[j], from, output)
          {
            if j > 0 {
              assert conns[j] == conns[1..][j - 1];
            }
          }
        }
        assert conns[i + 1] == conns[1..][i];
        rest
      else
        rest
  }

  /** `findNextNode(nodeId, outputName)`: the first connection leaving through that output. */
  function FindNextNode(conns: seq<Connection>, nodeId: string, outputName: string): (r: Option<string>)
    ensures IsFirstTarget(conns, nodeId, outputName, r)
  {
    FirstTarget(conns, nodeId, outputName)
  }

  /** `findErrorHandler(nodeId)`: the first connection leaving through `error`. */
  function FindErrorHandler(conns: seq<Connection>, nodeId: string): (r: Option<string>)
    ensures IsFirstTarget(conns, nodeId, "error", r)
  {
    FirstTarget(conns, nodeId, "error")
  }

  /**
   * Both lookups follow a connection, so when every connection's source is
   * ranked they lead from a ranked node to a lower rank.
   */
  lemma TargetRanksLower(conns: seq<Connection>, rank: map<string, nat>, from: string, output: string)
    requires RankedEdges(conns, rank) && forall i :: 0 <= i < |conns| ==> conns[i].from in rank
    ensures var r := FirstTarget(conns, from, output);
      r.Some? ==> from in rank && r.value in rank && rank[r.value] < rank[from]
  {
    var r := FirstTarget(conns, from, output);
    if r.Some? {
      var i :| 0 <= i < |conns| && Leaves(conns[i], from, output) && conns[i].to == r.value;
    }
  }
}
