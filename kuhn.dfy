/**
 * Kuhn's augmenting-path algorithm for a maximum bipartite matching, in the
 * form the maximum-matching planner runs it: one depth-first search per left
 * vertex, a shared record of the edge chosen for each right vertex, and a
 * visited mark per left vertex that is cleared before every search.
 *
 * Maximality is proved with a certificate the searches leave behind: the
 * left vertices visited by the searches that failed form a set `closed`,
 * which holds every unmatched left vertex, and
 * every edge of which ends in a right vertex already matched into `closed`.
 * A matching can therefore use no more edges from `closed` than `closed` has
 * matched vertices, and no more from the rest than the rest has vertices.
 */
module Kuhn {
  import opened Tasks
  import opened Graphs
  import opened SetFacts

  /** Each right vertex's chosen edge, where there is one, is an edge into that vertex. */
  ghost predicate WellTyped(g: BipartiteGraph, c: seq<Option<nat>>) {
    forall v :: 0 <= v < |c| && c[v].Some? ==> c[v].value < |g.edges| && g.edges[c[v].value].to == v
  }

  /** The left vertex owning a chosen entry, as a multiset of zero or one element. */
  ghost function OwnerOf(g: BipartiteGraph, x: Option<nat>): multiset<nat> {
    if x.Some? && x.value < |g.edges| then multiset{g.edges[x.value].from} else multiset{}
  }

  /** The left vertices owning the chosen edges, counted with multiplicity. */
  ghost function Owners(g: BipartiteGraph, c: seq<Option<nat>>): multiset<nat> {
    if c == [] then multiset{} else Owners(g, c[..|c| - 1]) + OwnerOf(g, c[|c| - 1])
  }

  /** The edge ids chosen for some right vertex. */
  ghost function ChosenEdges(c: seq<Option<nat>>): set<nat> {
    set v | 0 <= v < |c| && c[v].Some? :: c[v].value
  }

  /** No left vertex owns two chosen edges. */
  ghost predicate DistinctOwners(g: BipartiteGraph, c: seq<Option<nat>>) {
    forall w :: Owners(g, c)[w] <= 1
  }

  lemma {:induction false} OwnerOfIncluded(g: BipartiteGraph, c: seq<Option<nat>>, v: nat)
    requires WellTyped(g, c) && v < |c|
    ensures OwnerOf(g, c[v]) <= Owners(g, c)
  {
    var n := |c| - 1;
    if v < n {
      OwnerOfIncluded(g, c[..n], v);
    }
  }

  lemma UpdateWellTyped(g: BipartiteGraph, c: seq<Option<nat>>, v: nat, x: Option<nat>)
    requires WellTyped(g, c) && v < |c|
    requires x.Some? ==> x.value < |g.edges| && g.edges[x.value].to == v
    ensures WellTyped(g, c[v := x])
  {
  }

  /** Replacing one entry swaps its owner for the new one. */
  lemma {:induction false} OwnersUpdate(g: BipartiteGraph, c: seq<Option<nat>>, v: nat, x: Option<nat>)
    requires v < |c|
    ensures Owners(g, c[v := x]) + OwnerOf(g, c[v]) == Owners(g, c) + OwnerOf(g, x)
  {
    var n := |c| - 1;
    var c' := c[v := x];
    OwnersUnfold(g, c);
    OwnersUnfold(g, c');
    if v == n {
      assert c'[..n] == c[..n];
      SwapSum(Owners(g, c[..n]), OwnerOf(g, x), OwnerOf(g, c[v]));
    } else {
      var p := c[..n];
      assert c'[..n] == p[v := x];
      assert p[v] == c[v] && c'[n] == c[n];
      OwnersUpdate(g, p, v, x);
      ShiftSum(Owners(g, p[v := x]), Owners(g, p), OwnerOf(g, c[n]), OwnerOf(g, c[v]), OwnerOf(g, x));
    }
  }

  lemma OwnersUnfold(g: BipartiteGraph, c: seq<Option<nat>>)
    requires c != []
    ensures Owners(g, c) == Owners(g, c[..|c| - 1]) + OwnerOf(g, c[|c| - 1])
  {
  }

  lemma SwapSum(a: multiset<nat>, b: multiset<nat>, c: multiset<nat>)
    ensures a + b + c == a + c + b
  {
  }

  lemma ShiftSum(a: multiset<nat>, b: multiset<nat>, last: multiset<nat>, prior: multiset<nat>, next: multiset<nat>)
    requires a + prior == b + next
    ensures a + last + prior == b + last + next
  {
    calc {
      a + last + prior;
      == last + (a + prior);
      == last + (b + next);
      == b + last + next;
    }
  }

  lemma ChosenEdgesSnoc(c: seq<Option<nat>>, x: Option<nat>)
    ensures ChosenEdges(c + [x]) == ChosenEdges(c) + (if x.Some? then {x.value} else {})
  {
    var c' := c + [x];
    forall id ensures id in ChosenEdges(c') <==> id in ChosenEdges(c) + (if x.Some? then {x.value} else {}) {
      if id in ChosenEdges(c) {
        var v :| 0 <= v < |c| && c[v].Some? && c[v].value == id;
        assert c'[v] == c[v];
      }
      if id in ChosenEdges(c') {
        var v :| 0 <= v < |c'| && c'[v].Some? && c'[v].value == id;
        if v < |c| {
          assert c[v] == c'[v];
        }
      }
      if x.Some? && id == x.value {
        assert c'[|c|] == x;
      }
    }
  }

  /** Nothing is owned before any edge is chosen. */
  lemma {:induction false} NoOwners(g: BipartiteGraph, c: seq<Option<nat>>)
    requires forall v :: 0 <= v < |c| ==> c[v].None?
    ensures Owners(g, c) == multiset{}
  {
    if c != [] {
      NoOwners(g, c[..|c| - 1]);
    }
  }

  lemma CancelOwner(a: multiset<nat>, b: multiset<nat>, w: nat)
    requires a + multiset{w} == b + multiset{w}
    ensures a == b
  {
    assert a == a + multiset{w} - multiset{w};
  }

  /** Choosing edge `id` for a free right vertex `v` adds one owner, `u`, and keeps every other entry. */
  lemma ClaimFreeVertex(g: BipartiteGraph, c: seq<Option<nat>>, v: nat, id: nat, u: nat, keep: set<nat>)
    requires WellTyped(g, c) && v < |c| && c[v].None?
    requires id < |g.edges| && g.edges[id] == Edge(u, v)
    ensures WellTyped(g, c[v := Some(id)])
    ensures Owners(g, c[v := Some(id)]) == Owners(g, c) + multiset{u}
    ensures KeepsOwned(g, c, c[v := Some(id)], keep)
  {
    UpdateWellTyped(g, c, v, Some(id));
    OwnersUpdate(g, c, v, Some(id));
  }

  /**
   * The last step of an augmenting path: the search from `w`, the owner of
   * `v`, succeeded (turning `before` into `after`), and `v` now passes to
   * edge `id` from `u`.
   */
  lemma ReassignVertex(g: BipartiteGraph, before: seq<Option<nat>>, after: seq<Option<nat>>,
                       v: nat, id: nat, u: nat, w: nat, keep: set<nat>, keptBySearch: set<nat>)
    requires WellTyped(g, before) && WellTyped(g, after) && |before| == |after|
    requires v < |before| && before[v].Some? && g.edges[before[v].value].from == w
    requires id < |g.edges| && g.edges[id] == Edge(u, v)
    requires Owners(g, after) == Owners(g, before) + multiset{w}
    requires KeepsOwned(g, before, after, keptBySearch)
    requires w in keptBySearch && keep <= keptBySearch && w !in keep
    ensures WellTyped(g, after[v := Some(id)])
    ensures Owners(g, after[v := Some(id)]) == Owners(g, before) + multiset{u}
    ensures KeepsOwned(g, before, after[v := Some(id)], keep)
  {
    assert after[v] == before[v];
    UpdateWellTyped(g, after, v, Some(id));
    ReassignOwners(g, before, after, v, id, u, w);
    ReassignKeeps(g, before, after, v, id, w, keep, keptBySearch);
  }

  lemma ReassignOwners(g: BipartiteGraph, before: seq<Option<nat>>, after: seq<Option<nat>>,
                       v: nat, id: nat, u: nat, w: nat)
    requires WellTyped(g, after) && v < |after| && after[v].Some? && g.edges[after[v].value].from == w
    requires id < |g.edges| && g.edges[id] == Edge(u, v)
    requires Owners(g, after) == Owners(g, before) + multiset{w}
    ensures Owners(g, after[v := Some(id)]) == Owners(g, before) + multiset{u}
  {
    OwnersUpdate(g, after, v, Some(id));
    assert OwnerOf(g, after[v]) == multiset{w};
    assert OwnerOf(g, Some(id)) == multiset{u};
    CancelOwner(Owners(g, after[v := Some(id)]), Owners(g, before) + multiset{u}, w);
  }

  lemma ReassignKeeps(g: BipartiteGraph, before: seq<Option<nat>>, after: seq<Option<nat>>,
                      v: nat, id: nat, w: nat, keep: set<nat>, keptBySearch: set<nat>)
    requires |before| == |after| && v < |before| && before[v].Some? && before[v].value < |g.edges|
    requires g.edges[before[v].value].from == w
    requires KeepsOwned(g, before, after, keptBySearch) && keep <= keptBySearch && w !in keep
    ensures KeepsOwned(g, before, after[v := Some(id)], keep)
  {
    forall x | 0 <= x < |before| && before[x].Some? && before[x].value < |g.edges| && g.edges[before[x].value].from in keep
      ensures x < |after| && after[v := Some(id)][x] == before[x]
    {
      assert x != v;
    }
  }

  /** Two right vertices chosen for the same left vertex make it owner twice. */
  lemma {:induction false} OwnersTwice(g: BipartiteGraph, c: seq<Option<nat>>, v1: nat, v2: nat)
    requires WellTyped(g, c) && v1 < v2 < |c| && c[v1].Some? && c[v2].Some?
    requires g.edges[c[v1].value].from == g.edges[c[v2].value].from
    ensures Owners(g, c)[g.edges[c[v1].value].from] >= 2
  {
    var n := |c| - 1;
    if v2 == n {
      OwnerOfIncluded(g, c[..n], v1);
    } else {
      OwnersTwice(g, c[..n], v1, v2);
    }
  }

  /** Every owner owns some chosen entry. */
  lemma {:induction false} OwnerHasEntry(g: BipartiteGraph, c: seq<Option<nat>>, w: nat)
    requires WellTyped(g, c) && w in Owners(g, c)
    ensures exists v :: 0 <= v < |c| && c[v].Some? && g.edges[c[v].value].from == w
  {
    var n := |c| - 1;
    if w !in OwnerOf(g, c[n]) {
      OwnerHasEntry(g, c[..n], w);
      var v :| 0 <= v < n && c[..n][v].Some? && g.edges[c[..n][v].value].from == w;
      assert c[v] == c[..n][v];
    }
  }

  lemma DistinctOwnersPairwise(g: BipartiteGraph, c: seq<Option<nat>>, v1: nat, v2: nat)
    requires WellTyped(g, c) && DistinctOwners(g, c)
    requires v1 < |c| && v2 < |c| && v1 != v2 && c[v1].Some? && c[v2].Some?
    ensures g.edges[c[v1].value].from != g.edges[c[v2].value].from
  {
    if g.edges[c[v1].value].from == g.edges[c[v2].value].from {
      if v1 < v2 {
        OwnersTwice(g, c, v1, v2);
      } else {
        OwnersTwice(g, c, v2, v1);
      }
    }
  }

  /**
   * Every edge leaving `closed` ends in a right vertex whose chosen edge is
   * owned inside `closed`.
   */
  ghost predicate Closed(g: BipartiteGraph, c: seq<Option<nat>>, closed: set<nat>) {
    forall id :: 0 <= id < |g.edges| && g.edges[id].from in closed ==>
      g.edges[id].to < |c| && c[g.edges[id].to].Some? && c[g.edges[id].to].value < |g.edges| &&
      g.edges[c[g.edges[id].to].value].from in closed
  }

  /** Edge `id` ends in a right vertex whose chosen edge is owned by a visited vertex. */
  ghost predicate Blocked(g: BipartiteGraph, c: seq<Option<nat>>, visited: seq<bool>, id: nat)
    requires id < |g.edges|
  {
    var v := g.edges[id].to;
    && v < |c| && c[v].Some? && c[v].value < |g.edges|
    && g.edges[c[v].value].from < |visited| && visited[g.edges[c[v].value].from]
  }

  /** Every edge out of `w` is blocked: a search from `w` has nowhere to go. */
  ghost predicate Exhausted(g: BipartiteGraph, c: seq<Option<nat>>, visited: seq<bool>, w: nat)
  {
    forall id :: 0 <= id < |g.edges| && g.edges[id].from == w ==> Blocked(g, c, visited, id)
  }

  /** Every vertex visited since `vis0`, other than `root`, is exhausted. */
  ghost predicate ExploredBelow(g: BipartiteGraph, c: seq<Option<nat>>, vis0: seq<bool>, vis1: seq<bool>, root: nat)
  {
    forall x :: 0 <= x < |vis1| && x < |vis0| && vis1[x] && !vis0[x] && x != root ==>
      Exhausted(g, c, vis1, x)
  }

  /** Every vertex visited since `vis0` is exhausted. */
  ghost predicate Explored(g: BipartiteGraph, c: seq<Option<nat>>, vis0: seq<bool>, vis1: seq<bool>)
  {
    forall x :: 0 <= x < |vis1| && x < |vis0| && vis1[x] && !vis0[x] ==> Exhausted(g, c, vis1, x)
  }

  /** `vis1` keeps every mark of `vis0`. */
  ghost predicate Grows(vis0: seq<bool>, vis1: seq<bool>) {
    |vis0| == |vis1| && forall x :: 0 <= x < |vis0| && vis0[x] ==> vis1[x]
  }

  lemma ExhaustedGrows(g: BipartiteGraph, c: seq<Option<nat>>, vis0: seq<bool>, vis1: seq<bool>, x: nat)
    requires WellTyped(g, c) && Exhausted(g, c, vis0, x) && Grows(vis0, vis1)
    ensures Exhausted(g, c, vis1, x)
  {
    forall id | 0 <= id < |g.edges| && g.edges[id].from == x ensures Blocked(g, c, vis1, id) {
      assert Blocked(g, c, vis0, id);
    }
  }

  /** Every edge listed in `ids` is blocked. */
  ghost predicate AllBlocked(g: BipartiteGraph, c: seq<Option<nat>>, visited: seq<bool>, ids: seq<nat>)
  {
    forall j :: 0 <= j < |ids| ==> ids[j] < |g.edges| && Blocked(g, c, visited, ids[j])
  }

  lemma AllBlockedGrows(g: BipartiteGraph, c: seq<Option<nat>>, vis0: seq<bool>, vis1: seq<bool>, ids: seq<nat>)
    requires WellTyped(g, c) && AllBlocked(g, c, vis0, ids) && Grows(vis0, vis1)
    ensures AllBlocked(g, c, vis1, ids)
  {
  }

  /** A failed search from `w` extends what the search from `root` has explored. */
  lemma ExploredStep(g: BipartiteGraph, c: seq<Option<nat>>, vis0: seq<bool>, visMid: seq<bool>, visNew: seq<bool>,
                     root: nat)
    requires WellTyped(g, c)
    requires Grows(vis0, visMid) && Grows(visMid, visNew) && root < |visMid| && visMid[root]
    requires ExploredBelow(g, c, vis0, visMid, root) && Explored(g, c, visMid, visNew)
    ensures ExploredBelow(g, c, vis0, visNew, root)
  {
    forall x | 0 <= x < |visNew| && x < |vis0| && visNew[x] && !vis0[x] && x != root
      ensures Exhausted(g, c, visNew, x)
    {
      if visMid[x] {
        ExhaustedGrows(g, c, visMid, visNew, x);
      }
    }
  }

  /** Once every edge of `root` is blocked, the search from `root` has explored everything it visited. */
  lemma ExploredFinish(g: BipartiteGraph, adj: seq<seq<nat>>, c: seq<Option<nat>>, vis0: seq<bool>, vis1: seq<bool>,
                       root: nat)
    requires WellTyped(g, c) && Adjacency(g, adj) && root < |adj|
    requires ExploredBelow(g, c, vis0, vis1, root)
    requires AllBlocked(g, c, vis1, adj[root])
    ensures Explored(g, c, vis0, vis1)
  {
    assert Exhausted(g, c, vis1, root) by {
      forall id | 0 <= id < |g.edges| && g.edges[id].from == root ensures Blocked(g, c, vis1, id) {
        var j :| 0 <= j < |adj[root]| && adj[root][j] == id;
      }
    }
  }

  /** Entries owned by a vertex of `keep` are the same in `c0` and `c1`. */
  ghost predicate KeepsOwned(g: BipartiteGraph, c0: seq<Option<nat>>, c1: seq<Option<nat>>, keep: set<nat>) {
    forall v :: 0 <= v < |c0| && c0[v].Some? && c0[v].value < |g.edges| && g.edges[c0[v].value].from in keep ==>
      v < |c1| && c1[v] == c0[v]
  }

  lemma GrowsTransitive(vis0: seq<bool>, vis1: seq<bool>, vis2: seq<bool>)
    requires Grows(vis0, vis1) && Grows(vis1, vis2)
    ensures Grows(vis0, vis2)
  {
  }

  ghost function VisitedSet(visited: seq<bool>): set<nat> {
    set w | 0 <= w < |visited| && visited[w]
  }

  /** The number of unvisited left vertices, which every search lowers. */
  ghost function Unvisited(visited: seq<bool>): nat {
    if visited == [] then 0
    else Unvisited(visited[..|visited| - 1]) + (if visited[|visited| - 1] then 0 else 1)
  }

  lemma {:induction false} UnvisitedShrinks(vis0: seq<bool>, vis1: seq<bool>)
    requires Grows(vis0, vis1)
    ensures Unvisited(vis1) <= Unvisited(vis0)
    ensures (exists x :: 0 <= x < |vis0| && !vis0[x] && vis1[x]) ==> Unvisited(vis1) < Unvisited(vis0)
  {
    if vis0 != [] {
      var n := |vis0| - 1;
      UnvisitedShrinks(vis0[..n], vis1[..n]);
      if exists x :: 0 <= x < |vis0| && !vis0[x] && vis1[x] {
        var x :| 0 <= x < |vis0| && !vis0[x] && vis1[x];
        if x < n {
          assert !vis0[..n][x] && vis1[..n][x];
        }
      }
    }
  }

  /** `adj[u]` lists exactly the ids of the edges leaving `u`. */
  ghost predicate Adjacency(g: BipartiteGraph, adj: seq<seq<nat>>) {
    && |adj| == g.firstPartCount
    && (forall u, k :: 0 <= u < |adj| && 0 <= k < |adj[u]| ==>
          adj[u][k] < |g.edges| && g.edges[adj[u][k]].from == u)
    && (forall id :: 0 <= id < |g.edges| ==> g.edges[id].from < |adj| && id in adj[g.edges[id].from])
  }

  /** Groups the edge ids by left vertex, in edge order. */
  method BuildAdjacency(g: BipartiteGraph) returns (adj: seq<seq<nat>>)
    requires ValidBipartite(g)
    ensures Adjacency(g, adj)
  {
    var none: seq<nat> := [];
    var lists: array<seq<nat>> := new seq<nat>[g.firstPartCount](_ => none);
    var id := 0;
    while id < |g.edges|
      invariant 0 <= id <= |g.edges|
      invariant forall u, k :: 0 <= u < lists.Length && 0 <= k < |lists[u]| ==>
        lists[u][k] < id && g.edges[lists[u][k]].from == u
      invariant forall j :: 0 <= j < id ==> lists[g.edges[j].from] != [] && j in lists[g.edges[j].from]
    {
      var u := g.edges[id].from;
      lists[u] := lists[u] + [id];
      id := id + 1;
    }
    adj := lists[..];
  }

  /** A failed search leaves the vertices it visited closed, so they join `closed`. */
  lemma ClosedAfterFailure(g: BipartiteGraph, c: seq<Option<nat>>, closed: set<nat>, visited: seq<bool>)
    requires Closed(g, c, closed)
    requires Explored(g, c, seq(|visited|, _ => false), visited)
    ensures Closed(g, c, closed + VisitedSet(visited))
  {
    var unmarked := seq(|visited|, _ => false);
    forall id | 0 <= id < |g.edges| && g.edges[id].from in closed + VisitedSet(visited)
      ensures g.edges[id].to < |c| && c[g.edges[id].to].Some? && c[g.edges[id].to].value < |g.edges| &&
              g.edges[c[g.edges[id].to].value].from in closed + VisitedSet(visited)
    {
      var x := g.edges[id].from;
      if x !in closed {
        assert !unmarked[x];
        assert Blocked(g, c, visited, id);
      }
    }
  }

  /** A successful search keeps the entries owned by `closed`, so `closed` stays closed. */
  lemma ClosedAfterSuccess(g: BipartiteGraph, c0: seq<Option<nat>>, c1: seq<Option<nat>>, closed: set<nat>,
                           keep: set<nat>)
    requires Closed(g, c0, closed) && closed <= keep && KeepsOwned(g, c0, c1, keep)
    ensures Closed(g, c1, closed)
  {
    forall id | 0 <= id < |g.edges| && g.edges[id].from in closed
      ensures g.edges[id].to < |c1| && c1[g.edges[id].to].Some? && c1[g.edges[id].to].value < |g.edges| &&
              g.edges[c1[g.edges[id].to].value].from in closed
    {
      var v := g.edges[id].to;
      assert c1[v] == c0[v];
    }
  }

  /**
   * What the searches from roots 0 .. i - 1 leave behind: each owner owns
   * one edge, the owners are the roots whose search succeeded, and every
   * other earlier root lies in a closed set.
   */
  ghost predicate Certified(g: BipartiteGraph, c: seq<Option<nat>>, matched: set<nat>, closed: set<nat>, i: nat) {
    && DistinctOwners(g, c)
    && (forall w :: w in Owners(g, c) <==> w in matched)
    && (forall w :: w in matched ==> w < i)
    && (forall w: nat :: w < i && w !in closed ==> w in matched)
    && Closed(g, c, closed)
  }

  /** After a successful search from root `i`, the owners are the earlier ones and `i`. */
  lemma MatchedOneMore(g: BipartiteGraph, before: seq<Option<nat>>, after: seq<Option<nat>>,
                       matched: set<nat>, closed: set<nat>, i: nat, keep: set<nat>)
    requires Certified(g, before, matched, closed, i)
    requires Owners(g, after) == Owners(g, before) + multiset{i}
    requires closed <= keep && KeepsOwned(g, before, after, keep)
    ensures Certified(g, after, matched + {i}, closed, i + 1)
    ensures i !in matched && |matched + {i}| == |matched| + 1
  {
    ClosedAfterSuccess(g, before, after, closed, keep);
  }

  /** After a failed search from root `i`, the vertices it visited join the closed set. */
  lemma ClosedOneMore(g: BipartiteGraph, c: seq<Option<nat>>, matched: set<nat>, closed: set<nat>, i: nat,
                      visited: seq<bool>)
    requires Certified(g, c, matched, closed, i)
    requires i < |visited| && visited[i]
    requires Explored(g, c, seq(|visited|, _ => false), visited)
    ensures Certified(g, c, matched, closed + VisitedSet(visited), i + 1)
  {
    ClosedAfterFailure(g, c, closed, visited);
    assert i in VisitedSet(visited);
  }

  /** The chosen edges form a matching with one edge per owner. */
  lemma {:induction false} ChosenEdgesMatching(g: BipartiteGraph, c: seq<Option<nat>>, matched: set<nat>)
    requires WellTyped(g, c) && DistinctOwners(g, c)
    requires forall w :: w in Owners(g, c) <==> w in matched
    ensures IsMatching(g, ChosenEdges(c))
    ensures |ChosenEdges(c)| == |matched|
  {
    var m := ChosenEdges(c);
    forall a, b | a in m && b in m && a != b
      ensures g.edges[a].from != g.edges[b].from && g.edges[a].to != g.edges[b].to
    {
      var va :| 0 <= va < |c| && c[va].Some? && c[va].value == a;
      var vb :| 0 <= vb < |c| && c[vb].Some? && c[vb].value == b;
      DistinctOwnersPairwise(g, c, va, vb);
    }
    var from := (id: nat) => if id < |g.edges| then g.edges[id].from else 0;
    assert InjectiveOn(m, from);
    InjectiveImageCard(m, from);
    var image := Image(m, from);
    forall w ensures w in image <==> w in matched {
      if w in image {
        var id :| id in m && from(id) == w;
        var v :| 0 <= v < |c| && c[v].Some? && c[v].value == id;
        OwnerOfIncluded(g, c, v);
      }
      if w in matched {
        OwnerHasEntry(g, c, w);
        var v :| 0 <= v < |c| && c[v].Some? && g.edges[c[v].value].from == w;
        assert c[v].value in m;
      }
    }
    assert image == matched;
  }

  /**
   * The maximality certificate: with every unmatched left vertex inside a
   * closed set, no matching is larger than the number of owners.
   */
  lemma {:induction false} MatchingBound(g: BipartiteGraph, c: seq<Option<nat>>, matched: set<nat>,
                                          closed: set<nat>, m: set<nat>)
    requires ValidBipartite(g) && |c| == g.secondPartCount
    requires WellTyped(g, c) && Certified(g, c, matched, closed, g.firstPartCount)
    requires IsMatching(g, m)
    ensures |m| <= |matched|
  {
    var f := (id: nat) =>
      if id < |g.edges| && g.edges[id].from in closed && g.edges[id].to < |c| && c[g.edges[id].to].Some?
         && c[g.edges[id].to].value < |g.edges|
      then g.edges[c[g.edges[id].to].value].from
      else if id < |g.edges| then g.edges[id].from
      else 0;
    forall id | id in m ensures f(id) in matched {
      var e := g.edges[id];
      if e.from in closed {
        OwnerOfIncluded(g, c, e.to);
      }
    }
    forall a, b | a in m && b in m && a != b ensures f(a) != f(b) {
      var ea, eb := g.edges[a], g.edges[b];
      if ea.from in closed && eb.from in closed {
        DistinctOwnersPairwise(g, c, ea.to, eb.to);
      }
    }
    InjectionBound(m, matched, f);
  }

  /** Everything the searches leave behind certifies a maximum matching. */
  lemma MaximalityCertificate(g: BipartiteGraph, c: seq<Option<nat>>, matched: set<nat>,
                              closed: set<nat>)
    requires ValidBipartite(g) && |c| == g.secondPartCount
    requires WellTyped(g, c) && Certified(g, c, matched, closed, g.firstPartCount)
    ensures IsMaximumMatching(g, ChosenEdges(c))
  {
    ChosenEdgesMatching(g, c, matched);
    forall m | IsMatching(g, m) ensures |m| <= |ChosenEdges(c)| {
      MatchingBound(g, c, matched, closed, m);
    }
  }

  /**
   * The state the searches share: the edge chosen for each right vertex and a
   * visited mark per left vertex, over a fixed graph and its adjacency lists.
   */
  class Search {
    const graph: BipartiteGraph
    const adj: seq<seq<nat>>
    var chosen: seq<Option<nat>>
    var visited: seq<bool>

    ghost predicate Valid()
      reads this
    {
      && ValidBipartite(graph) && Adjacency(graph, adj)
      && |chosen| == graph.secondPartCount && |visited| == graph.firstPartCount
      && WellTyped(graph, chosen)
    }

    /** No edge chosen yet and no vertex visited. */
    constructor (g: BipartiteGraph, lists: seq<seq<nat>>)
      requires ValidBipartite(g) && Adjacency(g, lists)
      ensures Valid() && graph == g && adj == lists
      ensures chosen == seq(g.secondPartCount, _ => None)
      ensures visited == seq(g.firstPartCount, _ => false)
    {
      graph, adj := g, lists;
      chosen := seq(g.secondPartCount, _ => None);
      visited := seq(g.firstPartCount, _ => false);
    }

    /** Clears every visited mark before a new search. */
    method ResetVisited()
      requires Valid()
      modifies this
      ensures Valid() && chosen == old(chosen)
      ensures visited == seq(graph.firstPartCount, _ => false)
    {
      visited := seq(graph.firstPartCount, _ => false);
    }

    /**
     * One augmenting-path search from left vertex `u`. On success the edge
     * chosen for one more right vertex is owned by `u` and every other owner
     * keeps its count; on failure nothing changes but the visited marks, and
     * every vertex the search newly visited has all its edges blocked.
     */
    method TryKuhn(u: nat, ghost closed: set<nat>) returns (found: bool)
      requires Valid() && u < |visited| && Closed(graph, chosen, closed)
      modifies this
      decreases Unvisited(visited), 1
      ensures Valid()
      ensures visited[u]
      ensures Grows(old(visited), visited)
      ensures !found ==> chosen == old(chosen)
      ensures !found ==> Explored(graph, chosen, old(visited), visited)
      ensures found ==> !old(visited[u]) && u !in closed
      ensures found ==> Owners(graph, chosen) == Owners(graph, old(chosen)) + multiset{u}
      ensures found ==> KeepsOwned(graph, old(chosen), chosen, VisitedSet(old(visited)) + {u} + closed)
    {
      if visited[u] {
        return false;
      }
      visited := visited[u := true];
      UnvisitedShrinks(old(visited), visited);
      var k := 0;
      while k < |adj[u]|
        invariant Valid() && 0 <= k <= |adj[u]|
        invariant chosen == old(chosen)
        invariant visited[u]
        invariant Grows(old(visited), visited)
        invariant Unvisited(visited) < old(Unvisited(visited))
        invariant ExploredBelow(graph, chosen, old(visited), visited, u)
        invariant AllBlocked(graph, chosen, visited, adj[u][..k])
      {
        ghost var visitedBefore := visited;
        var r := TryEdge(u, k, closed, old(visited), old(Unvisited(visited)));
        GrowsTransitive(old(visited), visitedBefore, visited);
        if r {
          return true;
        }
        ExploredStep(graph, chosen, old(visited), visitedBefore, visited, u);
        AllBlockedGrows(graph, chosen, visitedBefore, visited, adj[u][..k]);
        assert adj[u][..k + 1] == adj[u][..k] + [adj[u][k]];
        k := k + 1;
      }
      assert adj[u][..k] == adj[u];
      ExploredFinish(graph, adj, chosen, old(visited), visited, u);
      return false;
    }

    /**
     * Tries the `k`-th edge of `u` in the search from `u`: claims its right
     * vertex when it is free, and otherwise searches on from the vertex's
     * owner, re-choosing the edge on success. `visited0` is the marking the
     * search from `u` started from.
     */
    method TryEdge(u: nat, k: nat, ghost closed: set<nat>, ghost visited0: seq<bool>, ghost bound: nat)
      returns (found: bool)
      requires Valid() && u < |visited| && visited[u] && k < |adj[u]| && Closed(graph, chosen, closed)
      requires Grows(visited0, visited) && Unvisited(visited) < bound
      modifies this
      decreases bound, 0
      ensures Valid() && visited[u] && Grows(old(visited), visited) && Unvisited(visited) < bound
      ensures !found ==> chosen == old(chosen) && Explored(graph, chosen, old(visited), visited)
      ensures !found ==> adj[u][k] < |graph.edges| && Blocked(graph, chosen, visited, adj[u][k])
      ensures found ==> u !in closed && Owners(graph, chosen) == Owners(graph, old(chosen)) + multiset{u}
      ensures found ==> KeepsOwned(graph, old(chosen), chosen, VisitedSet(visited0) + {u} + closed)
    {
      var id := adj[u][k];
      var v := graph.edges[id].to;
      if chosen[v].None? {
        ClaimFreeVertex(graph, chosen, v, id, u, VisitedSet(visited0) + {u} + closed);
        Choose(v, id, u, chosen, VisitedSet(visited0) + {u} + closed);
        return true;
      }
      var w := graph.edges[chosen[v].value].from;
      ghost var before := chosen;
      ghost var visitedBefore := visited;
      found := TryKuhn(w, closed);
      UnvisitedShrinks(visitedBefore, visited);
      if found {
        ReassignVertex(graph, before, chosen, v, id, u, w,
                       VisitedSet(visited0) + {u} + closed, VisitedSet(visitedBefore) + {w} + closed);
        Choose(v, id, u, before, VisitedSet(visited0) + {u} + closed);
      }
    }

    /**
     * Chooses edge `id`, from `u`, for right vertex `v`, given the owners and
     * the entries kept relative to `before` that the choice results in.
     */
    method Choose(v: nat, id: nat, ghost u: nat, ghost before: seq<Option<nat>>, ghost keep: set<nat>)
      requires Valid() && v < |chosen| && id < |graph.edges| && graph.edges[id] == Edge(u, v)
      requires WellTyped(graph, chosen[v := Some(id)])
      requires Owners(graph, chosen[v := Some(id)]) == Owners(graph, before) + multiset{u}
      requires KeepsOwned(graph, before, chosen[v := Some(id)], keep)
      modifies this
      ensures Valid() && visited == old(visited) && chosen == old(chosen)[v := Some(id)]
      ensures Owners(graph, chosen) == Owners(graph, before) + multiset{u}
      ensures KeepsOwned(graph, before, chosen, keep)
    {
      chosen := chosen[v := Some(id)];
    }

    /**
     * One round of the main loop: clear the marks and search from root `i`,
     * which either becomes an owner or closes the vertices it visited.
     */
    method Augment(i: nat, ghost matched: set<nat>, ghost closed: set<nat>)
      returns (found: bool, ghost matched': set<nat>, ghost closed': set<nat>)
      requires Valid() && i < graph.firstPartCount
      requires Certified(graph, chosen, matched, closed, i)
      modifies this
      ensures Valid() && Certified(graph, chosen, matched', closed', i + 1)
      ensures found ==> |matched'| == |matched| + 1
      ensures !found ==> matched' == matched
    {
      ResetVisited();
      ghost var before := chosen;
      ghost var visitedBefore := visited;
      found := TryKuhn(i, closed);
      if found {
        ghost var keep := VisitedSet(visitedBefore) + {i} + closed;
        MatchedOneMore(graph, before, chosen, matched, closed, i, keep);
        matched', closed' := matched + {i}, closed;
      } else {
        ClosedOneMore(graph, chosen, matched, closed, i, visited);
        matched', closed' := matched, closed + VisitedSet(visited);
      }
    }
  }

  /**
   * A maximum matching of `g`, as the ids of its edges listed by increasing
   * right vertex. Every left vertex gets one search, in order.
   */
  method GetMaxCostMatching(g: BipartiteGraph) returns (result: seq<nat>)
    requires ValidBipartite(g)
    ensures forall i :: 0 <= i < |result| ==> result[i] < |g.edges|
    ensures forall i, j :: 0 <= i < j < |result| ==> g.edges[result[i]].to < g.edges[result[j]].to
    ensures IsMaximumMatching(g, Elements(result))
  {
    var adj := BuildAdjacency(g);
    var search := new Search(g, adj);
    NoOwners(g, search.chosen);
    ghost var matched: set<nat> := {};
    ghost var closed: set<nat> := {};
    var matchingSize := 0;
    var i := 0;
    while i < g.firstPartCount
      invariant search.Valid() && search.graph == g
      invariant 0 <= i <= g.firstPartCount
      invariant Certified(g, search.chosen, matched, closed, i)
      invariant matchingSize == |matched|
    {
      ghost var matched', closed';
      var found;
      found, matched', closed' := search.Augment(i, matched, closed);
      if found {
        matchingSize := matchingSize + 1;
      }
      matched, closed := matched', closed';
      i := i + 1;
    }
    MaximalityCertificate(g, search.chosen, matched, closed);
    result := CollectChosen(g, search.chosen);
  }

  /** The chosen edge ids, skipping right vertices without one, in right-vertex order. */
  method CollectChosen(g: BipartiteGraph, chosen: seq<Option<nat>>) returns (result: seq<nat>)
    requires WellTyped(g, chosen)
    ensures forall j :: 0 <= j < |result| ==> result[j] < |g.edges|
    ensures forall j, l :: 0 <= j < l < |result| ==> g.edges[result[j]].to < g.edges[result[l]].to
    ensures Elements(result) == ChosenEdges(chosen)
  {
    result := [];
    var v := 0;
    while v < |chosen|
      invariant 0 <= v <= |chosen|
      invariant forall j :: 0 <= j < |result| ==> result[j] < |g.edges| && g.edges[result[j]].to < v
      invariant forall j, l :: 0 <= j < l < |result| ==> g.edges[result[j]].to < g.edges[result[l]].to
      invariant Elements(result) == ChosenEdges(chosen[..v])
    {
      ChosenEdgesSnoc(chosen[..v], chosen[v]);
      assert chosen[..v + 1] == chosen[..v] + [chosen[v]];
      if chosen[v].Some? {
        result := result + [chosen[v].value];
      }
      v := v + 1;
    }
    assert chosen[..v] == chosen;
  }
}
