/** Which nodes belong to a track: everything its engine's audio reaches before a mixer. */
module ChainDerivation {

  datatype Edge = Edge(src: nat, dst: nat)

  /** What the derivation reads of the graph. */
  datatype Graph = Graph(edges: seq<Edge>, audioOut: set<nat>, audioIn: set<nat>, mixes: set<nat>, ruled: set<nat>)

  predicate Feeds(g: Graph, e: Edge) {
    e.dst !in g.mixes && e.src in g.audioOut && e.dst in g.audioIn
  }

  predicate Linked(g: Graph, a: nat, b: nat) {
    Edge(a, b) in g.edges && a in g.audioOut && b in g.audioIn && b !in g.mixes
  }

  ghost predicate IsPath(g: Graph, path: seq<nat>) {
    |path| > 0 && forall i | 0 <= i < |path| - 1 :: Linked(g, path[i], path[i + 1])
  }

  /** Along audio-out to audio-in edges that never enter a mix or an output. */
  ghost predicate Reaches(g: Graph, a: nat, b: nat) {
    exists path :: IsPath(g, path) && path[0] == a && path[|path| - 1] == b
  }

  lemma ReachesSelf(g: Graph, a: nat)
    ensures Reaches(g, a, a)
  {
    assert IsPath(g, [a]);
  }

  lemma ReachesOn(g: Graph, a: nat, b: nat, c: nat)
    requires Reaches(g, a, b) && Linked(g, b, c)
    ensures Reaches(g, a, c)
  {
    var path :| IsPath(g, path) && path[0] == a && path[|path| - 1] == b;
    assert IsPath(g, path + [c]);
  }

  /** A set closed under links holds everything reachable from its members. */
  lemma {:induction false} ClosedHoldsPath(g: Graph, s: set<nat>, path: seq<nat>)
    requires forall a, b | a in s && Linked(g, a, b) :: b in s
    requires IsPath(g, path) && path[0] in s
    ensures path[|path| - 1] in s
  {
    if |path| <= 1 {
    } else {
      assert Linked(g, path[0], path[1]);
      var rest := path[1..];
      forall i | 0 <= i < |rest| - 1 ensures Linked(g, rest[i], rest[i + 1]) {
        assert Linked(g, path[i + 1], path[i + 2]);
      }
      ClosedHoldsPath(g, s, rest);
    }
  }

  ghost predicate NoDuplicates(s: seq<nat>) {
    forall i, j | 0 <= i < j < |s| :: s[i] != s[j]
  }

  ghost predicate IsChain(g: Graph, engine: nat, chain: seq<nat>) {
    && NoDuplicates(chain)
    && forall x :: x in chain <==> x != engine && x in g.ruled && Reaches(g, engine, x)
  }

  function Targets(edges: seq<Edge>): set<nat> {
    set i | 0 <= i < |edges| :: edges[i].dst
  }

  /** The worklist's invariant: what is visited is reachable, and what is off the worklist is expanded. */
  ghost predicate Explored(g: Graph, engine: nat, visited: set<nat>, frontier: seq<nat>, chain: seq<nat>) {
    && engine in visited
    && visited <= {engine} + Targets(g.edges)
    && (forall x | x in frontier :: x in visited)
    && (forall x | x in visited :: Reaches(g, engine, x))
    && NoDuplicates(chain)
    && (forall x :: x in chain <==> x in visited && x in g.ruled && x != engine)
  }

  ghost predicate Expanded(g: Graph, visited: set<nat>, x: nat, n: nat)
    requires n <= |g.edges|
  {
    forall i | 0 <= i < n && g.edges[i].src == x && Feeds(g, g.edges[i]) :: g.edges[i].dst in visited
  }

  /** Scans every edge out of `current`, recording what it newly finds. */
  method Expand(g: Graph, ghost engine: nat, current: nat, visited0: set<nat>, frontier0: seq<nat>, chain0: seq<nat>)
    returns (visited: set<nat>, frontier: seq<nat>, chain: seq<nat>)
    requires Explored(g, engine, visited0, frontier0, chain0) && current in visited0
    ensures Explored(g, engine, visited, frontier, chain)
    ensures visited0 <= visited && Expanded(g, visited, current, |g.edges|)
    ensures forall x | x in visited && x !in visited0 :: x in frontier
    ensures forall x | x in frontier0 :: x in frontier
    ensures visited == visited0 ==> |frontier| <= |frontier0|
  {
    visited, frontier, chain := visited0, frontier0, chain0;
    for n := 0 to |g.edges|
      invariant Explored(g, engine, visited, frontier, chain)
      invariant visited0 <= visited && Expanded(g, visited, current, n)
      invariant forall x | x in visited && x !in visited0 :: x in frontier
      invariant forall x | x in frontier0 :: x in frontier
      invariant visited == visited0 ==> frontier == frontier0
    {
      var e := g.edges[n];
      if e.src == current && e.dst !in visited && Feeds(g, e) {
        assert Linked(g, current, e.dst);
        ReachesOn(g, engine, current, e.dst);
        visited := visited + {e.dst};
        if e.dst in g.ruled {
          chain := chain + [e.dst];
        }
        frontier := frontier + [e.dst];
      }
    }
  }

  lemma ChainComplete(g: Graph, engine: nat, visited: set<nat>, chain: seq<nat>)
    requires Explored(g, engine, visited, [], chain)
    requires forall x | x in visited :: Expanded(g, visited, x, |g.edges|)
    ensures IsChain(g, engine, chain)
  {
    forall a, b | a in visited && Linked(g, a, b) ensures b in visited {
      assert Expanded(g, visited, a, |g.edges|);
      var i :| 0 <= i < |g.edges| && g.edges[i] == Edge(a, b);
    }
    forall x | Reaches(g, engine, x) ensures x in visited {
      var path :| IsPath(g, path) && path[0] == engine && path[|path| - 1] == x;
      ClosedHoldsPath(g, visited, path);
    }
  }

  method DeriveChain(g: Graph, engine: nat) returns (chain: seq<nat>)
    ensures IsChain(g, engine, chain)
  {
    chain := [];
    var visited: set<nat> := {engine};
    var frontier := [engine];
    ReachesSelf(g, engine);
    while frontier != []
      invariant Explored(g, engine, visited, frontier, chain)
      invariant forall x | x in visited && x !in frontier :: Expanded(g, visited, x, |g.edges|)
      decreases ({engine} + Targets(g.edges)) - visited, |frontier|
    {
      var current := frontier[|frontier| - 1];
      ghost var visited0, frontier0 := visited, frontier;
      frontier := frontier[..|frontier| - 1];
      assert forall x | x in frontier0 && x != current :: x in frontier;
      visited, frontier, chain := Expand(g, engine, current, visited, frontier, chain);
      forall x | x in visited && x !in frontier ensures Expanded(g, visited, x, |g.edges|) {
        if x != current {
          assert x in visited0 && x !in frontier0;
          assert Expanded(g, visited0, x, |g.edges|);
        }
      }
      if visited != visited0 {
        var x :| x in visited && x !in visited0;
        assert x in ({engine} + Targets(g.edges)) - visited0;
      }
    }
    ChainComplete(g, engine, visited, chain);
  }

  // ── One chain per track ────────────────────────────────────────────────────

  datatype TrackChain = TrackChain(engine: nat, chain: seq<nat>)

  /** Listed engines, and every rule-bearing source: audio out and no audio in. */
  function Engines(g: Graph, tagged: set<nat>): set<nat> {
    tagged + set n | n in g.ruled && n in g.audioOut && n !in g.audioIn
  }

  /** The engines of the first pass: declared generators, in declaration order, skipping id 0. */
  function Declared(genOrder: seq<nat>, engines: set<nat>): seq<nat> {
    if genOrder == [] then []
    else
      var e := genOrder[|genOrder| - 1];
      Declared(genOrder[..|genOrder| - 1], engines) + if e != 0 && e in engines then [e] else []
  }

  /** The engines of the second pass: those with no declaration, in id order. */
  function Standalone(ids: seq<nat>, genOrder: seq<nat>): seq<nat> {
    if ids == [] then []
    else
      var e := ids[|ids| - 1];
      Standalone(ids[..|ids| - 1], genOrder) + if e !in genOrder then [e] else []
  }

  function ChainEngines(chains: seq<TrackChain>): seq<nat> {
    seq(|chains|, i requires 0 <= i < |chains| => chains[i].engine)
  }

  ghost predicate AllChains(g: Graph, chains: seq<TrackChain>) {
    forall i | 0 <= i < |chains| :: IsChain(g, chains[i].engine, chains[i].chain)
  }

  /** `ids` lists the engine set in increasing order. */
  ghost predicate Lists(ids: seq<nat>, engines: set<nat>) {
    (forall x :: x in ids <==> x in engines) && forall i, j | 0 <= i < j < |ids| :: ids[i] < ids[j]
  }

  function Count(s: seq<nat>, x: nat): nat {
    if s == [] then 0 else Count(s[..|s| - 1], x) + if s[|s| - 1] == x then 1 else 0
  }

  lemma {:induction false} CountMember(s: seq<nat>, x: nat)
    ensures Count(s, x) > 0 <==> x in s
  {
    if s == [] {
    } else {
      CountMember(s[..|s| - 1], x);
    }
  }

  lemma {:induction false} CountJoin(a: seq<nat>, b: seq<nat>, x: nat)
    ensures Count(a + b, x) == Count(a, x) + Count(b, x)
  {
    if b == [] {
      assert a + b == a;
    } else {
      CountJoin(a, b[..|b| - 1], x);
      assert (a + b)[..|a + b| - 1] == a + b[..|b| - 1];
    }
  }

  lemma {:induction false} CountDeclared(genOrder: seq<nat>, engines: set<nat>, x: nat)
    ensures Count(Declared(genOrder, engines), x) == if x != 0 && x in engines then Count(genOrder, x) else 0
  {
    if genOrder == [] {
    } else {
      var front, e := genOrder[..|genOrder| - 1], genOrder[|genOrder| - 1];
      CountDeclared(front, engines, x);
      CountJoin(Declared(front, engines), if e != 0 && e in engines then [e] else [], x);
      assert [e][..0] == [];
    }
  }

  lemma {:induction false} CountStandalone(ids: seq<nat>, genOrder: seq<nat>, x: nat)
    ensures Count(Standalone(ids, genOrder), x) == if x !in genOrder then Count(ids, x) else 0
  {
    if ids == [] {
    } else {
      var front, e := ids[..|ids| - 1], ids[|ids| - 1];
      CountStandalone(front, genOrder, x);
      CountJoin(Standalone(front, genOrder), if e !in genOrder then [e] else [], x);
      assert [e][..0] == [];
    }
  }

  lemma {:induction false} CountIncreasing(s: seq<nat>, x: nat)
    requires forall i, j | 0 <= i < j < |s| :: s[i] < s[j]
    ensures Count(s, x) == if x in s then 1 else 0
  {
    if s == [] {
    } else {
      var front := s[..|s| - 1];
      CountIncreasing(front, x);
      assert x == s[|s| - 1] ==> x !in front;
    }
  }

  function ChainCount(genOrder: seq<nat>, engines: set<nat>, x: nat): nat {
    if x !in engines then 0 else if x !in genOrder then 1 else if x == 0 then 0 else Count(genOrder, x)
  }

  /**
    * An engine gets one chain per declaration, or one if undeclared; and none at all if it is node 0 and
    * declared, because the first pass skips id 0 and the second skips whatever is declared.
    */
  lemma ChainsPerEngine(genOrder: seq<nat>, engines: set<nat>, ids: seq<nat>, x: nat)
    requires Lists(ids, engines)
    ensures Count(Declared(genOrder, engines) + Standalone(ids, genOrder), x) == ChainCount(genOrder, engines, x)
  {
    CountJoin(Declared(genOrder, engines), Standalone(ids, genOrder), x);
    CountDeclared(genOrder, engines, x);
    CountStandalone(ids, genOrder, x);
    CountMember(genOrder, x);
    CountIncreasing(ids, x);
  }

  method BuildChains(g: Graph, tagged: set<nat>, genOrder: seq<nat>, ids: seq<nat>) returns (chains: seq<TrackChain>)
    requires Lists(ids, Engines(g, tagged))
    ensures AllChains(g, chains)
    ensures ChainEngines(chains) == Declared(genOrder, Engines(g, tagged)) + Standalone(ids, genOrder)
    ensures forall x :: x in ChainEngines(chains) <==>
      (x in tagged || (x in g.ruled && x in g.audioOut && x !in g.audioIn)) && !(x == 0 && 0 in genOrder)
  {
    var engines := Engines(g, tagged);
    chains := [];
    for n := 0 to |genOrder|
      invariant AllChains(g, chains) && ChainEngines(chains) == Declared(genOrder[..n], engines)
    {
      var e := genOrder[n];
      assert genOrder[..n + 1][..n] == genOrder[..n];
      if e == 0 || e !in engines {
        continue;
      }
      var chain := DeriveChain(g, e);
      ghost var before := chains;
      chains := chains + [TrackChain(e, chain)];
      assert ChainEngines(chains) == ChainEngines(before) + [e];
    }
    assert genOrder[..|genOrder|] == genOrder;
    ghost var head := chains;
    for n := 0 to |ids|
      invariant AllChains(g, chains) && ChainEngines(chains) == ChainEngines(head) + Standalone(ids[..n], genOrder)
    {
      var e := ids[n];
      assert ids[..n + 1][..n] == ids[..n];
      if e in genOrder {
        continue;
      }
      var chain := DeriveChain(g, e);
      ghost var before := chains;
      chains := chains + [TrackChain(e, chain)];
      assert ChainEngines(chains) == ChainEngines(before) + [e];
    }
    assert ids[..|ids|] == ids;
    forall x ensures x in ChainEngines(chains) <==> x in engines && !(x == 0 && 0 in genOrder) {
      CountMember(ChainEngines(chains), x);
      ChainsPerEngine(genOrder, engines, ids, x);
      CountMember(genOrder, x);
    }
  }

  // ── How many chains an engine gets ─────────────────────────────────────────

  /** An engine other than node 0 stands in the order twice. */
  ghost predicate DeclaredTwice(genOrder: seq<nat>, engines: set<nat>) {
    exists i, j | 0 <= i < j < |genOrder| :: genOrder[i] == genOrder[j] && genOrder[j] != 0 && genOrder[j] in engines
  }

  lemma {:induction false} PairCounts(s: seq<nat>, i: nat, j: nat)
    requires i < j < |s| && s[i] == s[j]
    ensures Count(s, s[j]) >= 2
    decreases |s|
  {
    var front := s[..|s| - 1];
    if j == |s| - 1 {
      assert front[i] == s[j];
      CountMember(front, s[j]);
    } else {
      PairCounts(front, i, j);
    }
  }

  lemma {:induction false} CountedPair(s: seq<nat>, x: nat) returns (i: nat, j: nat)
    requires Count(s, x) >= 2
    ensures i < j < |s| && s[i] == s[j] == x
    decreases |s|
  {
    var front := s[..|s| - 1];
    if Count(front, x) >= 2 {
      i, j := CountedPair(front, x);
    } else {
      CountMember(front, x);
      i, j :| 0 <= i < |front| && front[i] == x && j == |s| - 1;
    }
  }

  /**
    * For any declaration order, every engine gets exactly one chain if and only if node 0 is not a
    * declared engine and no other engine is declared twice.
    */
  lemma OneChainEach(genOrder: seq<nat>, engines: set<nat>, ids: seq<nat>)
    requires Lists(ids, engines)
    ensures (forall x | x in engines :: Count(Declared(genOrder, engines) + Standalone(ids, genOrder), x) == 1)
      <==> !(0 in engines && 0 in genOrder) && !DeclaredTwice(genOrder, engines)
  {
    var chains := Declared(genOrder, engines) + Standalone(ids, genOrder);
    forall x: nat ensures Count(chains, x) == ChainCount(genOrder, engines, x) { ChainsPerEngine(genOrder, engines,
      ids, x); }
    if DeclaredTwice(genOrder, engines) {
      var i, j :| 0 <= i < j < |genOrder| && genOrder[i] == genOrder[j] && genOrder[j] != 0 && genOrder[j] in engines;
      PairCounts(genOrder, i, j);
      assert Count(chains, genOrder[j]) >= 2;
    } else if 0 in engines && 0 in genOrder {
      assert Count(chains, 0) == 0;
    } else {
      forall x | x in engines ensures Count(chains, x) == 1 {
        if x in genOrder {
          CountMember(genOrder, x);
          if Count(genOrder, x) >= 2 {
            var i, j := CountedPair(genOrder, x);
            assert DeclaredTwice(genOrder, engines);
          }
        }
      }
    }
  }

  // ── The order of the tracks ────────────────────────────────────────────────

  /** Declared engines stand in declaration order, each where its declaration stands. */
  lemma {:induction false} DeclaredInOrder(a: seq<nat>, b: seq<nat>, e: nat, engines: set<nat>)
    ensures Declared(a + b, engines) == Declared(a, engines) + Declared(b, engines)
    ensures Declared([e], engines) == if e in engines && e != 0 then [e] else []
    decreases |b|
  {
    assert [e][..0] == [];
    if b == [] {
      assert a + b == a;
    } else {
      DeclaredInOrder(a, b[..|b| - 1], e, engines);
      assert (a + b)[..|a + b| - 1] == a + b[..|b| - 1];
    }
  }

  /** The others stand in the order of their ids. */
  lemma {:induction false} StandaloneInOrder(a: seq<nat>, b: seq<nat>, e: nat, genOrder: seq<nat>)
    ensures Standalone(a + b, genOrder) == Standalone(a, genOrder) + Standalone(b, genOrder)
    ensures Standalone([e], genOrder) == if e in genOrder then [] else [e]
    decreases |b|
  {
    assert [e][..0] == [];
    if b == [] {
      assert a + b == a;
    } else {
      StandaloneInOrder(a, b[..|b| - 1], e, genOrder);
      assert (a + b)[..|a + b| - 1] == a + b[..|b| - 1];
    }
  }
}
