/**
 The spawn graph of agent threads: an edge table where upserting an edge replaces the child's old parent,
 and the breadth-first walk over the descendants along edges of one status. The walk is the recursive
 query as PostgreSQL runs it: a working table, joined with the edges until it is empty.
 */
module SpawnGraph {
  import opened Options

  type Node = nat

  datatype Edge = Edge(parent: Node, child: Node, status: string)

  datatype GraphError = InvalidStatus

  predicate ValidStatus(s: string) { s == "open" || s == "closed" }

  /** No child has two rows, so none has two parents. */
  ghost predicate OneParent(edges: seq<Edge>) {
    forall i, j | 0 <= i < j < |edges| :: edges[i].child != edges[j].child
  }

  // ---------------------------------------------------------------- parents and ancestors

  function ParentOf(edges: seq<Edge>, y: Node): Option<Node> {
    if edges == [] then None
    else if edges[0].child == y then Some(edges[0].parent)
    else ParentOf(edges[1..], y)
  }

  lemma {:induction false} ParentIsEdge(edges: seq<Edge>, y: Node)
    requires OneParent(edges)
    ensures forall i | 0 <= i < |edges| && edges[i].child == y :: ParentOf(edges, y) == Some(edges[i].parent)
    ensures ParentOf(edges, y).Some? ==> exists i :: 0 <= i < |edges| && edges[i].child == y && edges[i].parent == ParentOf(edges, y).value
  {
    if edges != [] {
      ParentIsEdge(edges[1..], y);
      assert forall i | 1 <= i < |edges| :: edges[i] == edges[1..][i - 1];
      if ParentOf(edges[1..], y).Some? {
        var i :| 0 <= i < |edges[1..]| && edges[1..][i].child == y && edges[1..][i].parent == ParentOf(edges[1..], y).value;
        assert edges[i + 1].child == y;
      }
    }
  }

  /** The ancestor `n` edges above `y`. */
  function Climb(edges: seq<Edge>, y: Node, n: nat): Option<Node>
    decreases n
  {
    if n == 0 then Some(y)
    else match ParentOf(edges, y)
         case None => None
         case Some(q) => Climb(edges, q, n - 1)
  }

  /** The same with a path of edges from `x` down to `y`. */
  ghost predicate IsPath(edges: seq<Edge>, path: seq<Node>, x: Node, y: Node) {
    && path != [] && path[0] == x && path[|path| - 1] == y
    && forall k | 0 <= k < |path| - 1 :: HasEdge(edges, path[k], path[k + 1])
  }

  ghost predicate HasEdge(edges: seq<Edge>, p: Node, c: Node) {
    exists i :: 0 <= i < |edges| && edges[i].parent == p && edges[i].child == c
  }

  lemma {:induction false} ClimbGivesPath(edges: seq<Edge>, x: Node, y: Node, n: nat) returns (path: seq<Node>)
    requires OneParent(edges) && Climb(edges, y, n) == Some(x)
    ensures |path| == n + 1 && IsPath(edges, path, x, y)
    decreases n
  {
    if n == 0 {
      path := [x];
    } else {
      ParentIsEdge(edges, y);
      path := ClimbGivesPath(edges, x, ParentOf(edges, y).value, n - 1);
      path := path + [y];
    }
  }

  lemma {:induction false} PathGivesClimb(edges: seq<Edge>, path: seq<Node>, x: Node, y: Node)
    requires OneParent(edges) && IsPath(edges, path, x, y)
    ensures Climb(edges, y, |path| - 1) == Some(x)
    decreases |path|
  {
    if |path| > 1 {
      var last := |path| - 1;
      assert HasEdge(edges, path[last - 1], path[last - 1 + 1]);
      ParentIsEdge(edges, y);
      PathGivesClimb(edges, path[..last], x, path[last - 1]);
    }
  }

  /** `y` is `n` edges below `x` exactly when some path of `n` edges leads there. */
  lemma ClimbIffPath(edges: seq<Edge>, x: Node, y: Node, n: nat)
    requires OneParent(edges)
    ensures Climb(edges, y, n) == Some(x) <==> exists path :: |path| == n + 1 && IsPath(edges, path, x, y)
  {
    if Climb(edges, y, n) == Some(x) {
      var path := ClimbGivesPath(edges, x, y, n);
    }
    if path :| |path| == n + 1 && IsPath(edges, path, x, y) {
      PathGivesClimb(edges, path, x, y);
    }
  }

  lemma {:induction false} ClimbSplit(edges: seq<Edge>, y: Node, m: nat, n: nat)
    ensures Climb(edges, y, m + n) == match Climb(edges, y, m) case None => None case Some(q) => Climb(edges, q, n)
    decreases m
  {
    if m > 0 && ParentOf(edges, y).Some? {
      ClimbSplit(edges, ParentOf(edges, y).value, m - 1, n);
    }
  }

  ghost predicate Below(edges: seq<Edge>, x: Node, y: Node) {
    exists n: nat :: n >= 1 && Climb(edges, y, n) == Some(x)
  }

  ghost predicate Acyclic(edges: seq<Edge>) {
    forall y :: !Below(edges, y, y)
  }

  // ---------------------------------------------------------------- upsert

  function Without(edges: seq<Edge>, parent: Node, child: Node): seq<Edge> {
    if edges == [] then []
    else if edges[0].child == child && edges[0].parent != parent then Without(edges[1..], parent, child)
    else [edges[0]] + Without(edges[1..], parent, child)
  }

  /** INSERT ... ON CONFLICT (parent, child) DO UPDATE SET status. */
  function Put(edges: seq<Edge>, e: Edge): seq<Edge> {
    if edges == [] then [e]
    else if edges[0].parent == e.parent && edges[0].child == e.child then [e] + edges[1..]
    else [edges[0]] + Put(edges[1..], e)
  }

  function Upserted(edges: seq<Edge>, e: Edge): seq<Edge> {
    Put(Without(edges, e.parent, e.child), e)
  }

  lemma {:induction false} WithoutKeeps(edges: seq<Edge>, parent: Node, child: Node)
    requires OneParent(edges)
    ensures
      var r := Without(edges, parent, child);
      && OneParent(r)
      && (forall x :: x in r <==> x in edges && (x.child != child || x.parent == parent))
      && forall y | y != child :: ParentOf(r, y) == ParentOf(edges, y)
  {
    if edges != [] {
      WithoutKeeps(edges[1..], parent, child);
      assert forall i | 1 <= i < |edges| :: edges[i] == edges[1..][i - 1];
      assert edges == [edges[0]] + edges[1..];
      var r := Without(edges[1..], parent, child);
      forall i | 0 <= i < |r| ensures r[i].child != edges[0].child {
        assert r[i] in r && r[i] in edges[1..];
      }
    }
  }

  lemma {:induction false} PutKeeps(edges: seq<Edge>, e: Edge)
    requires OneParent(edges) && forall x | x in edges && x.child == e.child :: x.parent == e.parent
    ensures
      var r := Put(edges, e);
      && OneParent(r)
      && (forall x :: x in r <==> x == e || (x in edges && x.child != e.child))
  {
    if edges != [] {
      assert edges == [edges[0]] + edges[1..];
      forall i | 0 <= i < |edges[1..]| ensures edges[1..][i].child != edges[0].child {
        assert edges[1..][i] == edges[i + 1];
      }
      if edges[0].parent == e.parent && edges[0].child == e.child {
        assert Put(edges, e)[1..] == edges[1..];
      } else {
        assert edges[0] in edges;
        PutKeeps(edges[1..], e);
        var r := Put(edges[1..], e);
        assert Put(edges, e)[1..] == r;
        forall i | 0 <= i < |r| ensures r[i].child != edges[0].child {
          assert r[i] in r;
        }
      }
    }
  }

  lemma {:induction false} PutParents(edges: seq<Edge>, e: Edge)
    requires forall x | x in edges && x.child == e.child :: x.parent == e.parent
    ensures ParentOf(Put(edges, e), e.child) == Some(e.parent)
    ensures forall y | y != e.child :: ParentOf(Put(edges, e), y) == ParentOf(edges, y)
  {
    if edges != [] {
      assert edges[0] in edges;
      if edges[0].parent == e.parent && edges[0].child == e.child {
        assert Put(edges, e)[1..] == edges[1..];
      } else {
        PutParents(edges[1..], e);
        assert Put(edges, e)[1..] == Put(edges[1..], e);
      }
    }
  }

  /**
   One upsert: the child gets exactly the new edge, every other edge stays, and so every sequence of
   upserts keeps at most one parent per child.
   */
  lemma UpsertIs(edges: seq<Edge>, e: Edge)
    requires OneParent(edges)
    ensures
      var r := Upserted(edges, e);
      && OneParent(r)
      && (forall x :: x in r <==> x == e || (x in edges && x.child != e.child))
      && ParentOf(r, e.child) == Some(e.parent)
      && forall y | y != e.child :: ParentOf(r, y) == ParentOf(edges, y)
  {
    WithoutKeeps(edges, e.parent, e.child);
    PutKeeps(Without(edges, e.parent, e.child), e);
    PutParents(Without(edges, e.parent, e.child), e);
  }

  /** Two tables whose parents agree except at `c` agree on whether a node has `c` above it. */
  lemma {:induction false} SameUpToC(edges: seq<Edge>, edges': seq<Edge>, c: Node, y: Node, n: nat)
    requires forall z | z != c :: ParentOf(edges', z) == ParentOf(edges, z)
    requires Climb(edges, y, n) == Some(c)
    ensures exists j: nat :: j <= n && Climb(edges', y, j) == Some(c)
    decreases n
  {
    if y == c {
      assert Climb(edges', y, 0) == Some(c);
    } else {
      var q := ParentOf(edges, y).value;
      SameUpToC(edges, edges', c, q, n - 1);
      var j: nat :| j <= n - 1 && Climb(edges', q, j) == Some(c);
      assert Climb(edges', y, j + 1) == Some(c);
    }
  }

  /** A climb in the new table is one in the old, or passes the changed child on the way. */
  lemma {:induction false} OldOrThroughC(edges: seq<Edge>, edges': seq<Edge>, c: Node, y: Node, n: nat)
    requires forall z | z != c :: ParentOf(edges', z) == ParentOf(edges, z)
    requires Climb(edges', y, n).Some?
    ensures Climb(edges, y, n) == Climb(edges', y, n) || exists k: nat :: k < n && Climb(edges', y, k) == Some(c)
    decreases n
  {
    if n > 0 {
      if y == c {
        assert Climb(edges', y, 0) == Some(c);
      } else {
        var q := ParentOf(edges', y).value;
        OldOrThroughC(edges, edges', c, q, n - 1);
        if Climb(edges, q, n - 1) != Climb(edges', q, n - 1) {
          var k: nat :| k < n - 1 && Climb(edges', q, k) == Some(c);
          var m: nat := k + 1;
          assert m < n;
          assert Climb(edges', y, m) == Some(c);
          assert exists j: nat :: j < n && Climb(edges', y, j) == Some(c);
        } else {
          assert ParentOf(edges, y) == Some(q);
        }
      }
    }
  }

  /** Hanging `c` under `p` keeps the graph acyclic exactly when `p` is neither `c` nor below `c`. */
  lemma UpsertKeepsAcyclicIff(edges: seq<Edge>, e: Edge)
    requires OneParent(edges) && Acyclic(edges)
    ensures Acyclic(Upserted(edges, e)) <==> e.parent != e.child && !Below(edges, e.child, e.parent)
  {
    var p, c, edges' := e.parent, e.child, Upserted(edges, e);
    UpsertIs(edges, e);
    if p == c {
      assert Climb(edges', c, 1) == Climb(edges', p, 0) == Some(c);
      assert Below(edges', c, c);
    } else if Below(edges, c, p) {
      var n: nat :| n >= 1 && Climb(edges, p, n) == Some(c);
      SameUpToC(edges, edges', c, p, n);
      var j: nat :| j <= n && Climb(edges', p, j) == Some(c);
      assert Climb(edges', c, j + 1) == Some(c);
      assert Below(edges', c, c);
    } else {
      forall y: Node ensures !Below(edges', y, y) {
        if n: nat :| n >= 1 && Climb(edges', y, n) == Some(y) {
          NewCycleNeedsBelow(edges, e, y, n);
        }
      }
    }
  }

  /** A cycle after the upsert goes through the new edge, so the parent was the child or below it. */
  lemma NewCycleNeedsBelow(edges: seq<Edge>, e: Edge, y: Node, n: nat)
    requires OneParent(edges) && Acyclic(edges) && n >= 1 && Climb(Upserted(edges, e), y, n) == Some(y)
    ensures e.parent == e.child || Below(edges, e.child, e.parent)
  {
    var p, c, edges' := e.parent, e.child, Upserted(edges, e);
    UpsertIs(edges, e);
    assert !Below(edges, y, y);
    OldOrThroughC(edges, edges', c, y, n);
    var k: nat :| k < n && Climb(edges', y, k) == Some(c);
    CycleThrough(edges', y, c, k, n - k);
    assert Climb(edges', p, n - 1) == Some(c);
    SameUpToC(edges', edges, c, p, n - 1);
    var j: nat :| j <= n - 1 && Climb(edges, p, j) == Some(c);
  }

  /** A cycle can be entered at any of its nodes. */
  lemma CycleThrough(edges: seq<Edge>, y: Node, c: Node, k: nat, r: nat)
    requires Climb(edges, y, k + r) == Some(y) && Climb(edges, y, k) == Some(c)
    ensures Climb(edges, c, r + k) == Some(c)
  {
    ClimbSplit(edges, y, k, r);
    ClimbSplit(edges, c, r, k);
  }

  // ---------------------------------------------------------------- the walk

  predicate Matches(e: Edge, status: Option<string>) {
    status.None? || e.status == status.value
  }

  function Kept(edges: seq<Edge>, status: Option<string>): seq<Edge> {
    if edges == [] then []
    else (if Matches(edges[0], status) then [edges[0]] else []) + Kept(edges[1..], status)
  }

  lemma {:induction false} KeptIs(edges: seq<Edge>, status: Option<string>)
    requires OneParent(edges)
    ensures OneParent(Kept(edges, status))
    ensures forall x :: x in Kept(edges, status) <==> x in edges && Matches(x, status)
  {
    if edges != [] {
      forall i | 0 <= i < |edges[1..]| ensures edges[1..][i].child != edges[0].child {
        assert edges[1..][i] == edges[i + 1];
      }
      KeptIs(edges[1..], status);
      assert edges == [edges[0]] + edges[1..];
      var r := Kept(edges[1..], status);
      forall i | 0 <= i < |r| ensures r[i].child != edges[0].child {
        assert r[i] in r;
        var j :| 0 <= j < |edges[1..]| && edges[1..][j] == r[i];
      }
    }
  }

  /** The walk goes along every edge, or along those of one status. */
  lemma KeptByStatus(edges: seq<Edge>, x: Edge)
    requires OneParent(edges)
    ensures x in Kept(edges, None) <==> x in edges
    ensures forall status :: x in Kept(edges, Some(status)) <==> x in edges && x.status == status
  {
    KeptIs(edges, None);
    forall status ensures x in Kept(edges, Some(status)) <==> x in edges && x.status == status {
      KeptIs(edges, Some(status));
    }
  }

  /** With fewer edges a parent is either the same or gone. */
  lemma ParentKept(edges: seq<Edge>, status: Option<string>, y: Node)
    requires OneParent(edges)
    ensures OneParent(Kept(edges, status))
    ensures ParentOf(Kept(edges, status), y).Some? ==> ParentOf(Kept(edges, status), y) == ParentOf(edges, y)
  {
    KeptIs(edges, status);
    var k := Kept(edges, status);
    ParentIsEdge(k, y);
    ParentIsEdge(edges, y);
    if ParentOf(k, y).Some? {
      var i :| 0 <= i < |k| && k[i].child == y && k[i].parent == ParentOf(k, y).value;
      assert k[i] in k;
    }
  }

  /** Fewer edges, fewer ancestors. */
  lemma {:induction false} KeptClimb(edges: seq<Edge>, status: Option<string>, y: Node, n: nat)
    requires OneParent(edges)
    ensures Climb(Kept(edges, status), y, n).Some? ==> Climb(Kept(edges, status), y, n) == Climb(edges, y, n)
    decreases n
  {
    if n > 0 {
      ParentKept(edges, status, y);
      var p := ParentOf(Kept(edges, status), y);
      if p.Some? {
        KeptClimb(edges, status, p.value, n - 1);
      }
    }
  }

  /** One row of the edge table against the working table. */
  function JoinRow(e: Edge, work: seq<Node>): seq<Node> {
    if work == [] then []
    else (if work[0] == e.parent then [e.child] else []) + JoinRow(e, work[1..])
  }

  function Join(edges: seq<Edge>, work: seq<Node>): seq<Node> {
    if edges == [] then [] else JoinRow(edges[0], work) + Join(edges[1..], work)
  }

  ghost predicate NoDup(s: seq<Node>) {
    forall i, j | 0 <= i < j < |s| :: s[i] != s[j]
  }

  lemma {:induction false} JoinRowIs(e: Edge, work: seq<Node>)
    requires NoDup(work)
    ensures JoinRow(e, work) == if e.parent in work then [e.child] else []
  {
    if work != [] {
      assert forall i | 1 <= i < |work| :: work[i] == work[1..][i - 1];
      JoinRowIs(e, work[1..]);
      assert work == [work[0]] + work[1..];
    }
  }

  /** With one parent per child and no duplicates, the join gives each child of the working table once. */
  lemma {:induction false} JoinIs(edges: seq<Edge>, work: seq<Node>)
    requires OneParent(edges) && NoDup(work)
    ensures NoDup(Join(edges, work))
    ensures forall y :: y in Join(edges, work) <==> ParentOf(edges, y).Some? && ParentOf(edges, y).value in work
  {
    if edges != [] {
      forall i | 0 <= i < |edges[1..]| ensures edges[1..][i].child != edges[0].child {
        assert edges[1..][i] == edges[i + 1];
      }
      JoinRowIs(edges[0], work);
      JoinIs(edges[1..], work);
      var rest := Join(edges[1..], work);
      assert edges[0].child !in rest by {
        ParentIsEdge(edges[1..], edges[0].child);
      }
    }
  }

  function Insert(x: Node, s: seq<Node>): seq<Node> {
    if s == [] || x <= s[0] then [x] + s else [s[0]] + Insert(x, s[1..])
  }

  function Sort(s: seq<Node>): seq<Node> {
    if s == [] then [] else Insert(s[0], Sort(s[1..]))
  }

  ghost predicate Increasing(s: seq<Node>) {
    forall i, j | 0 <= i < j < |s| :: s[i] < s[j]
  }

  lemma {:induction false} InsertIs(x: Node, s: seq<Node>)
    requires Increasing(s) && x !in s
    ensures Increasing(Insert(x, s)) && |Insert(x, s)| == |s| + 1
    ensures forall y :: y in Insert(x, s) <==> y == x || y in s
  {
    if s != [] && x > s[0] {
      InsertIs(x, s[1..]);
      assert s == [s[0]] + s[1..];
      var r := Insert(x, s[1..]);
      forall i | 0 <= i < |r| ensures s[0] < r[i] { assert r[i] in r; }
    }
  }

  lemma {:induction false} SortIs(s: seq<Node>)
    requires NoDup(s)
    ensures Increasing(Sort(s)) && |Sort(s)| == |s|
    ensures forall y :: y in Sort(s) <==> y in s
  {
    if s != [] {
      assert forall i | 1 <= i < |s| :: s[i] == s[1..][i - 1];
      SortIs(s[1..]);
      InsertIs(s[0], Sort(s[1..]));
      assert s == [s[0]] + s[1..];
    }
  }

  /** A node at two depths below the root puts the root below itself. */
  lemma TwoDepthsMakeCycle(edges: seq<Edge>, root: Node, y: Node, m: nat, n: nat)
    requires Climb(edges, y, m) == Some(root) && Climb(edges, y, n) == Some(root) && m < n
    ensures Below(edges, root, root)
  {
    ClimbSplit(edges, y, m, n - m);
    assert Climb(edges, root, n - m) == Some(root);
  }

  lemma OneDepth(edges: seq<Edge>, root: Node, y: Node, m: nat, n: nat)
    requires !Below(edges, root, root)
    requires Climb(edges, y, m) == Some(root) && Climb(edges, y, n) == Some(root)
    ensures m == n
  {
    if m < n { TwoDepthsMakeCycle(edges, root, y, m, n); }
    if n < m { TwoDepthsMakeCycle(edges, root, y, n, m); }
  }

  function Children(edges: seq<Edge>): set<Node> {
    set i | 0 <= i < |edges| :: edges[i].child
  }

  lemma {:induction false} DistinctInSet(s: seq<Node>, a: set<Node>)
    requires NoDup(s) && forall y | y in s :: y in a
    ensures |s| <= |a|
  {
    if s != [] {
      assert forall i | 1 <= i < |s| :: s[i] == s[1..][i - 1];
      DistinctInSet(s[1..], a - {s[0]});
    }
  }

  /** The descendants so far: exactly the nodes at depths 1..d, each once, ordered by depth and then id. */
  ghost predicate Walked(edges: seq<Edge>, root: Node, d: nat, out: seq<Node>) {
    && NoDup(out)
    && (forall y :: y in out <==> exists n: nat :: 1 <= n <= d && Climb(edges, y, n) == Some(root))
    && (forall i, j, m: nat, n: nat | 0 <= i < j < |out| && Climb(edges, out[i], m) == Some(root) && Climb(edges, out[j], n) == Some(root) ::
          m < n || (m == n && out[i] < out[j]))
  }

  ghost predicate IsLevel(edges: seq<Edge>, root: Node, d: nat, work: seq<Node>) {
    NoDup(work) && forall y :: y in work <==> Climb(edges, y, d) == Some(root)
  }

  lemma NextLevel(edges: seq<Edge>, root: Node, d: nat, work: seq<Node>)
    requires OneParent(edges) && IsLevel(edges, root, d, work)
    ensures IsLevel(edges, root, d + 1, Join(edges, work))
  {
    JoinIs(edges, work);
  }

  lemma LevelIsWalked(edges: seq<Edge>, root: Node, d: nat, out: seq<Node>, work: seq<Node>)
    requires !Below(edges, root, root)
    requires Walked(edges, root, d, out) && IsLevel(edges, root, d + 1, work)
    ensures Walked(edges, root, d + 1, out + Sort(work))
  {
    SortIs(work);
    var level := Sort(work);
    forall y | y in out ensures y !in level {
      var n: nat :| 1 <= n <= d && Climb(edges, y, n) == Some(root);
      if y in level { OneDepth(edges, root, y, n, d + 1); }
    }
    AppendedNoDup(out, level);
    forall y: Node ensures y in out + level <==> exists n: nat :: 1 <= n <= d + 1 && Climb(edges, y, n) == Some(root) {
      MembersAfterLevel(edges, root, d, out, level, y);
    }
    forall i, j, m: nat, n: nat | 0 <= i < j < |out + level|
                                   && Climb(edges, (out + level)[i], m) == Some(root) && Climb(edges, (out + level)[j], n) == Some(root)
      ensures m < n || (m == n && (out + level)[i] < (out + level)[j])
    {
      DepthInWalk(edges, root, d, out, level, i, m);
      DepthInWalk(edges, root, d, out, level, j, n);
    }
  }

  lemma MembersAfterLevel(edges: seq<Edge>, root: Node, d: nat, out: seq<Node>, level: seq<Node>, y: Node)
    requires Walked(edges, root, d, out)
    requires y in level <==> Climb(edges, y, d + 1) == Some(root)
    ensures y in out + level ==> exists n: nat :: 1 <= n <= d + 1 && Climb(edges, y, n) == Some(root)
    ensures (exists n: nat :: 1 <= n <= d + 1 && Climb(edges, y, n) == Some(root)) ==> y in out + level
  {
  }

  lemma AppendedNoDup(a: seq<Node>, b: seq<Node>)
    requires NoDup(a) && Increasing(b) && forall y | y in a :: y !in b
    ensures NoDup(a + b)
  {
    assert forall i | 0 <= i < |a| :: a[i] in a;
    assert forall i | 0 <= i < |b| :: b[i] in b;
  }

  /** The depth of a listed node says on which side of the seam it stands. */
  lemma DepthInWalk(edges: seq<Edge>, root: Node, d: nat, out: seq<Node>, level: seq<Node>, i: nat, m: nat)
    requires !Below(edges, root, root) && Walked(edges, root, d, out)
    requires forall y | y in level :: Climb(edges, y, d + 1) == Some(root)
    requires i < |out + level| && Climb(edges, (out + level)[i], m) == Some(root)
    ensures if i < |out| then m <= d else m == d + 1
  {
    var y := (out + level)[i];
    if i < |out| {
      assert y in out;
      var k: nat :| 1 <= k <= d && Climb(edges, y, k) == Some(root);
      OneDepth(edges, root, y, m, k);
    } else {
      assert y in level;
      OneDepth(edges, root, y, m, d + 1);
    }
  }

  /** What lies at some depth passes every smaller depth, so an empty level stays empty. */
  lemma EveryDepthIsPassed(edges: seq<Edge>, root: Node, d: nat, y: Node, n: nat)
    requires Climb(edges, y, n) == Some(root) && n >= d
    ensures exists z :: Climb(edges, z, d) == Some(root)
  {
    ClimbSplit(edges, y, n - d, d);
    assert Climb(edges, Climb(edges, y, n - d).value, d) == Some(root);
  }

  class GraphStore {
    var edges: seq<Edge>

    ghost predicate Valid() reads this { OneParent(edges) }

    constructor ()
      ensures Valid() && edges == []
    {
      edges := [];
    }

    method UpsertThreadSpawnEdge(parent: Node, child: Node, status: string) returns (r: Result<(), GraphError>)
      requires Valid()
      modifies this
      ensures Valid()
      ensures r == if status == "open" || status == "closed" then Ok(()) else Err(InvalidStatus)
      ensures edges == if r.Ok? then Upserted(old(edges), Edge(parent, child, status)) else old(edges)
    {
      if !ValidStatus(status) {
        return Err(InvalidStatus);
      }
      UpsertIs(edges, Edge(parent, child, status));
      edges := Put(Without(edges, parent, child), Edge(parent, child, status));
      return Ok(());
    }

    /** Changes the status of the child's edge, if it has one; parents stay. */
    method SetThreadSpawnEdgeStatus(child: Node, status: string) returns (r: Result<(), GraphError>)
      requires Valid()
      modifies this
      ensures Valid()
      ensures r == if status == "open" || status == "closed" then Ok(()) else Err(InvalidStatus)
      ensures |edges| == |old(edges)|
      ensures forall i | 0 <= i < |edges| ::
        edges[i] == if r.Ok? && old(edges)[i].child == child then old(edges)[i].(status := status) else old(edges)[i]
    {
      if !ValidStatus(status) {
        return Err(InvalidStatus);
      }
      ghost var was := edges;
      for k := 0 to |edges|
        invariant |edges| == |was|
        invariant forall i | 0 <= i < |was| ::
          edges[i] == if i < k && was[i].child == child then was[i].(status := status) else was[i]
      {
        if edges[k].child == child {
          edges := edges[k := edges[k].(status := status)];
        }
      }
      return Ok(());
    }

    /**
     The recursive query. On a root that is not its own descendant it ends with exactly the nodes reached
     along edges of the status, each once, ordered by depth and then id.
     */
    method ListThreadSpawnDescendants(root: Node, status: Option<string>) returns (out: seq<Node>)
      requires Valid()
      requires !Below(Kept(edges, status), root, root)
      ensures NoDup(out)
      ensures forall y :: y in out <==> Below(Kept(edges, status), root, y)
      ensures forall i, j, m: nat, n: nat | 0 <= i < j < |out|
                && Climb(Kept(edges, status), out[i], m) == Some(root) && Climb(Kept(edges, status), out[j], n) == Some(root) ::
                m < n || (m == n && out[i] < out[j])
    {
      var rows := Kept(edges, status);
      KeptIs(edges, status);
      out := [];
      ghost var d := 0;
      assert IsLevel(rows, root, 0, [root]);
      NextLevel(rows, root, 0, [root]);
      var work := Join(rows, [root]);
      while work != []
        invariant Walked(rows, root, d, out) && IsLevel(rows, root, d + 1, work)
        invariant |out| <= |Children(rows)|
        decreases |Children(rows)| - |out|
      {
        LevelIsWalked(rows, root, d, out, work);
        NextLevel(rows, root, d + 1, work);
        SortIs(work);
        out := out + Sort(work);
        work := Join(rows, work);
        d := d + 1;
        WalkedAreChildren(rows, root, d, out);
      }
      forall y ensures y in out <==> Below(rows, root, y) {
        if n: nat :| n >= 1 && Climb(rows, y, n) == Some(root) {
          if n > d { EveryDepthIsPassed(rows, root, d + 1, y, n); }
        }
      }
    }
  }

  lemma WalkedAreChildren(edges: seq<Edge>, root: Node, d: nat, out: seq<Node>)
    requires OneParent(edges) && Walked(edges, root, d, out)
    ensures |out| <= |Children(edges)|
  {
    forall y | y in out ensures y in Children(edges) {
      var n: nat :| 1 <= n <= d && Climb(edges, y, n) == Some(root);
      ParentIsEdge(edges, y);
    }
    DistinctInSet(out, Children(edges));
  }

  // ---------------------------------------------------------------- when the walk ends

  /** The working table after `n` rounds. */
  function Level(edges: seq<Edge>, root: Node, n: nat): seq<Node> {
    if n == 0 then [root] else Join(edges, Level(edges, root, n - 1))
  }

  lemma {:induction false} LevelIs(edges: seq<Edge>, root: Node, n: nat)
    requires OneParent(edges)
    ensures IsLevel(edges, root, n, Level(edges, root, n))
  {
    if n > 0 {
      LevelIs(edges, root, n - 1);
      NextLevel(edges, root, n - 1, Level(edges, root, n - 1));
    }
  }

  lemma {:induction false} RoundTheCycle(edges: seq<Edge>, root: Node, k: nat, times: nat)
    requires Climb(edges, root, k) == Some(root)
    ensures Climb(edges, root, times * k) == Some(root)
  {
    if times > 0 {
      RoundTheCycle(edges, root, k, times - 1);
      ClimbSplit(edges, root, k, (times - 1) * k);
      assert times * k == k + (times - 1) * k;
    }
  }

  /** The query ends exactly when the root is not its own descendant: otherwise no working table is empty. */
  lemma WalkEndsIff(edges: seq<Edge>, root: Node)
    requires OneParent(edges)
    ensures !Below(edges, root, root) <==> exists n: nat :: Level(edges, root, n) == []
  {
    if k: nat :| k >= 1 && Climb(edges, root, k) == Some(root) {
      forall n: nat ensures Level(edges, root, n) != [] {
        RoundTheCycle(edges, root, k, n);
        LevelIs(edges, root, n);
        assert n * k >= n;
        ClimbSplit(edges, root, n * k - n, n);
        assert Climb(edges, Climb(edges, root, n * k - n).value, n) == Some(root);
      }
    } else {
      SomeLevelIsEmpty(edges, root, 0, []);
    }
  }

  lemma {:induction false} SomeLevelIsEmpty(edges: seq<Edge>, root: Node, d: nat, out: seq<Node>)
    requires OneParent(edges) && !Below(edges, root, root) && Walked(edges, root, d, out)
    ensures exists n: nat :: Level(edges, root, n) == []
    decreases |Children(edges)| - |out|
  {
    var work := Level(edges, root, d + 1);
    if work != [] {
      LevelIs(edges, root, d + 1);
      LevelIsWalked(edges, root, d, out, work);
      SortIs(work);
      WalkedAreChildren(edges, root, d + 1, out + Sort(work));
      SomeLevelIsEmpty(edges, root, d + 1, out + Sort(work));
    }
  }

  /** On an acyclic graph the walk ends from every root and for every status. */
  lemma AcyclicWalkEnds(edges: seq<Edge>, root: Node, status: Option<string>)
    requires OneParent(edges) && Acyclic(edges)
    ensures !Below(Kept(edges, status), root, root)
  {
    if n: nat :| n >= 1 && Climb(Kept(edges, status), root, n) == Some(root) {
      KeptClimb(edges, status, root, n);
      assert Below(edges, root, root);
    }
  }
}
