/** The router: a tree of nodes for servlets and one for filters, against flat lists of routes. */
module Router {
  import opened Wrappers
  import opened StringUtils

  type Path = seq<string>
  type Servlet = nat
  type Filter = nat

  const ANY := "**"

  // ----- Paths -----

  function Child(p: Path, part: string): (q: Path)
    ensures q != [] && Parent(q) == p && Last(q) == part
  {
    p + [part]
  }

  function Parent(q: Path): Path
    requires q != []
  {
    q[..|q| - 1]
  }

  function Last(q: Path): string
    requires q != []
  {
    q[|q| - 1]
  }

  // ----- Trees of nodes -----

  class Node<T> {
    var children: map<string, Node<T>>
    var param: T

    constructor (blank: T)
      ensures children == map[] && param == blank
    {
      children, param := map[], blank;
    }
  }

  /** One tree. The router has the same insertion twice, for nodes with one servlet and for
      nodes with a list of filters; here the value at a node is a parameter. */
  class Tree<T> {
    const root: Node<T>
    const blank: T
    // The node at each path that has one.
    ghost var nodes: map<Path, Node<T>>

    ghost predicate Valid()
      reads this, nodes.Values
    {
      [] in nodes && nodes[[]] == root && Distinct() && Downward() && Upward()
    }

    ghost predicate Distinct()
      reads this
    {
      forall p, q :: p in nodes && q in nodes && nodes[p] == nodes[q] ==> p == q
    }

    // The children of a node are the nodes one part further on.
    ghost predicate Downward()
      reads this, nodes.Values
    {
      forall p, part :: p in nodes && part in nodes[p].children ==>
        Child(p, part) in nodes && nodes[p].children[part] == nodes[Child(p, part)]
    }

    // Every other node is a child.
    ghost predicate Upward()
      reads this, nodes.Values
    {
      forall q :: q in nodes && q != [] ==> Parent(q) in nodes && Last(q) in nodes[Parent(q)].children
    }

    ghost function Params(): map<Path, T>
      reads this, nodes.Values
    {
      map p | p in nodes :: nodes[p].param
    }

    constructor (b: T)
      ensures Valid() && blank == b && Params() == map[[] := b]
      ensures fresh(nodes.Values)
    {
      blank := b;
      var r := new Node(b);
      root := r;
      nodes := map[[] := r];
    }

    method AddChild(last: Node<T>, ghost path: Path, p: string)
      requires Valid() && path in nodes && last == nodes[path] && p !in last.children
      modifies this`nodes, last`children
      ensures Valid() && Child(path, p) in nodes
      ensures p in last.children && last.children[p] == nodes[Child(path, p)]
      ensures Child(path, p) !in old(nodes) && fresh(nodes[Child(path, p)]) && nodes[Child(path, p)].param == blank
      ensures nodes == old(nodes)[Child(path, p) := nodes[Child(path, p)]]
    {
      ghost var q := Child(path, p);
      assert q !in nodes;
      var node := new Node(blank);
      last.children := last.children[p := node];
      nodes := nodes[q := node];
      assert Distinct();
      assert Downward() by {
        forall p0, part | p0 in nodes && part in nodes[p0].children
          ensures Child(p0, part) in nodes && nodes[p0].children[part] == nodes[Child(p0, part)]
        {
          if p0 == path {
            assert part == p || part in old(last.children);
          } else {
            assert p0 != q && Parent(Child(p0, part)) == p0;
          }
        }
      }
      assert Upward();
    }

    twostate lemma OneMore(q: Path)
      requires q in nodes && q !in old(nodes) && nodes == old(nodes)[q := nodes[q]]
      requires nodes[q].param == blank && forall p :: p in old(nodes) ==> nodes[p].param == old(nodes[p].param)
      ensures Params() == old(Params())[q := blank]
      ensures nodes.Values <= old(nodes.Values) + {nodes[q]}
    {
    }

    /** The body of the loop that walks: one part further, making the node if need be. */
    method Step(last: Node<T>, ghost path: Path, p: string) returns (next: Node<T>)
      requires Valid() && path in nodes && last == nodes[path]
      modifies this`nodes, last`children
      ensures Valid() && Child(path, p) in nodes && next == nodes[Child(path, p)]
      ensures Params() == With(old(Params()), Child(path, p), blank)
      ensures fresh(nodes.Values - old(nodes.Values))
    {
      assert p in last.children <==> Child(path, p) in nodes by {
        if Child(path, p) in nodes { assert Last(Child(path, p)) == p; }
      }
      if p !in last.children {
        AddChild(last, path, p);
        OneMore(Child(path, p));
      }
      next := last.children[p];
    }

    /** Walks along the path, making the nodes that are missing. */
    method Reach(parts: Path) returns (last: Node<T>)
      requires Valid()
      modifies this`nodes, nodes.Values
      ensures Valid() && parts in nodes && last == nodes[parts]
      ensures Params() == Grown(old(Params()), parts, blank)
      ensures fresh(nodes.Values - old(nodes.Values))
    {
      last := root;
      for i := 0 to |parts|
        invariant Valid() && parts[..i] in nodes && last == nodes[parts[..i]]
        invariant Params() == Grown(old(Params()), parts[..i], blank)
        invariant fresh(nodes.Values - old(nodes.Values))
      {
        TakeOne(parts, i);
        last := Step(last, parts[..i], parts[i]);
      }
      assert parts[..|parts|] == parts;
    }

    method Assign(last: Node<T>, ghost path: Path, x: T)
      requires Valid() && path in nodes && last == nodes[path]
      modifies last`param
      ensures Valid() && Params() == old(Params())[path := x]
    {
      ghost var m := Params();
      last.param := x;
      NewParam(m, path, x);
    }

    lemma NewParam(m: map<Path, T>, path: Path, x: T)
      requires path in nodes && m.Keys == nodes.Keys
      requires forall p :: p in nodes ==> nodes[p].param == if p == path then x else m[p]
      ensures Params() == m[path := x]
    {
    }

    /** The child for one part, if there is one. */
    method Descend(last: Node<T>, ghost path: Path, part: string) returns (next: Option<Node<T>>)
      requires Valid() && path in nodes && last == nodes[path]
      ensures next.Some? <==> Child(path, part) in Params()
      ensures next.Some? ==> Child(path, part) in nodes && next.value == nodes[Child(path, part)]
      ensures next.Some? ==> next.value.param == Params()[Child(path, part)]
    {
      if part in last.children {
        return Some(last.children[part]);
      }
      assert Child(path, part) !in nodes by {
        assert Last(Child(path, part)) == part && Parent(Child(path, part)) == path;
      }
      return None;
    }
  }

  lemma TakeOne(parts: Path, i: nat)
    requires i < |parts|
    ensures parts[..i + 1] == Child(parts[..i], parts[i])
  {
  }

  function With<T>(m: map<Path, T>, p: Path, x: T): map<Path, T> {
    if p in m then m else m[p := x]
  }

  function Grown<T>(m: map<Path, T>, parts: Path, blank: T): map<Path, T>
    decreases |parts|
  {
    if parts == [] then m
    else With(Grown(m, Parent(parts), blank), parts, blank)
  }

  /** The path and those on the way to it, and nothing else, are added. */
  lemma {:induction false} GrownIs<T>(m: map<Path, T>, parts: Path, blank: T, p: Path)
    requires [] in m
    ensures p in Grown(m, parts, blank) <==> p in m || p <= parts
    ensures p in Grown(m, parts, blank) ==> Grown(m, parts, blank)[p] == if p in m then m[p] else blank
    decreases |parts|
  {
    if parts != [] {
      GrownIs(m, Parent(parts), blank, p);
      assert p <= parts <==> p == parts || p <= Parent(parts) by {
        if p <= parts && p != parts { assert p == Parent(parts)[..|p|]; }
      }
    }
  }

  // ----- Flat lists of routes -----

  datatype Route<T> = Route(path: Path, handler: T)

  /** Some route passes through `p`. */
  predicate Known<T>(routes: seq<Route<T>>, p: Path) {
    p == [] || exists k :: 0 <= k < |routes| && p <= routes[k].path
  }

  /** The handler added last at exactly `p`. */
  function LastAt<T>(routes: seq<Route<T>>, p: Path): Option<T> {
    if routes == [] then None
    else if routes[|routes| - 1].path == p then Some(routes[|routes| - 1].handler)
    else LastAt(routes[..|routes| - 1], p)
  }

  /** All handlers at exactly `p`, in the order in which they were added. */
  function AllAt<T>(routes: seq<Route<T>>, p: Path): seq<T> {
    if routes == [] then []
    else AllAt(routes[..|routes| - 1], p) + (if routes[|routes| - 1].path == p then [routes[|routes| - 1].handler] else [])
  }

  lemma UnknownHasNone<T>(routes: seq<Route<T>>, p: Path)
    requires !Known(routes, p)
    ensures LastAt(routes, p) == None && AllAt(routes, p) == []
  {
    if routes != [] {
      var init := routes[..|routes| - 1];
      assert !Known(init, p) by {
        assert forall k :: 0 <= k < |init| ==> init[k] == routes[k];
      }
      UnknownHasNone(init, p);
      assert !(p <= routes[|routes| - 1].path);
    }
  }

  lemma KnownMore<T>(routes: seq<Route<T>>, r: Route<T>, p: Path)
    ensures Known(routes + [r], p) <==> Known(routes, p) || p <= r.path
    ensures LastAt(routes + [r], p) == if r.path == p then Some(r.handler) else LastAt(routes, p)
    ensures AllAt(routes + [r], p) == AllAt(routes, p) + (if r.path == p then [r.handler] else [])
  {
    var all := routes + [r];
    assert all[..|routes|] == routes && all[|routes|] == r;
    if Known(routes, p) && p != [] {
      var k :| 0 <= k < |routes| && p <= routes[k].path;
      assert all[k] == routes[k];
    }
  }

  ghost predicate ServletsAgree(m: map<Path, Option<Servlet>>, routes: seq<Route<Servlet>>) {
    forall p: Path :: ServletAgrees(m, routes, p)
  }

  predicate ServletAgrees(m: map<Path, Option<Servlet>>, routes: seq<Route<Servlet>>, p: Path) {
    (p in m <==> Known(routes, p)) && (p in m ==> m[p] == LastAt(routes, p))
  }

  ghost predicate FiltersAgree(m: map<Path, seq<Filter>>, routes: seq<Route<Filter>>) {
    forall p: Path :: FilterAgrees(m, routes, p)
  }

  predicate FilterAgrees(m: map<Path, seq<Filter>>, routes: seq<Route<Filter>>, p: Path) {
    (p in m <==> Known(routes, p)) && (p in m ==> m[p] == AllAt(routes, p))
  }

  function WithServlet(m: map<Path, Option<Servlet>>, path: Path, servlet: Servlet): map<Path, Option<Servlet>> {
    Grown(m, path, None)[path := Some(servlet)]
  }

  function WithFilter(m: map<Path, seq<Filter>>, path: Path, filter: Filter): map<Path, seq<Filter>>
    requires [] in m
  {
    GrownIs(m, path, [], path);
    Grown(m, path, [])[path := Grown(m, path, [])[path] + [filter]]
  }

  /** Inserting a servlet in the tree is adding a route to the list. */
  lemma ServletInserted(m: map<Path, Option<Servlet>>, routes: seq<Route<Servlet>>, r: Route<Servlet>)
    requires [] in m && ServletsAgree(m, routes)
    ensures ServletsAgree(WithServlet(m, r.path, r.handler), routes + [r])
  {
    forall p: Path
      ensures ServletAgrees(WithServlet(m, r.path, r.handler), routes + [r], p)
    {
      assert ServletAgrees(m, routes, p);
      GrownIs(m, r.path, None, p);
      KnownMore(routes, r, p);
      if !Known(routes, p) { UnknownHasNone(routes, p); }
    }
  }

  lemma FilterInserted(m: map<Path, seq<Filter>>, routes: seq<Route<Filter>>, r: Route<Filter>)
    requires [] in m && FiltersAgree(m, routes)
    ensures FiltersAgree(WithFilter(m, r.path, r.handler), routes + [r])
  {
    forall p: Path
      ensures FilterAgrees(WithFilter(m, r.path, r.handler), routes + [r], p)
    {
      assert FilterAgrees(m, routes, p);
      GrownIs(m, r.path, [], p);
      KnownMore(routes, r, p);
      if !Known(routes, p) { UnknownHasNone(routes, p); }
    }
  }

  lemma NoRoutesAgree()
    ensures ServletsAgree(map[[] := None], []) && FiltersAgree(map[[] := []], [])
  {
  }

  // ----- What a request matches -----

  lemma KnownPrefix<T>(routes: seq<Route<T>>, p: Path, k: nat)
    requires Known(routes, p) && k <= |p|
    ensures Known(routes, p[..k])
  {
    if p != [] {
      var i :| 0 <= i < |routes| && p <= routes[i].path;
      assert p[..k] <= routes[i].path;
    }
  }

  lemma KnownAbove<T>(routes: seq<Route<T>>, parts: Path, d: nat, e: nat)
    requires e <= d <= |parts| && Known(routes, parts[..d])
    ensures Known(routes, parts[..e])
  {
    KnownPrefix(routes, parts[..d], e);
    assert parts[..d][..e] == parts[..e];
  }

  /** How many parts of a path routes pass through. */
  function Depth<T>(routes: seq<Route<T>>, parts: Path, k: nat): (d: nat)
    requires k <= |parts| && Known(routes, parts[..k])
    ensures k <= d <= |parts| && Known(routes, parts[..d])
    ensures d < |parts| ==> !Known(routes, parts[..d + 1])
    decreases |parts| - k
  {
    if k == |parts| || !Known(routes, parts[..k + 1]) then k else Depth(routes, parts, k + 1)
  }

  /** The servlet for a path: the last one there, else the last one of the wildcard where the
      path leaves the routes. */
  function ServletFor(routes: seq<Route<Servlet>>, parts: Path): Option<Servlet> {
    var d := Depth(routes, parts, 0);
    if d == |parts| then LastAt(routes, parts) else LastAt(routes, Child(parts[..d], ANY))
  }

  /** The wildcard filters of the first `k` nodes on the way, outermost first. */
  function Wildcards(routes: seq<Route<Filter>>, parts: Path, k: nat): seq<Filter>
    requires k <= |parts|
  {
    if k == 0 then [] else Wildcards(routes, parts, k - 1) + AllAt(routes, Child(parts[..k - 1], ANY))
  }

  function FiltersFor(routes: seq<Route<Filter>>, parts: Path): seq<Filter> {
    var d := Depth(routes, parts, 0);
    if d == |parts| then Wildcards(routes, parts, d) + AllAt(routes, parts) else Wildcards(routes, parts, d + 1)
  }

  lemma DepthIs<T>(routes: seq<Route<T>>, parts: Path, k: nat, d: nat)
    requires k <= d <= |parts| && Known(routes, parts[..d]) && (d < |parts| ==> !Known(routes, parts[..d + 1]))
    requires Known(routes, parts[..k])
    ensures Depth(routes, parts, k) == d
    decreases d - k
  {
    if k < d {
      KnownAbove(routes, parts, d, k + 1);
      DepthIs(routes, parts, k + 1, d);
    }
  }

  /** A servlet just added is the one its path gets. */
  lemma AddedWins(routes: seq<Route<Servlet>>, parts: Path, servlet: Servlet)
    ensures ServletFor(routes + [Route(parts, servlet)], parts) == Some(servlet)
  {
    var all := routes + [Route(parts, servlet)];
    KnownMore(routes, Route(parts, servlet), parts);
    assert parts[..|parts|] == parts;
    DepthIs(all, parts, 0, |parts|);
  }

  /** A path that only leads on to routes gets nothing, whatever wildcards it has passed. */
  lemma InteriorGetsNothing(routes: seq<Route<Servlet>>, parts: Path)
    requires Known(routes, parts) && forall k :: 0 <= k < |routes| ==> routes[k].path != parts
    ensures ServletFor(routes, parts) == None
  {
    assert parts[..|parts|] == parts;
    DepthIs(routes, parts, 0, |parts|);
    NoneThere(routes, parts);
  }

  lemma NoneThere<T>(routes: seq<Route<T>>, p: Path)
    requires forall k :: 0 <= k < |routes| ==> routes[k].path != p
    ensures LastAt(routes, p) == None
  {
    if routes != [] { NoneThere(routes[..|routes| - 1], p); }
  }

  /** The path leaves the routes after `d` parts: none has one part more in common with it. */
  predicate Leaves<T>(routes: seq<Route<T>>, parts: Path, d: nat) {
    d < |parts| && forall j :: 0 <= j < |routes| ==> !(parts[..d + 1] <= routes[j].path)
  }

  /** The last of its own path, which is the path asked for, or ends in ** where the path asked
      for leaves the routes. */
  predicate Chosen<T>(routes: seq<Route<T>>, parts: Path, i: nat)
    requires i < |routes|
  {
    && (forall j :: i < j < |routes| ==> routes[j].path != routes[i].path)
    && (routes[i].path == parts ||
        exists d :: 0 <= d < |parts| && Leaves(routes, parts, d) && routes[i].path == parts[..d] + ["**"])
  }

  lemma {:induction false} LastAtIff<T>(routes: seq<Route<T>>, p: Path, x: T)
    ensures LastAt(routes, p) == Some(x) <==>
              exists i :: 0 <= i < |routes| && routes[i] == Route(p, x) && forall j :: i < j < |routes| ==> routes[j].path != p
    decreases |routes|
  {
    if routes != [] {
      var n := |routes| - 1;
      var init := routes[..n];
      assert forall i :: 0 <= i < n ==> init[i] == routes[i];
      LastAtIff(init, p, x);
      if routes[n].path == p {
        assert LastAt(routes, p) == Some(x) <==> routes[n] == Route(p, x);
      } else if LastAt(init, p) == Some(x) {
        var i :| 0 <= i < n && init[i] == Route(p, x) && forall j :: i < j < n ==> init[j].path != p;
        assert routes[i] == Route(p, x);
      }
    }
  }

  lemma LeavesIs<T>(routes: seq<Route<T>>, parts: Path, d: nat)
    requires Leaves(routes, parts, d) && Known(routes, parts[..d])
    ensures Depth(routes, parts, 0) == d
  {
    DepthIs(routes, parts, 0, d);
  }

  lemma ChosenServes(routes: seq<Route<Servlet>>, parts: Path, i: nat)
    requires i < |routes| && Chosen(routes, parts, i)
    ensures ServletFor(routes, parts) == Some(routes[i].handler)
  {
    var path := routes[i].path;
    LastAtIff(routes, path, routes[i].handler);
    if path == parts {
      assert parts[..|parts|] == parts;
      DepthIs(routes, parts, 0, |parts|);
    } else {
      var d :| 0 <= d < |parts| && Leaves(routes, parts, d) && path == parts[..d] + ["**"];
      assert parts[..d] <= routes[i].path;
      LeavesIs(routes, parts, d);
    }
  }

  /** A path is served by `x` if and only if `x` is the handler of a route so chosen. */
  lemma ServedIff(routes: seq<Route<Servlet>>, parts: Path, x: Servlet)
    ensures ServletFor(routes, parts) == Some(x) <==>
              exists i :: 0 <= i < |routes| && routes[i].handler == x && Chosen(routes, parts, i)
  {
    var d := Depth(routes, parts, 0);
    var p := if d == |parts| then parts else parts[..d] + ["**"];
    if ServletFor(routes, parts) == Some(x) {
      LastAtIff(routes, p, x);
      var i :| 0 <= i < |routes| && routes[i] == Route(p, x) && forall j :: i < j < |routes| ==> routes[j].path != p;
      assert d < |parts| ==> Leaves(routes, parts, d);
      assert Chosen(routes, parts, i);
    }
    forall i | 0 <= i < |routes| && routes[i].handler == x && Chosen(routes, parts, i)
      ensures ServletFor(routes, parts) == Some(x)
    {
      ChosenServes(routes, parts, i);
    }
  }

  lemma {:induction false} AllAtIff<T>(routes: seq<Route<T>>, p: Path, x: T)
    ensures x in AllAt(routes, p) <==> Route(p, x) in routes
    decreases |routes|
  {
    if routes != [] {
      var n := |routes| - 1;
      AllAtIff(routes[..n], p, x);
      assert routes == routes[..n] + [routes[n]];
    }
  }

  lemma {:induction false} WildcardsIff(routes: seq<Route<Filter>>, parts: Path, k: nat, x: Filter)
    requires k <= |parts|
    ensures x in Wildcards(routes, parts, k) <==> exists d :: 0 <= d < k && Route(parts[..d] + ["**"], x) in routes
  {
    if k > 0 {
      WildcardsIff(routes, parts, k - 1, x);
      AllAtIff(routes, parts[..k - 1] + ["**"], x);
    }
  }

  lemma WildcardKnown<T>(routes: seq<Route<T>>, p: Path, x: T)
    requires Route(p + ["**"], x) in routes
    ensures Known(routes, p)
  {
    var i :| 0 <= i < |routes| && routes[i] == Route(p + ["**"], x);
    assert p <= routes[i].path;
  }

  // No route passes further than Depth.
  lemma KnownIsShallow<T>(routes: seq<Route<T>>, parts: Path, d: nat)
    requires d <= |parts| && Known(routes, parts[..d])
    ensures d <= Depth(routes, parts, 0)
  {
    var e := Depth(routes, parts, 0);
    if e < d {
      KnownAbove(routes, parts, d, e + 1);
      assert false;
    }
  }

  /** The filters of a path are those added at it and those added at ** anywhere above it. */
  lemma FilteredIff(routes: seq<Route<Filter>>, parts: Path, x: Filter)
    ensures x in FiltersFor(routes, parts) <==>
              Route(parts, x) in routes || exists d :: 0 <= d < |parts| && Route(parts[..d] + ["**"], x) in routes
  {
    var depth := Depth(routes, parts, 0);
    WildcardsIff(routes, parts, if depth == |parts| then depth else depth + 1, x);
    AllAtIff(routes, parts, x);
    assert parts[..|parts|] == parts;
    if i :| 0 <= i < |routes| && routes[i] == Route(parts, x) {
      assert parts <= routes[i].path;
      KnownIsShallow(routes, parts, |parts|);
    }
    forall d | 0 <= d < |parts| && Route(parts[..d] + ["**"], x) in routes ensures d <= depth {
      WildcardKnown(routes, parts[..d], x);
      KnownIsShallow(routes, parts, d);
    }
  }

  /** So the servlet added last at a path and ** gets what leaves the routes there. */
  lemma WildcardWins(routes: seq<Route<Servlet>>, above: Path, below: Path, servlet: Servlet)
    requires below != [] && below[0] != "**"
    requires forall j :: 0 <= j < |routes| ==> !(above + [below[0]] <= routes[j].path)
    ensures ServletFor(routes + [Route(above + ["**"], servlet)], above + below) == Some(servlet)
  {
    var all, parts, d := routes + [Route(above + ["**"], servlet)], above + below, |above|;
    assert parts[..d] == above && parts[..d + 1] == above + [below[0]];
    assert (above + ["**"])[d] == "**" && parts[..d + 1][d] == below[0];
    assert Leaves(all, parts, d);
    assert Chosen(all, parts, |routes|);
    ServedIff(all, parts, servlet);
  }

  // ----- The two routers -----

  method InsertServlet(tree: Tree<Option<Servlet>>, parts: Path, servlet: Servlet)
    requires tree.Valid() && tree.blank == None
    modifies tree, tree.nodes.Values
    ensures tree.Valid() && tree.Params() == WithServlet(old(tree.Params()), parts, servlet)
    ensures fresh(tree.nodes.Values - old(tree.nodes.Values))
  {
    var last := tree.Reach(parts);
    tree.Assign(last, parts, Some(servlet));
  }

  method InsertFilter(tree: Tree<seq<Filter>>, parts: Path, filter: Filter)
    requires tree.Valid() && tree.blank == []
    modifies tree, tree.nodes.Values
    ensures tree.Valid() && tree.Params() == WithFilter(old(tree.Params()), parts, filter)
    ensures fresh(tree.nodes.Values - old(tree.nodes.Values))
  {
    var last := tree.Reach(parts);
    tree.Assign(last, parts, last.param + [filter]);
  }

  class ServletRouter {
    const tree: Tree<Option<Servlet>>
    // The routes added so far.
    ghost var routes: seq<Route<Servlet>>

    ghost predicate Valid()
      reads this, tree, tree.nodes.Values
    {
      tree.Valid() && tree.blank == None && ServletsAgree(tree.Params(), routes)
    }

    constructor ()
      ensures Valid() && routes == [] && fresh(tree) && fresh(tree.nodes.Values)
    {
      tree := new Tree(None);
      routes := [];
      new;
      NoRoutesAgree();
    }

    method AddRoute(url: string, servlet: Servlet)
      requires Valid()
      modifies this`routes, tree, tree.nodes.Values
      ensures Valid() && fresh(tree.nodes.Values - old(tree.nodes.Values))
      ensures routes == old(routes) + [Route(Split(url, '/', true), servlet)]
    {
      var parts := SplitToViews(url, '/', true);
      ServletInserted(tree.Params(), routes, Route(parts, servlet));
      InsertServlet(tree, parts, servlet);
      routes := routes + [Route(parts, servlet)];
    }

    method MatchServlet(url: string) returns (r: Option<Servlet>)
      requires Valid()
      ensures r == ServletFor(routes, Split(url, '/', true))
    {
      var parts := SplitToViews(url, '/', true);
      ghost var m := tree.Params();
      var last := tree.root;
      for i := 0 to |parts|
        invariant parts[..i] in tree.nodes && last == tree.nodes[parts[..i]]
      {
        TakeOne(parts, i);
        var next := tree.Descend(last, parts[..i], parts[i]);
        if next == None {
          var any := tree.Descend(last, parts[..i], ANY);
          ServletLeaves(m, routes, parts, i);
          return if any == None then None else any.value.param;
        }
        last := next.value;
      }
      assert parts[..|parts|] == parts;
      ServletStays(m, routes, parts);
      return last.param;
    }
  }

  lemma ServletStays(m: map<Path, Option<Servlet>>, routes: seq<Route<Servlet>>, parts: Path)
    requires ServletsAgree(m, routes) && parts in m
    ensures m[parts] == ServletFor(routes, parts)
  {
    assert ServletAgrees(m, routes, parts);
    assert parts[..|parts|] == parts;
    DepthIs(routes, parts, 0, |parts|);
  }

  lemma ServletLeaves(m: map<Path, Option<Servlet>>, routes: seq<Route<Servlet>>, parts: Path, i: nat)
    requires ServletsAgree(m, routes) && i < |parts| && parts[..i] in m && parts[..i + 1] !in m
    ensures ServletFor(routes, parts) == if Child(parts[..i], ANY) in m then m[Child(parts[..i], ANY)] else None
  {
    assert ServletAgrees(m, routes, parts[..i]) && ServletAgrees(m, routes, parts[..i + 1]);
    assert ServletAgrees(m, routes, Child(parts[..i], ANY));
    DepthIs(routes, parts, 0, i);
    if Child(parts[..i], ANY) !in m { UnknownHasNone(routes, Child(parts[..i], ANY)); }
  }

  class FilterRouter {
    const tree: Tree<seq<Filter>>
    // The routes added so far.
    ghost var routes: seq<Route<Filter>>

    ghost predicate Valid()
      reads this, tree, tree.nodes.Values
    {
      tree.Valid() && tree.blank == [] && FiltersAgree(tree.Params(), routes)
    }

    constructor ()
      ensures Valid() && routes == [] && fresh(tree) && fresh(tree.nodes.Values)
    {
      tree := new Tree([]);
      routes := [];
      new;
      NoRoutesAgree();
    }

    method AddRoute(url: string, filter: Filter)
      requires Valid()
      modifies this`routes, tree, tree.nodes.Values
      ensures Valid() && fresh(tree.nodes.Values - old(tree.nodes.Values))
      ensures routes == old(routes) + [Route(Split(url, '/', true), filter)]
    {
      var parts := SplitToViews(url, '/', true);
      FilterInserted(tree.Params(), routes, Route(parts, filter));
      InsertFilter(tree, parts, filter);
      routes := routes + [Route(parts, filter)];
    }

    method MatchFilters(url: string) returns (chain: seq<Filter>)
      requires Valid()
      ensures chain == FiltersFor(routes, Split(url, '/', true))
    {
      var parts := SplitToViews(url, '/', true);
      ghost var m := tree.Params();
      var last := tree.root;
      chain := [];
      for i := 0 to |parts|
        invariant parts[..i] in tree.nodes && last == tree.nodes[parts[..i]]
        invariant chain == Wildcards(routes, parts, i)
      {
        TakeOne(parts, i);
        FilterWildcard(m, routes, parts, i);
        var any := tree.Descend(last, parts[..i], ANY);
        chain := if any == None then chain else chain + any.value.param;
        var next := tree.Descend(last, parts[..i], parts[i]);
        if next == None {
          FilterLeaves(m, routes, parts, i);
          return;
        }
        last := next.value;
      }
      assert parts[..|parts|] == parts;
      FilterStays(m, routes, parts);
      chain := chain + last.param;
    }
  }

  lemma FilterWildcard(m: map<Path, seq<Filter>>, routes: seq<Route<Filter>>, parts: Path, i: nat)
    requires FiltersAgree(m, routes) && i < |parts|
    ensures Wildcards(routes, parts, i + 1)
         == if Child(parts[..i], ANY) in m then Wildcards(routes, parts, i) + m[Child(parts[..i], ANY)]
            else Wildcards(routes, parts, i)
  {
    assert FilterAgrees(m, routes, Child(parts[..i], ANY));
    if Child(parts[..i], ANY) !in m { UnknownHasNone(routes, Child(parts[..i], ANY)); }
  }

  lemma FilterLeaves(m: map<Path, seq<Filter>>, routes: seq<Route<Filter>>, parts: Path, i: nat)
    requires FiltersAgree(m, routes) && i < |parts| && parts[..i] in m && parts[..i + 1] !in m
    ensures FiltersFor(routes, parts) == Wildcards(routes, parts, i + 1)
  {
    assert FilterAgrees(m, routes, parts[..i]) && FilterAgrees(m, routes, parts[..i + 1]);
    DepthIs(routes, parts, 0, i);
  }

  lemma FilterStays(m: map<Path, seq<Filter>>, routes: seq<Route<Filter>>, parts: Path)
    requires FiltersAgree(m, routes) && parts in m
    ensures FiltersFor(routes, parts) == Wildcards(routes, parts, |parts|) + m[parts]
  {
    assert FilterAgrees(m, routes, parts);
    assert parts[..|parts|] == parts;
    DepthIs(routes, parts, 0, |parts|);
  }
}
