/** The root level of the API path tree, built the same way by both
    generators: routes are split on '/', and the first route to show a first
    segment introduces the root node for it, every later route with that
    segment reusing the node. */
module PathTree {
  import opened Strings

  /** What the tree needs to know about an API handler: its name and its
      route. */
  datatype Route = Route(methodName: string, path: string)

  function PathParts(r: Route): (parts: seq<string>)
    ensures |parts| >= 1
  {
    SplitOn(r.path, "/")
  }

  function RootSegment(r: Route): string {
    PathParts(r)[0]
  }

  /** The identifier stem of the root node a route introduces: the handler's
      own name when the route has a single segment, otherwise the first
      segment; sanitized either way. */
  function RootName(r: Route): (name: string)
    ensures AllAlphanumeric(name)
    ensures |PathParts(r)| == 1 ==> name == ReplaceNonAlphanumeric(r.methodName)
    ensures |PathParts(r)| > 1 ==> name == ReplaceNonAlphanumeric(RootSegment(r))
  {
    ReplaceNonAlphanumeric(if |PathParts(r)| == 1 then r.methodName else PathParts(r)[0])
  }

  datatype RootNode = RootNode(name: string, segment: string)

  function NodeOf(r: Route): RootNode {
    RootNode(RootName(r), RootSegment(r))
  }

  /** The identifiers both generators give the root nodes'
      AWS::ApiGateway::Resource blocks, in node order. */
  function RootKeys(nodes: seq<RootNode>): (keys: seq<string>)
    ensures |keys| == |nodes|
    ensures forall k :: 0 <= k < |nodes| ==> keys[k] == nodes[k].name + "APIResource"
  {
    seq(|nodes|, k requires 0 <= k < |nodes| => nodes[k].name + "APIResource")
  }

  lemma RootKeysSnoc(nodes: seq<RootNode>, n: RootNode)
    ensures RootKeys(nodes + [n]) == RootKeys(nodes) + [n.name + "APIResource"]
  {
    var l, r := RootKeys(nodes + [n]), RootKeys(nodes) + [n.name + "APIResource"];
    assert |l| == |r|;
    forall k | 0 <= k < |l| ensures l[k] == r[k] {
      if k < |nodes| {
        assert (nodes + [n])[k] == nodes[k];
      }
    }
  }

  /** The `rootPaths` list: the segments of the nodes, in order. */
  function Segments(nodes: seq<RootNode>): (segments: seq<string>)
    ensures |segments| == |nodes|
    ensures forall k :: 0 <= k < |nodes| ==> segments[k] == nodes[k].segment
  {
    seq(|nodes|, k requires 0 <= k < |nodes| => nodes[k].segment)
  }

  /** The root nodes after scanning the routes: a route whose first segment
      is not yet in `rootPaths` appends a node for it. */
  function RootNodes(routes: seq<Route>): (nodes: seq<RootNode>)
    ensures |nodes| <= |routes|
    ensures forall k :: 0 <= k < |nodes| ==> AllAlphanumeric(nodes[k].name)
  {
    if routes == [] then []
    else
      var nodes := RootNodes(routes[..|routes| - 1]);
      var r := routes[|routes| - 1];
      if RootSegment(r) in Segments(nodes) then nodes else nodes + [NodeOf(r)]
  }

  /** Route j is the first one with its first segment. */
  predicate Introduces(routes: seq<Route>, j: int) {
    && 0 <= j < |routes|
    && forall i :: 0 <= i < j ==> RootSegment(routes[i]) != RootSegment(routes[j])
  }

  /** The indices of the introducing routes, in increasing order. */
  ghost function Introducers(routes: seq<Route>): seq<int> {
    if routes == [] then []
    else
      Introducers(routes[..|routes| - 1]) +
      (if Introduces(routes, |routes| - 1) then [|routes| - 1] else [])
  }

  lemma SegmentsAppend(nodes: seq<RootNode>, n: RootNode)
    ensures Segments(nodes + [n]) == Segments(nodes) + [n.segment]
  {
  }

  /** A segment has a root node exactly when some route starts with it. */
  lemma {:induction false} RootNodesCover(routes: seq<Route>, s: string)
    ensures s in Segments(RootNodes(routes)) <==> exists j :: 0 <= j < |routes| && RootSegment(routes[j]) == s
  {
    if routes != [] {
      var p := routes[..|routes| - 1];
      var r := routes[|routes| - 1];
      RootNodesCover(p, s);
      RootNodesCover(p, RootSegment(r));
      assert forall j :: 0 <= j < |p| ==> p[j] == routes[j];
      if RootSegment(r) !in Segments(RootNodes(p)) {
        SegmentsAppend(RootNodes(p), NodeOf(r));
      }
    }
  }

  /** No two root nodes share a segment. */
  lemma {:induction false} RootNodesDistinct(routes: seq<Route>)
    ensures forall a, b :: 0 <= a < b < |RootNodes(routes)| ==> RootNodes(routes)[a].segment != RootNodes(routes)[b].segment
  {
    if routes != [] {
      var p := routes[..|routes| - 1];
      var r := routes[|routes| - 1];
      RootNodesDistinct(p);
      var nodes := RootNodes(p);
      if RootSegment(r) !in Segments(nodes) {
        forall a | 0 <= a < |nodes| ensures nodes[a].segment != RootSegment(r) {
          assert Segments(nodes)[a] == nodes[a].segment;
        }
      }
    }
  }

  /** Whether a route introduces its segment depends only on the routes
      before it. */
  lemma IntroducesPrefix(routes: seq<Route>, j: int)
    requires routes != [] && 0 <= j < |routes| - 1
    ensures Introduces(routes[..|routes| - 1], j) <==> Introduces(routes, j)
  {
  }

  /** The last route introduces its segment exactly when the scan before it
      has not registered that segment. */
  lemma IntroducesLast(routes: seq<Route>)
    requires routes != []
    ensures Introduces(routes, |routes| - 1) <==>
      RootSegment(routes[|routes| - 1]) !in Segments(RootNodes(routes[..|routes| - 1]))
  {
    var p := routes[..|routes| - 1];
    var last := |routes| - 1;
    RootNodesCover(p, RootSegment(routes[last]));
    if !Introduces(routes, last) {
      var i :| 0 <= i < last && RootSegment(routes[i]) == RootSegment(routes[last]);
      assert p[i] == routes[i];
    } else {
      assert forall j :: 0 <= j < |p| ==> p[j] == routes[j];
    }
  }

  /** The introducers are in increasing order and all below |routes|. */
  lemma {:induction false} IntroducersIncreasing(routes: seq<Route>)
    ensures forall k :: 0 <= k < |Introducers(routes)| ==> 0 <= Introducers(routes)[k] < |routes|
    ensures forall a, b :: 0 <= a < b < |Introducers(routes)| ==> Introducers(routes)[a] < Introducers(routes)[b]
  {
    if routes != [] {
      IntroducersIncreasing(routes[..|routes| - 1]);
    }
  }

  /** Every introducing route is listed among the introducers. */
  lemma {:induction false} IntroducersComplete(routes: seq<Route>, j: int)
    requires Introduces(routes, j)
    ensures j in Introducers(routes)
  {
    var last := |routes| - 1;
    if j < last {
      IntroducesPrefix(routes, j);
      IntroducersComplete(routes[..last], j);
    }
  }

  /** The root nodes are exactly the nodes of the introducing routes, in the
      order those routes appear: one node per distinct first segment, named
      by the first route that shows it. */
  lemma {:induction false} RootNodesFirstAppearance(routes: seq<Route>)
    ensures |Introducers(routes)| == |RootNodes(routes)|
    ensures forall k :: 0 <= k < |Introducers(routes)| ==>
      Introduces(routes, Introducers(routes)[k]) && RootNodes(routes)[k] == NodeOf(routes[Introducers(routes)[k]])
    ensures forall a, b :: 0 <= a < b < |Introducers(routes)| ==> Introducers(routes)[a] < Introducers(routes)[b]
    ensures forall j :: Introduces(routes, j) ==> j in Introducers(routes)
  {
    IntroducersIncreasing(routes);
    forall j | Introduces(routes, j) ensures j in Introducers(routes) {
      IntroducersComplete(routes, j);
    }
    IntroducersNodes(routes);
  }

  lemma {:induction false} IntroducersNodes(routes: seq<Route>)
    ensures |Introducers(routes)| == |RootNodes(routes)|
    ensures forall k :: 0 <= k < |Introducers(routes)| ==>
      Introduces(routes, Introducers(routes)[k]) && RootNodes(routes)[k] == NodeOf(routes[Introducers(routes)[k]])
  {
    if routes != [] {
      var p := routes[..|routes| - 1];
      var last := |routes| - 1;
      IntroducersNodes(p);
      IntroducersIncreasing(p);
      IntroducesLast(routes);
      var ip, np := Introducers(p), RootNodes(p);
      forall k | 0 <= k < |ip|
        ensures Introduces(routes, ip[k]) && np[k] == NodeOf(routes[ip[k]])
      {
        IntroducesPrefix(routes, ip[k]);
        assert p[ip[k]] == routes[ip[k]];
      }
    }
  }

  /** The node of an introducing route is among the root nodes. */
  lemma IntroducerHasNode(routes: seq<Route>, j: int)
    requires Introduces(routes, j)
    ensures NodeOf(routes[j]) in RootNodes(routes)
  {
    RootNodesFirstAppearance(routes);
    var k :| 0 <= k < |Introducers(routes)| && Introducers(routes)[k] == j;
    assert RootNodes(routes)[k] == NodeOf(routes[j]);
  }

  /** Every route's first segment has one root node, and that node is the one
      of the first route showing the segment. */
  lemma {:induction false} RouteHasRoot(routes: seq<Route>, i: int)
    requires 0 <= i < |routes|
    ensures exists j :: 0 <= j <= i && Introduces(routes, j) && RootSegment(routes[j]) == RootSegment(routes[i])
    decreases i
  {
    if !Introduces(routes, i) {
      var i' :| 0 <= i' < i && RootSegment(routes[i']) == RootSegment(routes[i]);
      RouteHasRoot(routes, i');
    }
  }

  /** A route without '/' is a single segment. */
  lemma SplitOnSlashOne(a: string)
    requires '/' !in a
    ensures SplitOn(a, "/") == [a]
  {
    forall j ensures !OccursAt(a, "/", j) {
      OccursAtChar(a, '/', j);
    }
    SplitOnAbsent(a, "/");
  }

  /** A '/'-free name, '/' and a rest: the name is the first part. */
  lemma SplitOnSlashCons(a: string, rest: string)
    requires '/' !in a
    ensures SplitOn(a + "/" + rest, "/") == [a] + SplitOn(rest, "/")
  {
    var s := a + "/" + rest;
    OccursAtChar(s, '/', |a|);
    forall j | 0 <= j < |a| ensures !OccursAt(s, "/", j) {
      OccursAtChar(s, '/', j);
      assert s[j] == a[j];
    }
    SplitOnFirst(s, "/", |a|);
    assert s[..|a|] == a;
    assert s[|a| + 1..] == rest;
  }

  /** The root node a route introduces, read off the route string: for
      "s/rest" it is named after the first segment s, whatever follows and
      whichever handler introduces it, and an alphanumeric s names it
      verbatim; a route without '/' names it after the handler, whatever
      the route says. */
  lemma RootNameOfPath(methodName: string, s: string, rest: string)
    requires '/' !in s
    ensures NodeOf(Route(methodName, s + "/" + rest)) == RootNode(ReplaceNonAlphanumeric(s), s)
    ensures AllAlphanumeric(s) ==> RootName(Route(methodName, s + "/" + rest)) == s
    ensures NodeOf(Route(methodName, s)) == RootNode(ReplaceNonAlphanumeric(methodName), s)
  {
    SplitOnSlashCons(s, rest);
    SplitOnSlashOne(s);
    if AllAlphanumeric(s) {
      ReplaceNonAlphanumericKeeps(s);
    }
  }

  /** Two '/'-free names joined by '/' split back into the two names. */
  lemma SplitOnSlashTwo(a: string, b: string)
    requires '/' !in a && '/' !in b
    ensures SplitOn(a + "/" + b, "/") == [a, b]
  {
    SplitOnSlashCons(a, b);
    SplitOnSlashOne(b);
  }

  /** Three '/'-free names joined by '/' split back into the three names. */
  lemma SplitOnSlashThree(a: string, b: string, c: string)
    requires '/' !in a && '/' !in b && '/' !in c
    ensures SplitOn(a + "/" + b + "/" + c, "/") == [a, b, c]
  {
    assert a + "/" + b + "/" + c == a + "/" + (b + "/" + c);
    SplitOnSlashCons(a, b + "/" + c);
    SplitOnSlashTwo(b, c);
  }
}
