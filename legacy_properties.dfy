/** What the older generator promises, stated over the lines it emits, and
    its departures from the newer one shown as they are: method blocks that
    point at the last path segment, API handlers scanned a second time as
    Lambdas, the prod stage under the key `Test` and the fixed API timeout. */
module LegacyProperties {
  import opened Strings
  import opened Template
  import opened Manifest
  import opened Versioning
  import opened PathTree
  import opened LegacyInjection
  import ToolInjection

  // ---------------------------------------------------------------------
  // Scanner
  // ---------------------------------------------------------------------

  /** The API list holds exactly the entries of the API-annotated methods
      whose names are not those of System.Object members; each keeps the
      default timeout of 40 seconds, whatever the annotation says. */
  lemma {:induction false} APIFunctionsMembers(manifest: seq<HandlerMethod>, f: MethodInfo)
    ensures f in APIFunctions(manifest) <==>
      exists m :: m in manifest && Scanned(m) && m.annotation.ApiResource? && f == ApiInfo(m)
    ensures f in APIFunctions(manifest) ==>
      f.methodPath.Some? && f.timeoutInSeconds == 40 && f.methodName !in ObjectMethodNames
  {
    if manifest != [] {
      var p := manifest[..|manifest| - 1];
      var m := manifest[|manifest| - 1];
      APIFunctionsMembers(p, f);
      assert manifest == p + [m];
      if f in APIFunctions(manifest) && f !in APIFunctions(p) {
        assert IsApiFunction(m) && f == ApiInfo(m);
      }
    }
  }

  /** The Lambda list holds an entry for every annotated method, API
      handlers included, with the annotation's timeout and no route. */
  lemma {:induction false} LambdaFunctionsMembers(manifest: seq<HandlerMethod>, f: MethodInfo)
    ensures f in LambdaFunctions(manifest) <==>
      exists m :: m in manifest && Scanned(m) && !m.annotation.NoAnnotation? && f == LambdaInfo(m)
    ensures f in LambdaFunctions(manifest) ==>
      f.methodPath.None? && !f.enableCors && f.methodName !in ObjectMethodNames
  {
    if manifest != [] {
      var p := manifest[..|manifest| - 1];
      var m := manifest[|manifest| - 1];
      LambdaFunctionsMembers(p, f);
      assert manifest == p + [m];
      if f in LambdaFunctions(manifest) && f !in LambdaFunctions(p) {
        assert IsLambdaFunction(m) && f == LambdaInfo(m);
      }
    }
  }

  /** Every API handler is on both lists, under the same sanitized name. */
  lemma ApiHandlersAreLambdas(manifest: seq<HandlerMethod>, m: HandlerMethod)
    requires m in manifest && IsApiFunction(m)
    ensures ApiInfo(m) in APIFunctions(manifest)
    ensures LambdaInfo(m) in LambdaFunctions(manifest)
    ensures FunctionName(LambdaInfo(m)) == FunctionName(ApiInfo(m))
  {
    APIFunctionsMembers(manifest, ApiInfo(m));
    LambdaFunctionsMembers(manifest, LambdaInfo(m));
  }

  /** Any API annotation: the route is its path part, or the method's name
      when that is null, and CORS is copied, but the timeout is not: the
      API entry keeps 40 seconds while the Lambda entry the same method also
      gets carries the annotation's timeout. */
  lemma ApiAnnotationScanned(c: string, n: string, pathPart: Option<string>, cors: bool, timeout: int)
    requires n !in ObjectMethodNames
    ensures APIFunctions([HandlerMethod(c, n, ApiResource(pathPart, cors, timeout))]) ==
      [MethodInfo(n, Some(pathPart.GetOr(n)), 40, cors)]
    ensures LambdaFunctions([HandlerMethod(c, n, ApiResource(pathPart, cors, timeout))]) ==
      [MethodInfo(n, None, timeout, false)]
  {
    assert [HandlerMethod(c, n, ApiResource(pathPart, cors, timeout))][..0] == [];
  }

  /** A Lambda annotation written without arguments: a Lambda entry with no
      route and a 20-second timeout, and no API entry. */
  lemma DefaultLambdaInfo(c: string, n: string)
    requires n !in ObjectMethodNames
    ensures LambdaFunctions([HandlerMethod(c, n, LambdaAnnotation())]) == [MethodInfo(n, None, 20, false)]
    ensures APIFunctions([HandlerMethod(c, n, LambdaAnnotation())]) == []
  {
    assert [HandlerMethod(c, n, LambdaAnnotation())][..0] == [];
  }

  /** The two generators scan the same methods as Lambdas except the API
      handlers: this one keeps them, the command-line tool leaves them out. */
  lemma LambdaScanDifference(m: HandlerMethod)
    ensures IsLambdaFunction(m) <==> ToolInjection.IsLambdaFunction(m) || ToolInjection.IsApiFunction(m)
    ensures !(ToolInjection.IsLambdaFunction(m) && ToolInjection.IsApiFunction(m))
    ensures (IsLambdaFunction(m) && !ToolInjection.IsLambdaFunction(m)) <==> IsApiFunction(m)
  {
  }

  /** Every route the path tree is built from belongs to a scanned API
      handler: its name, with its path part or, when that is null, its name
      again. */
  lemma ScannedRoutes(manifest: seq<HandlerMethod>, k: int)
    requires 0 <= k < |APIFunctions(manifest)|
    ensures exists m ::
              && m in manifest && IsApiFunction(m)
              && Routes(APIFunctions(manifest))[k] == Route(m.methodName, m.annotation.pathPart.GetOr(m.methodName))
  {
    APIFunctionsMembers(manifest, APIFunctions(manifest)[k]);
  }

  /** A method named like a System.Object member adds nothing to either list. */
  lemma ObjectMethodsSkipped(manifest: seq<HandlerMethod>, m: HandlerMethod)
    requires m.methodName in ObjectMethodNames
    ensures APIFunctions(manifest + [m]) == APIFunctions(manifest)
    ensures LambdaFunctions(manifest + [m]) == LambdaFunctions(manifest)
  {
    assert (manifest + [m])[..|manifest|] == manifest;
  }

  // ---------------------------------------------------------------------
  // Root paths
  // ---------------------------------------------------------------------

  lemma PaddedKeys(block: seq<Line>)
    ensures Keys(Padded(block)) == Keys(block)
  {
    BlankIsNoKey();
    KeysSkipFront([Blank], block);
    KeysThenBlank([Blank] + block);
  }

  /** One root node: its key, and the lines binding it under `nWAYApi`'s
      root and to its segment. */
  lemma RootResourceShape(node: RootNode)
    requires AllAlphanumeric(node.name)
    ensures Keys(RootResource(node)) == [node.name + "APIResource"]
    ensures Line(3, "ParentId: " + RootParent) in RootResource(node)
    ensures Line(3, "PathPart: " + node.segment) in RootResource(node)
  {
    var key := node.name + "APIResource";
    SuffixedKey(node.name, "APIResource");
    ResourceBlockShape(RestApi, key, RootParent, node.segment);
    PaddedKeys(ResourceBlock(RestApi, key, RootParent, node.segment));
  }

  lemma {:induction false} RootResourcesKeys(nodes: seq<RootNode>)
    requires forall k :: 0 <= k < |nodes| ==> AllAlphanumeric(nodes[k].name)
    ensures Keys(RootResources(nodes)) == RootKeys(nodes)
  {
    if nodes != [] {
      var p := nodes[..|nodes| - 1];
      var n := nodes[|nodes| - 1];
      RootResourcesKeys(p);
      RootResourceShape(n);
      KeysAppend(RootResources(p), RootResource(n));
      RootKeysSnoc(p, n);
      assert nodes == p + [n];
    }
  }

  /** One root block per distinct first segment, in order of first
      appearance, each named by the route that introduced the segment. */
  lemma RootPathKeys(fns: seq<MethodInfo>)
    requires Routed(fns)
    ensures var routes := Routes(fns);
      && |Keys(RootResources(RootNodes(routes)))| == |Introducers(routes)|
      && (forall k :: 0 <= k < |Introducers(routes)| ==>
            0 <= Introducers(routes)[k] < |routes| &&
            Keys(RootResources(RootNodes(routes)))[k] == RootName(routes[Introducers(routes)[k]]) + "APIResource")
  {
    var routes := Routes(fns);
    RootResourcesKeys(RootNodes(routes));
    RootNodesFirstAppearance(routes);
  }

  // ---------------------------------------------------------------------
  // The blocks of one handler
  // ---------------------------------------------------------------------

  lemma FunctionResourceKeys(f: MethodInfo, handlerPrefix: string)
    ensures Keys(FunctionResource(f, handlerPrefix)) == [FunctionName(f) + "Function"]
  {
    var key := FunctionName(f) + "Function";
    SuffixedKey(FunctionName(f), "Function");
    var b := FunctionBlock(key, FunctionPrefix + f.methodName, handlerPrefix + f.methodName, LambdaRole, f.timeoutInSeconds);
    FunctionBlockShape(key, FunctionPrefix + f.methodName, handlerPrefix + f.methodName, LambdaRole, f.timeoutInSeconds);
    PaddedKeys(b);
  }

  /** The function is named `nway-` and the method name, its handler is the
      fixed namespace and the method name, and it carries the entry's
      timeout. */
  lemma FunctionResourceLines(f: MethodInfo, handlerPrefix: string)
    ensures Line(3, "FunctionName: " + ("nway-" + f.methodName)) in FunctionResource(f, handlerPrefix)
    ensures Line(3, "Handler: " + (handlerPrefix + f.methodName) + " ") in FunctionResource(f, handlerPrefix)
    ensures Line(3, "Timeout: " + IntToString(f.timeoutInSeconds)) in FunctionResource(f, handlerPrefix)
    ensures Line(3, "Role: " + LambdaRole) in FunctionResource(f, handlerPrefix)
  {
    var key := FunctionName(f) + "Function";
    SuffixedKey(FunctionName(f), "Function");
    FunctionBlockShape(key, FunctionPrefix + f.methodName, handlerPrefix + f.methodName, LambdaRole, f.timeoutInSeconds);
  }

  lemma ChildResourceKeys(r: Route)
    requires |PathParts(r)| > 1
    ensures Keys(ChildResource(r)) == [ReplaceNonAlphanumeric(PathParts(r)[1]) + "APIResource"]
  {
    var key := ChildName(r) + "APIResource";
    SuffixedKey(ChildName(r), "APIResource");
    var parent := "!Ref " + ReplaceNonAlphanumeric(PathParts(r)[0]) + "APIResource";
    ResourceBlockShape(RestApi, key, parent, PathParts(r)[1]);
    PaddedKeys(ResourceBlock(RestApi, key, parent, PathParts(r)[1]));
  }

  /** The second-level node hangs under the node named after the sanitized
      first segment and has the second segment as its path part. */
  lemma ChildResourceLines(r: Route)
    requires |PathParts(r)| > 1
    ensures Line(3, "ParentId: " + ("!Ref " + ReplaceNonAlphanumeric(PathParts(r)[0]) + "APIResource")) in ChildResource(r)
    ensures Line(3, "PathPart: " + PathParts(r)[1]) in ChildResource(r)
  {
    var key := ChildName(r) + "APIResource";
    SuffixedKey(ChildName(r), "APIResource");
    var parent := "!Ref " + ReplaceNonAlphanumeric(PathParts(r)[0]) + "APIResource";
    ResourceBlockShape(RestApi, key, parent, PathParts(r)[1]);
  }

  lemma MethodResourceKeys(f: MethodInfo)
    requires f.methodPath.Some?
    ensures Keys(MethodResource(f)) == [FunctionName(f) + "APIMethod"]
  {
    SuffixedKey(FunctionName(f), "APIMethod");
    var resource := ResourceName(RouteOf(f)) + "APIResource";
    MethodBlockShape(RestApi, FunctionName(f), resource, LambdaRole);
    PaddedKeys(MethodBlock(RestApi, FunctionName(f), resource, LambdaRole));
  }

  /** The POST method points at the node named after the last segment of a
      route with two or more segments, and after the handler otherwise. */
  lemma MethodResourceLines(f: MethodInfo)
    requires f.methodPath.Some?
    ensures Line(3, "HttpMethod: POST") in MethodResource(f)
    ensures |PathParts(RouteOf(f))| > 1 ==>
      Line(3, "ResourceId: !Ref " + (ReplaceNonAlphanumeric(PathParts(RouteOf(f))[|PathParts(RouteOf(f))| - 1]) + "APIResource"))
        in MethodResource(f)
    ensures |PathParts(RouteOf(f))| == 1 ==>
      Line(3, "ResourceId: !Ref " + (FunctionName(f) + "APIResource")) in MethodResource(f)
    ensures Line(4, InvocationUri(FunctionName(f) + "Function")) in MethodResource(f)
  {
    SuffixedKey(FunctionName(f), "APIMethod");
    var resource := ResourceName(RouteOf(f)) + "APIResource";
    MethodBlockShape(RestApi, FunctionName(f), resource, LambdaRole);
  }

  lemma CorsResourceKeys(f: MethodInfo)
    requires f.methodPath.Some?
    ensures Keys(CorsResource(f)) == [FunctionName(f) + "APIMethodOPTIONS"]
  {
    SuffixedKey(FunctionName(f), "APIMethodOPTIONS");
    var resource := ResourceName(RouteOf(f)) + "APIResource";
    var opts := OptionsBlock(RestApi, FunctionName(f), resource);
    OptionsBlockShape(RestApi, FunctionName(f), resource);
    var comment := [Line(1, "# enabling OPTIONS for " + f.methodName)];
    CommentIsNoKey("enabling OPTIONS for " + f.methodName);
    PaddedKeys(comment);
    KeysSkipFront(Padded(comment), opts);
    KeysThenBlank(Padded(comment) + opts);
  }

  /** The OPTIONS method points at the same node as the POST method. */
  lemma CorsResourceLines(f: MethodInfo)
    requires f.methodPath.Some?
    ensures Line(3, "HttpMethod: OPTIONS") in CorsResource(f)
    ensures Line(3, "ResourceId: !Ref " + (ResourceName(RouteOf(f)) + "APIResource")) in CorsResource(f)
    ensures Line(3, "ResourceId: !Ref " + (ResourceName(RouteOf(f)) + "APIResource")) in MethodResource(f)
  {
    SuffixedKey(FunctionName(f), "APIMethodOPTIONS");
    SuffixedKey(FunctionName(f), "APIMethod");
    var resource := ResourceName(RouteOf(f)) + "APIResource";
    OptionsBlockShape(RestApi, FunctionName(f), resource);
    MethodBlockShape(RestApi, FunctionName(f), resource, LambdaRole);
  }

  /** The keys one API handler contributes. */
  function SectionKeys(f: MethodInfo): seq<string>
    requires f.methodPath.Some?
  {
    [FunctionName(f) + "Function"]
    + (if |PathParts(RouteOf(f))| > 1 then [ChildName(RouteOf(f)) + "APIResource"] else [])
    + [FunctionName(f) + "APIMethod"]
    + (if f.enableCors then [FunctionName(f) + "APIMethodOPTIONS"] else [])
  }

  lemma ChildPartKeys(r: Route)
    ensures Keys(if |PathParts(r)| > 1 then ChildResource(r) else []) ==
      if |PathParts(r)| > 1 then [ChildName(r) + "APIResource"] else []
  {
    if |PathParts(r)| > 1 {
      ChildResourceKeys(r);
    }
  }

  lemma CorsPartKeys(f: MethodInfo)
    requires f.methodPath.Some?
    ensures Keys(if f.enableCors then CorsResource(f) else []) ==
      if f.enableCors then [FunctionName(f) + "APIMethodOPTIONS"] else []
  {
    if f.enableCors {
      CorsResourceKeys(f);
    }
  }

  lemma MethodSectionKeys(f: MethodInfo)
    requires f.methodPath.Some?
    ensures Keys(MethodSection(f)) == SectionKeys(f)
  {
    var r := RouteOf(f);
    var head := Padded([Line(1, "# " + f.methodName)]);
    var fr := FunctionResource(f, ApiHandlerPrefix);
    var child := if |PathParts(r)| > 1 then ChildResource(r) else [];
    var cors := if f.enableCors then CorsResource(f) else [];
    CommentIsNoKey(f.methodName);
    PaddedKeys([Line(1, "# " + f.methodName)]);
    FunctionResourceKeys(f, ApiHandlerPrefix);
    ChildPartKeys(r);
    MethodResourceKeys(f);
    CorsPartKeys(f);
    KeysSkipFront(head, fr);
    KeysAppend3(head + fr, child, MethodResource(f));
    KeysAppend(head + fr + child + MethodResource(f), cors);
  }

  /** The POST method of a section invokes the function block of the same
      section: its integration URI names the one key the function block
      defines. */
  lemma MethodInvokesOwnFunction(f: MethodInfo)
    requires f.methodPath.Some?
    ensures Keys(FunctionResource(f, ApiHandlerPrefix)) == [FunctionName(f) + "Function"]
    ensures Line(4, InvocationUri(FunctionName(f) + "Function")) in MethodSection(f)
  {
    FunctionResourceKeys(f, ApiHandlerPrefix);
    MethodResourceLines(f);
  }

  /** The OPTIONS method is emitted exactly when CORS is enabled. */
  lemma CorsIffEnabled(f: MethodInfo)
    requires f.methodPath.Some?
    ensures FunctionName(f) + "APIMethodOPTIONS" in Keys(MethodSection(f)) <==> f.enableCors
  {
    MethodSectionKeys(f);
    var o := FunctionName(f) + "APIMethodOPTIONS";
    assert o[|o| - 1] == 'S';
    var fk := FunctionName(f) + "Function";
    assert fk[|fk| - 1] == 'n';
    var mk := FunctionName(f) + "APIMethod";
    assert mk[|mk| - 1] == 'd';
    if |PathParts(RouteOf(f))| > 1 {
      var ck := ChildName(RouteOf(f)) + "APIResource";
      assert ck[|ck| - 1] == 'e';
    }
  }

  function AllSectionKeys(fns: seq<MethodInfo>): seq<string>
    requires Routed(fns)
  {
    if fns == [] then [] else AllSectionKeys(fns[..|fns| - 1]) + SectionKeys(fns[|fns| - 1])
  }

  lemma {:induction false} MethodSectionsKeys(fns: seq<MethodInfo>)
    requires Routed(fns)
    ensures Keys(MethodSections(fns)) == AllSectionKeys(fns)
  {
    if fns != [] {
      var p := fns[..|fns| - 1];
      var f := fns[|fns| - 1];
      MethodSectionsKeys(p);
      MethodSectionKeys(f);
      KeysAppend(MethodSections(p), MethodSection(f));
    }
  }

  lemma {:induction false} SectionKeysIncluded(fns: seq<MethodInfo>, i: int, k: string)
    requires Routed(fns) && 0 <= i < |fns|
    requires k in SectionKeys(fns[i])
    ensures k in AllSectionKeys(fns)
  {
    var p := fns[..|fns| - 1];
    if i < |fns| - 1 {
      assert p[i] == fns[i];
      SectionKeysIncluded(p, i, k);
    }
  }

  // ---------------------------------------------------------------------
  // Stages and deployments
  // ---------------------------------------------------------------------

  lemma StagePairKeys(fns: seq<MethodInfo>, stageKey: string, stageName: string, description: string, deploymentKey: string)
    requires ValidKey(stageKey) && ValidKey(deploymentKey)
    ensures Keys(StagePair(fns, stageKey, stageName, description, deploymentKey)) == [stageKey, deploymentKey]
  {
    var sb := StageBlock(RestApi, stageKey, stageName, description, deploymentKey);
    var db := DeploymentBlock(RestApi, deploymentKey, MethodKeys(fns));
    StageBlockShape(RestApi, stageKey, stageName, description, deploymentKey);
    DeploymentBlockShape(RestApi, deploymentKey, MethodKeys(fns));
    BlankIsNoKey();
    KeysSkipFront([Blank], sb);
    KeysThenBlank([Blank] + sb);
    KeysAppend([Blank] + sb + [Blank], db);
    KeysThenBlank([Blank] + sb + [Blank] + db);
  }

  /** The stage publishes its deployment under its stage name, which is also
      the Lambda alias it calls. */
  lemma StagePairLines(fns: seq<MethodInfo>, stageKey: string, stageName: string, description: string, deploymentKey: string)
    requires ValidKey(stageKey)
    ensures Line(3, "StageName: " + stageName) in StagePair(fns, stageKey, stageName, description, deploymentKey)
    ensures Line(3, "DeploymentId: !Ref " + deploymentKey) in StagePair(fns, stageKey, stageName, description, deploymentKey)
    ensures Line(4, "lambdaAlias: " + stageName) in StagePair(fns, stageKey, stageName, description, deploymentKey)
  {
    StageBlockShape(RestApi, stageKey, stageName, description, deploymentKey);
  }

  /** A deployment's `DependsOn:` list names the POST method of every API
      handler, once each, in list order. */
  lemma DeploymentDependsOn(fns: seq<MethodInfo>, deploymentKey: string)
    requires ValidKey(deploymentKey)
    ensures var d := DeploymentBlock(RestApi, deploymentKey, MethodKeys(fns));
      && |d| > |fns|
      && d[|d| - |fns| - 1] == Line(2, "DependsOn:")
      && forall i :: 0 <= i < |fns| ==> d[|d| - |fns| + i] == Line(3, "- " + (FunctionName(fns[i]) + "APIMethod"))
  {
    var h := DeploymentHeader(RestApi, deploymentKey);
    DeploymentHeaderShape(RestApi, deploymentKey);
    var items := DependsOnItems(MethodKeys(fns));
    var d := DeploymentBlock(RestApi, deploymentKey, MethodKeys(fns));
    assert d == h + items;
    assert d[|h| - 1] == h[|h| - 1];
    forall i | 0 <= i < |fns| ensures d[|d| - |fns| + i] == Line(3, "- " + (FunctionName(fns[i]) + "APIMethod")) {
      assert d[|h| + i] == items[i];
    }
  }

  /** Item i of every `DependsOn:` list is the key the POST method block of
      handler i defines, and two items coincide exactly when the two
      handlers' names sanitize alike. */
  lemma MethodKeysNameMethods(fns: seq<MethodInfo>, i: int, j: int)
    requires Routed(fns)
    requires 0 <= i < |fns| && 0 <= j < |fns|
    ensures Keys(MethodResource(fns[i])) == [MethodKeys(fns)[i]]
    ensures MethodKeys(fns)[i] == MethodKeys(fns)[j] <==> FunctionName(fns[i]) == FunctionName(fns[j])
  {
    MethodResourceKeys(fns[i]);
    SuffixDistinct(FunctionName(fns[i]), FunctionName(fns[j]), "APIMethod");
  }

  /** The stage keys an environment gets: the prod stage is keyed `Test`. */
  function StageKeys(environment: string): seq<string> {
    if environment == "test" then ["Test", "TestDeployment"]
    else ["Staging", "StagingDeployment", "Test", "ProdDeployment"]
  }

  lemma StagesKeys(fns: seq<MethodInfo>, environment: string)
    ensures Keys(Stages(fns, environment)) == StageKeys(environment)
  {
    if environment == "test" {
      StagePairKeys(fns, "Test", "test", "API Test", "TestDeployment");
    } else {
      StagePairKeys(fns, "Staging", "staging", "API Staging", "StagingDeployment");
      StagePairKeys(fns, "Test", "prod", "API Production", "ProdDeployment");
      KeysAppend(StagePair(fns, "Staging", "staging", "API Staging", "StagingDeployment"),
        StagePair(fns, "Test", "prod", "API Production", "ProdDeployment"));
    }
  }

  /** Outside "test" no stage is keyed `Prod`: the stage named prod, which
      publishes ProdDeployment, is the block keyed `Test`. */
  lemma ProdStageKeyedTest(fns: seq<MethodInfo>, environment: string)
    requires environment != "test"
    ensures "Prod" !in Keys(Stages(fns, environment))
    ensures Keys(StagePair(fns, "Test", "prod", "API Production", "ProdDeployment")) == ["Test", "ProdDeployment"]
    ensures Line(3, "StageName: " + "prod") in StagePair(fns, "Test", "prod", "API Production", "ProdDeployment")
    ensures Line(3, "DeploymentId: !Ref " + "ProdDeployment") in StagePair(fns, "Test", "prod", "API Production", "ProdDeployment")
  {
    StagesKeys(fns, environment);
    StagePairKeys(fns, "Test", "prod", "API Production", "ProdDeployment");
    StagePairLines(fns, "Test", "prod", "API Production", "ProdDeployment");
  }

  // ---------------------------------------------------------------------
  // The whole API output
  // ---------------------------------------------------------------------

  lemma RootTitleKeys()
    ensures Keys(RootTitle) == []
  {
    KeysNone(RootTitle);
  }

  /** The keys of `GetCloudformationAPIResourcesString`: the root nodes, then
      the handlers' sections, then the stages. */
  lemma APIResourceKeys(fns: seq<MethodInfo>, environment: string)
    requires Routed(fns)
    ensures Keys(APIResourceLines(fns, environment)) ==
      RootKeys(RootNodes(Routes(fns))) + AllSectionKeys(fns) + StageKeys(environment)
  {
    var roots := RootResources(RootNodes(Routes(fns)));
    RootTitleKeys();
    RootResourcesKeys(RootNodes(Routes(fns)));
    MethodSectionsKeys(fns);
    StagesKeys(fns, environment);
    KeysSkipFront(RootTitle, roots);
    KeysAppend3(RootTitle + roots, MethodSections(fns), Stages(fns, environment));
  }

  // ---------------------------------------------------------------------
  // Cross references between the blocks
  // ---------------------------------------------------------------------

  /** A second-level node's parent is an emitted root node whenever no route
      with the same first segment has a single segment. */
  lemma ChildParentResolves(fns: seq<MethodInfo>, i: int)
    requires Routed(fns) && 0 <= i < |fns|
    requires |PathParts(RouteOf(fns[i]))| > 1
    requires forall j :: 0 <= j < |fns| && RootSegment(RouteOf(fns[j])) == RootSegment(RouteOf(fns[i])) ==>
      |PathParts(RouteOf(fns[j]))| > 1
    ensures ReplaceNonAlphanumeric(PathParts(RouteOf(fns[i]))[0]) + "APIResource" in RootKeys(RootNodes(Routes(fns)))
  {
    var routes := Routes(fns);
    RouteHasRoot(routes, i);
    var j :| 0 <= j <= i && Introduces(routes, j) && RootSegment(routes[j]) == RootSegment(routes[i]);
    IntroducerHasNode(routes, j);
    var nodes := RootNodes(routes);
    var k :| 0 <= k < |nodes| && nodes[k] == NodeOf(routes[j]);
    assert RootKeys(nodes)[k] == RootName(routes[j]) + "APIResource";
  }

  /** A handler with a one-segment route that introduces its segment has its
      own root node, which its methods point at. */
  lemma SingleSegmentResolves(fns: seq<MethodInfo>, i: int)
    requires Routed(fns)
    requires Introduces(Routes(fns), i)
    requires |PathParts(RouteOf(fns[i]))| == 1
    ensures FunctionName(fns[i]) + "APIResource" in RootKeys(RootNodes(Routes(fns)))
  {
    var routes := Routes(fns);
    IntroducerHasNode(routes, i);
    var nodes := RootNodes(routes);
    var k :| 0 <= k < |nodes| && nodes[k] == NodeOf(routes[i]);
    assert RootKeys(nodes)[k] == RootName(routes[i]) + "APIResource";
  }

  /** With exactly two segments the last segment is the second one, so the
      methods point at the handler's own second-level node. */
  lemma TwoSegmentResolves(fns: seq<MethodInfo>, environment: string, i: int)
    requires Routed(fns) && 0 <= i < |fns|
    requires |PathParts(RouteOf(fns[i]))| == 2
    ensures ResourceName(RouteOf(fns[i])) == ChildName(RouteOf(fns[i]))
    ensures ResourceName(RouteOf(fns[i])) + "APIResource" in Keys(APIResourceLines(fns, environment))
  {
    APIResourceKeys(fns, environment);
    SectionKeysIncluded(fns, i, ChildName(RouteOf(fns[i])) + "APIResource");
  }

  /** Every item of a deployment's `DependsOn:` list is an emitted method. */
  lemma DependsOnResolves(fns: seq<MethodInfo>, environment: string, i: int)
    requires Routed(fns) && 0 <= i < |fns|
    ensures FunctionName(fns[i]) + "APIMethod" in Keys(APIResourceLines(fns, environment))
  {
    APIResourceKeys(fns, environment);
    SectionKeysIncluded(fns, i, FunctionName(fns[i]) + "APIMethod");
  }

  // ---------------------------------------------------------------------
  // Lambdas
  // ---------------------------------------------------------------------

  function FunctionKeys(fns: seq<MethodInfo>): (keys: seq<string>)
    ensures |keys| == |fns|
    ensures forall i :: 0 <= i < |fns| ==> keys[i] == FunctionName(fns[i]) + "Function"
  {
    seq(|fns|, i requires 0 <= i < |fns| => FunctionName(fns[i]) + "Function")
  }

  lemma {:induction false} FunctionResourcesKeys(fns: seq<MethodInfo>)
    ensures Keys(FunctionResources(fns)) == FunctionKeys(fns)
  {
    if fns != [] {
      var p := fns[..|fns| - 1];
      var f := fns[|fns| - 1];
      FunctionResourcesKeys(p);
      FunctionResourceKeys(f, LambdaHandlerPrefix);
      KeysAppend(FunctionResources(p), FunctionResource(f, LambdaHandlerPrefix));
      assert FunctionKeys(fns) == FunctionKeys(p) + [FunctionName(f) + "Function"];
    }
  }

  /** One function per entry of the Lambda list, in list order. */
  lemma LambdaResourceKeys(fns: seq<MethodInfo>, environment: string)
    ensures Keys(LambdaResourceLines(fns, environment)) == FunctionKeys(fns)
  {
    FunctionResourcesKeys(fns);
    BlankIsNoKey();
    KeysSkipFront([Blank], FunctionResources(fns));
  }

  /** An API handler's function key is emitted twice into sam-base.yml: once
      among the API resources and once among the Lambdas. */
  lemma FunctionKeyTwice(manifest: seq<HandlerMethod>, m: HandlerMethod, environment: string)
    requires m in manifest && IsApiFunction(m)
    ensures FunctionName(ApiInfo(m)) + "Function" in Keys(APIResourceLines(APIFunctions(manifest), environment))
    ensures FunctionName(ApiInfo(m)) + "Function" in Keys(LambdaResourceLines(LambdaFunctions(manifest), environment))
  {
    var fns, lambdas := APIFunctions(manifest), LambdaFunctions(manifest);
    ApiHandlersAreLambdas(manifest, m);
    var i :| 0 <= i < |fns| && fns[i] == ApiInfo(m);
    APIResourceKeys(fns, environment);
    SectionKeysIncluded(fns, i, FunctionName(ApiInfo(m)) + "Function");
    var j :| 0 <= j < |lambdas| && lambdas[j] == LambdaInfo(m);
    LambdaResourceKeys(lambdas, environment);
    assert FunctionKeys(lambdas)[j] == FunctionName(ApiInfo(m)) + "Function";
  }

  // ---------------------------------------------------------------------
  // Lambda versions
  // ---------------------------------------------------------------------

  /** A keyless head, a blank line and two padded one-key blocks. */
  lemma HeadPaddedPairKeys(head: seq<Line>, b1: seq<Line>, b2: seq<Line>, k1: string, k2: string)
    requires Keys(head) == [] && Keys(b1) == [k1] && Keys(b2) == [k2]
    ensures Keys(head + [Blank] + Padded(b1) + Padded(b2)) == [k1, k2]
  {
    PaddedKeys(b1);
    PaddedKeys(b2);
    KeysThenBlank(head);
    KeysSkipFront(head + [Blank], Padded(b1));
    KeysAppend(head + [Blank] + Padded(b1), Padded(b2));
  }

  lemma VersionSectionKeys(f: MethodInfo, environment: string, version: int32)
    ensures Keys(VersionSection(f, environment, version)) == [VersionKey(f, version), AliasKey(f)]
  {
    var vk := VersionKey(f, version);
    var name := FunctionPrefix + f.methodName;
    CommentIsNoKey(vk + " related resources.");
    VersionBlockShape(vk, name);
    AliasBlockShape(AliasKey(f), name, vk, environment);
    HeadPaddedPairKeys([Line(1, "# " + (vk + " related resources."))], VersionBlock(vk, name),
      AliasBlock(AliasKey(f), name, vk, environment), vk, AliasKey(f));
  }

  /** The Version block retains `XVersionN`; the Alias, also retained, waits
      for it, publishes it and is named after the environment; both name the
      same `nway-` function. */
  lemma VersionSectionLinks(f: MethodInfo, environment: string, version: int32)
    ensures var vb := VersionBlock(VersionKey(f, version), "nway-" + f.methodName);
      && Keys(vb) == [VersionKey(f, version)]
      && Line(2, "DeletionPolicy: Retain") in vb
      && Line(3, "FunctionName: " + ("nway-" + f.methodName)) in vb
    ensures var ab := AliasBlock(AliasKey(f), "nway-" + f.methodName, VersionKey(f, version), environment);
      && Keys(ab) == [AliasKey(f)]
      && Line(2, "DeletionPolicy: Retain") in ab
      && Line(2, "DependsOn: " + VersionKey(f, version)) in ab
      && Line(3, "FunctionVersion: !GetAtt " + VersionKey(f, version) + ".Version") in ab
      && Line(3, "Name: " + environment) in ab
      && Line(3, "FunctionName: " + ("nway-" + f.methodName)) in ab
  {
    VersionBlockShape(VersionKey(f, version), "nway-" + f.methodName);
    AliasBlockShape(AliasKey(f), "nway-" + f.methodName, VersionKey(f, version), environment);
  }

  lemma VersionSectionsKeysSnoc(fns: seq<MethodInfo>, environment: string, version: int32)
    requires fns != []
    ensures Keys(VersionSections(fns, environment, version)) ==
      Keys(VersionSections(fns[..|fns| - 1], environment, version)) + [VersionKey(fns[|fns| - 1], version), AliasKey(fns[|fns| - 1])]
  {
    var p, f := fns[..|fns| - 1], fns[|fns| - 1];
    VersionSectionKeys(f, environment, version);
    KeysAppend(VersionSections(p, environment, version), VersionSection(f, environment, version));
  }

  lemma PairKeysSnoc(pk: seq<string>, p: seq<MethodInfo>, f: MethodInfo, version: int32)
    requires |pk| == 2 * |p|
    requires forall i :: 0 <= i < |p| ==> pk[2 * i] == VersionKey(p[i], version) && pk[2 * i + 1] == AliasKey(p[i])
    ensures var keys, fns := pk + [VersionKey(f, version), AliasKey(f)], p + [f];
      && |keys| == 2 * |fns|
      && forall i :: 0 <= i < |fns| ==> keys[2 * i] == VersionKey(fns[i], version) && keys[2 * i + 1] == AliasKey(fns[i])
  {
    var keys, fns := pk + [VersionKey(f, version), AliasKey(f)], p + [f];
    forall i | 0 <= i < |fns|
      ensures keys[2 * i] == VersionKey(fns[i], version) && keys[2 * i + 1] == AliasKey(fns[i])
    {
      if i < |p| {
        assert fns[i] == p[i];
      }
    }
  }

  /** Exactly one Version/Alias pair per entry, in list order. */
  lemma {:induction false} VersionSectionsKeys(fns: seq<MethodInfo>, environment: string, version: int32)
    ensures |Keys(VersionSections(fns, environment, version))| == 2 * |fns|
    ensures forall i :: 0 <= i < |fns| ==>
      && Keys(VersionSections(fns, environment, version))[2 * i] == VersionKey(fns[i], version)
      && Keys(VersionSections(fns, environment, version))[2 * i + 1] == AliasKey(fns[i])
  {
    if fns != [] {
      var p := fns[..|fns| - 1];
      var f := fns[|fns| - 1];
      VersionSectionsKeys(p, environment, version);
      VersionSectionsKeysSnoc(fns, environment, version);
      PairKeysSnoc(Keys(VersionSections(p, environment, version)), p, f, version);
      assert fns == p + [f];
    }
  }


  /** `GetCloudformationLambdasVersionsResourcesString` emits those pairs
      with the environment's version number. */
  lemma LambdasVersionsKeys(fns: seq<MethodInfo>, environment: string, buildVersion: int32)
    ensures Keys(LambdasVersionsLines(fns, environment, buildVersion)) ==
      Keys(VersionSections(fns, environment, EnvironmentVersion(environment, buildVersion)))
  {
    BlankIsNoKey();
    KeysSkipFront([Blank], VersionSections(fns, environment, EnvironmentVersion(environment, buildVersion)));
  }

  lemma VersionKeyInjective(f: MethodInfo, v1: int32, v2: int32)
    ensures VersionKey(f, v1) == VersionKey(f, v2) ==> v1 == v2
  {
    var s1, s2 := IntToString(v1 as int), IntToString(v2 as int);
    PrefixCancel(FunctionName(f), "Version" + s1, "Version" + s2);
    PrefixCancel("Version", s1, s2);
    if s1 == s2 {
      IntToStringInjective(v1 as int, v2 as int);
    }
  }


  /** A Version a staging build creates never has the key of one another
      environment's build creates in the shared account. */
  lemma StagingVersionKeysDiffer(f: MethodInfo, environment: string, stagingBuild: int32, otherBuild: int32)
    requires environment != "staging"
    ensures VersionKey(f, EnvironmentVersion("staging", stagingBuild)) != VersionKey(f, EnvironmentVersion(environment, otherBuild))
  {
    VersionKeyInjective(f, EnvironmentVersion("staging", stagingBuild), EnvironmentVersion(environment, otherBuild));
    StagingNeverCollides(environment, stagingBuild, otherBuild);
  }

  lemma VersionKeysIncluded(fns: seq<MethodInfo>, environment: string, version: int32, i: int)
    requires 0 <= i < |fns|
    ensures VersionKey(fns[i], version) in Keys(VersionSections(fns, environment, version))
  {
    VersionSectionsKeys(fns, environment, version);
    assert Keys(VersionSections(fns, environment, version))[2 * i] == VersionKey(fns[i], version);
  }

  /** An API handler's version key is emitted twice into the environment
      template: once from the API list and once from the Lambda list. */
  lemma VersionKeyTwice(manifest: seq<HandlerMethod>, m: HandlerMethod, environment: string, buildVersion: int32)
    requires m in manifest && IsApiFunction(m)
    ensures var v := EnvironmentVersion(environment, buildVersion);
      && VersionKey(ApiInfo(m), v) in Keys(LambdasVersionsLines(APIFunctions(manifest), environment, buildVersion))
      && VersionKey(ApiInfo(m), v) in Keys(LambdasVersionsLines(LambdaFunctions(manifest), environment, buildVersion))
  {
    var v := EnvironmentVersion(environment, buildVersion);
    var fns, lambdas := APIFunctions(manifest), LambdaFunctions(manifest);
    ApiHandlersAreLambdas(manifest, m);
    var i :| 0 <= i < |fns| && fns[i] == ApiInfo(m);
    var j :| 0 <= j < |lambdas| && lambdas[j] == LambdaInfo(m);
    VersionKeysIncluded(fns, environment, v, i);
    VersionKeysIncluded(lambdas, environment, v, j);
    LambdasVersionsKeys(fns, environment, buildVersion);
    LambdasVersionsKeys(lambdas, environment, buildVersion);
  }

  // ---------------------------------------------------------------------
  // Injection into the templates
  // ---------------------------------------------------------------------

  lemma TemplatesWithoutToken(samSource: string, samXSource: string, manifest: seq<HandlerMethod>,
                              environment: string, buildVersion: int32)
    ensures !Occurs(samSource, Token) ==> BaseTemplate(samSource, manifest, environment) == samSource
    ensures !Occurs(samXSource, Token) ==> EnvironmentTemplate(samXSource, manifest, environment, buildVersion) == samXSource
  {
    var base := Text(APIResourceLines(APIFunctions(manifest), environment)) +
      Text(LambdaResourceLines(LambdaFunctions(manifest), environment));
    if !Occurs(samSource, Token) {
      ReplaceAbsent(samSource, Token, Banner(base));
    }
    if !Occurs(samXSource, Token) {
      ReplaceAbsent(samXSource, Token, Banner(VersionsPayload(manifest, environment, buildVersion)));
    }
  }

  /** The first placeholder of sam.yml is replaced by the banner (with no
      line break after it), the API resources, the Lambdas and the end
      marker; the rest is processed the same way. */
  lemma BaseTemplateSplice(samSource: string, manifest: seq<HandlerMethod>, environment: string, i: nat)
    requires OccursAt(samSource, Token, i)
    requires forall j :: 0 <= j < i ==> !OccursAt(samSource, Token, j)
    ensures BaseTemplate(samSource, manifest, environment) ==
      samSource[..i]
      + (" INJECTED CODE:"
         + (Text(APIResourceLines(APIFunctions(manifest), environment)) +
            Text(LambdaResourceLines(LambdaFunctions(manifest), environment)))
         + IndentText(1, "# END of injected code"))
      + BaseTemplate(samSource[i + |Token|..], manifest, environment)
  {
    var base := Text(APIResourceLines(APIFunctions(manifest), environment)) +
      Text(LambdaResourceLines(LambdaFunctions(manifest), environment));
    ReplaceFirst(samSource, Token, Banner(base), i);
  }

  lemma EnvironmentTemplateSplice(samXSource: string, manifest: seq<HandlerMethod>, environment: string,
                                  buildVersion: int32, i: nat)
    requires OccursAt(samXSource, Token, i)
    requires forall j :: 0 <= j < i ==> !OccursAt(samXSource, Token, j)
    ensures EnvironmentTemplate(samXSource, manifest, environment, buildVersion) ==
      samXSource[..i]
      + (" INJECTED CODE:" + VersionsPayload(manifest, environment, buildVersion) + IndentText(1, "# END of injected code"))
      + EnvironmentTemplate(samXSource[i + |Token|..], manifest, environment, buildVersion)
  {
    ReplaceFirst(samXSource, Token, Banner(VersionsPayload(manifest, environment, buildVersion)), i);
  }

  // ---------------------------------------------------------------------
  // Worked examples
  // ---------------------------------------------------------------------

  /** An API entry as the scanner builds it with CORS off. */
  function Endpoint(methodName: string, route: string): MethodInfo {
    MethodInfo(methodName, Some(route), 40, false)
  }

  /** The sample handler is scanned twice: as an API handler with timeout
      40 and as a Lambda with the annotation's timeout 20. */
  lemma CheckStatusScanned()
    ensures APIFunctions([CheckStatus]) == [Endpoint("CheckStatus", "utils/status")]
    ensures LambdaFunctions([CheckStatus]) == [MethodInfo("CheckStatus", None, 20, false)]
  {
    assert [CheckStatus][..0] == [];
  }

  lemma OneEndpoint(f: MethodInfo)
    requires f.methodPath.Some?
    ensures Routed([f])
    ensures RootNodes(Routes([f])) == [NodeOf(RouteOf(f))]
    ensures AllSectionKeys([f]) == SectionKeys(f)
  {
    assert Routes([f])[..0] == [];
    assert [f][..0] == [];
  }

  /** The keys of an entry with CORS off on a route "s/t/u". */
  lemma ThreeSegmentSectionKeys(name: string, first: string, second: string, third: string)
    requires AllAlphanumeric(name) && AllAlphanumeric(first) && AllAlphanumeric(second) && AllAlphanumeric(third)
    ensures PathParts(RouteOf(Endpoint(name, first + "/" + second + "/" + third))) == [first, second, third]
    ensures SectionKeys(Endpoint(name, first + "/" + second + "/" + third)) ==
      [name + "Function", second + "APIResource", name + "APIMethod"]
    ensures ResourceName(RouteOf(Endpoint(name, first + "/" + second + "/" + third))) == third
  {
    AlphanumericHasNoSlash(first);
    AlphanumericHasNoSlash(second);
    AlphanumericHasNoSlash(third);
    SplitOnSlashThree(first, second, third);
    ReplaceNonAlphanumericKeeps(name);
    ReplaceNonAlphanumericKeeps(second);
    ReplaceNonAlphanumericKeeps(third);
  }

  /** A single entry on "s/t/u": the root node "s", the function, the
      second-level node "t" and the POST method, which points at "u". */
  lemma ThreeSegmentKeys(name: string, first: string, second: string, third: string, environment: string)
    requires AllAlphanumeric(name) && AllAlphanumeric(first) && AllAlphanumeric(second) && AllAlphanumeric(third)
    ensures var f := Endpoint(name, first + "/" + second + "/" + third);
      && Keys(APIResourceLines([f], environment)) ==
        [first + "APIResource"] + [name + "Function", second + "APIResource", name + "APIMethod"] + StageKeys(environment)
      && Line(3, "ResourceId: !Ref " + (third + "APIResource")) in MethodSection(f)
  {
    var f := Endpoint(name, first + "/" + second + "/" + third);
    OneEndpoint(f);
    ThreeSegmentSectionKeys(name, first, second, third);
    ReplaceNonAlphanumericKeeps(first);
    assert NodeOf(RouteOf(f)) == RootNode(first, first);
    assert RootKeys([RootNode(first, first)]) == [first + "APIResource"];
    APIResourceKeys([f], environment);
    MethodResourceLines(f);
  }

  /** ... so when "u" differs from "s" and "t", the POST method points at a
      node that is never emitted. */
  lemma ThreeSegmentResourceDangles(name: string, first: string, second: string, third: string, environment: string)
    requires AllAlphanumeric(name) && AllAlphanumeric(first) && AllAlphanumeric(second) && AllAlphanumeric(third)
    requires third != first && third != second
    ensures third + "APIResource" !in Keys(APIResourceLines([Endpoint(name, first + "/" + second + "/" + third)], environment))
  {
    ThreeSegmentKeys(name, first, second, third, environment);
    ThreeSegmentKeysMiss(name, first, second, third, environment);
  }

  lemma ThreeSegmentKeysMiss(name: string, first: string, second: string, third: string, environment: string)
    requires third != first && third != second
    ensures third + "APIResource" !in
      [first + "APIResource"] + [name + "Function", second + "APIResource", name + "APIMethod"] + StageKeys(environment)
  {
    SuffixDistinct(third, first, "APIResource");
    SuffixDistinct(third, second, "APIResource");
    LastOf(third, "APIResource");
    LastOf(name, "Function");
    LastOf(name, "APIMethod");
  }
}
