/** What the command-line tool's generator promises, stated over the lines it
    emits: the keys (the level-1 `Name:` lines) of every section, the
    property lines that tie the blocks together, and the placeholder
    substitution. */
module ToolProperties {
  import opened Strings
  import opened Template
  import opened Manifest
  import opened Versioning
  import opened PathTree
  import opened ToolInjection

  // ---------------------------------------------------------------------
  // Scanner
  // ---------------------------------------------------------------------

  /** Scanning two parts of a manifest one after the other gives the two
      lists one after the other: discovery order is kept. */
  lemma {:induction false} APIFunctionsAppend(a: seq<HandlerMethod>, b: seq<HandlerMethod>)
    ensures APIFunctions(a + b) == APIFunctions(a) + APIFunctions(b)
    decreases |b|
  {
    if b == [] {
      assert a + b == a;
    } else {
      var b' := b[..|b| - 1];
      APIFunctionsAppend(a, b');
      assert (a + b)[..|a + b| - 1] == a + b';
    }
  }

  lemma {:induction false} LambdaFunctionsAppend(a: seq<HandlerMethod>, b: seq<HandlerMethod>)
    ensures LambdaFunctions(a + b) == LambdaFunctions(a) + LambdaFunctions(b)
    decreases |b|
  {
    if b == [] {
      assert a + b == a;
    } else {
      var b' := b[..|b| - 1];
      LambdaFunctionsAppend(a, b');
      assert (a + b)[..|a + b| - 1] == a + b';
    }
  }

  /** What one method contributes to each list. */
  lemma ScanOne(m: HandlerMethod)
    ensures APIFunctions([m]) == if IsApiFunction(m) then [ApiDescriptor(m)] else []
    ensures LambdaFunctions([m]) == if IsLambdaFunction(m) then [LambdaDescriptor(m)] else []
  {
    assert [m][..0] == [];
  }

  /** The API list holds exactly the descriptors of the API-annotated methods
      whose names are not those of System.Object members, with the route
      defaulting to the method name. */
  lemma {:induction false} APIFunctionsMembers(manifest: seq<HandlerMethod>, f: ResourceProperties)
    ensures f in APIFunctions(manifest) <==>
      exists m :: m in manifest && Scanned(m) && m.annotation.ApiResource? && f == ApiDescriptor(m)
    ensures f in APIFunctions(manifest) ==>
      f.pathPart.Some? && f.methodName !in ObjectMethodNames
  {
    if manifest != [] {
      var p := manifest[..|manifest| - 1];
      var m := manifest[|manifest| - 1];
      APIFunctionsMembers(p, f);
      assert manifest == p + [m];
      if f in APIFunctions(manifest) && f !in APIFunctions(p) {
        assert IsApiFunction(m) && f == ApiDescriptor(m);
      }
    }
  }

  /** The Lambda list holds exactly the descriptors of the methods with a
      Lambda annotation that is not an API annotation, skipping System.Object
      member names; none of them carries a route. */
  lemma {:induction false} LambdaFunctionsMembers(manifest: seq<HandlerMethod>, f: ResourceProperties)
    ensures f in LambdaFunctions(manifest) <==>
      exists m :: m in manifest && Scanned(m) && m.annotation.LambdaResource? && f == LambdaDescriptor(m)
    ensures f in LambdaFunctions(manifest) ==>
      f.pathPart.None? && f.methodName !in ObjectMethodNames && !f.enableCors
  {
    if manifest != [] {
      var p := manifest[..|manifest| - 1];
      var m := manifest[|manifest| - 1];
      LambdaFunctionsMembers(p, f);
      assert manifest == p + [m];
      if f in LambdaFunctions(manifest) && f !in LambdaFunctions(p) {
        assert IsLambdaFunction(m) && f == LambdaDescriptor(m);
      }
    }
  }

  /** No descriptor is on both lists. */
  lemma ScannedListsDisjoint(manifest: seq<HandlerMethod>, f: ResourceProperties)
    ensures !(f in APIFunctions(manifest) && f in LambdaFunctions(manifest))
  {
    APIFunctionsMembers(manifest, f);
    LambdaFunctionsMembers(manifest, f);
  }

  /** An API handler is kept off the Lambda list: its annotation is found by
      the Lambda lookup too, and only the `is APIGatewayResourceProperties`
      test excludes it. When no other method of its class shares its name,
      no Lambda entry names it at all. */
  lemma ApiHandlersNotLambdas(manifest: seq<HandlerMethod>, m: HandlerMethod)
    requires m in manifest && IsApiFunction(m)
    requires forall m' :: m' in manifest && m'.className == m.className && m'.methodName == m.methodName ==> m' == m
    ensures ApiDescriptor(m) in APIFunctions(manifest)
    ensures LambdaAttribute(m.annotation).Some? && !IsLambdaFunction(m)
    ensures forall f :: f in LambdaFunctions(manifest) ==> !(f.methodClassPath == m.className && f.methodName == m.methodName)
  {
    APIFunctionsMembers(manifest, ApiDescriptor(m));
    forall f | f in LambdaFunctions(manifest)
      ensures !(f.methodClassPath == m.className && f.methodName == m.methodName)
    {
      LambdaFunctionsMembers(manifest, f);
    }
  }

  /** Any API annotation: the route is its path part, or the method's name
      when that is null, and CORS and the timeout are copied from it; the
      method is not a standalone Lambda. */
  lemma ApiAnnotationScanned(c: string, n: string, pathPart: Option<string>, cors: bool, timeout: int)
    requires n !in ObjectMethodNames
    ensures APIFunctions([HandlerMethod(c, n, ApiResource(pathPart, cors, timeout))]) ==
      [ResourceProperties(Some(pathPart.GetOr(n)), c, n, cors, timeout)]
    ensures LambdaFunctions([HandlerMethod(c, n, ApiResource(pathPart, cors, timeout))]) == []
  {
    ScanOne(HandlerMethod(c, n, ApiResource(pathPart, cors, timeout)));
  }

  /** An API annotation written with its path part alone gets CORS off and
      the 20-second timeout it inherits from the Lambda annotation. */
  lemma DefaultApiDescriptor(c: string, n: string, pathPart: Option<string>)
    requires n !in ObjectMethodNames
    ensures APIFunctions([HandlerMethod(c, n, ApiAnnotation(pathPart))]) ==
      [ResourceProperties(Some(pathPart.GetOr(n)), c, n, false, 20)]
  {
    ApiAnnotationScanned(c, n, pathPart, DefaultEnableCors, DefaultTimeout);
  }

  /** A Lambda annotation written without arguments: a standalone Lambda
      with no route, CORS off and a 20-second timeout, and no API handler. */
  lemma DefaultLambdaDescriptor(c: string, n: string)
    requires n !in ObjectMethodNames
    ensures LambdaFunctions([HandlerMethod(c, n, LambdaAnnotation())]) == [ResourceProperties(None, c, n, false, 20)]
    ensures APIFunctions([HandlerMethod(c, n, LambdaAnnotation())]) == []
  {
    ScanOne(HandlerMethod(c, n, LambdaAnnotation()));
  }

  /** Every route the path tree is built from belongs to a scanned API
      handler: its name, with its path part or, when that is null, its name
      again. */
  lemma ScannedRoutes(manifest: seq<HandlerMethod>, k: int)
    requires 0 <= k < |APIFunctions(manifest)|
    ensures exists m ::
              && m in manifest && IsApiFunction(m)
              && Routes(APIFunctions(manifest))[k] == Route(m.methodName, m.annotation.pathPart.GetOr(m.methodName))
  {
    APIFunctionsMembers(manifest, APIFunctions(manifest)[k]);
  }

  /** A method named like a System.Object member adds nothing to either list. */
  lemma ObjectMethodsSkipped(manifest: seq<HandlerMethod>, m: HandlerMethod)
    requires m.methodName in ObjectMethodNames
    ensures APIFunctions(manifest + [m]) == APIFunctions(manifest)
    ensures LambdaFunctions(manifest + [m]) == LambdaFunctions(manifest)
  {
    assert (manifest + [m])[..|manifest|] == manifest;
  }

  // ---------------------------------------------------------------------
  // Root paths
  // ---------------------------------------------------------------------

  /** One root node: its key, and the lines binding it under the API root
      and to its segment. */
  lemma RootResourceShape(node: RootNode)
    requires AllAlphanumeric(node.name)
    ensures Keys(RootResource(node)) == [node.name + "APIResource"]
    ensures Line(3, "ParentId: " + RootParent) in RootResource(node)
    ensures Line(3, "PathPart: " + node.segment) in RootResource(node)
  {
    var key := node.name + "APIResource";
    SuffixedKey(node.name, "APIResource");
    ResourceBlockShape(RestApi, key, RootParent, node.segment);
    KeysAppend(ResourceBlock(RestApi, key, RootParent, node.segment), [Blank]);
    BlankIsNoKey();
  }

  lemma {:induction false} RootResourcesKeys(nodes: seq<RootNode>)
    requires forall k :: 0 <= k < |nodes| ==> AllAlphanumeric(nodes[k].name)
    ensures Keys(RootResources(nodes)) == RootKeys(nodes)
  {
    if nodes != [] {
      var p := nodes[..|nodes| - 1];
      var n := nodes[|nodes| - 1];
      RootResourcesKeys(p);
      RootResourceShape(n);
      KeysAppend(RootResources(p), RootResource(n));
      RootKeysSnoc(p, n);
      assert nodes == p + [n];
    }
  }

  /** The root-path section holds one `…APIResource` block per distinct first
      segment, in order of first appearance, each named by the route that
      introduced the segment. */
  lemma RootPathKeys(fns: seq<ResourceProperties>)
    requires Routed(fns)
    ensures var routes := Routes(fns);
      && |Keys(RootResources(RootNodes(routes)))| == |Introducers(routes)|
      && (forall k :: 0 <= k < |Introducers(routes)| ==>
            0 <= Introducers(routes)[k] < |routes| &&
            Keys(RootResources(RootNodes(routes)))[k] == RootName(routes[Introducers(routes)[k]]) + "APIResource")
  {
    var routes := Routes(fns);
    RootResourcesKeys(RootNodes(routes));
    RootNodesFirstAppearance(routes);
  }

  // ---------------------------------------------------------------------
  // The blocks of one API handler
  // ---------------------------------------------------------------------

  lemma FunctionResourceKeys(assemblyName: string, f: ResourceProperties, namePrefix: string)
    ensures Keys(FunctionResource(assemblyName, f, namePrefix)) == [FunctionName(f) + "Function"]
  {
    var key := FunctionName(f) + "Function";
    SuffixedKey(FunctionName(f), "Function");
    var handler := assemblyName + "::" + f.methodClassPath + "::" + f.methodName;
    FunctionBlockShape(key, namePrefix + f.methodName, handler, ExecutionRole, f.timeoutInSeconds);
    KeysThenBlank(FunctionBlock(key, namePrefix + f.methodName, handler, ExecutionRole, f.timeoutInSeconds));
  }

  /** The function block names the function with the prefix, points at the
      handler in the assembly and carries the annotation's timeout. */
  lemma FunctionResourceLines(assemblyName: string, f: ResourceProperties, namePrefix: string)
    ensures Line(3, "FunctionName: " + (namePrefix + f.methodName)) in FunctionResource(assemblyName, f, namePrefix)
    ensures Line(3, "Handler: " + (assemblyName + "::" + f.methodClassPath + "::" + f.methodName) + " ") in
      FunctionResource(assemblyName, f, namePrefix)
    ensures Line(3, "Timeout: " + IntToString(f.timeoutInSeconds)) in FunctionResource(assemblyName, f, namePrefix)
    ensures Line(3, "Role: " + ExecutionRole) in FunctionResource(assemblyName, f, namePrefix)
  {
    var key := FunctionName(f) + "Function";
    SuffixedKey(FunctionName(f), "Function");
    var handler := assemblyName + "::" + f.methodClassPath + "::" + f.methodName;
    FunctionBlockShape(key, namePrefix + f.methodName, handler, ExecutionRole, f.timeoutInSeconds);
  }

  lemma ChildResourceKeys(r: Route)
    requires |PathParts(r)| > 1
    ensures Keys(ChildResource(r)) == [ReplaceNonAlphanumeric(PathParts(r)[0] + PathParts(r)[1]) + "APIResource"]
  {
    var key := ChildName(r) + "APIResource";
    SuffixedKey(ChildName(r), "APIResource");
    var parent := "!Ref " + ReplaceNonAlphanumeric(PathParts(r)[0]) + "APIResource";
    ResourceBlockShape(RestApi, key, parent, PathParts(r)[1]);
    KeysThenBlank(ResourceBlock(RestApi, key, parent, PathParts(r)[1]));
  }

  /** The second-level node of a route with two or more segments: its
      parent is the node named after the sanitized first segment and its
      path part the second segment; later segments play no part. */
  lemma ChildResourceLines(r: Route)
    requires |PathParts(r)| > 1
    ensures Line(3, "ParentId: " + ("!Ref " + ReplaceNonAlphanumeric(PathParts(r)[0]) + "APIResource")) in ChildResource(r)
    ensures Line(3, "PathPart: " + PathParts(r)[1]) in ChildResource(r)
  {
    var key := ChildName(r) + "APIResource";
    SuffixedKey(ChildName(r), "APIResource");
    var parent := "!Ref " + ReplaceNonAlphanumeric(PathParts(r)[0]) + "APIResource";
    ResourceBlockShape(RestApi, key, parent, PathParts(r)[1]);
  }

  lemma MethodResourceKeys(f: ResourceProperties)
    requires f.pathPart.Some?
    ensures Keys(MethodResource(f)) == [FunctionName(f) + "APIMethod"]
  {
    SuffixedKey(FunctionName(f), "APIMethod");
    var resource := ResourceName(RouteOf(f)) + "APIResource";
    MethodBlockShape(RestApi, FunctionName(f), resource, ExecutionRole);
    KeysThenBlank(MethodBlock(RestApi, FunctionName(f), resource, ExecutionRole));
  }

  /** The POST method points at the second-level node of a route with two or
      more segments, and at the node named after the handler otherwise. */
  lemma MethodResourceLines(f: ResourceProperties)
    requires f.pathPart.Some?
    ensures Line(3, "HttpMethod: POST") in MethodResource(f)
    ensures |PathParts(RouteOf(f))| > 1 ==>
      Line(3, "ResourceId: !Ref " + (ChildName(RouteOf(f)) + "APIResource")) in MethodResource(f)
    ensures |PathParts(RouteOf(f))| == 1 ==>
      Line(3, "ResourceId: !Ref " + (FunctionName(f) + "APIResource")) in MethodResource(f)
    ensures Line(4, InvocationUri(FunctionName(f) + "Function")) in MethodResource(f)
  {
    SuffixedKey(FunctionName(f), "APIMethod");
    var resource := ResourceName(RouteOf(f)) + "APIResource";
    MethodBlockShape(RestApi, FunctionName(f), resource, ExecutionRole);
  }

  lemma CorsResourceKeys(f: ResourceProperties)
    requires f.pathPart.Some?
    ensures Keys(CorsResource(f)) == [FunctionName(f) + "APIMethodOPTIONS"]
  {
    SuffixedKey(FunctionName(f), "APIMethodOPTIONS");
    var resource := ResourceName(RouteOf(f)) + "APIResource";
    var opts := OptionsBlock(RestApi, FunctionName(f), resource);
    OptionsBlockShape(RestApi, FunctionName(f), resource);
    var comment := [Line(1, "# enabling OPTIONS for " + f.methodName)];
    CommentIsNoKey("enabling OPTIONS for " + f.methodName);
    KeysThenBlank(comment);
    KeysAppend(comment + [Blank], opts);
    KeysThenBlank((comment + [Blank]) + opts);
  }

  /** The OPTIONS method points at the same node as the POST method. */
  lemma CorsResourceLines(f: ResourceProperties)
    requires f.pathPart.Some?
    ensures Line(3, "HttpMethod: OPTIONS") in CorsResource(f)
    ensures Line(3, "ResourceId: !Ref " + (ResourceName(RouteOf(f)) + "APIResource")) in CorsResource(f)
    ensures Line(3, "ResourceId: !Ref " + (ResourceName(RouteOf(f)) + "APIResource")) in MethodResource(f)
  {
    SuffixedKey(FunctionName(f), "APIMethodOPTIONS");
    SuffixedKey(FunctionName(f), "APIMethod");
    var resource := ResourceName(RouteOf(f)) + "APIResource";
    OptionsBlockShape(RestApi, FunctionName(f), resource);
    MethodBlockShape(RestApi, FunctionName(f), resource, ExecutionRole);
  }

  /** The keys one API handler contributes: its function, its second-level
      node when the route has one, its POST method and, with CORS enabled, its
      OPTIONS method. */
  function SectionKeys(f: ResourceProperties): seq<string>
    requires f.pathPart.Some?
  {
    [FunctionName(f) + "Function"]
    + (if |PathParts(RouteOf(f))| > 1 then [ChildName(RouteOf(f)) + "APIResource"] else [])
    + [FunctionName(f) + "APIMethod"]
    + (if f.enableCors then [FunctionName(f) + "APIMethodOPTIONS"] else [])
  }

  lemma MethodSectionKeys(assemblyName: string, f: ResourceProperties, namePrefix: string)
    requires f.pathPart.Some?
    ensures Keys(MethodSection(assemblyName, f, namePrefix)) == SectionKeys(f)
  {
    var r := RouteOf(f);
    var head := [Line(1, "# " + f.methodName)];
    var fr := FunctionResource(assemblyName, f, namePrefix);
    var child := if |PathParts(r)| > 1 then ChildResource(r) else [];
    var cors := if f.enableCors then CorsResource(f) else [];
    CommentIsNoKey(f.methodName);
    FunctionResourceKeys(assemblyName, f, namePrefix);
    ChildPartKeys(r);
    MethodResourceKeys(f);
    CorsPartKeys(f);
    KeysAppend(head, fr);
    assert Keys(head + fr) == [FunctionName(f) + "Function"] by {
      assert [] + Keys(fr) == Keys(fr);
    }
    KeysAppend3(head + fr, child, MethodResource(f));
    KeysAppend(head + fr + child + MethodResource(f), cors);
  }

  /** The POST method of a section invokes the function block of the same
      section: its integration URI names the one key the function block
      defines. */
  lemma MethodInvokesOwnFunction(assemblyName: string, f: ResourceProperties, namePrefix: string)
    requires f.pathPart.Some?
    ensures Keys(FunctionResource(assemblyName, f, namePrefix)) == [FunctionName(f) + "Function"]
    ensures Line(4, InvocationUri(FunctionName(f) + "Function")) in MethodSection(assemblyName, f, namePrefix)
  {
    FunctionResourceKeys(assemblyName, f, namePrefix);
    MethodResourceLines(f);
  }

  lemma ChildPartKeys(r: Route)
    ensures Keys(if |PathParts(r)| > 1 then ChildResource(r) else []) ==
      if |PathParts(r)| > 1 then [ChildName(r) + "APIResource"] else []
  {
    if |PathParts(r)| > 1 {
      ChildResourceKeys(r);
    }
  }

  lemma CorsPartKeys(f: ResourceProperties)
    requires f.pathPart.Some?
    ensures Keys(if f.enableCors then CorsResource(f) else []) ==
      if f.enableCors then [FunctionName(f) + "APIMethodOPTIONS"] else []
  {
    if f.enableCors {
      CorsResourceKeys(f);
    }
  }

  /** The OPTIONS method is emitted exactly when CORS is enabled. */
  lemma CorsIffEnabled(assemblyName: string, f: ResourceProperties, namePrefix: string)
    requires f.pathPart.Some?
    ensures FunctionName(f) + "APIMethodOPTIONS" in Keys(MethodSection(assemblyName, f, namePrefix)) <==> f.enableCors
  {
    MethodSectionKeys(assemblyName, f, namePrefix);
    OptionsKeyInSection(f);
  }

  /** Only the OPTIONS key ends in 'S'. */
  lemma OptionsKeyInSection(f: ResourceProperties)
    requires f.pathPart.Some?
    ensures FunctionName(f) + "APIMethodOPTIONS" in SectionKeys(f) <==> f.enableCors
  {
    var o := FunctionName(f) + "APIMethodOPTIONS";
    assert o[|o| - 1] == 'S';
    var fk := FunctionName(f) + "Function";
    assert fk[|fk| - 1] == 'n';
    var mk := FunctionName(f) + "APIMethod";
    assert mk[|mk| - 1] == 'd';
    if |PathParts(RouteOf(f))| > 1 {
      var ck := ChildName(RouteOf(f)) + "APIResource";
      assert ck[|ck| - 1] == 'e';
    }
  }

  // ---------------------------------------------------------------------
  // All API handlers
  // ---------------------------------------------------------------------

  function AllSectionKeys(fns: seq<ResourceProperties>): seq<string>
    requires Routed(fns)
  {
    if fns == [] then [] else AllSectionKeys(fns[..|fns| - 1]) + SectionKeys(fns[|fns| - 1])
  }

  lemma {:induction false} MethodSectionsKeys(assemblyName: string, fns: seq<ResourceProperties>, namePrefix: string)
    requires Routed(fns)
    ensures Keys(MethodSections(assemblyName, fns, namePrefix)) == AllSectionKeys(fns)
  {
    if fns != [] {
      var p := fns[..|fns| - 1];
      var f := fns[|fns| - 1];
      MethodSectionsKeys(assemblyName, p, namePrefix);
      MethodSectionKeys(assemblyName, f, namePrefix);
      KeysAppend(MethodSections(assemblyName, p, namePrefix), MethodSection(assemblyName, f, namePrefix));
    }
  }

  /** Every handler's own keys are among the keys of the method sections. */
  lemma {:induction false} SectionKeysIncluded(fns: seq<ResourceProperties>, i: int, k: string)
    requires Routed(fns) && 0 <= i < |fns|
    requires k in SectionKeys(fns[i])
    ensures k in AllSectionKeys(fns)
  {
    var p := fns[..|fns| - 1];
    if i < |fns| - 1 {
      assert p[i] == fns[i];
      SectionKeysIncluded(p, i, k);
    }
  }

  // ---------------------------------------------------------------------
  // Stages and deployments
  // ---------------------------------------------------------------------

  lemma StagePairKeys(fns: seq<ResourceProperties>, stageKey: string, stageName: string, description: string, deploymentKey: string)
    requires ValidKey(stageKey) && ValidKey(deploymentKey)
    ensures Keys(StagePair(fns, stageKey, stageName, description, deploymentKey)) == [stageKey, deploymentKey]
  {
    var sb := StageBlock(RestApi, stageKey, stageName, description, deploymentKey);
    var db := DeploymentBlock(RestApi, deploymentKey, MethodKeys(fns));
    StageBlockShape(RestApi, stageKey, stageName, description, deploymentKey);
    DeploymentBlockShape(RestApi, deploymentKey, MethodKeys(fns));
    KeysThenBlank(sb);
    KeysAppend(sb + [Blank], db);
    KeysThenBlank(sb + [Blank] + db);
  }

  /** The stage publishes its deployment under its own stage name, which is
      also the Lambda alias it calls. */
  lemma StagePairLines(fns: seq<ResourceProperties>, stageKey: string, stageName: string, description: string, deploymentKey: string)
    requires ValidKey(stageKey)
    ensures Line(3, "StageName: " + stageName) in StagePair(fns, stageKey, stageName, description, deploymentKey)
    ensures Line(3, "DeploymentId: !Ref " + deploymentKey) in StagePair(fns, stageKey, stageName, description, deploymentKey)
    ensures Line(4, "lambdaAlias: " + stageName) in StagePair(fns, stageKey, stageName, description, deploymentKey)
  {
    StageBlockShape(RestApi, stageKey, stageName, description, deploymentKey);
  }

  /** A deployment's `DependsOn:` list names the POST method of every API
      handler, once each, in list order, and nothing else follows it. */
  lemma DeploymentDependsOn(fns: seq<ResourceProperties>, deploymentKey: string)
    requires ValidKey(deploymentKey)
    ensures var d := DeploymentBlock(RestApi, deploymentKey, MethodKeys(fns));
      && |d| > |fns|
      && d[|d| - |fns| - 1] == Line(2, "DependsOn:")
      && forall i :: 0 <= i < |fns| ==> d[|d| - |fns| + i] == Line(3, "- " + (FunctionName(fns[i]) + "APIMethod"))
  {
    var h := DeploymentHeader(RestApi, deploymentKey);
    DeploymentHeaderShape(RestApi, deploymentKey);
    var items := DependsOnItems(MethodKeys(fns));
    var d := DeploymentBlock(RestApi, deploymentKey, MethodKeys(fns));
    assert d == h + items;
    assert d[|h| - 1] == h[|h| - 1];
    forall i | 0 <= i < |fns| ensures d[|d| - |fns| + i] == Line(3, "- " + (FunctionName(fns[i]) + "APIMethod")) {
      assert d[|h| + i] == items[i];
    }
  }

  /** Item i of every `DependsOn:` list is the key the POST method block of
      handler i defines, and two items coincide exactly when the two
      handlers' names sanitize alike. */
  lemma MethodKeysNameMethods(fns: seq<ResourceProperties>, i: int, j: int)
    requires Routed(fns)
    requires 0 <= i < |fns| && 0 <= j < |fns|
    ensures Keys(MethodResource(fns[i])) == [MethodKeys(fns)[i]]
    ensures MethodKeys(fns)[i] == MethodKeys(fns)[j] <==> FunctionName(fns[i]) == FunctionName(fns[j])
  {
    MethodResourceKeys(fns[i]);
    SuffixDistinct(FunctionName(fns[i]), FunctionName(fns[j]), "APIMethod");
  }

  /** The stage keys an environment gets. */
  function StageKeys(environment: string): seq<string> {
    if environment == "test" then ["Test", "TestDeployment"]
    else ["Staging", "StagingDeployment", "Prod", "ProdDeployment"]
  }

  /** "test" gets exactly the test stage and deployment; every other
      environment the staging and prod ones. */
  lemma StagesKeys(fns: seq<ResourceProperties>, environment: string)
    ensures Keys(Stages(fns, environment)) == StageKeys(environment)
  {
    if environment == "test" {
      StagePairKeys(fns, "Test", "test", "API Test", "TestDeployment");
    } else {
      StagePairKeys(fns, "Staging", "staging", "API Staging", "StagingDeployment");
      StagePairKeys(fns, "Prod", "prod", "API Production", "ProdDeployment");
      KeysAppend(StagePair(fns, "Staging", "staging", "API Staging", "StagingDeployment"),
        StagePair(fns, "Prod", "prod", "API Production", "ProdDeployment"));
    }
  }

  // ---------------------------------------------------------------------
  // The whole API output
  // ---------------------------------------------------------------------

  /** The keys of `GetCloudformationAPIResourcesString`: the root nodes, then
      the handlers' sections, then the stages. */
  lemma APIResourceKeys(assemblyName: string, fns: seq<ResourceProperties>, environment: string, namePrefix: string)
    requires Routed(fns)
    ensures Keys(APIResourceLines(assemblyName, fns, environment, namePrefix)) ==
      RootKeys(RootNodes(Routes(fns))) + AllSectionKeys(fns) + StageKeys(environment)
  {
    var t1 := AppendTitle("API Gateway root paths");
    var roots := RootResources(RootNodes(Routes(fns)));
    var t2 := AppendTitle("API Gateway methods");
    var methods := MethodSections(assemblyName, fns, namePrefix);
    var t3 := AppendTitle("API Gateway stages");
    var stages := Stages(fns, environment);
    RootResourcesKeys(RootNodes(Routes(fns)));
    MethodSectionsKeys(assemblyName, fns, namePrefix);
    StagesKeys(fns, environment);
    KeysSkipFront(t1, roots);
    KeysSkip(t1 + roots, t2, methods);
    KeysSkip(t1 + roots + t2 + methods, t3, stages);
  }

  // ---------------------------------------------------------------------
  // Cross references between the blocks
  // ---------------------------------------------------------------------

  /** A second-level node's parent is an emitted root node whenever no route
      with the same first segment has a single segment. */
  lemma ChildParentResolves(fns: seq<ResourceProperties>, i: int)
    requires Routed(fns) && 0 <= i < |fns|
    requires |PathParts(RouteOf(fns[i]))| > 1
    requires forall j :: 0 <= j < |fns| && RootSegment(RouteOf(fns[j])) == RootSegment(RouteOf(fns[i])) ==>
      |PathParts(RouteOf(fns[j]))| > 1
    ensures ReplaceNonAlphanumeric(PathParts(RouteOf(fns[i]))[0]) + "APIResource" in RootKeys(RootNodes(Routes(fns)))
  {
    var routes := Routes(fns);
    RouteHasRoot(routes, i);
    var j :| 0 <= j <= i && Introduces(routes, j) && RootSegment(routes[j]) == RootSegment(routes[i]);
    IntroducerHasNode(routes, j);
    var nodes := RootNodes(routes);
    var k :| 0 <= k < |nodes| && nodes[k] == NodeOf(routes[j]);
    assert RootKeys(nodes)[k] == RootName(routes[j]) + "APIResource";
  }

  /** A handler with a one-segment route that introduces its segment has
      its own root node, which its methods point at. */
  lemma SingleSegmentResolves(fns: seq<ResourceProperties>, i: int)
    requires Routed(fns)
    requires Introduces(Routes(fns), i)
    requires |PathParts(RouteOf(fns[i]))| == 1
    ensures FunctionName(fns[i]) + "APIResource" in RootKeys(RootNodes(Routes(fns)))
  {
    var routes := Routes(fns);
    IntroducerHasNode(routes, i);
    var nodes := RootNodes(routes);
    var k :| 0 <= k < |nodes| && nodes[k] == NodeOf(routes[i]);
    assert RootKeys(nodes)[k] == RootName(routes[i]) + "APIResource";
  }

  /** A handler with two or more segments has its own second-level node,
      which its methods point at. */
  lemma ChildResolves(assemblyName: string, fns: seq<ResourceProperties>, environment: string, namePrefix: string, i: int)
    requires Routed(fns) && 0 <= i < |fns|
    requires |PathParts(RouteOf(fns[i]))| > 1
    ensures ChildName(RouteOf(fns[i])) + "APIResource" in Keys(APIResourceLines(assemblyName, fns, environment, namePrefix))
  {
    APIResourceKeys(assemblyName, fns, environment, namePrefix);
    SectionKeysIncluded(fns, i, ChildName(RouteOf(fns[i])) + "APIResource");
  }

  /** Every item of a deployment's `DependsOn:` list is an emitted method. */
  lemma DependsOnResolves(assemblyName: string, fns: seq<ResourceProperties>, environment: string, namePrefix: string, i: int)
    requires Routed(fns) && 0 <= i < |fns|
    ensures MethodKeys(fns)[i] in Keys(APIResourceLines(assemblyName, fns, environment, namePrefix))
  {
    APIResourceKeys(assemblyName, fns, environment, namePrefix);
    SectionKeysIncluded(fns, i, FunctionName(fns[i]) + "APIMethod");
  }

  // ---------------------------------------------------------------------
  // Worked examples
  // ---------------------------------------------------------------------

  /** An API handler of class test.API with default CORS and timeout. */
  function ApiHandler(methodName: string, route: string): ResourceProperties {
    ResourceProperties(Some(route), "test.API", methodName, false, 20)
  }

  lemma CheckStatusScanned()
    ensures APIFunctions([CheckStatus]) == [ApiHandler("CheckStatus", "utils/status")]
    ensures LambdaFunctions([CheckStatus]) == []
  {
    ScanOne(CheckStatus);
  }

  lemma OneHandler(f: ResourceProperties)
    requires f.pathPart.Some?
    ensures Routed([f])
    ensures RootNodes(Routes([f])) == [NodeOf(RouteOf(f))]
    ensures AllSectionKeys([f]) == SectionKeys(f)
  {
    assert Routes([f])[..0] == [];
    assert [f][..0] == [];
  }

  lemma TwoHandlers(f0: ResourceProperties, f1: ResourceProperties)
    requires f0.pathPart.Some? && f1.pathPart.Some?
    ensures Routed([f0, f1])
    ensures RootNodes(Routes([f0, f1])) ==
      if RootSegment(RouteOf(f1)) == RootSegment(RouteOf(f0)) then [NodeOf(RouteOf(f0))]
      else [NodeOf(RouteOf(f0)), NodeOf(RouteOf(f1))]
    ensures AllSectionKeys([f0, f1]) == SectionKeys(f0) + SectionKeys(f1)
  {
    var routes := Routes([f0, f1]);
    assert routes[..1] == Routes([f0]);
    assert routes[1] == RouteOf(f1);
    OneHandler(f0);
    assert Segments([NodeOf(RouteOf(f0))]) == [RootSegment(RouteOf(f0))];
    assert [f0, f1][..1] == [f0];
  }

  /** The keys of a handler with default flags on a route "s/t". */
  lemma TwoSegmentSectionKeys(name: string, first: string, second: string)
    requires AllAlphanumeric(name) && AllAlphanumeric(first) && AllAlphanumeric(second)
    ensures PathParts(RouteOf(ApiHandler(name, first + "/" + second))) == [first, second]
    ensures SectionKeys(ApiHandler(name, first + "/" + second)) ==
      [name + "Function", first + second + "APIResource", name + "APIMethod"]
  {
    AlphanumericHasNoSlash(first);
    AlphanumericHasNoSlash(second);
    SplitOnSlashTwo(first, second);
    AlphanumericConcat(first, second);
    ReplaceNonAlphanumericKeeps(name);
    ReplaceNonAlphanumericKeeps(first + second);
  }

  /** The keys of a handler with default flags on a one-segment route. */
  lemma OneSegmentSectionKeys(name: string, route: string)
    requires AllAlphanumeric(name) && AllAlphanumeric(route)
    ensures PathParts(RouteOf(ApiHandler(name, route))) == [route]
    ensures SectionKeys(ApiHandler(name, route)) == [name + "Function", name + "APIMethod"]
  {
    AlphanumericHasNoSlash(route);
    SplitOnSlashOne(route);
    ReplaceNonAlphanumericKeeps(name);
  }

  /** A single handler on "s/t": the root node "s", its function, the
      second-level node "st" under "s" and its POST method, then the stages. */
  lemma TwoSegmentKeys(assemblyName: string, name: string, first: string, second: string, environment: string, namePrefix: string)
    requires AllAlphanumeric(name) && AllAlphanumeric(first) && AllAlphanumeric(second)
    ensures Keys(APIResourceLines(assemblyName, [ApiHandler(name, first + "/" + second)], environment, namePrefix)) ==
      [first + "APIResource"] + [name + "Function", first + second + "APIResource", name + "APIMethod"] + StageKeys(environment)
    ensures Line(3, "ParentId: " + ("!Ref " + first + "APIResource")) in
      MethodSection(assemblyName, ApiHandler(name, first + "/" + second), namePrefix)
  {
    var f := ApiHandler(name, first + "/" + second);
    OneHandler(f);
    TwoSegmentSectionKeys(name, first, second);
    ReplaceNonAlphanumericKeeps(first);
    assert NodeOf(RouteOf(f)) == RootNode(first, first);
    assert RootKeys([RootNode(first, first)]) == [first + "APIResource"];
    APIResourceKeys(assemblyName, [f], environment, namePrefix);
    ChildResourceLines(RouteOf(f));
  }

  /** The sample handler `CheckStatus` on "utils/status". */
  lemma CheckStatusKeys(assemblyName: string, namePrefix: string)
    ensures Keys(APIResourceLines(assemblyName, APIFunctions([CheckStatus]), "test", namePrefix)) ==
      ["utils" + "APIResource"] + ["CheckStatus" + "Function", "utils" + "status" + "APIResource", "CheckStatus" + "APIMethod"] + StageKeys("test")
  {
    CheckStatusScanned();
    assert "utils/status" == "utils" + "/" + "status";
    TwoSegmentKeys(assemblyName, "CheckStatus", "utils", "status", "test", namePrefix);
  }

  /** Two handlers, on "s" and then on "s/t": the root node is named after
      the first handler, and the second-level node points at `sAPIResource`. */
  lemma SharedSegmentKeys(assemblyName: string, name0: string, name1: string, first: string, second: string,
                          environment: string, namePrefix: string)
    requires AllAlphanumeric(name0) && AllAlphanumeric(name1) && AllAlphanumeric(first) && AllAlphanumeric(second)
    ensures var fns := [ApiHandler(name0, first), ApiHandler(name1, first + "/" + second)];
      && Keys(APIResourceLines(assemblyName, fns, environment, namePrefix)) ==
        [name0 + "APIResource"] + ([name0 + "Function", name0 + "APIMethod"] +
         [name1 + "Function", first + second + "APIResource", name1 + "APIMethod"]) + StageKeys(environment)
      && Line(3, "ParentId: " + ("!Ref " + first + "APIResource")) in MethodSection(assemblyName, fns[1], namePrefix)
  {
    var f0, f1 := ApiHandler(name0, first), ApiHandler(name1, first + "/" + second);
    TwoHandlers(f0, f1);
    OneSegmentSectionKeys(name0, first);
    TwoSegmentSectionKeys(name1, first, second);
    ReplaceNonAlphanumericKeeps(name0);
    ReplaceNonAlphanumericKeeps(first);
    assert RootKeys([NodeOf(RouteOf(f0))]) == [name0 + "APIResource"];
    APIResourceKeys(assemblyName, [f0, f1], environment, namePrefix);
    ChildResourceLines(RouteOf(f1));
  }

  /** ... and when the first handler is not itself called "s" and t is not
      empty, no emitted block is called `sAPIResource`: the reference
      dangles. */
  lemma SharedSegmentParentDangles(assemblyName: string, name0: string, name1: string, first: string, second: string,
                                   environment: string, namePrefix: string)
    requires AllAlphanumeric(name0) && AllAlphanumeric(name1) && AllAlphanumeric(first) && AllAlphanumeric(second)
    requires name0 != first && |second| > 0
    ensures first + "APIResource" !in
      Keys(APIResourceLines(assemblyName, [ApiHandler(name0, first), ApiHandler(name1, first + "/" + second)], environment, namePrefix))
  {
    SharedSegmentKeys(assemblyName, name0, name1, first, second, environment, namePrefix);
    SharedSegmentKeysMiss(name0, name1, first, second, environment);
  }

  lemma SharedSegmentKeysMiss(name0: string, name1: string, first: string, second: string, environment: string)
    requires name0 != first && |second| > 0
    ensures first + "APIResource" !in
      [name0 + "APIResource"] + ([name0 + "Function", name0 + "APIMethod"] +
       [name1 + "Function", first + second + "APIResource", name1 + "APIMethod"]) + StageKeys(environment)
  {
    SuffixDistinct(name0, first, "APIResource");
    SuffixDistinct(first + second, first, "APIResource");
    LastOf(first, "APIResource");
    LastOf(name0, "Function");
    LastOf(name0, "APIMethod");
    LastOf(name1, "Function");
    LastOf(name1, "APIMethod");
  }

  /** Two handlers on the same one-segment route: the second one's methods
      point at a node named after it that is never emitted. */
  lemma DuplicateRouteKeys(assemblyName: string, name0: string, name1: string, route: string,
                           environment: string, namePrefix: string)
    requires AllAlphanumeric(name0) && AllAlphanumeric(name1) && AllAlphanumeric(route)
    ensures var fns := [ApiHandler(name0, route), ApiHandler(name1, route)];
      && Keys(APIResourceLines(assemblyName, fns, environment, namePrefix)) ==
        [name0 + "APIResource"] + ([name0 + "Function", name0 + "APIMethod"] +
         [name1 + "Function", name1 + "APIMethod"]) + StageKeys(environment)
      && Line(3, "ResourceId: !Ref " + (name1 + "APIResource")) in MethodSection(assemblyName, fns[1], namePrefix)
  {
    var f0, f1 := ApiHandler(name0, route), ApiHandler(name1, route);
    TwoHandlers(f0, f1);
    OneSegmentSectionKeys(name0, route);
    OneSegmentSectionKeys(name1, route);
    ReplaceNonAlphanumericKeeps(name0);
    assert RootKeys([NodeOf(RouteOf(f0))]) == [name0 + "APIResource"];
    APIResourceKeys(assemblyName, [f0, f1], environment, namePrefix);
    MethodResourceLines(f1);
    ReplaceNonAlphanumericKeeps(name1);
  }

  lemma DuplicateRouteResourceDangles(assemblyName: string, name0: string, name1: string, route: string,
                                      environment: string, namePrefix: string)
    requires AllAlphanumeric(name0) && AllAlphanumeric(name1) && AllAlphanumeric(route)
    requires name0 != name1
    ensures name1 + "APIResource" !in
      Keys(APIResourceLines(assemblyName, [ApiHandler(name0, route), ApiHandler(name1, route)], environment, namePrefix))
  {
    DuplicateRouteKeys(assemblyName, name0, name1, route, environment, namePrefix);
    DuplicateRouteKeysMiss(name0, name1, environment);
  }

  lemma DuplicateRouteKeysMiss(name0: string, name1: string, environment: string)
    requires name0 != name1
    ensures name1 + "APIResource" !in
      [name0 + "APIResource"] + ([name0 + "Function", name0 + "APIMethod"] +
       [name1 + "Function", name1 + "APIMethod"]) + StageKeys(environment)
  {
    SuffixDistinct(name0, name1, "APIResource");
    LastOf(name1, "APIResource");
    LastOf(name0, "Function");
    LastOf(name0, "APIMethod");
    LastOf(name1, "Function");
    LastOf(name1, "APIMethod");
  }

  // ---------------------------------------------------------------------
  // Standalone Lambdas
  // ---------------------------------------------------------------------

  /** One function key per handler, in list order. */
  function FunctionKeys(fns: seq<ResourceProperties>): (keys: seq<string>)
    ensures |keys| == |fns|
    ensures forall i :: 0 <= i < |fns| ==> keys[i] == FunctionName(fns[i]) + "Function"
  {
    seq(|fns|, i requires 0 <= i < |fns| => FunctionName(fns[i]) + "Function")
  }

  lemma {:induction false} FunctionResourcesKeys(assemblyName: string, fns: seq<ResourceProperties>, namePrefix: string)
    ensures Keys(FunctionResources(assemblyName, fns, namePrefix)) == FunctionKeys(fns)
  {
    if fns != [] {
      var p := fns[..|fns| - 1];
      var f := fns[|fns| - 1];
      FunctionResourcesKeys(assemblyName, p, namePrefix);
      FunctionResourceKeys(assemblyName, f, namePrefix);
      KeysAppend(FunctionResources(assemblyName, p, namePrefix), FunctionResource(assemblyName, f, namePrefix));
      assert FunctionKeys(fns) == FunctionKeys(p) + [FunctionName(f) + "Function"];
    }
  }

  /** `GetCloudformationLambdaResourcesString` emits one function per
      standalone Lambda, in list order, and nothing else with a key. */
  lemma LambdaResourceKeys(assemblyName: string, fns: seq<ResourceProperties>, environment: string, namePrefix: string)
    ensures Keys(LambdaResourceLines(assemblyName, fns, environment, namePrefix)) == FunctionKeys(fns)
  {
    FunctionResourcesKeys(assemblyName, fns, namePrefix);
    KeysSkipFront(AppendTitle("Standalone Lambdas"), FunctionResources(assemblyName, fns, namePrefix));
  }

  // ---------------------------------------------------------------------
  // Lambda versions
  // ---------------------------------------------------------------------

  lemma VersionSectionKeys(f: ResourceProperties, environment: string, version: int32, namePrefix: string)
    ensures Keys(VersionSection(f, environment, version, namePrefix)) == [VersionKey(f, version), AliasKey(f)]
  {
    var vk := VersionKey(f, version);
    var name := namePrefix + f.methodName;
    CommentIsNoKey(vk + VersionCommentTail);
    VersionBlockShape(vk, name);
    AliasBlockShape(AliasKey(f), name, vk, environment);
    TwoBlockKeys([Line(1, "# " + (vk + VersionCommentTail))], VersionBlock(vk, name),
                 AliasBlock(AliasKey(f), name, vk, environment), vk, AliasKey(f));
  }

  /** The Version block retains `XVersionN` and the Alias, also retained,
      waits for it, publishes it and is named after the environment; both
      name the same prefixed function. */
  lemma VersionSectionLinks(f: ResourceProperties, environment: string, version: int32, namePrefix: string)
    ensures var vb := VersionBlock(VersionKey(f, version), namePrefix + f.methodName);
      && Keys(vb) == [VersionKey(f, version)]
      && Line(2, "DeletionPolicy: Retain") in vb
      && Line(3, "FunctionName: " + (namePrefix + f.methodName)) in vb
    ensures var ab := AliasBlock(AliasKey(f), namePrefix + f.methodName, VersionKey(f, version), environment);
      && Keys(ab) == [AliasKey(f)]
      && Line(2, "DeletionPolicy: Retain") in ab
      && Line(2, "DependsOn: " + VersionKey(f, version)) in ab
      && Line(3, "FunctionVersion: !GetAtt " + VersionKey(f, version) + ".Version") in ab
      && Line(3, "Name: " + environment) in ab
      && Line(3, "FunctionName: " + (namePrefix + f.methodName)) in ab
  {
    VersionBlockShape(VersionKey(f, version), namePrefix + f.methodName);
    AliasBlockShape(AliasKey(f), namePrefix + f.methodName, VersionKey(f, version), environment);
  }

  lemma VersionSectionsKeysSnoc(fns: seq<ResourceProperties>, environment: string, version: int32, namePrefix: string)
    requires fns != []
    ensures Keys(VersionSections(fns, environment, version, namePrefix)) ==
      Keys(VersionSections(fns[..|fns| - 1], environment, version, namePrefix)) + [VersionKey(fns[|fns| - 1], version), AliasKey(fns[|fns| - 1])]
  {
    var p, f := fns[..|fns| - 1], fns[|fns| - 1];
    VersionSectionKeys(f, environment, version, namePrefix);
    KeysAppend(VersionSections(p, environment, version, namePrefix), VersionSection(f, environment, version, namePrefix));
  }

  lemma PairKeysSnoc(pk: seq<string>, p: seq<ResourceProperties>, f: ResourceProperties, version: int32)
    requires |pk| == 2 * |p|
    requires forall i :: 0 <= i < |p| ==> pk[2 * i] == VersionKey(p[i], version) && pk[2 * i + 1] == AliasKey(p[i])
    ensures var keys, fns := pk + [VersionKey(f, version), AliasKey(f)], p + [f];
      && |keys| == 2 * |fns|
      && forall i :: 0 <= i < |fns| ==> keys[2 * i] == VersionKey(fns[i], version) && keys[2 * i + 1] == AliasKey(fns[i])
  {
    var keys, fns := pk + [VersionKey(f, version), AliasKey(f)], p + [f];
    forall i | 0 <= i < |fns|
      ensures keys[2 * i] == VersionKey(fns[i], version) && keys[2 * i + 1] == AliasKey(fns[i])
    {
      if i < |p| {
        assert fns[i] == p[i];
      }
    }
  }

  /** Exactly one Version/Alias pair per handler, in list order. */
  lemma {:induction false} VersionSectionsKeys(fns: seq<ResourceProperties>, environment: string, version: int32, namePrefix: string)
    ensures |Keys(VersionSections(fns, environment, version, namePrefix))| == 2 * |fns|
    ensures forall i :: 0 <= i < |fns| ==>
      && Keys(VersionSections(fns, environment, version, namePrefix))[2 * i] == VersionKey(fns[i], version)
      && Keys(VersionSections(fns, environment, version, namePrefix))[2 * i + 1] == AliasKey(fns[i])
  {
    if fns != [] {
      var p := fns[..|fns| - 1];
      var f := fns[|fns| - 1];
      VersionSectionsKeys(p, environment, version, namePrefix);
      VersionSectionsKeysSnoc(fns, environment, version, namePrefix);
      PairKeysSnoc(Keys(VersionSections(p, environment, version, namePrefix)), p, f, version);
      assert fns == p + [f];
    }
  }


  /** Different numbers give different version keys. */
  lemma VersionKeyInjective(f: ResourceProperties, v1: int32, v2: int32)
    ensures VersionKey(f, v1) == VersionKey(f, v2) ==> v1 == v2
  {
    var s1, s2 := IntToString(v1 as int), IntToString(v2 as int);
    PrefixCancel(FunctionName(f), "Version" + s1, "Version" + s2);
    PrefixCancel("Version", s1, s2);
    if s1 == s2 {
      IntToStringInjective(v1 as int, v2 as int);
    }
  }


  /** Staging and prod deploy into one account: a Version a staging build
      creates never has the key of one another environment's build creates. */
  lemma StagingVersionKeysDiffer(f: ResourceProperties, environment: string, stagingBuild: int32, otherBuild: int32)
    requires environment != "staging"
    ensures VersionKey(f, EnvironmentVersion("staging", stagingBuild)) != VersionKey(f, EnvironmentVersion(environment, otherBuild))
  {
    VersionKeyInjective(f, EnvironmentVersion("staging", stagingBuild), EnvironmentVersion(environment, otherBuild));
    StagingNeverCollides(environment, stagingBuild, otherBuild);
  }

  // ---------------------------------------------------------------------
  // Injection into the templates
  // ---------------------------------------------------------------------

  /** A template without the placeholder comes back unchanged. */
  lemma TemplatesWithoutToken(samSource: string, samXSource: string, assemblyName: string, manifest: seq<HandlerMethod>,
                              environment: string, buildVersion: int32, prefix: string)
    ensures !Occurs(samSource, Token) ==> BaseTemplate(samSource, assemblyName, manifest, environment, prefix) == samSource
    ensures !Occurs(samXSource, Token) ==> EnvironmentTemplate(samXSource, manifest, environment, buildVersion, prefix) == samXSource
  {
    var base := Text(APIResourceLines(assemblyName, APIFunctions(manifest), environment, prefix)) +
      Text(LambdaResourceLines(assemblyName, LambdaFunctions(manifest), environment, prefix));
    if !Occurs(samSource, Token) {
      ReplaceAbsent(samSource, Token, Banner(base));
    }
    if !Occurs(samXSource, Token) {
      ReplaceAbsent(samXSource, Token, Banner(VersionsPayload(manifest, environment, buildVersion, prefix)));
    }
  }

  /** The first placeholder of sam.yml is replaced by the banner, the API
      resources, the standalone Lambdas and the end marker; the rest of the
      template is processed the same way, so every placeholder is. */
  lemma BaseTemplateSplice(samSource: string, assemblyName: string, manifest: seq<HandlerMethod>, environment: string,
                           prefix: string, i: nat)
    requires OccursAt(samSource, Token, i)
    requires forall j :: 0 <= j < i ==> !OccursAt(samSource, Token, j)
    ensures BaseTemplate(samSource, assemblyName, manifest, environment, prefix) ==
      samSource[..i]
      + (" INJECTED CODE:\n\n"
         + (Text(APIResourceLines(assemblyName, APIFunctions(manifest), environment, prefix)) +
            Text(LambdaResourceLines(assemblyName, LambdaFunctions(manifest), environment, prefix)))
         + IndentText(1, "# END of injected code"))
      + BaseTemplate(samSource[i + |Token|..], assemblyName, manifest, environment, prefix)
  {
    var base := Text(APIResourceLines(assemblyName, APIFunctions(manifest), environment, prefix)) +
      Text(LambdaResourceLines(assemblyName, LambdaFunctions(manifest), environment, prefix));
    ReplaceFirst(samSource, Token, Banner(base), i);
  }

  /** The same for samx.yml and the versions. */
  lemma EnvironmentTemplateSplice(samXSource: string, manifest: seq<HandlerMethod>, environment: string,
                                  buildVersion: int32, prefix: string, i: nat)
    requires OccursAt(samXSource, Token, i)
    requires forall j :: 0 <= j < i ==> !OccursAt(samXSource, Token, j)
    ensures EnvironmentTemplate(samXSource, manifest, environment, buildVersion, prefix) ==
      samXSource[..i]
      + (" INJECTED CODE:\n\n" + VersionsPayload(manifest, environment, buildVersion, prefix) + IndentText(1, "# END of injected code"))
      + EnvironmentTemplate(samXSource[i + |Token|..], manifest, environment, buildVersion, prefix)
  {
    ReplaceFirst(samXSource, Token, Banner(VersionsPayload(manifest, environment, buildVersion, prefix)), i);
  }

}
