/** The template-fragment generator of the command-line tool: the scanner
    over the handler manifest, the API Gateway resources, the standalone
    Lambdas, the Lambda versions and the `@INJECT` substitution into
    sam.yml and samx.yml. Each generator is a method that appends to a
    builder line by line, proved equal to a specification function on
    lines. */
module ToolInjection {
  import opened Strings
  import opened Template
  import opened Manifest
  import opened Versioning
  import opened PathTree

  /** The API resource every generated block refers to. */
  const RestApi := "myAPI"
  const ExecutionRole := "!GetAtt myAPILambdaExecutionRole.Arn"
  const RootParent := "!GetAtt myAPI.RootResourceId"

  /** `Injection.ResourceProperties`: one scanned handler. PathPart is the
      route of an API handler and null (None) for a standalone Lambda. */
  datatype ResourceProperties = ResourceProperties(
    pathPart: Option<string>,
    methodClassPath: string,
    methodName: string,
    enableCors: bool,
    timeoutInSeconds: int)

  // ---------------------------------------------------------------------
  // Scanner
  // ---------------------------------------------------------------------

  predicate IsApiFunction(m: HandlerMethod) {
    Scanned(m) && ApiAttribute(m.annotation).Some?
  }

  predicate IsLambdaFunction(m: HandlerMethod) {
    && Scanned(m)
    && LambdaAttribute(m.annotation).Some?
    && !LambdaAttribute(m.annotation).value.ApiResource?
  }

  function ApiDescriptor(m: HandlerMethod): ResourceProperties
    requires m.annotation.ApiResource?
  {
    var a := m.annotation;
    ResourceProperties(Some(a.pathPart.GetOr(m.methodName)), m.className, m.methodName, a.enableCors, a.timeoutInSeconds)
  }

  function LambdaDescriptor(m: HandlerMethod): ResourceProperties
    requires m.annotation.LambdaResource?
  {
    ResourceProperties(None, m.className, m.methodName, DefaultEnableCors, m.annotation.timeoutInSeconds)
  }

  /** Every descriptor carries a route. */
  predicate Routed(fns: seq<ResourceProperties>) {
    forall i :: 0 <= i < |fns| ==> fns[i].pathPart.Some?
  }

  /** The API handlers of the manifest, in discovery order. */
  function APIFunctions(manifest: seq<HandlerMethod>): (fns: seq<ResourceProperties>)
    ensures Routed(fns)
  {
    if manifest == [] then []
    else
      var m := manifest[|manifest| - 1];
      APIFunctions(manifest[..|manifest| - 1]) + (if IsApiFunction(m) then [ApiDescriptor(m)] else [])
  }

  /** The standalone Lambda handlers of the manifest, in discovery order. */
  function LambdaFunctions(manifest: seq<HandlerMethod>): seq<ResourceProperties> {
    if manifest == [] then []
    else
      var m := manifest[|manifest| - 1];
      LambdaFunctions(manifest[..|manifest| - 1]) + (if IsLambdaFunction(m) then [LambdaDescriptor(m)] else [])
  }

  method GetAPIFunctions(manifest: seq<HandlerMethod>) returns (functionsList: seq<ResourceProperties>)
    ensures functionsList == APIFunctions(manifest)
  {
    functionsList := [];
    var i := 0;
    while i < |manifest|
      invariant 0 <= i <= |manifest|
      invariant functionsList == APIFunctions(manifest[..i])
    {
      var methodInfo := manifest[i];
      assert manifest[..i + 1][..i] == manifest[..i];
      if Scanned(methodInfo) {
        var apiGatewayProperties := ApiAttribute(methodInfo.annotation);
        if apiGatewayProperties.Some? {
          var a := apiGatewayProperties.value;
          functionsList := functionsList + [ResourceProperties(
            Some(a.pathPart.GetOr(methodInfo.methodName)), methodInfo.className, methodInfo.methodName,
            a.enableCors, a.timeoutInSeconds)];
        }
      }
      i := i + 1;
    }
    assert manifest[..i] == manifest;
  }

  method GetLambdaFunctions(manifest: seq<HandlerMethod>, assemblyName: string) returns (functionsList: seq<ResourceProperties>)
    ensures functionsList == LambdaFunctions(manifest)
  {
    functionsList := [];
    var i := 0;
    while i < |manifest|
      invariant 0 <= i <= |manifest|
      invariant functionsList == LambdaFunctions(manifest[..i])
    {
      var methodInfo := manifest[i];
      assert manifest[..i + 1][..i] == manifest[..i];
      if Scanned(methodInfo) {
        var lambdaProperties := LambdaAttribute(methodInfo.annotation);
        if lambdaProperties.Some? && !lambdaProperties.value.ApiResource? {
          functionsList := functionsList + [ResourceProperties(
            None, methodInfo.className, methodInfo.methodName, DefaultEnableCors, lambdaProperties.value.timeoutInSeconds)];
        }
      }
      i := i + 1;
    }
    assert manifest[..i] == manifest;
  }

  // ---------------------------------------------------------------------
  // Resource names
  // ---------------------------------------------------------------------

  function RouteOf(f: ResourceProperties): Route
    requires f.pathPart.Some?
  {
    Route(f.methodName, f.pathPart.value)
  }

  function Routes(fns: seq<ResourceProperties>): (routes: seq<Route>)
    requires Routed(fns)
    ensures |routes| == |fns|
    ensures forall i :: 0 <= i < |fns| ==> routes[i] == RouteOf(fns[i])
  {
    seq(|fns|, i requires 0 <= i < |fns| => RouteOf(fns[i]))
  }

  /** `functionCFResourceName`: the sanitized handler name. */
  function FunctionName(f: ResourceProperties): (name: string)
    ensures AllAlphanumeric(name)
  {
    ReplaceNonAlphanumeric(f.methodName)
  }

  /** The identifier stem of the second-level node of a two-segment route:
      both segments glued together, sanitized. */
  function ChildName(r: Route): (name: string)
    requires |PathParts(r)| > 1
    ensures AllAlphanumeric(name)
  {
    ReplaceNonAlphanumeric(PathParts(r)[0] + PathParts(r)[1])
  }

  /** The identifier stem the method blocks point at: the handler's name for
      a one-segment route, the second-level node otherwise. */
  function ResourceName(r: Route): (name: string)
    ensures AllAlphanumeric(name)
  {
    ReplaceNonAlphanumeric(if |PathParts(r)| == 1 then r.methodName else PathParts(r)[0] + PathParts(r)[1])
  }

  // ---------------------------------------------------------------------
  // API Gateway resources
  // ---------------------------------------------------------------------

  function RootResource(node: RootNode): seq<Line>
  {
    ResourceBlock(RestApi, node.name + "APIResource", RootParent, node.segment) + [Blank]
  }

  function RootResources(nodes: seq<RootNode>): seq<Line>
  {
    if nodes == [] then [] else RootResources(nodes[..|nodes| - 1]) + RootResource(nodes[|nodes| - 1])
  }

  /** The function block of a handler, followed by a blank line. */
  function FunctionResource(assemblyName: string, f: ResourceProperties, namePrefix: string): seq<Line> {
    FunctionBlock(FunctionName(f) + "Function", namePrefix + f.methodName,
      assemblyName + "::" + f.methodClassPath + "::" + f.methodName, ExecutionRole, f.timeoutInSeconds) + [Blank]
  }

  function ChildResource(r: Route): seq<Line>
    requires |PathParts(r)| > 1
  {
    ResourceBlock(RestApi, ChildName(r) + "APIResource",
      "!Ref " + ReplaceNonAlphanumeric(PathParts(r)[0]) + "APIResource", PathParts(r)[1]) + [Blank]
  }

  function MethodResource(f: ResourceProperties): seq<Line>
    requires f.pathPart.Some?
  {
    MethodBlock(RestApi, FunctionName(f), ResourceName(RouteOf(f)) + "APIResource", ExecutionRole) + [Blank]
  }

  function CorsResource(f: ResourceProperties): seq<Line>
    requires f.pathPart.Some?
  {
    [Line(1, "# enabling OPTIONS for " + f.methodName)] + [Blank] +
    OptionsBlock(RestApi, FunctionName(f), ResourceName(RouteOf(f)) + "APIResource") + [Blank]
  }

  /** Everything one API handler contributes after the root paths. */
  function MethodSection(assemblyName: string, f: ResourceProperties, namePrefix: string): seq<Line>
    requires f.pathPart.Some?
  {
    [Line(1, "# " + f.methodName)]
    + FunctionResource(assemblyName, f, namePrefix)
    + (if |PathParts(RouteOf(f))| > 1 then ChildResource(RouteOf(f)) else [])
    + MethodResource(f)
    + (if f.enableCors then CorsResource(f) else [])
  }

  function MethodSections(assemblyName: string, fns: seq<ResourceProperties>, namePrefix: string): seq<Line>
    requires Routed(fns)
  {
    if fns == [] then []
    else MethodSections(assemblyName, fns[..|fns| - 1], namePrefix) + MethodSection(assemblyName, fns[|fns| - 1], namePrefix)
  }

  /** The method identifiers every deployment waits for, in list order. */
  function MethodKeys(fns: seq<ResourceProperties>): (keys: seq<string>)
    ensures |keys| == |fns|
    ensures forall i :: 0 <= i < |fns| ==> keys[i] == FunctionName(fns[i]) + "APIMethod"
  {
    seq(|fns|, i requires 0 <= i < |fns| => FunctionName(fns[i]) + "APIMethod")
  }

  /** A stage, its deployment waiting for every API method, each followed by
      a blank line. */
  function StagePair(fns: seq<ResourceProperties>, stageKey: string, stageName: string, description: string, deploymentKey: string): seq<Line>
  {
    StageBlock(RestApi, stageKey, stageName, description, deploymentKey) + [Blank]
    + DeploymentBlock(RestApi, deploymentKey, MethodKeys(fns)) + [Blank]
  }

  /** The stages and deployments: only the test pair for "test", the staging
      and prod pairs for every other environment. */
  function Stages(fns: seq<ResourceProperties>, environment: string): seq<Line> {
    if environment == "test" then
      StagePair(fns, "Test", "test", "API Test", "TestDeployment")
    else
      StagePair(fns, "Staging", "staging", "API Staging", "StagingDeployment")
      + StagePair(fns, "Prod", "prod", "API Production", "ProdDeployment")
  }

  /** The lines of `GetCloudformationAPIResourcesString`. */
  function APIResourceLines(assemblyName: string, fns: seq<ResourceProperties>, environment: string, namePrefix: string): seq<Line>
    requires Routed(fns)
  {
    AppendTitle("API Gateway root paths") + RootResources(RootNodes(Routes(fns)))
    + AppendTitle("API Gateway methods") + MethodSections(assemblyName, fns, namePrefix)
    + AppendTitle("API Gateway stages") + Stages(fns, environment)
  }

  lemma RoutesPrefix(fns: seq<ResourceProperties>, i: int)
    requires Routed(fns) && 0 <= i < |fns|
    ensures Routed(fns[..i]) && Routed(fns[..i + 1])
    ensures Routes(fns[..i + 1]) == Routes(fns[..i]) + [RouteOf(fns[i])]
    ensures Routes(fns[..i + 1])[..i] == Routes(fns[..i])
  {
    assert fns[..i + 1] == fns[..i] + [fns[i]];
  }

  lemma MethodKeysSnoc(fns: seq<ResourceProperties>, i: int)
    requires 0 <= i < |fns|
    ensures MethodKeys(fns[..i + 1]) == MethodKeys(fns[..i]) + [FunctionName(fns[i]) + "APIMethod"]
  {
  }

  lemma MethodSectionsStep(assemblyName: string, fns: seq<ResourceProperties>, i: int, namePrefix: string)
    requires Routed(fns) && 0 <= i < |fns|
    ensures Routed(fns[..i]) && Routed(fns[..i + 1])
    ensures MethodSections(assemblyName, fns[..i + 1], namePrefix) ==
      MethodSections(assemblyName, fns[..i], namePrefix) + MethodSection(assemblyName, fns[i], namePrefix)
  {
    assert fns[..i + 1][..i] == fns[..i];
  }

  lemma DependsOnStep(fns: seq<ResourceProperties>, i: int)
    requires 0 <= i < |fns|
    ensures DependsOnItems(MethodKeys(fns[..i + 1])) ==
      DependsOnItems(MethodKeys(fns[..i])) + [Line(3, "- " + (FunctionName(fns[i]) + "APIMethod"))]
  {
    MethodKeysSnoc(fns, i);
    DependsOnItemsSnoc(MethodKeys(fns[..i]), FunctionName(fns[i]) + "APIMethod");
  }

  lemma RootResourcesStep(nodes: seq<RootNode>, n: RootNode)
    ensures RootResources(nodes + [n]) == RootResources(nodes) + RootResource(n)
  {
    assert (nodes + [n])[..|nodes|] == nodes;
  }

  /** Appending the sections of several blocks one after the other. */
  lemma Concat5<T>(a: seq<T>, b: seq<T>, c: seq<T>, d: seq<T>, e: seq<T>)
    ensures a + b + c + d + e == a + (b + (c + d) + e)
  {
  }

  // ---------------------------------------------------------------------
  // The generators, appending to a builder of lines
  // ---------------------------------------------------------------------

  /** The `rootPaths` scan: appends one root resource per first segment not
      seen before. */
  method AppendRootResources(lines: seq<Line>, functions: seq<ResourceProperties>) returns (r: seq<Line>)
    requires Routed(functions)
    ensures r == lines + RootResources(RootNodes(Routes(functions)))
  {
    r := lines;
    var rootPaths: seq<string> := [];
    var i := 0;
    while i < |functions|
      invariant 0 <= i <= |functions|
      invariant Routed(functions[..i])
      invariant rootPaths == Segments(RootNodes(Routes(functions[..i])))
      invariant r == lines + RootResources(RootNodes(Routes(functions[..i])))
    {
      var fn := functions[i];
      RoutesPrefix(functions, i);
      var pathParts := SplitOn(fn.pathPart.value, "/");
      if pathParts[0] !in rootPaths {
        ghost var nodes := RootNodes(Routes(functions[..i]));
        rootPaths := rootPaths + [pathParts[0]];
        var name := ReplaceNonAlphanumeric(if |pathParts| == 1 then fn.methodName else pathParts[0]);
        var block := RootResource(RootNode(name, pathParts[0]));
        assert RootNodes(Routes(functions[..i + 1])) == nodes + [NodeOf(RouteOf(fn))];
        RootResourcesStep(nodes, NodeOf(RouteOf(fn)));
        AppendAssoc(lines, RootResources(nodes), block);
        r := r + block;
        SegmentsAppend(nodes, NodeOf(RouteOf(fn)));
      }
      i := i + 1;
    }
    assert functions[..i] == functions;
  }

  method AppendMethodResources(lines: seq<Line>, AssemblyName: string, functions: seq<ResourceProperties>, NamePrefix: string)
    returns (r: seq<Line>)
    requires Routed(functions)
    ensures r == lines + MethodSections(AssemblyName, functions, NamePrefix)
  {
    r := lines;
    var i := 0;
    while i < |functions|
      invariant 0 <= i <= |functions|
      invariant Routed(functions[..i])
      invariant r == lines + MethodSections(AssemblyName, functions[..i], NamePrefix)
    {
      var section := MethodSection(AssemblyName, functions[i], NamePrefix);
      MethodSectionsStep(AssemblyName, functions, i, NamePrefix);
      AppendAssoc(lines, MethodSections(AssemblyName, functions[..i], NamePrefix), section);
      r := r + section;
      i := i + 1;
    }
    assert functions[..i] == functions;
  }

  /** The `DependsOn` list of a deployment, one item per API handler. */
  method AppendDependsOn(lines: seq<Line>, functions: seq<ResourceProperties>) returns (r: seq<Line>)
    ensures r == lines + DependsOnItems(MethodKeys(functions))
  {
    r := lines;
    var i := 0;
    while i < |functions|
      invariant 0 <= i <= |functions|
      invariant r == lines + DependsOnItems(MethodKeys(functions[..i]))
    {
      var functionCFResourceName := ReplaceNonAlphanumeric(functions[i].methodName);
      DependsOnStep(functions, i);
      AppendAssoc(lines, DependsOnItems(MethodKeys(functions[..i])), [Line(3, "- " + (functionCFResourceName + "APIMethod"))]);
      r := r + [Line(3, "- " + (functionCFResourceName + "APIMethod"))];
      i := i + 1;
    }
    assert functions[..i] == functions;
  }

  /** One stage and its deployment, the deployment's `DependsOn` list
      written item by item. */
  method AppendStagePair(lines: seq<Line>, functions: seq<ResourceProperties>,
                         stageKey: string, stageName: string, description: string, deploymentKey: string)
    returns (r: seq<Line>)
    ensures r == lines + StagePair(functions, stageKey, stageName, description, deploymentKey)
  {
    var stage := StageBlock(RestApi, stageKey, stageName, description, deploymentKey);
    var header := DeploymentHeader(RestApi, deploymentKey);
    r := AppendDependsOn(lines + stage + [Blank] + header, functions);
    r := r + [Blank];
    Concat5(lines, stage, [Blank], header, DependsOnItems(MethodKeys(functions)));
    ghost var deployment := header + DependsOnItems(MethodKeys(functions));
    assert deployment == DeploymentBlock(RestApi, deploymentKey, MethodKeys(functions));
    AppendAssoc(lines, stage + [Blank] + deployment, [Blank]);
  }

  /** The `switch (Environment)` over the stages. */
  method AppendStages(lines: seq<Line>, functions: seq<ResourceProperties>, Environment: string) returns (r: seq<Line>)
    ensures r == lines + Stages(functions, Environment)
  {
    if Environment == "test" {
      r := AppendStagePair(lines, functions, "Test", "test", "API Test", "TestDeployment");
    } else {
      // staging and prod share one environment
      r := AppendStagePair(lines, functions, "Staging", "staging", "API Staging", "StagingDeployment");
      r := AppendStagePair(r, functions, "Prod", "prod", "API Production", "ProdDeployment");
      AppendAssoc(lines, StagePair(functions, "Staging", "staging", "API Staging", "StagingDeployment"),
        StagePair(functions, "Prod", "prod", "API Production", "ProdDeployment"));
    }
  }

  method GetCloudformationAPIResourcesString(AssemblyName: string, functions: seq<ResourceProperties>, Environment: string, NamePrefix: string)
    returns (r: string)
    requires Routed(functions)
    ensures r == Text(APIResourceLines(AssemblyName, functions, Environment, NamePrefix))
  {
    var cloudformationResources := AppendTitle("API Gateway root paths");
    cloudformationResources := AppendRootResources(cloudformationResources, functions);
    cloudformationResources := cloudformationResources + AppendTitle("API Gateway methods");
    cloudformationResources := AppendMethodResources(cloudformationResources, AssemblyName, functions, NamePrefix);
    cloudformationResources := cloudformationResources + AppendTitle("API Gateway stages");
    cloudformationResources := AppendStages(cloudformationResources, functions, Environment);
    assert cloudformationResources == APIResourceLines(AssemblyName, functions, Environment, NamePrefix);
    r := Text(cloudformationResources);
  }

  // ---------------------------------------------------------------------
  // Standalone Lambdas
  // ---------------------------------------------------------------------

  function FunctionResources(assemblyName: string, fns: seq<ResourceProperties>, namePrefix: string): seq<Line> {
    if fns == [] then []
    else FunctionResources(assemblyName, fns[..|fns| - 1], namePrefix) + FunctionResource(assemblyName, fns[|fns| - 1], namePrefix)
  }

  /** The lines of `GetCloudformationLambdaResourcesString`; the environment
      does not influence them. */
  function LambdaResourceLines(assemblyName: string, fns: seq<ResourceProperties>, environment: string, namePrefix: string): seq<Line> {
    AppendTitle("Standalone Lambdas") + FunctionResources(assemblyName, fns, namePrefix)
  }

  lemma FunctionResourcesStep(assemblyName: string, fns: seq<ResourceProperties>, i: int, namePrefix: string)
    requires 0 <= i < |fns|
    ensures FunctionResources(assemblyName, fns[..i + 1], namePrefix) ==
      FunctionResources(assemblyName, fns[..i], namePrefix) + FunctionResource(assemblyName, fns[i], namePrefix)
  {
    assert fns[..i + 1][..i] == fns[..i];
  }

  method AppendFunctionResources(lines: seq<Line>, AssemblyName: string, functions: seq<ResourceProperties>, NamePrefix: string)
    returns (r: seq<Line>)
    ensures r == lines + FunctionResources(AssemblyName, functions, NamePrefix)
  {
    r := lines;
    var i := 0;
    while i < |functions|
      invariant 0 <= i <= |functions|
      invariant r == lines + FunctionResources(AssemblyName, functions[..i], NamePrefix)
    {
      var block := FunctionResource(AssemblyName, functions[i], NamePrefix);
      FunctionResourcesStep(AssemblyName, functions, i, NamePrefix);
      AppendAssoc(lines, FunctionResources(AssemblyName, functions[..i], NamePrefix), block);
      r := r + block;
      i := i + 1;
    }
    assert functions[..i] == functions;
  }

  method GetCloudformationLambdaResourcesString(AssemblyName: string, functions: seq<ResourceProperties>, Environment: string, NamePrefix: string)
    returns (r: string)
    ensures r == Text(LambdaResourceLines(AssemblyName, functions, Environment, NamePrefix))
  {
    var cloudformationResources := AppendTitle("Standalone Lambdas");
    cloudformationResources := AppendFunctionResources(cloudformationResources, AssemblyName, functions, NamePrefix);
    assert cloudformationResources == LambdaResourceLines(AssemblyName, functions, Environment, NamePrefix);
    r := Text(cloudformationResources);
  }

  // ---------------------------------------------------------------------
  // Lambda versions
  // ---------------------------------------------------------------------

  /** `XVersionN`: the sanitized handler name, "Version" and the number. */
  function VersionKey(f: ResourceProperties, version: int32): (key: string)
    ensures ValidKey(key)
  {
    SuffixedKey(FunctionName(f), "Version" + IntToString(version as int));
    FunctionName(f) + ("Version" + IntToString(version as int))
  }

  function AliasKey(f: ResourceProperties): (key: string)
    ensures ValidKey(key)
  {
    SuffixedKey(FunctionName(f), "Alias");
    FunctionName(f) + "Alias"
  }

  const VersionCommentTail := " lambda resources (version + alias)"

  /** The Version/Alias pair of one handler. */
  function VersionSection(f: ResourceProperties, environment: string, version: int32, namePrefix: string): seq<Line> {
    [Line(1, "# " + (VersionKey(f, version) + VersionCommentTail))] + [Blank]
    + VersionBlock(VersionKey(f, version), namePrefix + f.methodName) + [Blank]
    + AliasBlock(AliasKey(f), namePrefix + f.methodName, VersionKey(f, version), environment) + [Blank]
  }

  function VersionSections(fns: seq<ResourceProperties>, environment: string, version: int32, namePrefix: string): seq<Line> {
    if fns == [] then []
    else VersionSections(fns[..|fns| - 1], environment, version, namePrefix) + VersionSection(fns[|fns| - 1], environment, version, namePrefix)
  }

  /** The lines of `GetCloudformationLambdasVersionsResourcesString`. */
  function LambdasVersionsLines(fns: seq<ResourceProperties>, environment: string, buildVersion: int32, namePrefix: string): seq<Line> {
    VersionSections(fns, environment, EnvironmentVersion(environment, buildVersion), namePrefix)
  }

  lemma VersionSectionsStep(fns: seq<ResourceProperties>, i: int, environment: string, version: int32, namePrefix: string)
    requires 0 <= i < |fns|
    ensures VersionSections(fns[..i + 1], environment, version, namePrefix) ==
      VersionSections(fns[..i], environment, version, namePrefix) + VersionSection(fns[i], environment, version, namePrefix)
  {
    assert fns[..i + 1][..i] == fns[..i];
  }

  method AppendVersionResources(lines: seq<Line>, functions: seq<ResourceProperties>, Environment: string, environmentVersion: int32, NamePrefix: string)
    returns (r: seq<Line>)
    ensures r == lines + VersionSections(functions, Environment, environmentVersion, NamePrefix)
  {
    r := lines;
    var i := 0;
    while i < |functions|
      invariant 0 <= i <= |functions|
      invariant r == lines + VersionSections(functions[..i], Environment, environmentVersion, NamePrefix)
    {
      var section := VersionSection(functions[i], Environment, environmentVersion, NamePrefix);
      VersionSectionsStep(functions, i, Environment, environmentVersion, NamePrefix);
      AppendAssoc(lines, VersionSections(functions[..i], Environment, environmentVersion, NamePrefix), section);
      r := r + section;
      i := i + 1;
    }
    assert functions[..i] == functions;
  }

  method GetCloudformationLambdasVersionsResourcesString(functions: seq<ResourceProperties>, Environment: string, BuildVersion: int32, NamePrefix: string)
    returns (r: string)
    ensures r == Text(LambdasVersionsLines(functions, Environment, BuildVersion, NamePrefix))
  {
    // staging and prod use the same account
    var environmentVersion := EnvironmentVersion(Environment, BuildVersion);
    var cloudformationResources := AppendVersionResources([], functions, Environment, environmentVersion, NamePrefix);
    assert cloudformationResources == VersionSections(functions, Environment, environmentVersion, NamePrefix);
    r := Text(cloudformationResources);
  }

  // ---------------------------------------------------------------------
  // Injection
  // ---------------------------------------------------------------------

  /** What replaces the placeholder: a banner, the payload and an end marker. */
  function Banner(payload: string): string {
    " INJECTED CODE:\n\n" + payload + IndentText(1, "# END of injected code")
  }

  /** sam-base.yml: the API resources and the standalone Lambdas injected into
      sam.yml. */
  function BaseTemplate(samSource: string, assemblyName: string, manifest: seq<HandlerMethod>, environment: string, prefix: string): string {
    InjectAt(samSource, Banner(
      Text(APIResourceLines(assemblyName, APIFunctions(manifest), environment, prefix)) +
      Text(LambdaResourceLines(assemblyName, LambdaFunctions(manifest), environment, prefix))))
  }

  /** The versions payload: the banner title followed by the versions of
      the API handlers and then of the standalone Lambdas. */
  function VersionsPayload(manifest: seq<HandlerMethod>, environment: string, buildVersion: int32, prefix: string): string {
    Text(AppendTitle("Lambdas versions")) +
    Text(LambdasVersionsLines(APIFunctions(manifest), environment, buildVersion, prefix)) +
    Text(LambdasVersionsLines(LambdaFunctions(manifest), environment, buildVersion, prefix))
  }

  /** sam-<environment>.yml: the versions of every handler injected into
      samx.yml. */
  function EnvironmentTemplate(samXSource: string, manifest: seq<HandlerMethod>, environment: string, buildVersion: int32, prefix: string): string {
    InjectAt(samXSource, Banner(VersionsPayload(manifest, environment, buildVersion, prefix)))
  }

  /** `api`: both templates from the two template sources, with file reading
      and writing left to the caller. */
  method Api(samSource: string, samXSource: string, assemblyName: string, manifest: seq<HandlerMethod>,
             environmentKey: string, buildVersion: int32, prefix: string)
    returns (samBase: string, samEnvironment: string)
    ensures samBase == BaseTemplate(samSource, assemblyName, manifest, environmentKey, prefix)
    ensures samEnvironment == EnvironmentTemplate(samXSource, manifest, environmentKey, buildVersion, prefix)
  {
    var apiFunctionsList := GetAPIFunctions(manifest);
    var cloudformationAPIResources := GetCloudformationAPIResourcesString(assemblyName, apiFunctionsList, environmentKey, prefix);
    var lambdaFunctionsList := GetLambdaFunctions(manifest, assemblyName);
    var cloudformationLambdaResources := GetCloudformationLambdaResourcesString(assemblyName, lambdaFunctionsList, environmentKey, prefix);
    samBase := InjectAt(samSource, Banner(cloudformationAPIResources + cloudformationLambdaResources));

    var apiVersions := GetCloudformationLambdasVersionsResourcesString(apiFunctionsList, environmentKey, buildVersion, prefix);
    var lambdaVersions := GetCloudformationLambdasVersionsResourcesString(lambdaFunctionsList, environmentKey, buildVersion, prefix);
    var cloudformationLambdasVersionsResources := Text(AppendTitle("Lambdas versions")) + apiVersions + lambdaVersions;
    samEnvironment := InjectAt(samXSource, Banner(cloudformationLambdasVersionsResources));
  }
}
