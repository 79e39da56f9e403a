/** The older generator of the same fragments: the manifest scan, the API
    Gateway resources, the Lambdas and their versions and the `@INJECT`
    substitution, with the API reference `nWAYApi`, a fixed function-name
    prefix and fixed handler namespaces. Each generator is a method that
    appends to a builder, proved equal to a specification function on
    lines. */
module LegacyInjection {
  import opened Strings
  import opened Template
  import opened Manifest
  import opened Versioning
  import opened PathTree

  const RestApi := "nWAYApi"
  const RootParent := "!GetAtt nWAYApi.RootResourceId"
  /** The role every function runs under and every integration calls with. */
  const LambdaRole := "!Sub \"arn:aws:iam::${AWS::AccountId}:role/nway-lambdas\""
  const FunctionPrefix := "nway-"
  const ApiHandlerPrefix := "nwayapi::nWAY.API::"
  const LambdaHandlerPrefix := "nwayapi::nWAY.Lambdas.Handlers::"
  /** `AWSAPIMethodInfo.TimeoutInSeconds` starts at 40. */
  const DefaultMethodTimeout: int := 40

  /** `AWSAPIMethodInfo`: one scanned handler. MethodPath is the route of an
      API handler and null (None) for an entry of the Lambda list. */
  datatype MethodInfo = MethodInfo(
    methodName: string,
    methodPath: Option<string>,
    timeoutInSeconds: int,
    enableCors: bool)

  // ---------------------------------------------------------------------
  // Scanner
  // ---------------------------------------------------------------------

  predicate IsApiFunction(m: HandlerMethod) {
    Scanned(m) && ApiAttribute(m.annotation).Some?
  }

  /** The Lambda attribute lookup also finds the API attribute, which
      specialises it. */
  predicate IsLambdaFunction(m: HandlerMethod) {
    Scanned(m) && LambdaAttribute(m.annotation).Some?
  }

  /** Only the name, the route and the CORS flag are copied; the timeout
      keeps its default. */
  function ApiInfo(m: HandlerMethod): MethodInfo
    requires m.annotation.ApiResource?
  {
    MethodInfo(m.methodName, Some(m.annotation.pathPart.GetOr(m.methodName)), DefaultMethodTimeout, m.annotation.enableCors)
  }

  function LambdaInfo(m: HandlerMethod): MethodInfo
    requires !m.annotation.NoAnnotation?
  {
    MethodInfo(m.methodName, None, m.annotation.timeoutInSeconds, false)
  }

  predicate Routed(fns: seq<MethodInfo>) {
    forall i :: 0 <= i < |fns| ==> fns[i].methodPath.Some?
  }

  function APIFunctions(manifest: seq<HandlerMethod>): (fns: seq<MethodInfo>)
    ensures Routed(fns)
  {
    if manifest == [] then []
    else
      var m := manifest[|manifest| - 1];
      APIFunctions(manifest[..|manifest| - 1]) + (if IsApiFunction(m) then [ApiInfo(m)] else [])
  }

  function LambdaFunctions(manifest: seq<HandlerMethod>): seq<MethodInfo> {
    if manifest == [] then []
    else
      var m := manifest[|manifest| - 1];
      LambdaFunctions(manifest[..|manifest| - 1]) + (if IsLambdaFunction(m) then [LambdaInfo(m)] else [])
  }

  method GetAPIFunctions(manifest: seq<HandlerMethod>) returns (functionsList: seq<MethodInfo>)
    ensures functionsList == APIFunctions(manifest)
  {
    functionsList := [];
    var i := 0;
    while i < |manifest|
      invariant 0 <= i <= |manifest|
      invariant functionsList == APIFunctions(manifest[..i])
    {
      var methodInfo := manifest[i];
      assert manifest[..i + 1][..i] == manifest[..i];
      if Scanned(methodInfo) {
        var apiGatewayPath := ApiAttribute(methodInfo.annotation);
        if apiGatewayPath.Some? {
          var a := apiGatewayPath.value;
          functionsList := functionsList + [MethodInfo(
            methodInfo.methodName, Some(a.pathPart.GetOr(methodInfo.methodName)), DefaultMethodTimeout, a.enableCors)];
        }
      }
      i := i + 1;
    }
    assert manifest[..i] == manifest;
  }

  method GetLambdaFunctions(manifest: seq<HandlerMethod>) returns (functionsList: seq<MethodInfo>)
    ensures functionsList == LambdaFunctions(manifest)
  {
    functionsList := [];
    var i := 0;
    while i < |manifest|
      invariant 0 <= i <= |manifest|
      invariant functionsList == LambdaFunctions(manifest[..i])
    {
      var methodInfo := manifest[i];
      assert manifest[..i + 1][..i] == manifest[..i];
      if Scanned(methodInfo) {
        var lambdaProperties := LambdaAttribute(methodInfo.annotation);
        if lambdaProperties.Some? {
          functionsList := functionsList + [MethodInfo(
            methodInfo.methodName, None, lambdaProperties.value.timeoutInSeconds, false)];
        }
      }
      i := i + 1;
    }
    assert manifest[..i] == manifest;
  }

  // ---------------------------------------------------------------------
  // Resource names
  // ---------------------------------------------------------------------

  function RouteOf(f: MethodInfo): Route
    requires f.methodPath.Some?
  {
    Route(f.methodName, f.methodPath.value)
  }

  function Routes(fns: seq<MethodInfo>): (routes: seq<Route>)
    requires Routed(fns)
    ensures |routes| == |fns|
    ensures forall i :: 0 <= i < |fns| ==> routes[i] == RouteOf(fns[i])
  {
    seq(|fns|, i requires 0 <= i < |fns| => RouteOf(fns[i]))
  }

  function FunctionName(f: MethodInfo): (name: string)
    ensures AllAlphanumeric(name)
  {
    ReplaceNonAlphanumeric(f.methodName)
  }

  /** The identifier stem of the second-level node: the second segment
      alone, sanitized. */
  function ChildName(r: Route): (name: string)
    requires |PathParts(r)| > 1
    ensures AllAlphanumeric(name)
  {
    ReplaceNonAlphanumeric(PathParts(r)[1])
  }

  /** The identifier stem the method blocks point at: the handler's name for
      a one-segment route, the last segment otherwise. */
  function ResourceName(r: Route): (name: string)
    ensures AllAlphanumeric(name)
  {
    var parts := PathParts(r);
    ReplaceNonAlphanumeric(if |parts| == 1 then r.methodName else parts[|parts| - 1])
  }

  // ---------------------------------------------------------------------
  // API Gateway resources
  // ---------------------------------------------------------------------

  /** A block between two `AppendLine()` calls. */
  function Padded(block: seq<Line>): seq<Line> {
    [Blank] + block + [Blank]
  }

  function RootResource(node: RootNode): seq<Line> {
    Padded(ResourceBlock(RestApi, node.name + "APIResource", RootParent, node.segment))
  }

  function RootResources(nodes: seq<RootNode>): seq<Line> {
    if nodes == [] then [] else RootResources(nodes[..|nodes| - 1]) + RootResource(nodes[|nodes| - 1])
  }

  /** The function block of a handler, invoked through `handlerPrefix`. */
  function FunctionResource(f: MethodInfo, handlerPrefix: string): seq<Line> {
    Padded(FunctionBlock(FunctionName(f) + "Function", FunctionPrefix + f.methodName,
      handlerPrefix + f.methodName, LambdaRole, f.timeoutInSeconds))
  }

  function ChildResource(r: Route): seq<Line>
    requires |PathParts(r)| > 1
  {
    Padded(ResourceBlock(RestApi, ChildName(r) + "APIResource",
      "!Ref " + ReplaceNonAlphanumeric(PathParts(r)[0]) + "APIResource", PathParts(r)[1]))
  }

  function MethodResource(f: MethodInfo): seq<Line>
    requires f.methodPath.Some?
  {
    Padded(MethodBlock(RestApi, FunctionName(f), ResourceName(RouteOf(f)) + "APIResource", LambdaRole))
  }

  function CorsResource(f: MethodInfo): seq<Line>
    requires f.methodPath.Some?
  {
    Padded([Line(1, "# enabling OPTIONS for " + f.methodName)])
    + OptionsBlock(RestApi, FunctionName(f), ResourceName(RouteOf(f)) + "APIResource") + [Blank]
  }

  /** Everything one API handler contributes after the root paths. */
  function MethodSection(f: MethodInfo): seq<Line>
    requires f.methodPath.Some?
  {
    Padded([Line(1, "# " + f.methodName)])
    + FunctionResource(f, ApiHandlerPrefix)
    + (if |PathParts(RouteOf(f))| > 1 then ChildResource(RouteOf(f)) else [])
    + MethodResource(f)
    + (if f.enableCors then CorsResource(f) else [])
  }

  function MethodSections(fns: seq<MethodInfo>): seq<Line>
    requires Routed(fns)
  {
    if fns == [] then [] else MethodSections(fns[..|fns| - 1]) + MethodSection(fns[|fns| - 1])
  }

  function MethodKeys(fns: seq<MethodInfo>): (keys: seq<string>)
    ensures |keys| == |fns|
    ensures forall i :: 0 <= i < |fns| ==> keys[i] == FunctionName(fns[i]) + "APIMethod"
  {
    seq(|fns|, i requires 0 <= i < |fns| => FunctionName(fns[i]) + "APIMethod")
  }

  function StagePair(fns: seq<MethodInfo>, stageKey: string, stageName: string, description: string, deploymentKey: string): seq<Line>
  {
    [Blank] + StageBlock(RestApi, stageKey, stageName, description, deploymentKey) + [Blank]
    + DeploymentBlock(RestApi, deploymentKey, MethodKeys(fns)) + [Blank]
  }

  /** The test pair for "test"; for every other environment the staging
      pair and a prod pair whose stage is keyed `Test`. */
  function Stages(fns: seq<MethodInfo>, environment: string): seq<Line> {
    if environment == "test" then
      StagePair(fns, "Test", "test", "API Test", "TestDeployment")
    else
      StagePair(fns, "Staging", "staging", "API Staging", "StagingDeployment")
      + StagePair(fns, "Test", "prod", "API Production", "ProdDeployment")
  }

  const RootTitle: seq<Line> := [Blank, Blank, Line(1, "# root API resources"), Blank]

  /** The lines of `GetCloudformationAPIResourcesString`. */
  function APIResourceLines(fns: seq<MethodInfo>, environment: string): seq<Line>
    requires Routed(fns)
  {
    RootTitle + RootResources(RootNodes(Routes(fns))) + MethodSections(fns) + Stages(fns, environment)
  }

  lemma RoutesPrefix(fns: seq<MethodInfo>, i: int)
    requires Routed(fns) && 0 <= i < |fns|
    ensures Routed(fns[..i]) && Routed(fns[..i + 1])
    ensures Routes(fns[..i + 1]) == Routes(fns[..i]) + [RouteOf(fns[i])]
    ensures Routes(fns[..i + 1])[..i] == Routes(fns[..i])
  {
    assert fns[..i + 1] == fns[..i] + [fns[i]];
  }

  lemma RootResourcesStep(nodes: seq<RootNode>, n: RootNode)
    ensures RootResources(nodes + [n]) == RootResources(nodes) + RootResource(n)
  {
    assert (nodes + [n])[..|nodes|] == nodes;
  }

  lemma MethodSectionsStep(fns: seq<MethodInfo>, i: int)
    requires Routed(fns) && 0 <= i < |fns|
    ensures Routed(fns[..i]) && Routed(fns[..i + 1])
    ensures MethodSections(fns[..i + 1]) == MethodSections(fns[..i]) + MethodSection(fns[i])
  {
    assert fns[..i + 1][..i] == fns[..i];
  }

  lemma DependsOnStep(fns: seq<MethodInfo>, i: int)
    requires 0 <= i < |fns|
    ensures DependsOnItems(MethodKeys(fns[..i + 1])) ==
      DependsOnItems(MethodKeys(fns[..i])) + [Line(3, "- " + (FunctionName(fns[i]) + "APIMethod"))]
  {
    assert MethodKeys(fns[..i + 1]) == MethodKeys(fns[..i]) + [FunctionName(fns[i]) + "APIMethod"];
    DependsOnItemsSnoc(MethodKeys(fns[..i]), FunctionName(fns[i]) + "APIMethod");
  }

  // ---------------------------------------------------------------------
  // The generators, appending to a builder of lines
  // ---------------------------------------------------------------------

  method AppendRootResources(lines: seq<Line>, functions: seq<MethodInfo>) returns (r: seq<Line>)
    requires Routed(functions)
    ensures r == lines + RootResources(RootNodes(Routes(functions)))
  {
    r := lines;
    var rootPaths: seq<string> := [];
    var i := 0;
    while i < |functions|
      invariant 0 <= i <= |functions|
      invariant Routed(functions[..i])
      invariant rootPaths == Segments(RootNodes(Routes(functions[..i])))
      invariant r == lines + RootResources(RootNodes(Routes(functions[..i])))
    {
      var fn := functions[i];
      RoutesPrefix(functions, i);
      var pathParts := SplitOn(fn.methodPath.value, "/");
      if pathParts[0] !in rootPaths {
        ghost var nodes := RootNodes(Routes(functions[..i]));
        rootPaths := rootPaths + [pathParts[0]];
        var name := ReplaceNonAlphanumeric(if |pathParts| == 1 then fn.methodName else pathParts[0]);
        var block := RootResource(RootNode(name, pathParts[0]));
        assert RootNodes(Routes(functions[..i + 1])) == nodes + [NodeOf(RouteOf(fn))];
        RootResourcesStep(nodes, NodeOf(RouteOf(fn)));
        AppendAssoc(lines, RootResources(nodes), block);
        r := r + block;
        SegmentsAppend(nodes, NodeOf(RouteOf(fn)));
      }
      i := i + 1;
    }
    assert functions[..i] == functions;
  }

  method AppendMethodResources(lines: seq<Line>, functions: seq<MethodInfo>) returns (r: seq<Line>)
    requires Routed(functions)
    ensures r == lines + MethodSections(functions)
  {
    r := lines;
    var i := 0;
    while i < |functions|
      invariant 0 <= i <= |functions|
      invariant Routed(functions[..i])
      invariant r == lines + MethodSections(functions[..i])
    {
      var section := MethodSection(functions[i]);
      MethodSectionsStep(functions, i);
      AppendAssoc(lines, MethodSections(functions[..i]), section);
      r := r + section;
      i := i + 1;
    }
    assert functions[..i] == functions;
  }

  method AppendDependsOn(lines: seq<Line>, functions: seq<MethodInfo>) returns (r: seq<Line>)
    ensures r == lines + DependsOnItems(MethodKeys(functions))
  {
    r := lines;
    var i := 0;
    while i < |functions|
      invariant 0 <= i <= |functions|
      invariant r == lines + DependsOnItems(MethodKeys(functions[..i]))
    {
      var functionCFResourceName := ReplaceNonAlphanumeric(functions[i].methodName);
      DependsOnStep(functions, i);
      AppendAssoc(lines, DependsOnItems(MethodKeys(functions[..i])), [Line(3, "- " + (functionCFResourceName + "APIMethod"))]);
      r := r + [Line(3, "- " + (functionCFResourceName + "APIMethod"))];
      i := i + 1;
    }
    assert functions[..i] == functions;
  }

  method AppendStagePair(lines: seq<Line>, functions: seq<MethodInfo>,
                         stageKey: string, stageName: string, description: string, deploymentKey: string)
    returns (r: seq<Line>)
    ensures r == lines + StagePair(functions, stageKey, stageName, description, deploymentKey)
  {
    var stage := StageBlock(RestApi, stageKey, stageName, description, deploymentKey);
    var header := DeploymentHeader(RestApi, deploymentKey);
    var front := [Blank] + stage + [Blank];
    r := AppendDependsOn(lines + front + header, functions);
    r := r + [Blank];
    AppendAssoc(lines + front, header, DependsOnItems(MethodKeys(functions)));
    AppendAssoc(lines, front, DeploymentBlock(RestApi, deploymentKey, MethodKeys(functions)));
    AppendAssoc(lines, front + DeploymentBlock(RestApi, deploymentKey, MethodKeys(functions)), [Blank]);
  }

  method AppendStages(lines: seq<Line>, functions: seq<MethodInfo>, Environment: string) returns (r: seq<Line>)
    ensures r == lines + Stages(functions, Environment)
  {
    if Environment == "test" {
      r := AppendStagePair(lines, functions, "Test", "test", "API Test", "TestDeployment");
    } else {
      // staging and prod share one environment
      r := AppendStagePair(lines, functions, "Staging", "staging", "API Staging", "StagingDeployment");
      r := AppendStagePair(r, functions, "Test", "prod", "API Production", "ProdDeployment");
      AppendAssoc(lines, StagePair(functions, "Staging", "staging", "API Staging", "StagingDeployment"),
        StagePair(functions, "Test", "prod", "API Production", "ProdDeployment"));
    }
  }

  method GetCloudformationAPIResourcesString(functions: seq<MethodInfo>, Environment: string) returns (r: string)
    requires Routed(functions)
    ensures r == Text(APIResourceLines(functions, Environment))
  {
    var cloudformationResources := RootTitle;
    cloudformationResources := AppendRootResources(cloudformationResources, functions);
    cloudformationResources := AppendMethodResources(cloudformationResources, functions);
    cloudformationResources := AppendStages(cloudformationResources, functions, Environment);
    r := Text(cloudformationResources);
  }

  // ---------------------------------------------------------------------
  // Lambdas
  // ---------------------------------------------------------------------

  function FunctionResources(fns: seq<MethodInfo>): seq<Line> {
    if fns == [] then [] else FunctionResources(fns[..|fns| - 1]) + FunctionResource(fns[|fns| - 1], LambdaHandlerPrefix)
  }

  /** The lines of `GetCloudformationLambdaResourcesString`; the environment
      does not influence them. */
  function LambdaResourceLines(fns: seq<MethodInfo>, environment: string): seq<Line> {
    [Blank] + FunctionResources(fns)
  }

  lemma FunctionResourcesStep(fns: seq<MethodInfo>, i: int)
    requires 0 <= i < |fns|
    ensures FunctionResources(fns[..i + 1]) == FunctionResources(fns[..i]) + FunctionResource(fns[i], LambdaHandlerPrefix)
  {
    assert fns[..i + 1][..i] == fns[..i];
  }

  method AppendFunctionResources(lines: seq<Line>, functions: seq<MethodInfo>) returns (r: seq<Line>)
    ensures r == lines + FunctionResources(functions)
  {
    r := lines;
    var i := 0;
    while i < |functions|
      invariant 0 <= i <= |functions|
      invariant r == lines + FunctionResources(functions[..i])
    {
      var block := FunctionResource(functions[i], LambdaHandlerPrefix);
      FunctionResourcesStep(functions, i);
      AppendAssoc(lines, FunctionResources(functions[..i]), block);
      r := r + block;
      i := i + 1;
    }
    assert functions[..i] == functions;
  }

  method GetCloudformationLambdaResourcesString(functions: seq<MethodInfo>, Environment: string) returns (r: string)
    ensures r == Text(LambdaResourceLines(functions, Environment))
  {
    var cloudformationResources := AppendFunctionResources([Blank], functions);
    r := Text(cloudformationResources);
  }

  // ---------------------------------------------------------------------
  // Lambda versions
  // ---------------------------------------------------------------------

  function VersionKey(f: MethodInfo, version: int32): (key: string)
    ensures ValidKey(key)
  {
    SuffixedKey(FunctionName(f), "Version" + IntToString(version as int));
    FunctionName(f) + ("Version" + IntToString(version as int))
  }

  function AliasKey(f: MethodInfo): (key: string)
    ensures ValidKey(key)
  {
    SuffixedKey(FunctionName(f), "Alias");
    FunctionName(f) + "Alias"
  }

  function VersionSection(f: MethodInfo, environment: string, version: int32): seq<Line> {
    [Line(1, "# " + (VersionKey(f, version) + " related resources."))] + [Blank]
    + Padded(VersionBlock(VersionKey(f, version), FunctionPrefix + f.methodName))
    + Padded(AliasBlock(AliasKey(f), FunctionPrefix + f.methodName, VersionKey(f, version), environment))
  }

  function VersionSections(fns: seq<MethodInfo>, environment: string, version: int32): seq<Line> {
    if fns == [] then []
    else VersionSections(fns[..|fns| - 1], environment, version) + VersionSection(fns[|fns| - 1], environment, version)
  }

  /** The lines of `GetCloudformationLambdasVersionsResourcesString`. */
  function LambdasVersionsLines(fns: seq<MethodInfo>, environment: string, buildVersion: int32): seq<Line> {
    [Blank] + VersionSections(fns, environment, EnvironmentVersion(environment, buildVersion))
  }

  lemma VersionSectionsStep(fns: seq<MethodInfo>, i: int, environment: string, version: int32)
    requires 0 <= i < |fns|
    ensures VersionSections(fns[..i + 1], environment, version) ==
      VersionSections(fns[..i], environment, version) + VersionSection(fns[i], environment, version)
  {
    assert fns[..i + 1][..i] == fns[..i];
  }

  method AppendVersionResources(lines: seq<Line>, functions: seq<MethodInfo>, Environment: string, environmentVersion: int32)
    returns (r: seq<Line>)
    ensures r == lines + VersionSections(functions, Environment, environmentVersion)
  {
    r := lines;
    var i := 0;
    while i < |functions|
      invariant 0 <= i <= |functions|
      invariant r == lines + VersionSections(functions[..i], Environment, environmentVersion)
    {
      var section := VersionSection(functions[i], Environment, environmentVersion);
      VersionSectionsStep(functions, i, Environment, environmentVersion);
      AppendAssoc(lines, VersionSections(functions[..i], Environment, environmentVersion), section);
      r := r + section;
      i := i + 1;
    }
    assert functions[..i] == functions;
  }

  method GetCloudformationLambdasVersionsResourcesString(functions: seq<MethodInfo>, Environment: string, BuildVersion: int32)
    returns (r: string)
    ensures r == Text(LambdasVersionsLines(functions, Environment, BuildVersion))
  {
    // staging and prod use the same account
    var environmentVersion := EnvironmentVersion(Environment, BuildVersion);
    var cloudformationResources := AppendVersionResources([Blank], functions, Environment, environmentVersion);
    r := Text(cloudformationResources);
  }

  // ---------------------------------------------------------------------
  // Injection
  // ---------------------------------------------------------------------

  /** What replaces the placeholder: a banner without a line break, the
      payload and an end marker. */
  function Banner(payload: string): string {
    " INJECTED CODE:" + payload + IndentText(1, "# END of injected code")
  }

  /** sam-base.yml: the API resources and the Lambdas injected into sam.yml. */
  function BaseTemplate(samSource: string, manifest: seq<HandlerMethod>, environment: string): string {
    InjectAt(samSource, Banner(
      Text(APIResourceLines(APIFunctions(manifest), environment)) +
      Text(LambdaResourceLines(LambdaFunctions(manifest), environment))))
  }

  /** The versions of the API list followed by those of the Lambda list. */
  function VersionsPayload(manifest: seq<HandlerMethod>, environment: string, buildVersion: int32): string {
    Text(LambdasVersionsLines(APIFunctions(manifest), environment, buildVersion)) +
    Text(LambdasVersionsLines(LambdaFunctions(manifest), environment, buildVersion))
  }

  /** sam-<environment>.yml: the versions injected into samx.yml. */
  function EnvironmentTemplate(samXSource: string, manifest: seq<HandlerMethod>, environment: string, buildVersion: int32): string {
    InjectAt(samXSource, Banner(VersionsPayload(manifest, environment, buildVersion)))
  }

  /** The body of `Main`: both templates from the two template sources, with
      argument parsing, file reading and writing left to the caller. */
  method GenerateTemplates(samSource: string, samXSource: string, manifest: seq<HandlerMethod>,
                           environment: string, buildVersion: int32)
    returns (samBase: string, samEnvironment: string)
    ensures samBase == BaseTemplate(samSource, manifest, environment)
    ensures samEnvironment == EnvironmentTemplate(samXSource, manifest, environment, buildVersion)
  {
    var apiFunctionsList := GetAPIFunctions(manifest);
    var cloudformationAPIResources := GetCloudformationAPIResourcesString(apiFunctionsList, environment);
    var lambdaFunctionsList := GetLambdaFunctions(manifest);
    var cloudformationLambdaResources := GetCloudformationLambdaResourcesString(lambdaFunctionsList, environment);
    samBase := InjectAt(samSource, Banner(cloudformationAPIResources + cloudformationLambdaResources));

    var apiVersions := GetCloudformationLambdasVersionsResourcesString(apiFunctionsList, environment, buildVersion);
    var lambdaVersions := GetCloudformationLambdasVersionsResourcesString(lambdaFunctionsList, environment, buildVersion);
    var cloudformationLambdasVersionsResources := apiVersions + lambdaVersions;
    samEnvironment := InjectAt(samXSource, Banner(cloudformationLambdasVersionsResources));
  }
}
