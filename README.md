# cf4dotnet template injection, modelled in Dafny

cf4dotnet turns the handler methods of a .NET Lambda assembly into
CloudFormation/SAM resources and splices them into two YAML templates. A
method carrying an `APIGatewayResourceProperties` annotation becomes an API
Gateway endpoint. That means a Lambda function, the path resources of its
route, a POST method and, when CORS is enabled, an OPTIONS method. A method
carrying a `LambdaResourceProperties` annotation becomes a standalone Lambda.
Every handler also gets a retained Lambda Version and an Alias, numbered from
the environment and the build number. The generated text replaces every
`@INJECT` placeholder of `sam.yml`, giving `sam-base.yml`: the API resources
and the Lambdas. It also replaces every placeholder of `samx.yml`, giving
`sam-<environment>.yml`: the versions.

Two generators are modelled:

- `src/tool/Injection.cs` is the command-line tool (`ToolInjection`,
  properties in `ToolProperties`). It takes the assembly's name, the
  environment, the build number and a prefix for function names; the
  execution role every function and integration uses is fixed.
- `src/Injection.cs` is the older, hard-wired generator for the nWAY API
  (`LegacyInjection`, properties in `LegacyProperties`). It differs in several
  ways:
  - method blocks point at the last path segment;
  - API handlers are scanned a second time as Lambdas;
  - the prod stage is keyed `Test`;
  - every API function gets a fixed 40-second timeout.

  These quirks are modelled as written and shown by lemmas.

Shared modules:

- `Strings`: the identifier sanitizer, `Split("/")`, `Replace` and
  `Int32.ToString`.
- `Template`: the output as a sequence of lines. `Line(level, text)` stands
  for `AppendLine(IndentText(level, text))` and `Blank` for `AppendLine()`.
  The module also holds the YAML blocks, the keyed-resource view `Keys`
  (level-1 lines ending in `:`; `RenderedKeyLine` ties this to the rendered
  text) and placeholder injection.
- `Manifest`: the handler methods in discovery order, with their annotations.
  It stands for the reflection scan.
- `Versioning`: the version-number formula with explicit 32-bit wrap-around.
- `PathTree`: the root-path scan both generators share.

Each `StringBuilder` loop is a method with a loop invariant. Its `ensures`
ties the built lines to a specification function. The properties are lemmas
about those functions:

- which keys the output defines, in which order;
- which key every `!Ref`/`DependsOn` names, and when that key is missing;
- that the OPTIONS method exists exactly when CORS is enabled;
- the stage and deployment wiring;
- the version/alias links, and the odd/even version tracks that never collide;
- how the placeholder is replaced.

## Model

| member | source | states |
|---|---|---|
| Strings.ReplaceNonAlphanumeric | src/tool/Injection.cs:431 | the sanitized name holds only [A-Za-z0-9] and is no longer than the input |
| Strings.ReplaceNonAlphanumericAppend | src/tool/Injection.cs:431 | the regex works per character: sanitizing a concatenation concatenates the sanitized parts |
| Strings.ReplaceNonAlphanumericChar | src/tool/Injection.cs:431 | one character is kept exactly when it is alphanumeric |
| Strings.ReplaceNonAlphanumericKeeps | src/tool/Injection.cs:431 | an alphanumeric name is left unchanged |
| Strings.ReplaceNonAlphanumericIdempotent | src/tool/Injection.cs:431 | sanitizing twice is sanitizing once |
| Strings.ReplaceNonAlphanumericDrops | src/tool/Injection.cs:431 | a non-alphanumeric character anywhere in the name leaves no trace |
| Strings.ReplaceNonAlphanumericCounts | src/tool/Injection.cs:431 | every alphanumeric character occurs in the result as often as in the name, and no other character occurs |
| Strings.SplitOn | src/tool/Injection.cs:182 | `Split("/")` yields at least one part, empty parts kept |
| Strings.SplitJoinRoundTrip | src/tool/Injection.cs:182 | joining the parts of a split with the separator gives the string back |
| Strings.SplitOnAbsent | src/tool/Injection.cs:182 | a string without the separator splits into itself alone |
| Strings.SplitOnFirst | src/tool/Injection.cs:182 | at the first occurrence the split yields the prefix and then the split of the rest |
| Strings.ReplaceIsSplitJoin | src/tool/Injection.cs:103 | `Replace` is split on the pattern, joined with the replacement |
| Strings.ReplaceSelf | src/tool/Injection.cs:103 | replacing the pattern by itself changes nothing |
| Strings.ReplaceAbsent | src/tool/Injection.cs:103 | a string without the pattern is returned unchanged |
| Strings.ReplaceFirst | src/tool/Injection.cs:103 | the text before the first occurrence is kept, the occurrence becomes the replacement, the rest is processed the same way |
| Strings.ReplaceKeepsPrefix | src/tool/Injection.cs:103 | text before the first occurrence is kept verbatim |
| Strings.Replace | src/tool/Injection.cs:103 | `String.Replace` left to right over non-overlapping matches; its meaning is stated by ReplaceIsSplitJoin, ReplaceFirst, ReplaceAbsent and ReplaceSelf |
| Strings.Join | src/tool/Injection.cs:103 | the parts with the separator between them; SplitJoinRoundTrip makes it the inverse of SplitOn, and ReplaceIsSplitJoin ties Replace to it |
| Strings.NatToString | src/tool/Injection.cs:208 | decimal rendering is non-empty and made of digits |
| Strings.IntToString | src/tool/Injection.cs:208 | invariant-culture `Int32.ToString`, a '-' before the digits of a negative number; IntToStringInjective states that distinct numbers render differently |
| Strings.IntToStringInjective | src/tool/Injection.cs:397 | distinct numbers render as distinct strings, negatives included |
| Strings.SuffixDistinct | src/tool/Injection.cs:185 | two keys with the same suffix are equal only when their stems are |
| Template.IndentTextShape | src/tool/Injection.cs:427 | `IndentText(level, text)` is 2·level spaces followed by the text |
| Template.IndentText | src/tool/Injection.cs:427 | the indented text; IndentTextShape states it is 2·level spaces followed by the text |
| Template.TextAppend | src/tool/Injection.cs:427 | rendering two line sequences one after the other concatenates their texts |
| Template.AppendTitle | src/tool/Injection.cs:433 | a title is five lines, blank at both ends, and introduces no key |
| Template.RenderedKeyLine | src/tool/Injection.cs:185 | a line is a key line exactly when its rendered text is two spaces, a first character other than ' ' or '#', and a final ':'; the key is what lies between |
| Template.KeysAppend | src/tool/Injection.cs:174-361 | the keys of concatenated output are the keys of the parts, in order |
| Template.CommentIsNoKey | src/tool/Injection.cs:199 | a `# ...` comment line introduces no key |
| Template.ResourceBlockShape | src/tool/Injection.cs:185-190 | a path resource defines its key only, under the given parent and path part |
| Template.FunctionBlockShape | src/tool/Injection.cs:202-208 | a function block defines its key only, with function name, handler (trailing space kept), role and timeout |
| Template.MethodBlockShape | src/tool/Injection.cs:224-236 | a method block defines `<name>APIMethod` only, POST on the given resource, invoking `<name>Function` |
| Template.CorsIntegrationShape | src/tool/Injection.cs:250-270 | the mock CORS integration introduces no key |
| Template.OptionsBlockShape | src/tool/Injection.cs:243-270 | an OPTIONS block defines `<name>APIMethodOPTIONS` only, on the given resource |
| Template.StageBlockShape | src/tool/Injection.cs:283-292 | a stage defines its key only, depends on the API and publishes its deployment under its stage name and alias |
| Template.DependsOnItemsNames | src/tool/Injection.cs:299-303 | a `DependsOn:` list names a key exactly when it is one of the given keys, and defines no key of its own |
| Template.DeploymentBlockShape | src/tool/Injection.cs:295-303 | a deployment defines its key only and names the API; its fifth line is `DependsOn:` and the list items, exactly `DependsOnItems` of the given keys, end the block |
| Template.VersionBlockShape | src/tool/Injection.cs:400-404 | a Version block defines its key only, retained, naming the function |
| Template.AliasBlockShape | src/tool/Injection.cs:407-414 | an Alias block defines its key only, retained, depends on and publishes the Version, named after the environment |
| Template.InjectAt | src/tool/Injection.cs:103 | every placeholder is replaced: the result is the template's pieces between placeholders joined with the replacement |
| Template.InjectAtPieces | src/tool/Injection.cs:103 | injecting the placeholder itself gives the template back |
| Manifest.AttributeLookups | src/APIGatewayResourceProperties.cs:6 | the Lambda lookup finds every API annotation, the API attribute deriving from the Lambda one; what it finds that is not an API annotation is exactly a plain Lambda annotation |
| Versioning.Wrap32 | src/tool/Injection.cs:391 | the result is congruent to the input modulo 2^32 (unchecked `int`) |
| Versioning.EnvironmentVersion | src/tool/Injection.cs:391 | the version number of a build in an environment, with unchecked `int` arithmetic; EnvironmentVersionExact, EnvironmentVersionParity and StagingNeverCollides state its values and its two tracks |
| Versioning.EnvironmentVersionExact | src/tool/Injection.cs:391 | without wrap-around staging gets 2b-1 and every other environment 2b |
| Versioning.EnvironmentVersionParity | src/tool/Injection.cs:391 | for every 32-bit build number staging versions are odd and the others even |
| Versioning.StagingNeverCollides | src/tool/Injection.cs:389-391 | staging and another environment, sharing one account, never get the same version number |
| Versioning.EnvironmentVersionIncreasing | src/tool/Injection.cs:391 | a later build gets a larger number on the same track while nothing wraps |
| Versioning.EnvironmentVersionExamples | src/tool/Injection.cs:391 | staging 5 gets 9, prod 5 gets 10, test 3 gets 6 |
| Versioning.EnvironmentVersionWraps | src/tool/Injection.cs:391 | build 2^30 wraps to -2^31 outside staging and to 2^31-1 in staging |
| PathTree.PathParts | src/tool/Injection.cs:182 | a route has at least one part |
| PathTree.RootNameOfPath | src/tool/Injection.cs:182-185 | for a route "s/rest" the root node has segment s and is named after s alone, whatever follows and whichever handler introduces it, an alphanumeric s verbatim; a route without '/' names it after its handler |
| PathTree.RootNodes | src/tool/Injection.cs:180-193 | scanning the routes yields at most one node per route, with alphanumeric names |
| PathTree.RootNodesCover | src/tool/Injection.cs:183-184 | a segment has a root node exactly when some route starts with it |
| PathTree.RootNodesDistinct | src/tool/Injection.cs:183-184 | no two root nodes share a segment |
| PathTree.IntroducesLast | src/tool/Injection.cs:183 | a route adds a node exactly when no earlier route starts with its segment |
| PathTree.RootNodesFirstAppearance | src/tool/Injection.cs:180-193 | the nodes are those of the routes that first show each segment, in the order they appear, named after that route |
| PathTree.IntroducerHasNode | src/tool/Injection.cs:183-190 | the node of a first-showing route is emitted |
| PathTree.RouteHasRoot | src/tool/Injection.cs:183 | every route's first segment was first shown by an earlier or the same route |
| PathTree.SplitOnSlashOne | src/tool/Injection.cs:182 | a '/'-free route is a single part |
| PathTree.SplitOnSlashCons | src/tool/Injection.cs:182 | a '/'-free name, '/' and a rest split into the name and the parts of the rest |
| PathTree.SplitOnSlashTwo | src/tool/Injection.cs:213 | "a/b" splits into a and b |
| PathTree.SplitOnSlashThree | src/Injection.cs:169 | "a/b/c" splits into a, b and c |
| ToolInjection.APIFunctions | src/tool/Injection.cs:136-153 | every scanned API entry has a route |
| ToolInjection.GetAPIFunctions | src/tool/Injection.cs:136-153 | the loop builds exactly the API list: annotated methods not named like System.Object members, path part defaulting to the method name |
| ToolInjection.GetLambdaFunctions | src/tool/Injection.cs:155-172 | the loop builds exactly the Lambda list: Lambda-annotated methods that are not API handlers, without route |
| ToolInjection.LambdaFunctions | src/tool/Injection.cs:155-172 | the standalone Lambda list; LambdaFunctionsMembers states which entries it holds, LambdaFunctionsAppend that it keeps discovery order |
| ToolInjection.FunctionName | src/tool/Injection.cs:201 | the resource stem is alphanumeric |
| ToolInjection.ChildName | src/tool/Injection.cs:215 | the second-level stem is alphanumeric |
| ToolInjection.AppendRootResources | src/tool/Injection.cs:180-193 | the loop appends exactly the root-node blocks of the routes |
| ToolInjection.AppendMethodResources | src/tool/Injection.cs:197-275 | the loop appends exactly each entry's function, second-level, method and CORS blocks |
| ToolInjection.AppendDependsOn | src/tool/Injection.cs:300-303 | the loop appends one `DependsOn` item per entry |
| ToolInjection.AppendStagePair | src/tool/Injection.cs:282-304 | appends a stage and its deployment |
| ToolInjection.AppendStages | src/tool/Injection.cs:279-358 | "test" gets the test pair, every other environment the staging and prod pairs |
| ToolInjection.Stages | src/tool/Injection.cs:279-358 | the stage and deployment lines; StagesKeys states the keys per environment and StagePairLines and DeploymentDependsOn how they are wired |
| ToolInjection.GetCloudformationAPIResourcesString | src/tool/Injection.cs:174-361 | the string is the rendering of the titled root, method and stage sections |
| ToolInjection.APIResourceLines | src/tool/Injection.cs:174-361 | the lines of the API string; APIResourceKeys states its keys, the Resolves lemmas what its references name |
| ToolInjection.AppendFunctionResources | src/tool/Injection.cs:368-381 | the loop appends one function block per standalone Lambda |
| ToolInjection.GetCloudformationLambdaResourcesString | src/tool/Injection.cs:363-384 | the string is the rendering of the titled Lambda functions |
| ToolInjection.VersionKey | src/tool/Injection.cs:400 | `<name>Version<n>` is a valid key |
| ToolInjection.AliasKey | src/tool/Injection.cs:407 | `<name>Alias` is a valid key |
| ToolInjection.AppendVersionResources | src/tool/Injection.cs:393-417 | the loop appends one version section per entry |
| ToolInjection.VersionSection | src/tool/Injection.cs:395-415 | the version, then the alias of one handler; VersionSectionKeys and VersionSectionLinks state its keys and how the alias points at the version |
| ToolInjection.VersionSections | src/tool/Injection.cs:393-417 | one section per entry; VersionSectionsKeys states its keys, two per entry in order |
| ToolInjection.GetCloudformationLambdasVersionsResourcesString | src/tool/Injection.cs:386-420 | the string renders the version sections with the environment's version number |
| ToolInjection.LambdasVersionsLines | src/tool/Injection.cs:386-420 | the sections numbered with EnvironmentVersion; StagingVersionKeysDiffer states that staging and the other environments never share a Version key |
| ToolInjection.Api | src/tool/Injection.cs:76-132 | both templates are the sources with every placeholder replaced by the banner, the payload and the end marker |
| ToolInjection.Banner | src/tool/Injection.cs:103 | what replaces the placeholder; BaseTemplateSplice and EnvironmentTemplateSplice state where it lands |
| ToolInjection.BaseTemplate | src/tool/Injection.cs:99-105 | sam-base.yml; BaseTemplateSplice and TemplatesWithoutToken state the splice |
| ToolInjection.VersionsPayload | src/tool/Injection.cs:116-119 | the title and the versions of the API list, then of the Lambda list; EnvironmentTemplateSplice states it |
| ToolInjection.EnvironmentTemplate | src/tool/Injection.cs:121-127 | sam-<environment>.yml; EnvironmentTemplateSplice and TemplatesWithoutToken state the splice |
| ToolProperties.APIFunctionsAppend | src/tool/Injection.cs:138-151 | scanning two manifest parts in turn concatenates their API lists |
| ToolProperties.LambdaFunctionsAppend | src/tool/Injection.cs:157-170 | scanning two manifest parts in turn concatenates their Lambda lists |
| ToolProperties.ScanOne | src/tool/Injection.cs:146-168 | what one method contributes to each list |
| ToolProperties.APIFunctionsMembers | src/tool/Injection.cs:140-149 | an entry is on the API list exactly when it is the descriptor of a scanned API-annotated method |
| ToolProperties.LambdaFunctionsMembers | src/tool/Injection.cs:159-168 | an entry is on the Lambda list exactly when it describes a scanned Lambda-only method; none has a route |
| ToolProperties.ScannedListsDisjoint | src/tool/Injection.cs:167 | no entry is on both lists |
| ToolProperties.ApiHandlersNotLambdas | src/tool/Injection.cs:165-167 | an API handler is found by the Lambda lookup but left off the Lambda list by the `is APIGatewayResourceProperties` test; when no other method of its class shares its name, no Lambda entry names it |
| ToolProperties.ApiAnnotationScanned | src/tool/Injection.cs:146-149 | any API annotation yields one API entry whose route is the path part, or the method name when it is null, with the annotation's CORS flag and timeout, and no Lambda entry |
| ToolProperties.DefaultApiDescriptor | src/APIGatewayResourceProperties.cs:9-15 | an API annotation with only its path part yields CORS off and the 20-second timeout inherited from the Lambda annotation |
| ToolProperties.DefaultLambdaDescriptor | src/LambdaResourceProperties.cs:8 | a Lambda annotation without arguments yields a standalone Lambda with no route, CORS off and a 20-second timeout, and no API entry |
| ToolProperties.ScannedRoutes | src/tool/Injection.cs:181-182 | every route the root scan reads belongs to a scanned API handler: its name with its path part, or with its name when the path part is null |
| ToolProperties.ObjectMethodsSkipped | src/tool/Injection.cs:140-144 | a method named like a System.Object member adds nothing to either list |
| ToolProperties.RootResourceShape | src/tool/Injection.cs:185-190 | a root block defines `<name>APIResource` under the API root with the segment as path part |
| ToolProperties.RootResourcesKeys | src/tool/Injection.cs:181-193 | the root section defines one key per node, in order |
| ToolProperties.RootPathKeys | src/tool/Injection.cs:181-193 | one root key per distinct first segment, named by the route that first shows it |
| ToolProperties.FunctionResourceLines | src/tool/Injection.cs:205-208 | the function is named prefix+method, its handler is assembly::class::method, it runs under the fixed execution role and it has the entry's timeout |
| ToolProperties.ChildResourceLines | src/tool/Injection.cs:219-220 | the second-level node hangs under the first segment's node with the second segment as path part |
| ToolProperties.MethodResourceLines | src/tool/Injection.cs:228-235 | POST points at the second-level node for multi-segment routes and at the handler's node otherwise, and its integration URI invokes `<name>Function` |
| ToolProperties.CorsResourceLines | src/tool/Injection.cs:247-248 | OPTIONS points at the same node as POST |
| ToolProperties.MethodInvokesOwnFunction | src/tool/Injection.cs:201-235 | a handler's POST method invokes the function block of its own section: the URI names the one key that block defines |
| ToolProperties.MethodSectionKeys | src/tool/Injection.cs:197-275 | a handler defines its function, its second-level node if any, its method, and OPTIONS if CORS is on, in that order |
| ToolProperties.CorsIffEnabled | src/tool/Injection.cs:239 | the OPTIONS method is defined exactly when CORS is enabled |
| ToolProperties.MethodSectionsKeys | src/tool/Injection.cs:197-275 | the method section's keys are the handlers' keys, in order |
| ToolProperties.SectionKeysIncluded | src/tool/Injection.cs:197-275 | every handler's keys are among the method section's keys |
| ToolProperties.StagePairKeys | src/tool/Injection.cs:283-303 | a stage pair defines the stage key and then the deployment key |
| ToolProperties.StagePairLines | src/tool/Injection.cs:287-292 | the stage's name, deployment and alias variable agree |
| ToolProperties.DeploymentDependsOn | src/tool/Injection.cs:299-303 | the `DependsOn:` list names every handler's method once, in order, and ends the block |
| ToolProperties.MethodKeysNameMethods | src/tool/Injection.cs:300-303 | item i of a `DependsOn:` list is the key handler i's POST method block defines; two items coincide exactly when the handlers' names sanitize alike |
| ToolProperties.StagesKeys | src/tool/Injection.cs:279-358 | "test" defines Test/TestDeployment; every other environment Staging/StagingDeployment/Prod/ProdDeployment |
| ToolProperties.APIResourceKeys | src/tool/Injection.cs:174-361 | the API string defines the root keys, then the handlers' keys, then the stage keys |
| ToolProperties.ChildParentResolves | src/tool/Injection.cs:219 | a second-level node's parent is defined when no route sharing its first segment is one segment long |
| ToolProperties.SingleSegmentResolves | src/tool/Injection.cs:228 | a one-segment route that first shows its segment has the node its POST points at |
| ToolProperties.ChildResolves | src/tool/Injection.cs:228 | a multi-segment route's POST points at a defined node |
| ToolProperties.DependsOnResolves | src/tool/Injection.cs:302 | every `DependsOn` item is a defined method |
| ToolProperties.CheckStatusScanned | test/MyApi.cs:22-23 | the sample handler is on the API list with route "utils/status" and on no Lambda list |
| ToolProperties.TwoSegmentKeys | src/tool/Injection.cs:185-228 | one handler on "s/t" defines sAPIResource, its function, stAPIResource, its method and the stages |
| ToolProperties.CheckStatusKeys | test/MyApi.cs:22-23 | the sample defines utilsAPIResource, CheckStatusFunction, utilsstatusAPIResource, CheckStatusAPIMethod and the stages |
| ToolProperties.SharedSegmentKeys | src/tool/Injection.cs:183-219 | handlers on "s" then "s/t": the root node is named after the first handler while the child points at sAPIResource |
| ToolProperties.SharedSegmentParentDangles | src/tool/Injection.cs:185-219 | in that case the child's parent key is not defined |
| ToolProperties.DuplicateRouteKeys | src/tool/Injection.cs:183-228 | two handlers on one one-segment route: only the first gets a node, the second's POST names one after itself |
| ToolProperties.DuplicateRouteResourceDangles | src/tool/Injection.cs:228 | in that case the second POST's resource is not defined |
| ToolProperties.FunctionResourcesKeys | src/tool/Injection.cs:368-381 | one function key per Lambda, in order |
| ToolProperties.LambdaResourceKeys | src/tool/Injection.cs:363-384 | the Lambda string defines exactly the Lambdas' function keys |
| ToolProperties.VersionSectionKeys | src/tool/Injection.cs:397-415 | a version section defines the Version key and then the Alias key |
| ToolProperties.VersionSectionLinks | src/tool/Injection.cs:400-414 | both are retained; the Alias depends on and publishes the Version, is named after the environment, and both name the prefixed function |
| ToolProperties.VersionSectionsKeys | src/tool/Injection.cs:393-417 | exactly one Version/Alias pair per entry, in order |
| ToolProperties.VersionKeyInjective | src/tool/Injection.cs:400 | different version numbers give different Version keys |
| ToolProperties.StagingVersionKeysDiffer | src/tool/Injection.cs:389-400 | a staging build never creates the Version key another environment's build creates |
| ToolProperties.TemplatesWithoutToken | src/tool/Injection.cs:103-125 | a template without the placeholder is left unchanged |
| ToolProperties.BaseTemplateSplice | src/tool/Injection.cs:103 | the first placeholder of sam.yml becomes " INJECTED CODE:\n\n", the API and Lambda strings and the end marker |
| ToolProperties.EnvironmentTemplateSplice | src/tool/Injection.cs:116-125 | the first placeholder of samx.yml becomes the banner, the "Lambdas versions" title, both version strings and the end marker |
| LegacyInjection.APIFunctions | src/Injection.cs:85-103 | every scanned API entry has a route |
| LegacyInjection.GetAPIFunctions | src/Injection.cs:85-103 | the loop builds exactly the API list with the method path defaulting to the name and the timeout left at 40 |
| LegacyInjection.GetLambdaFunctions | src/Injection.cs:105-123 | the loop builds exactly the Lambda list: every Lambda-annotated method, API handlers included |
| LegacyInjection.LambdaFunctions | src/Injection.cs:105-123 | the Lambda list, API handlers included; LambdaFunctionsMembers states which entries it holds and LambdaScanDifference how it differs from the tool's |
| LegacyInjection.FunctionName | src/Injection.cs:158 | the resource stem is alphanumeric |
| LegacyInjection.ChildName | src/Injection.cs:172 | the second-level stem is alphanumeric; `LegacyProperties.ChildResourceKeys` proves the second-level key is the sanitized second segment followed by `APIResource` |
| LegacyInjection.ResourceName | src/Injection.cs:186 | the method's resource stem is alphanumeric |
| LegacyInjection.AppendRootResources | src/Injection.cs:135-149 | the loop appends exactly the root-node blocks of the routes |
| LegacyInjection.AppendMethodResources | src/Injection.cs:151-232 | the loop appends exactly each entry's comment, function, second-level, method and CORS blocks |
| LegacyInjection.AppendDependsOn | src/Injection.cs:255-258 | the loop appends one `DependsOn` item per entry |
| LegacyInjection.AppendStagePair | src/Injection.cs:237-259 | appends a stage and its deployment |
| LegacyInjection.AppendStages | src/Injection.cs:234-315 | "test" gets the test pair, every other environment the staging pair and a prod pair keyed `Test` |
| LegacyInjection.Stages | src/Injection.cs:234-315 | the stage and deployment lines; StagesKeys states the keys per environment, ProdStageKeyedTest the prod stage's key |
| LegacyInjection.GetCloudformationAPIResourcesString | src/Injection.cs:125-318 | the string renders the root title, root nodes, method sections and stages |
| LegacyInjection.APIResourceLines | src/Injection.cs:125-318 | the lines of the API string; APIResourceKeys states its keys, the Resolves and Dangles lemmas what its references name |
| LegacyInjection.AppendFunctionResources | src/Injection.cs:325-342 | the loop appends one function block per Lambda entry |
| LegacyInjection.GetCloudformationLambdaResourcesString | src/Injection.cs:320-345 | the string renders a blank line and the function blocks |
| LegacyInjection.VersionKey | src/Injection.cs:363 | `<name>Version<n>` is a valid key |
| LegacyInjection.AliasKey | src/Injection.cs:371 | `<name>Alias` is a valid key |
| LegacyInjection.AppendVersionResources | src/Injection.cs:355-381 | the loop appends one version section per entry |
| LegacyInjection.VersionSection | src/Injection.cs:357-379 | the version, then the alias of one handler; VersionSectionKeys and VersionSectionLinks state its keys and links |
| LegacyInjection.VersionSections | src/Injection.cs:355-381 | one section per entry; VersionSectionsKeys states its keys, two per entry in order |
| LegacyInjection.GetCloudformationLambdasVersionsResourcesString | src/Injection.cs:347-384 | the string renders the version sections with the environment's version number |
| LegacyInjection.LambdasVersionsLines | src/Injection.cs:347-384 | the sections numbered with EnvironmentVersion; LambdasVersionsKeys states its keys and StagingVersionKeysDiffer the two tracks |
| LegacyInjection.GenerateTemplates | src/Injection.cs:27-83 | both templates are the sources with every placeholder replaced by " INJECTED CODE:", the payload and the end marker |
| LegacyInjection.Banner | src/Injection.cs:51 | " INJECTED CODE:" with no line break, the payload and the end marker; BaseTemplateSplice states where it lands |
| LegacyInjection.BaseTemplate | src/Injection.cs:47-53 | sam-base.yml; BaseTemplateSplice and TemplatesWithoutToken state the splice |
| LegacyInjection.VersionsPayload | src/Injection.cs:66-68 | the versions of the API list, then of the Lambda list, with no title; EnvironmentTemplateSplice states it |
| LegacyInjection.EnvironmentTemplate | src/Injection.cs:70-76 | sam-<environment>.yml; EnvironmentTemplateSplice and TemplatesWithoutToken state the splice |
| LegacyProperties.APIFunctionsMembers | src/Injection.cs:90-99 | an entry is on the API list exactly when it describes a scanned API-annotated method; it has a route and timeout 40 |
| LegacyProperties.LambdaFunctionsMembers | src/Injection.cs:110-119 | an entry is on the Lambda list exactly when it describes a scanned annotated method of either kind; it has no route and CORS off |
| LegacyProperties.ApiHandlersAreLambdas | src/Injection.cs:116-119 | every API handler is on both lists under the same resource stem |
| LegacyProperties.ObjectMethodsSkipped | src/Injection.cs:90-94 | a method named like a System.Object member adds nothing to either list |
| LegacyProperties.ApiAnnotationScanned | src/Injection.cs:96-119 | any API annotation yields an API entry whose route is the path part or the method name, with the CORS flag copied and the timeout fixed at 40, and a Lambda entry with the annotation's timeout |
| LegacyProperties.DefaultLambdaInfo | src/Injection.cs:116-119 | a Lambda annotation without arguments yields a Lambda entry with no route and a 20-second timeout, and no API entry |
| LegacyProperties.LambdaScanDifference | src/Injection.cs:116-118 | a method is on this generator's Lambda list exactly when the tool scans it as a Lambda or as an API handler, which the tool never does both of; the extra ones are exactly the API handlers |
| LegacyProperties.ScannedRoutes | src/Injection.cs:136-137 | every route the root scan reads belongs to a scanned API handler: its name with its path part, or with its name when the path part is null |
| LegacyProperties.RootResourceShape | src/Injection.cs:141-146 | a root block defines `<name>APIResource` under nWAYApi's root with the segment as path part |
| LegacyProperties.RootResourcesKeys | src/Injection.cs:136-149 | the root section defines one key per node, in order |
| LegacyProperties.RootPathKeys | src/Injection.cs:136-149 | one root key per distinct first segment, named by the route that first shows it |
| LegacyProperties.FunctionResourceLines | src/Injection.cs:162-165 | the function is named nway-+method, its handler is the fixed namespace + method, it runs under the fixed `nway-lambdas` role and it has the entry's timeout |
| LegacyProperties.ChildResourceKeys | src/Injection.cs:172 | the second-level node is keyed by the sanitized second segment alone |
| LegacyProperties.ChildResourceLines | src/Injection.cs:176-177 | it hangs under the first segment's node with the second segment as path part |
| LegacyProperties.MethodResourceLines | src/Injection.cs:186-192 | POST points at the node of the last segment for multi-segment routes and at the handler's node otherwise, and its integration URI invokes `<name>Function` |
| LegacyProperties.CorsResourceLines | src/Injection.cs:205 | OPTIONS points at the same node as POST |
| LegacyProperties.MethodInvokesOwnFunction | src/Injection.cs:157-192 | a handler's POST method invokes the function block of its own section: the URI names the one key that block defines |
| LegacyProperties.MethodSectionKeys | src/Injection.cs:151-232 | a handler defines its function, its second-level node if any, its method, and OPTIONS if CORS is on, in that order |
| LegacyProperties.CorsIffEnabled | src/Injection.cs:197 | the OPTIONS method is defined exactly when CORS is enabled |
| LegacyProperties.MethodSectionsKeys | src/Injection.cs:151-232 | the method section's keys are the handlers' keys, in order |
| LegacyProperties.StagePairKeys | src/Injection.cs:237-259 | a stage pair defines the stage key and then the deployment key |
| LegacyProperties.StagePairLines | src/Injection.cs:242-247 | the stage's name, deployment and alias variable agree |
| LegacyProperties.DeploymentDependsOn | src/Injection.cs:254-258 | the `DependsOn:` list names every handler's method once, in order |
| LegacyProperties.MethodKeysNameMethods | src/Injection.cs:255-258 | item i of a `DependsOn:` list is the key handler i's POST method block defines; two items coincide exactly when the handlers' names sanitize alike |
| LegacyProperties.StagesKeys | src/Injection.cs:234-315 | "test" defines Test/TestDeployment; every other environment Staging/StagingDeployment/Test/ProdDeployment |
| LegacyProperties.ProdStageKeyedTest | src/Injection.cs:289-300 | outside "test" no stage is keyed Prod: the prod stage, publishing ProdDeployment, is keyed Test |
| LegacyProperties.APIResourceKeys | src/Injection.cs:125-318 | the API string defines the root keys, then the handlers' keys, then the stage keys |
| LegacyProperties.ChildParentResolves | src/Injection.cs:176 | a second-level node's parent is defined when no route sharing its first segment is one segment long |
| LegacyProperties.SingleSegmentResolves | src/Injection.cs:186 | a one-segment route that first shows its segment has the node its POST points at |
| LegacyProperties.TwoSegmentResolves | src/Injection.cs:172-186 | with two segments the last is the second, so POST points at the defined second-level node |
| LegacyProperties.DependsOnResolves | src/Injection.cs:257 | every `DependsOn` item is a defined method |
| LegacyProperties.FunctionResourcesKeys | src/Injection.cs:325-342 | one function key per Lambda entry, in order |
| LegacyProperties.LambdaResourceKeys | src/Injection.cs:320-345 | the Lambda string defines exactly the entries' function keys |
| LegacyProperties.FunctionKeyTwice | src/Injection.cs:157-334 | an API handler's function key is defined both in the API string and in the Lambda string of sam-base.yml |
| LegacyProperties.VersionSectionKeys | src/Injection.cs:359-379 | a version section defines the Version key and then the Alias key |
| LegacyProperties.VersionSectionLinks | src/Injection.cs:363-378 | both are retained; the Alias depends on and publishes the Version, is named after the environment, and both name nway-+method |
| LegacyProperties.VersionSectionsKeys | src/Injection.cs:355-381 | exactly one Version/Alias pair per entry, in order |
| LegacyProperties.LambdasVersionsKeys | src/Injection.cs:347-384 | the versions string defines those pairs with the environment's version number |
| LegacyProperties.VersionKeyInjective | src/Injection.cs:363 | different version numbers give different Version keys |
| LegacyProperties.StagingVersionKeysDiffer | src/Injection.cs:353-363 | a staging build never creates the Version key another environment's build creates |
| LegacyProperties.VersionKeyTwice | src/Injection.cs:66-68 | an API handler's Version key is defined twice in the environment template, once from each list |
| LegacyProperties.TemplatesWithoutToken | src/Injection.cs:51-74 | a template without the placeholder is left unchanged |
| LegacyProperties.BaseTemplateSplice | src/Injection.cs:51 | the first placeholder of sam.yml becomes " INJECTED CODE:" (no line break), the API and Lambda strings and the end marker |
| LegacyProperties.EnvironmentTemplateSplice | src/Injection.cs:66-74 | the first placeholder of samx.yml becomes the banner, both version strings and the end marker |
| LegacyProperties.CheckStatusScanned | src/Injection.cs:99-119 | the sample handler is on the API list with route "utils/status" and timeout 40, and on the Lambda list with timeout 20 |
| LegacyProperties.ThreeSegmentSectionKeys | src/Injection.cs:169-186 | a handler on "s/t/u" defines its function, tAPIResource and its method, and its POST's stem is u |
| LegacyProperties.ThreeSegmentKeys | src/Injection.cs:136-186 | one handler on "s/t/u" defines sAPIResource, its function, tAPIResource, its method and the stages, and its POST points at uAPIResource |
| LegacyProperties.ThreeSegmentResourceDangles | src/Injection.cs:186 | when u differs from s and t the POST's resource is not defined |

## Left out

- The command line (`Main`'s argument parsing in `src/tool/Injection.cs:26-74`, `Int32.Parse` of the arguments in `src/Injection.cs:27-60`), exit codes and the exception handler that prints the message: I/O and argument handling.
- File reading, deleting and writing and output paths: I/O. The template sources are parameters and the generated templates are results; the files receive exactly the UTF-8 bytes of those strings, with no byte-order mark (`UTF8Encoding.GetBytes` does not emit the preamble).
- Loading the assembly and reflecting over its types, methods and custom attributes: replaced by the `Manifest` sequence in discovery order. The nested type/method loops become one loop over that flat sequence.
- `GetAssemblyName` (`Path.GetFileNameWithoutExtension`): the assembly name is a parameter.
- `IsOdd`: declared in both generators but never called.
- The attribute classes are modelled only through the `Annotation` values they produce.
- A method carrying both annotations: `AllowMultiple = false` applies per attribute type, so one method may carry a `LambdaResourceProperties` and an `APIGatewayResourceProperties` together. The Lambda lookup then finds two matches and throws `AmbiguousMatchException` before any file is written. A `HandlerMethod` has one annotation, so the model cannot express such a method.
- Line endings: `AppendLine` ends a line with `Environment.NewLine`, which is "\r\n" on Windows. `Template.Text` ends every line with "\n", as on Unix. The banner's "\n\n" literal is the same on every platform, so on Windows the source mixes the two endings, which the model does not show.
- The exact YAML layout of fixed text: each emitted line is a `Line(level, text)`. Long constant lines (the CORS integration, the invocation URI) are kept as constants; only what the properties need is stated about them.
- The unused `Environment` parameter of the Lambda string builders is modelled but plays no part.
- `ToolInjection.GetLambdaFunctions`: its `AssemblyName` argument is unused in the source, and the model accepts and ignores it.
- Strings are sequences of characters. Culture-specific formatting is not modelled; `Int32.ToString` is rendered as invariant-culture decimal.
