/** The generated template text as a sequence of lines, the "keys" of that
    text (its level-1 `Name:` lines, one per top-level resource), and the
    resource block shapes both generators emit. A StringBuilder fed with
    AppendLine(IndentText(level, text)) is the sequence of the lines
    Line(level, text), AppendLine() adds the blank line, and its ToString()
    is Text(lines). */
module Template {
  import opened Strings

  /** `new string(' ', 2 * level)`. */
  function Spaces(level: nat): (r: string) {
    if level == 0 then "" else "  " + Spaces(level - 1)
  }

  /** `IndentText(level, text)`: the text behind 2 * level spaces. */
  function IndentText(level: nat, text: string): string {
    Spaces(level) + text
  }

  lemma {:induction false} SpacesShape(level: nat)
    ensures |Spaces(level)| == 2 * level
    ensures forall i :: 0 <= i < 2 * level ==> Spaces(level)[i] == ' '
  {
    if level > 0 {
      SpacesShape(level - 1);
      assert Spaces(level) == "  " + Spaces(level - 1);
    }
  }

  /** The indented text is 2 * level spaces followed by the text itself. */
  lemma IndentTextShape(level: nat, text: string)
    ensures |IndentText(level, text)| == 2 * level + |text|
    ensures forall i :: 0 <= i < 2 * level ==> IndentText(level, text)[i] == ' '
    ensures IndentText(level, text)[2 * level..] == text
  {
    SpacesShape(level);
  }

  /** One line of the builder: its indentation level and its text. */
  datatype Line = Line(level: nat, text: string)

  /** `AppendLine()`. */
  const Blank := Line(0, "")

  function Render(line: Line): string {
    IndentText(line.level, line.text)
  }

  /** The lines as one string, each line terminated by a newline. */
  function Text(lines: seq<Line>): string {
    if lines == [] then "" else Render(lines[0]) + "\n" + Text(lines[1..])
  }

  /** Appending to a builder and then rendering it renders both parts in turn. */
  lemma {:induction false} TextAppend(a: seq<Line>, b: seq<Line>)
    ensures Text(a + b) == Text(a) + Text(b)
  {
    if a != [] {
      assert (a + b)[1..] == a[1..] + b;
      TextAppend(a[1..], b);
    } else {
      assert a + b == b;
    }
  }

  /** Appending to a builder block by block: concatenation is associative. */
  lemma AppendAssoc<T>(a: seq<T>, b: seq<T>, c: seq<T>)
    ensures (a + b) + c == a + (b + c)
  {
  }

  const Rule := "############################################"

  /** `AppendTitle(title)`: a blank line, a banner of three comment lines and
      another blank line; a banner never introduces a key. */
  function AppendTitle(title: string): (r: seq<Line>)
    ensures |r| == 5 && r[0] == Blank && r[4] == Blank
    ensures Keys(r) == []
  {
    var lines := [Blank, Line(1, Rule), Line(1, "# " + title), Line(1, Rule), Blank];
    KeysNone(lines);
    lines
  }

  // ---------------------------------------------------------------------
  // Keys: the level-1 lines ending in ':' that are not comments
  // ---------------------------------------------------------------------

  predicate IsKeyLine(line: Line) {
    && line.level == 1
    && |line.text| >= 2
    && line.text[0] != ' ' && line.text[0] != '#'
    && line.text[|line.text| - 1] == ':'
  }

  function KeyOf(line: Line): string
    requires IsKeyLine(line)
  {
    line.text[..|line.text| - 1]
  }

  /** A key line of the rendered text: two spaces, a character that is
      neither a space nor '#', and a final ':'. */
  predicate IsKeyText(s: string) {
    && |s| >= 4
    && s[0] == ' ' && s[1] == ' '
    && s[2] != ' ' && s[2] != '#'
    && s[|s| - 1] == ':'
  }

  /** The key lines are exactly the lines that render as key lines, provided
      unindented lines are blank, and the key is the rendered line between
      the indentation and the colon. */
  lemma RenderedKeyLine(line: Line)
    requires line.level > 0 || line.text == ""
    ensures IsKeyLine(line) <==> IsKeyText(Render(line))
    ensures IsKeyLine(line) ==> KeyOf(line) == Render(line)[2..|Render(line)| - 1]
  {
    var s := Render(line);
    IndentTextShape(line.level, line.text);
    if line.level >= 2 {
      assert s[2] == ' ';
    } else if line.level == 1 {
      assert s[2..] == line.text;
      if |line.text| >= 1 {
        assert s[2] == line.text[0];
        assert s[|s| - 1] == line.text[|line.text| - 1];
      }
      if IsKeyLine(line) {
        assert s[2..|s| - 1] == s[2..][..|line.text| - 1];
      }
    } else {
      assert |s| == 0;
    }
  }

  /** The keys of the text, in the order their lines appear. */
  function Keys(lines: seq<Line>): seq<string> {
    if lines == [] then []
    else (if IsKeyLine(lines[0]) then [KeyOf(lines[0])] else []) + Keys(lines[1..])
  }

  /** Every key the generators emit starts with a letter or a digit. */
  predicate ValidKey(k: string) {
    |k| > 0 && IsAlphanumeric(k[0])
  }

  predicate NoKeyLines(lines: seq<Line>) {
    forall i :: 0 <= i < |lines| ==> !IsKeyLine(lines[i])
  }

  /** Keys distribute over concatenation of texts. */
  lemma {:induction false} KeysAppend(a: seq<Line>, b: seq<Line>)
    ensures Keys(a + b) == Keys(a) + Keys(b)
  {
    if a == [] {
      assert a + b == b;
    } else {
      assert (a + b)[0] == a[0];
      assert (a + b)[1..] == a[1..] + b;
      KeysAppend(a[1..], b);
    }
  }

  lemma KeysAppend3(a: seq<Line>, b: seq<Line>, c: seq<Line>)
    ensures Keys(a + b + c) == Keys(a) + Keys(b) + Keys(c)
  {
    KeysAppend(a + b, c);
    KeysAppend(a, b);
  }

  /** A text without key lines has no keys. */
  lemma {:induction false} KeysNone(lines: seq<Line>)
    requires NoKeyLines(lines)
    ensures Keys(lines) == []
  {
    if lines != [] {
      assert NoKeyLines(lines[1..]) by {
        forall i | 0 <= i < |lines[1..]| ensures !IsKeyLine(lines[1..][i]) {
          assert lines[1..][i] == lines[i + 1];
        }
      }
      KeysNone(lines[1..]);
    }
  }

  /** `IndentText(1, k + ":")` is the key line of k. */
  lemma KeyLine(k: string)
    requires ValidKey(k)
    ensures IsKeyLine(Line(1, k + ":"))
    ensures KeyOf(Line(1, k + ":")) == k
  {
    assert (k + ":")[0] == k[0];
    assert (k + ":")[..|k|] == k;
  }

  /** A block opened by a key line and followed by deeper lines has exactly
      that one key. */
  lemma KeysOfBlock(k: string, body: seq<Line>)
    requires ValidKey(k)
    requires NoKeyLines(body)
    ensures Keys([Line(1, k + ":")] + body) == [k]
  {
    KeyLine(k);
    KeysNone(body);
    assert ([Line(1, k + ":")] + body)[1..] == body;
  }

  lemma KeysOne(line: Line)
    ensures Keys([line]) == if IsKeyLine(line) then [KeyOf(line)] else []
  {
    assert [line][1..] == [];
  }

  /** A level-1 comment line ("# ...") is never a key. */
  lemma CommentIsNoKey(text: string)
    ensures Keys([Line(1, "# " + text)]) == []
  {
    KeysOne(Line(1, "# " + text));
  }

  lemma BlankIsNoKey()
    ensures Keys([Blank]) == []
  {
    KeysOne(Blank);
  }

  /** A key made of a sanitized name followed by a fixed suffix that starts
      with a letter is valid, whatever the name. */
  lemma SuffixedKey(name: string, suffix: string)
    requires AllAlphanumeric(name)
    requires |suffix| > 0 && IsAlphanumeric(suffix[0])
    ensures ValidKey(name + suffix)
  {
    if name == [] {
      assert name + suffix == suffix;
    } else {
      assert (name + suffix)[0] == name[0];
    }
  }

  /** A block followed by a blank line keeps its keys. */
  lemma KeysThenBlank(block: seq<Line>)
    ensures Keys(block + [Blank]) == Keys(block)
  {
    KeysAppend(block, [Blank]);
    BlankIsNoKey();
  }

  lemma KeysSkip(a: seq<Line>, t: seq<Line>, b: seq<Line>)
    requires Keys(t) == []
    ensures Keys(a + t + b) == Keys(a) + Keys(b)
  {
    KeysAppend3(a, t, b);
    assert Keys(a) + [] == Keys(a);
  }

  lemma KeysSkipFront(t: seq<Line>, b: seq<Line>)
    requires Keys(t) == []
    ensures Keys(t + b) == Keys(b)
  {
    KeysAppend(t, b);
    assert [] + Keys(b) == Keys(b);
  }

  /** A keyless head and two one-key blocks, each followed by a blank line. */
  lemma TwoBlockKeys(head: seq<Line>, b1: seq<Line>, b2: seq<Line>, k1: string, k2: string)
    requires Keys(head) == [] && Keys(b1) == [k1] && Keys(b2) == [k2]
    ensures Keys(head + [Blank] + b1 + [Blank] + b2 + [Blank]) == [k1, k2]
  {
    KeysThenBlank(head);
    KeysSkipFront(head + [Blank], b1);
    KeysThenBlank(head + [Blank] + b1);
    KeysAppend(head + [Blank] + b1 + [Blank], b2);
    KeysThenBlank(head + [Blank] + b1 + [Blank] + b2);
  }

  // ---------------------------------------------------------------------
  // Resource blocks, parameterised by the name of the API resource
  // ---------------------------------------------------------------------

  /** An AWS::ApiGateway::Resource node under `parentRef` for one path segment. */
  function ResourceBlock(api: string, key: string, parentRef: string, pathPart: string): seq<Line>
  {
    var body := [
      Line(2, "Type: AWS::ApiGateway::Resource"),
      Line(2, "Properties:"),
      Line(3, "RestApiId: !Ref " + api),
      Line(3, "ParentId: " + parentRef),
      Line(3, "PathPart: " + pathPart)];
    [Line(1, key + ":")] + body
  }

  lemma ResourceBlockShape(api: string, key: string, parentRef: string, pathPart: string)
    requires ValidKey(key)
    ensures Keys(ResourceBlock(api, key, parentRef, pathPart)) == [key]
    ensures Line(3, "ParentId: " + parentRef) in ResourceBlock(api, key, parentRef, pathPart)
    ensures Line(3, "PathPart: " + pathPart) in ResourceBlock(api, key, parentRef, pathPart)
  {
    var b := ResourceBlock(api, key, parentRef, pathPart);
    assert b == [Line(1, key + ":")] + b[1..];
    KeysOfBlock(key, b[1..]);
  }

  /** An AWS::Serverless::Function block. */
  function FunctionBlock(key: string, functionName: string, handler: string, role: string, timeout: int): seq<Line>
  {
    var body := [
      Line(2, "Type: AWS::Serverless::Function"),
      Line(2, "Properties:"),
      Line(3, "FunctionName: " + functionName),
      Line(3, "Handler: " + handler + " "),
      Line(3, "Role: " + role),
      Line(3, "Timeout: " + IntToString(timeout))];
    [Line(1, key + ":")] + body
  }

  lemma FunctionBlockShape(key: string, functionName: string, handler: string, role: string, timeout: int)
    requires ValidKey(key)
    ensures Keys(FunctionBlock(key, functionName, handler, role, timeout)) == [key]
    ensures Line(3, "FunctionName: " + functionName) in FunctionBlock(key, functionName, handler, role, timeout)
    ensures Line(3, "Handler: " + handler + " ") in FunctionBlock(key, functionName, handler, role, timeout)
    ensures Line(3, "Role: " + role) in FunctionBlock(key, functionName, handler, role, timeout)
    ensures Line(3, "Timeout: " + IntToString(timeout)) in FunctionBlock(key, functionName, handler, role, timeout)
  {
    var b := FunctionBlock(key, functionName, handler, role, timeout);
    assert b == [Line(1, key + ":")] + b[1..];
    KeysOfBlock(key, b[1..]);
  }

  const InvocationUriHead := "Uri: !Sub \"arn:aws:apigateway:${AWS::Region}:lambda:path/2015-03-31/functions/${"
  const InvocationUriTail := ".Arn}:${!stageVariables.lambdaAlias}/invocations\""

  /** The Lambda invocation URI of a proxy integration that calls the
      function block `functionKey`; the alias invoked is the stage's
      `lambdaAlias` variable. */
  function InvocationUri(functionKey: string): string {
    InvocationUriHead + functionKey + InvocationUriTail
  }

  /** The POST method `name`APIMethod bound to `resourceRef` through a Lambda
      proxy integration that invokes `name`Function under the stage's alias. */
  function MethodBlock(api: string, name: string, resourceRef: string, credentials: string): seq<Line>
  {
    var body := [
      Line(2, "Type: AWS::ApiGateway::Method"),
      Line(2, "Properties:"),
      Line(3, "RestApiId: !Ref " + api),
      Line(3, "ResourceId: !Ref " + resourceRef),
      Line(3, "HttpMethod: POST"),
      Line(3, "AuthorizationType: NONE"),
      Line(3, "Integration:"),
      Line(4, "Type: AWS_PROXY"),
      Line(4, "IntegrationHttpMethod: POST"),
      Line(4, InvocationUri(name + "Function")),
      Line(4, "Credentials: " + credentials)];
    [Line(1, name + "APIMethod" + ":")] + body
  }

  lemma MethodBlockShape(api: string, name: string, resourceRef: string, credentials: string)
    requires ValidKey(name + "APIMethod")
    ensures Keys(MethodBlock(api, name, resourceRef, credentials)) == [name + "APIMethod"]
    ensures Line(3, "ResourceId: !Ref " + resourceRef) in MethodBlock(api, name, resourceRef, credentials)
    ensures Line(3, "HttpMethod: POST") in MethodBlock(api, name, resourceRef, credentials)
    ensures Line(4, InvocationUri(name + "Function")) in MethodBlock(api, name, resourceRef, credentials)
  {
    var b := MethodBlock(api, name, resourceRef, credentials);
    assert b == [Line(1, name + "APIMethod" + ":")] + b[1..];
    KeysOfBlock(name + "APIMethod", b[1..]);
  }

  /** The fixed mock integration of a CORS pre-flight method: allow-list of
      headers and methods, any origin, status 200. */
  const CorsIntegration: seq<Line> :=
    [ Line(3, "HttpMethod: OPTIONS"),
      Line(3, "AuthorizationType: NONE"),
      Line(3, "Integration:"),
      Line(4, "Type: MOCK"),
      Line(4, "IntegrationResponses:"),
      Line(5, "-  ResponseParameters:"),
      Line(6, "  method.response.header.Access-Control-Allow-Headers: \"'Content-Type,X-Amz-Date,Authorization,X-Api-Key,X-Amz-Security-Token'\""),
      Line(6, "  method.response.header.Access-Control-Allow-Methods: \"'POST,OPTIONS'\""),
      Line(6, "  method.response.header.Access-Control-Allow-Origin: \"'*'\""),
      Line(5, "   ResponseTemplates:"),
      Line(6, "  application/json: ''"),
      Line(5, "   StatusCode: '200'"),
      Line(4, "PassthroughBehavior: NEVER"),
      Line(4, "RequestTemplates:"),
      Line(5, "application/json: '{\"statusCode\": 200}'"),
      Line(3, "MethodResponses:"),
      Line(4, "-  ResponseModels:"),
      Line(5, "  application/json: Empty"),
      Line(4, "   ResponseParameters:"),
      Line(5, "  method.response.header.Access-Control-Allow-Headers: true"),
      Line(5, "  method.response.header.Access-Control-Allow-Methods: true"),
      Line(5, "  method.response.header.Access-Control-Allow-Origin: true"),
      Line(4, "   StatusCode: '200'")]

  lemma CorsIntegrationShape()
    ensures NoKeyLines(CorsIntegration)
    ensures Keys(CorsIntegration) == []
    ensures CorsIntegration[0] == Line(3, "HttpMethod: OPTIONS")
  {
    KeysNone(CorsIntegration);
  }

  /** The properties of an OPTIONS method before its integration. */
  function OptionsHead(api: string, resourceRef: string): seq<Line>
  {
    [ Line(2, "Type: AWS::ApiGateway::Method"),
      Line(2, "Properties:"),
      Line(3, "RestApiId: !Ref " + api),
      Line(3, "ResourceId: !Ref " + resourceRef)]
  }

  /** The OPTIONS method `name`APIMethodOPTIONS on `resourceRef`. */
  function OptionsBlock(api: string, name: string, resourceRef: string): seq<Line>
  {
    [Line(1, name + "APIMethodOPTIONS" + ":")] + OptionsHead(api, resourceRef) + CorsIntegration
  }

  /** A key line followed by two keyless parts has that one key. */
  lemma KeyedBlock(k: string, x: seq<Line>, y: seq<Line>)
    requires ValidKey(k) && Keys(x) == [] && Keys(y) == []
    ensures Keys([Line(1, k + ":")] + x + y) == [k]
  {
    KeyLine(k);
    KeysOne(Line(1, k + ":"));
    KeysAppend3([Line(1, k + ":")], x, y);
  }

  lemma OptionsHeadShape(api: string, resourceRef: string)
    ensures Keys(OptionsHead(api, resourceRef)) == []
    ensures OptionsHead(api, resourceRef)[3] == Line(3, "ResourceId: !Ref " + resourceRef)
  {
    KeysNone(OptionsHead(api, resourceRef));
  }

  lemma InFirstOrLast<T>(x: T, a: seq<T>, b: seq<T>, c: seq<T>)
    requires x in a || x in c
    ensures x in a + b + c
  {
  }

  lemma OptionsBlockShape(api: string, name: string, resourceRef: string)
    requires ValidKey(name + "APIMethodOPTIONS")
    ensures Keys(OptionsBlock(api, name, resourceRef)) == [name + "APIMethodOPTIONS"]
    ensures Line(3, "ResourceId: !Ref " + resourceRef) in OptionsBlock(api, name, resourceRef)
    ensures Line(3, "HttpMethod: OPTIONS") in OptionsBlock(api, name, resourceRef)
  {
    var key := [Line(1, name + "APIMethodOPTIONS" + ":")];
    var head := OptionsHead(api, resourceRef);
    OptionsHeadShape(api, resourceRef);
    CorsIntegrationShape();
    KeyedBlock(name + "APIMethodOPTIONS", head, CorsIntegration);
    InFirstOrLast(Line(3, "ResourceId: !Ref " + resourceRef), key + head, [], CorsIntegration);
    InFirstOrLast(Line(3, "HttpMethod: OPTIONS"), key + head, [], CorsIntegration);
    assert key + head + [] == key + head;
  }

  /** An API stage `key` named `stageName` whose lambdaAlias is the stage name
      and whose deployment is `deploymentKey`. */
  function StageBlock(api: string, key: string, stageName: string, description: string, deploymentKey: string): seq<Line>
  {
    var body := [
      Line(2, "Type: AWS::ApiGateway::Stage"),
      Line(2, "DependsOn: " + api),
      Line(2, "Properties:"),
      Line(3, "StageName: " + stageName),
      Line(3, "Description: " + description),
      Line(3, "RestApiId: !Ref " + api),
      Line(3, "DeploymentId: !Ref " + deploymentKey),
      Line(3, "Variables:"),
      Line(4, "lambdaAlias: " + stageName)];
    [Line(1, key + ":")] + body
  }

  lemma StageBlockShape(api: string, key: string, stageName: string, description: string, deploymentKey: string)
    requires ValidKey(key)
    ensures Keys(StageBlock(api, key, stageName, description, deploymentKey)) == [key]
    ensures Line(2, "DependsOn: " + api) in StageBlock(api, key, stageName, description, deploymentKey)
    ensures Line(3, "StageName: " + stageName) in StageBlock(api, key, stageName, description, deploymentKey)
    ensures Line(3, "DeploymentId: !Ref " + deploymentKey) in StageBlock(api, key, stageName, description, deploymentKey)
    ensures Line(4, "lambdaAlias: " + stageName) in StageBlock(api, key, stageName, description, deploymentKey)
  {
    var b := StageBlock(api, key, stageName, description, deploymentKey);
    assert b == [Line(1, key + ":")] + b[1..];
    KeysOfBlock(key, b[1..]);
  }

  /** The `DependsOn:` list items, one `- key` line per key, in order. */
  function DependsOnItems(dependencies: seq<string>): (lines: seq<Line>)
    ensures |lines| == |dependencies|
    ensures forall i :: 0 <= i < |lines| ==> lines[i] == Line(3, "- " + dependencies[i])
    ensures NoKeyLines(lines)
  {
    seq(|dependencies|, i requires 0 <= i < |dependencies| => Line(3, "- " + dependencies[i]))
  }

  /** A `DependsOn:` list names a key exactly when that key is one of the
      dependencies, and introduces no key of its own. */
  lemma DependsOnItemsNames(dependencies: seq<string>, d: string)
    ensures Line(3, "- " + d) in DependsOnItems(dependencies) <==> d in dependencies
    ensures Keys(DependsOnItems(dependencies)) == []
  {
    var items := DependsOnItems(dependencies);
    KeysNone(items);
    if Line(3, "- " + d) in items {
      var i :| 0 <= i < |items| && items[i] == Line(3, "- " + d);
      PrefixCancel("- ", dependencies[i], d);
    }
    if d in dependencies {
      var i :| 0 <= i < |dependencies| && dependencies[i] == d;
      assert items[i] == Line(3, "- " + d);
    }
  }

  lemma DependsOnItemsSnoc(dependencies: seq<string>, d: string)
    ensures DependsOnItems(dependencies + [d]) == DependsOnItems(dependencies) + [Line(3, "- " + d)]
  {
  }

  /** The header of an AWS::ApiGateway::Deployment block, up to its
      `DependsOn:` line; the list items follow it. */
  function DeploymentHeader(api: string, key: string): seq<Line>
  {
    var body := [
      Line(2, "Type: AWS::ApiGateway::Deployment"),
      Line(2, "Properties:"),
      Line(3, "RestApiId: !Ref " + api),
      Line(2, "DependsOn:")];
    [Line(1, key + ":")] + body
  }

  lemma DeploymentHeaderShape(api: string, key: string)
    requires ValidKey(key)
    ensures Keys(DeploymentHeader(api, key)) == [key]
    ensures DeploymentHeader(api, key)[|DeploymentHeader(api, key)| - 1] == Line(2, "DependsOn:")
  {
    var b := DeploymentHeader(api, key);
    assert b == [Line(1, key + ":")] + b[1..];
    KeysOfBlock(key, b[1..]);
  }

  /** A Deployment block whose `DependsOn:` list is `dependencies`. */
  function DeploymentBlock(api: string, key: string, dependencies: seq<string>): seq<Line>
  {
    var items := DependsOnItems(dependencies);
    DeploymentHeader(api, key) + items
  }

  /** A Deployment block defines only its key and names the API; its fifth
      line opens the `DependsOn:` list and the list items end the block. */
  lemma DeploymentBlockShape(api: string, key: string, dependencies: seq<string>)
    requires ValidKey(key)
    ensures Keys(DeploymentBlock(api, key, dependencies)) == [key]
    ensures Line(3, "RestApiId: !Ref " + api) in DeploymentBlock(api, key, dependencies)
    ensures |DeploymentBlock(api, key, dependencies)| == 5 + |dependencies|
    ensures DeploymentBlock(api, key, dependencies)[4] == Line(2, "DependsOn:")
    ensures DeploymentBlock(api, key, dependencies)[5..] == DependsOnItems(dependencies)
  {
    var b := DeploymentBlock(api, key, dependencies);
    assert b[3] == Line(3, "RestApiId: !Ref " + api);
    DeploymentHeaderShape(api, key);
    KeysAppend(DeploymentHeader(api, key), DependsOnItems(dependencies));
    KeysNone(DependsOnItems(dependencies));
  }

  /** A retained AWS::Lambda::Version of `functionName`. */
  function VersionBlock(key: string, functionName: string): seq<Line>
  {
    var body := [
      Line(2, "Type: AWS::Lambda::Version"),
      Line(2, "DeletionPolicy: Retain"),
      Line(2, "Properties:"),
      Line(3, "FunctionName: " + functionName)];
    [Line(1, key + ":")] + body
  }

  lemma VersionBlockShape(key: string, functionName: string)
    requires ValidKey(key)
    ensures Keys(VersionBlock(key, functionName)) == [key]
    ensures Line(2, "DeletionPolicy: Retain") in VersionBlock(key, functionName)
    ensures Line(3, "FunctionName: " + functionName) in VersionBlock(key, functionName)
  {
    var b := VersionBlock(key, functionName);
    assert b == [Line(1, key + ":")] + b[1..];
    KeysOfBlock(key, b[1..]);
  }

  /** A retained AWS::Lambda::Alias named `environment` that depends on and
      points at the version `versionKey`. */
  function AliasBlock(key: string, functionName: string, versionKey: string, environment: string): seq<Line>
  {
    var body := [
      Line(2, "Type: AWS::Lambda::Alias"),
      Line(2, "DeletionPolicy: Retain"),
      Line(2, "DependsOn: " + versionKey),
      Line(2, "Properties:"),
      Line(3, "FunctionName: " + functionName),
      Line(3, "FunctionVersion: !GetAtt " + versionKey + ".Version"),
      Line(3, "Name: " + environment)];
    [Line(1, key + ":")] + body
  }

  lemma AliasBlockShape(key: string, functionName: string, versionKey: string, environment: string)
    requires ValidKey(key)
    ensures Keys(AliasBlock(key, functionName, versionKey, environment)) == [key]
    ensures Line(2, "DeletionPolicy: Retain") in AliasBlock(key, functionName, versionKey, environment)
    ensures Line(2, "DependsOn: " + versionKey) in AliasBlock(key, functionName, versionKey, environment)
    ensures Line(3, "FunctionVersion: !GetAtt " + versionKey + ".Version") in AliasBlock(key, functionName, versionKey, environment)
    ensures Line(3, "Name: " + environment) in AliasBlock(key, functionName, versionKey, environment)
    ensures Line(3, "FunctionName: " + functionName) in AliasBlock(key, functionName, versionKey, environment)
  {
    var b := AliasBlock(key, functionName, versionKey, environment);
    assert b == [Line(1, key + ":")] + b[1..];
    KeysOfBlock(key, b[1..]);
  }

  // ---------------------------------------------------------------------
  // Placeholder injection
  // ---------------------------------------------------------------------

  const Token := "@INJECT"

  /** Every occurrence of the placeholder in the template is replaced by
      `replacement` (C#'s string.Replace). */
  function InjectAt(template: string, replacement: string): (r: string)
    ensures r == Join(SplitOn(template, Token), replacement)
  {
    ReplaceIsSplitJoin(template, Token, replacement);
    Replace(template, Token, replacement)
  }

  /** The template is the pieces between placeholders glued back with the
      placeholder, so injecting only swaps the glue: injecting the token
      itself gives the template back. */
  lemma InjectAtPieces(template: string)
    ensures Join(SplitOn(template, Token), Token) == template
    ensures InjectAt(template, Token) == template
  {
    SplitJoinRoundTrip(template, Token);
  }
}
