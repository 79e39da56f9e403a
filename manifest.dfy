/** The handler module as the generators see it: a manifest of methods, in
    discovery order, each with the resource annotation it carries. It stands
    for the reflection scan (types of the assembly, their public methods and
    the custom attribute of each). */
module Manifest {
  import opened Strings

  /** LambdaResourceProperties.TimeoutInSeconds starts at 20. */
  const DefaultTimeout: int := 20
  /** APIGatewayResourceProperties.EnableCORS starts at false. */
  const DefaultEnableCors: bool := false

  /** The resource annotation of a method. An API annotation is a
      specialisation of the Lambda one and carries its timeout too; its
      PathPart is the constructor argument, which may be null (None). */
  datatype Annotation =
    | NoAnnotation
    | LambdaResource(timeoutInSeconds: int)
    | ApiResource(pathPart: Option<string>, enableCors: bool, timeoutInSeconds: int)

  /** An API annotation written with only its PathPart argument. */
  function ApiAnnotation(pathPart: Option<string>): (a: Annotation)
    ensures a.ApiResource? && a.pathPart == pathPart
    ensures a.enableCors == false && a.timeoutInSeconds == 20
  {
    ApiResource(pathPart, DefaultEnableCors, DefaultTimeout)
  }

  /** A Lambda annotation written without arguments. */
  function LambdaAnnotation(): (a: Annotation)
    ensures a.LambdaResource? && a.timeoutInSeconds == 20
  {
    LambdaResource(DefaultTimeout)
  }

  /** One public method: the full name of its declaring type, its name and
      its annotation. */
  datatype HandlerMethod = HandlerMethod(className: string, methodName: string, annotation: Annotation)

  /** The names of the public methods of System.Object; methods with these
      names are never scanned. */
  const ObjectMethodNames: seq<string> := ["ToString", "Equals", "ReferenceEquals", "GetHashCode", "GetType"]

  predicate Scanned(m: HandlerMethod) {
    m.methodName !in ObjectMethodNames
  }

  /** `GetCustomAttribute(typeof(LambdaResourceProperties))`: the Lambda
      annotation or its API specialisation, if the method has one. */
  function LambdaAttribute(a: Annotation): (r: Option<Annotation>)
    ensures r.Some? <==> !a.NoAnnotation?
    ensures r.Some? ==> r.value == a
  {
    if a.NoAnnotation? then None else Some(a)
  }

  /** `GetCustomAttribute(typeof(APIGatewayResourceProperties))`. */
  function ApiAttribute(a: Annotation): (r: Option<Annotation>)
    ensures r.Some? <==> a.ApiResource?
    ensures r.Some? ==> r.value == a
  {
    if a.ApiResource? then Some(a) else None
  }

  /** APIGatewayResourceProperties derives from LambdaResourceProperties, so
      the Lambda lookup also finds an API annotation, and a method the API
      lookup finds is never missed by the Lambda one. What the Lambda lookup
      finds that is not an API annotation is exactly a plain Lambda one. */
  lemma AttributeLookups(a: Annotation)
    ensures ApiAttribute(a).Some? ==> LambdaAttribute(a) == ApiAttribute(a)
    ensures LambdaAttribute(a).None? ==> ApiAttribute(a).None?
    ensures (LambdaAttribute(a).Some? && !LambdaAttribute(a).value.ApiResource?) <==> a.LambdaResource?
  {
  }

  /** The handler of the sample module: `CheckStatus` on "utils/status". */
  const CheckStatus := HandlerMethod("test.API", "CheckStatus", ApiAnnotation(Some("utils/status")))
}
