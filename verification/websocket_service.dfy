/** A WebSocket service as the dispatcher sees it (WebSocketService.java): its
    resources indexed by name, and the sub-protocols, idle timeout, maximum frame
    size and upgrade path read from its `ServiceConfig` annotation. All fields are
    fixed by the constructor, so the service is a value built by one method. */
module WebSocketServices {
  import opened Wrappers
  import opened JavaText

  const DefaultMaxFrameSize: int := 65536

  /** A resource function of the service: its name and its parameter types. */
  datatype Resource = Resource(name: string, paramTypes: seq<string>)

  /** The value of a `ServiceConfig` annotation. */
  datatype ConfigStruct = ConfigStruct(
    subProtocols: Option<seq<string>>, idleTimeoutInSeconds: int, maxFrameSize: int, path: Option<string>)

  datatype Annotation = Annotation(value: Option<ConfigStruct>)

  /** A compiled Ballerina service: its name, the endpoint it is attached to, its
      resources in declaration order, and its `ServiceConfig` annotations (the list
      itself may be null). */
  datatype Service = Service(
    name: string, endpointName: string, resources: seq<Resource>, configAnnotations: Option<seq<Annotation>>)

  datatype WebSocketService = WebSocketService(
    service: Service,
    negotiableSubProtocols: Option<seq<string>>,
    idleTimeoutInSeconds: int,
    resourceMap: map<string, Resource>,
    basePath: Option<string>,
    maxFrameSize: int)

  /** `BALLERINA_PACKAGE_PREFIX + "websocket" + ":" + "Listener"`; the prefix is
      defined outside the module and is a parameter here. */
  function ListenerEndpointName(packagePrefix: string): string {
    packagePrefix + "websocket" + ":" + "Listener"
  }

  /** getServiceConfigAnnotation: the first ServiceConfig annotation, if any. */
  function GetServiceConfigAnnotation(s: Service): (r: Option<Annotation>)
    ensures r.Some? <==> s.configAnnotations.Some? && s.configAnnotations.value != []
    ensures r.Some? ==> r.value == s.configAnnotations.value[0]
  {
    match s.configAnnotations
    case None => None
    case Some(list) => if list == [] then None else Some(list[0])
  }

  /** The resource map as a function of the resource list: each resource is put under
      its name in order, so a later resource replaces an earlier one of that name. */
  function IndexByName(resources: seq<Resource>): map<string, Resource>
  {
    if resources == [] then map[]
    else IndexByName(resources[..|resources| - 1])[resources[|resources| - 1].name := resources[|resources| - 1]]
  }

  /** The keys of the index are exactly the resource names, and every entry is a
      resource of the list filed under its own name. */
  lemma {:induction false} IndexByNameContents(resources: seq<Resource>)
    ensures IndexByName(resources).Keys == set r | r in resources :: r.name
    ensures forall n | n in IndexByName(resources) ::
      (IndexByName(resources)[n] in resources && IndexByName(resources)[n].name == n)
  {
    if resources != [] {
      var init := resources[..|resources| - 1];
      IndexByNameContents(init);
      assert resources == init + [resources[|resources| - 1]];
    }
  }

  /** A resource that no later resource shadows is the one found under its name. */
  lemma {:induction false} LastResourceWins(resources: seq<Resource>, i: int)
    requires 0 <= i < |resources|
    requires forall j | i < j < |resources| :: resources[j].name != resources[i].name
    ensures resources[i].name in IndexByName(resources)
    ensures IndexByName(resources)[resources[i].name] == resources[i]
  {
    if i < |resources| - 1 {
      LastResourceWins(resources[..|resources| - 1], i);
    }
  }

  /** The constructor's loop over the resources. */
  method BuildResourceMap(resources: seq<Resource>) returns (m: map<string, Resource>)
    ensures m == IndexByName(resources)
  {
    m := map[];
    for i := 0 to |resources|
      invariant m == IndexByName(resources[..i])
    {
      assert resources[..i + 1][..i] == resources[..i];
      m := m[resources[i].name := resources[i]];
    }
    assert resources[..|resources|] == resources;
  }

  /** findNegotiableSubProtocols: a copy of the annotation's list, or an empty array
      when the annotation has none. */
  method FindNegotiableSubProtocols(ann: ConfigStruct) returns (r: seq<string>)
    ensures ann.subProtocols.None? ==> r == []
    ensures ann.subProtocols.Some? ==> r == ann.subProtocols.value
  {
    if ann.subProtocols.None? {
      return [];
    }
    var inAnnotation := ann.subProtocols.value;
    var subProtocols := new string[|inAnnotation|];
    for i := 0 to |inAnnotation|
      invariant forall k | 0 <= k < i :: subProtocols[k] == inAnnotation[k]
    {
      subProtocols[i] := inAnnotation[i];
    }
    assert subProtocols[..] == inAnnotation;
    return subProtocols[..];
  }

  /** findIdleTimeoutInSeconds: the annotation's value narrowed to an `int`. */
  function FindIdleTimeoutInSeconds(ann: ConfigStruct): (r: int)
    ensures InInt32(r)
    ensures InInt32(ann.idleTimeoutInSeconds) ==> r == ann.idleTimeoutInSeconds
  {
    ToInt32(ann.idleTimeoutInSeconds)
  }

  /** findMaxFrameSize: the narrowed value when positive, otherwise 65536. */
  function FindMaxFrameSize(ann: ConfigStruct): (r: int)
    ensures 0 < r <= MaxInt32
    ensures ToInt32(ann.maxFrameSize) > 0 ==> r == ToInt32(ann.maxFrameSize)
    ensures ToInt32(ann.maxFrameSize) <= 0 ==> r == DefaultMaxFrameSize
    ensures 0 < ann.maxFrameSize <= MaxInt32 ==> r == ann.maxFrameSize
  {
    var size := ToInt32(ann.maxFrameSize);
    if size <= 0 then DefaultMaxFrameSize else size
  }

  /** findFullWebSocketUpgradePath: the sanitised annotation path, or "/" followed by
      the service name when there is no annotation or its path trims to nothing. A
      null path fails at `trim` with a NullPointerException. `sanitize` stands for
      sanitizeBasePath, which is not part of this model. */
  function FindFullWebSocketUpgradePath(name: string, ann: Option<ConfigStruct>, sanitize: string -> string)
    : (r: Result<string, string>)
    ensures r.Failure? <==> ann.Some? && ann.value.path.None?
    ensures r.Success? && (ann.None? || TrimsToEmpty(ann.value.path.value)) ==> r.value == "/" + name
    ensures r.Success? && ann.Some? && !TrimsToEmpty(ann.value.path.value) ==> r.value == sanitize(ann.value.path.value)
  {
    if ann.None? then Success("/" + name)
    else if ann.value.path.None? then Failure("NullPointerException")
    else if TrimsToEmpty(ann.value.path.value) then Success("/" + name)
    else Success(sanitize(ann.value.path.value))
  }

  /** The annotation value the constructor reads, when both the annotation and its value exist. */
  function ConfigOf(s: Service): Option<ConfigStruct> {
    var a := GetServiceConfigAnnotation(s);
    if a.Some? && a.value.value.Some? then a.value.value else None
  }

  /** The WebSocketService constructor. */
  method NewWebSocketService(s: Service, packagePrefix: string, sanitize: string -> string)
    returns (r: Result<WebSocketService, string>)
    ensures var attached := s.endpointName == ListenerEndpointName(packagePrefix);
      r.Failure? <==> attached && FindFullWebSocketUpgradePath(s.name, ConfigOf(s), sanitize).Failure?
    ensures r.Success? ==> r.value.service == s && r.value.resourceMap == IndexByName(s.resources)
    ensures r.Success? && ConfigOf(s).None? ==>
      r.value.negotiableSubProtocols.None? && r.value.idleTimeoutInSeconds == 0
      && r.value.maxFrameSize == DefaultMaxFrameSize
    ensures r.Success? && ConfigOf(s).Some? ==>
      r.value.negotiableSubProtocols == Some(ConfigOf(s).value.subProtocols.GetOr([]))
      && r.value.idleTimeoutInSeconds == FindIdleTimeoutInSeconds(ConfigOf(s).value)
      && r.value.maxFrameSize == FindMaxFrameSize(ConfigOf(s).value)
    ensures r.Success? && s.endpointName != ListenerEndpointName(packagePrefix) ==> r.value.basePath.None?
    ensures r.Success? && s.endpointName == ListenerEndpointName(packagePrefix) ==>
      r.value.basePath == Some(FindFullWebSocketUpgradePath(s.name, ConfigOf(s), sanitize).value)
  {
    var resourceMap := BuildResourceMap(s.resources);
    var negotiableSubProtocols: Option<seq<string>> := None;
    var idleTimeoutInSeconds := 0;
    var maxFrameSize := DefaultMaxFrameSize;
    var configAnnotation := GetServiceConfigAnnotation(s);
    var configStruct: Option<ConfigStruct> := None;
    if configAnnotation.Some? && configAnnotation.value.value.Some? {
      configStruct := configAnnotation.value.value;
      var subProtocols := FindNegotiableSubProtocols(configStruct.value);
      negotiableSubProtocols := Some(subProtocols);
      idleTimeoutInSeconds := FindIdleTimeoutInSeconds(configStruct.value);
      maxFrameSize := FindMaxFrameSize(configStruct.value);
    }
    var basePath: Option<string> := None;
    if ListenerEndpointName(packagePrefix) == s.endpointName {
      var path := FindFullWebSocketUpgradePath(s.name, configStruct, sanitize);
      if path.Failure? {
        return Failure(path.error);
      }
      basePath := Some(path.value);
    }
    return Success(WebSocketService(s, negotiableSubProtocols, idleTimeoutInSeconds, resourceMap, basePath, maxFrameSize));
  }

  /** getResourceByName: the resource filed under the name, or null. */
  function GetResourceByName(ws: WebSocketService, name: string): (r: Option<Resource>)
    ensures r.Some? <==> name in ws.resourceMap
    ensures r.Some? ==> r.value == ws.resourceMap[name]
  {
    if name in ws.resourceMap then Some(ws.resourceMap[name]) else None
  }

  /** Looking a resource up by name in a constructed service finds a resource of that
      name exactly when the service declares one, and it is the last one declared. */
  lemma {:induction false} ResourceLookup(resources: seq<Resource>, name: string)
    ensures name in IndexByName(resources) <==> exists r | r in resources :: r.name == name
    ensures name in IndexByName(resources) ==>
      (IndexByName(resources)[name].name == name && IndexByName(resources)[name] in resources)
  {
    IndexByNameContents(resources);
  }
}
