/**
 * lib/core/src/interop/managed.rs and lib/core/src/structures/method.rs:
 * answering a command against a module by finding a method by name and
 * calling it.
 */
module Managed {
  import opened Wrappers

  type Meta = map<string, string>

  /** `Request`: `id` is a uuid, `path` names the method to call. */
  datatype CallRequest = CallRequest(id: string, path: string, meta: Option<Meta>, body: Option<seq<bv8>>)

  datatype CallResponse = CallResponse(meta: Meta, body: seq<bv8>)

  datatype ResponseError = ResponseError(meta: Meta, message: string)

  /** The identity of a method's boxed closure. */
  type CallRef = nat

  /** What each closure answers for a request. */
  type Closures = (CallRef, CallRequest) -> Result<CallResponse, ResponseError>

  datatype Method = Method(name: string, call: Option<CallRef>, extensions: Meta)

  datatype Module = Module(name: string, methods: seq<Method>, extensions: Meta)

  datatype Command = ExportModule | MakeCall(request: CallRequest)

  datatype CommandOutput = ModuleInfo(exported: Module) | CallResult(result: Result<CallResponse, ResponseError>)

  const MethodNotFound := "Method not found"
  const MethodNotImplemented := "Method not implemented"

  /** `Method::call`: the closure's answer, or "Method not implemented" when there is none. */
  function Call(m: Method, request: CallRequest, closures: Closures): (r: Result<CallResponse, ResponseError>)
    ensures m.call.Some? ==> r == closures(m.call.value, request)
    ensures m.call.None? ==> r == Err(ResponseError(map[], MethodNotImplemented))
  {
    match m.call
    case Some(f) => closures(f, request)
    case None => Err(ResponseError(map[], MethodNotImplemented))
  }

  /** `methods.iter().find(|m| m.name == name)`: the position of the first method with that name. */
  function FindMethod(methods: seq<Method>, name: string): (r: Option<nat>)
    ensures r.Some? ==> r.value < |methods| && methods[r.value].name == name
    ensures r.Some? ==> forall j :: 0 <= j < r.value ==> methods[j].name != name
    ensures r.None? ==> forall j :: 0 <= j < |methods| ==> methods[j].name != name
  {
    if methods == [] then None
    else if methods[0].name == name then Some(0)
    else
      match FindMethod(methods[1..], name)
      case None => None
      case Some(i) => Some(i + 1)
  }

  /** `make_call`: "Method not found" when no method has the name, else the first such method's answer. */
  function MakeCallOn(target: Module, methodName: string, request: CallRequest, closures: Closures)
    : (r: Result<CallResponse, ResponseError>)
    ensures (forall j :: 0 <= j < |target.methods| ==> target.methods[j].name != methodName) ==>
      r == Err(ResponseError(map[], MethodNotFound))
    ensures forall i :: 0 <= i < |target.methods| && target.methods[i].name == methodName
                        && (forall j :: 0 <= j < i ==> target.methods[j].name != methodName) ==>
      r == Call(target.methods[i], request, closures)
  {
    match FindMethod(target.methods, methodName)
    case None => Err(ResponseError(map[], MethodNotFound))
    case Some(i) => Call(target.methods[i], request, closures)
  }

  /** `handle_command`: export the module itself, or call the method the request's path names. */
  function HandleCommand(command: Command, target: Module, closures: Closures): (r: CommandOutput)
    ensures command.ExportModule? ==> r == ModuleInfo(target)
    ensures command.MakeCall? ==> r == CallResult(MakeCallOn(target, command.request.path, command.request, closures))
  {
    match command
    case ExportModule => ModuleInfo(target)
    case MakeCall(request) => CallResult(MakeCallOn(target, request.path, request, closures))
  }

  /** The closure is skipped by serialization: a method read back has none. */
  function Deserialized(m: Method): (r: Method)
    ensures r.name == m.name && r.extensions == m.extensions && r.call.None?
  {
    m.(call := None)
  }

  /** Whatever the method was, once serialized and read back it only answers "Method not implemented". */
  lemma DeserializedNotImplemented(m: Method, request: CallRequest, closures: Closures)
    ensures Call(Deserialized(m), request, closures) == Err(ResponseError(map[], MethodNotImplemented))
  {
  }

  /** `test_managed_handle_command`: a one-method module answers a call to that method with the closure's answer. */
  lemma SingleMethodModule(f: CallRef, request: CallRequest, closures: Closures, name: string)
    requires request.path == name
    ensures var target := Module(name, [Method(name, Some(f), map[])], map[]);
      HandleCommand(MakeCall(request), target, closures) == CallResult(closures(f, request))
  {
  }
}
