/** The runtime's own failures (src/runtime.rs, `Error`). */
module RuntimeErrors {
  import opened VluginDefinition

  datatype RuntimeError =
    | InstantiateVlugin(name: string)
    | LoadVlugin(name: string)
    | VluginNotSupported(kind: VluginType)
    | RegisterVlugin(name: string)
}
