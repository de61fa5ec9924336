/** Instances and how a call finds one (internal/instances/registry.go, internal/mcpserver/params.go). */
module Instances {
  import opened JsonValues

  /** One Argo CD installation; its clients are not part of the model. */
  datatype Instance = Instance(name: string, namespace: string, namespaces: seq<string>, readOnly: bool)

  /** The named instance, or the default one for the empty name. */
  function Resolve(instances: map<string, Instance>, defaultName: string, name: string): Option<Instance> {
    var n := if name == "" then defaultName else name;
    if n in instances then Some(instances[n]) else None
  }

  /** The namespace a call works in: its own, or else the instance's. */
  function ResolveNamespace(inst: Instance, namespace: string): string {
    if namespace == "" then inst.namespace else namespace
  }
}
