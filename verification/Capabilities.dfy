/** The entities that the registry, the broker and the gateway pass to each other. */
module Capabilities {
  import opened Common

  type Byte = n: nat | n < 256

  datatype Session = Session(
    connectionId: Uuid,
    sessionId: Uuid,
    origin: string,
    appId: string,
    runtimeId: string,
    instanceId: string)

  /** `uri` holds the UTF-8 bytes of a resource's address (empty for the other kinds) and `size` the
      length of the registration's JSON form, absent when it cannot be serialised. */
  datatype Registration = Registration(
    id: string,
    kind: Kind,
    name: string,
    uri: seq<Byte>,
    size: Option<nat>)

  datatype Capability = Capability(
    exposedName: string,
    exposedUri: Option<string>,
    registration: Registration,
    session: Session)
}
