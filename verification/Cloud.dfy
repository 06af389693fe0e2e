/** The part of an OpenStack project that host replacement and power actions touch.

    A command is atomic: it either has its whole effect or none, whatever the
    client hears back.  Deleting a server releases its port and volumes and
    deletes neither, because every volume is attached with
    `delete_on_termination=false`. */
module Cloud {
  import opened Options

  type Id = nat
  type Text = string

  /** `Other` stands for every Nova status that is neither ACTIVE nor SHUTOFF. */
  datatype Power = Active | Shutoff | Other

  datatype Server = Server(name: Text, power: Power, image: Id, flavor: Id, tag: Option<Id>)

  datatype Slot = Slot(server: Id, device: Text)

  datatype Project = Project(
    servers: map<Id, Server>,
    ports: map<Id, Option<Id>>,
    volumes: map<Id, Option<Slot>>)

  datatype Command =
    | Stop(server: Id)
    | Start(server: Id)
    | Rename(server: Id, name: Text)
    | DetachPort(server: Id, port: Id)
    | AttachPort(server: Id, port: Id)
    | DetachVolume(server: Id, volume: Id)
    | AttachVolume(server: Id, volume: Id, device: Text)
    | Delete(server: Id)
    | Create(server: Id, what: Server, port: Id, devices: map<Id, Text>)

  /** What the provider reports about one server or one name. */
  function Named(c: Project, name: Text): set<Id> {
    set s | s in c.servers && c.servers[s].name == name
  }

  function Tagged(c: Project, tag: Id): set<Id> {
    set s | s in c.servers && c.servers[s].tag == Some(tag)
  }

  function PortsOf(c: Project, s: Id): set<Id> {
    set p | p in c.ports && c.ports[p] == Some(s)
  }

  predicate AttachedTo(c: Project, v: Id, s: Id) {
    v in c.volumes && c.volumes[v].Some? && c.volumes[v].value.server == s
  }

  function DevicesOf(c: Project, s: Id): map<Id, Text> {
    map v | v in c.volumes && AttachedTo(c, v, s) :: c.volumes[v].value.device
  }

  /** An identifier no server, port or volume refers to, as a new UUID is. */
  predicate Unused(c: Project, s: Id) {
    && s !in c.servers
    && (forall p :: p in c.ports ==> c.ports[p] != Some(s))
    && (forall v :: v in c.volumes ==> !AttachedTo(c, v, s))
  }

  /** No volume sits at this device of this server. */
  predicate DeviceFree(c: Project, s: Id, device: Text) {
    forall v :: v in c.volumes ==> c.volumes[v] != Some(Slot(s, device))
  }

  function Release(c: Project, s: Id): Project {
    Project(
      c.servers - {s},
      map p | p in c.ports :: if c.ports[p] == Some(s) then None else c.ports[p],
      map v | v in c.volumes :: if AttachedTo(c, v, s) then None else c.volumes[v])
  }

  /** The whole effect of a command; a command the provider refuses has none. */
  function Execute(c: Project, cmd: Command): Project {
    match cmd
    case Stop(s) =>
      if s in c.servers && c.servers[s].power == Active
      then c.(servers := c.servers[s := c.servers[s].(power := Shutoff)]) else c
    case Start(s) =>
      if s in c.servers && c.servers[s].power == Shutoff
      then c.(servers := c.servers[s := c.servers[s].(power := Active)]) else c
    case Rename(s, name) =>
      if s in c.servers then c.(servers := c.servers[s := c.servers[s].(name := name)]) else c
    case DetachPort(s, p) =>
      if p in c.ports && c.ports[p] == Some(s) then c.(ports := c.ports[p := None]) else c
    case AttachPort(s, p) =>
      if s in c.servers && p in c.ports && c.ports[p] == None
      then c.(ports := c.ports[p := Some(s)]) else c
    case DetachVolume(s, v) =>
      if AttachedTo(c, v, s) then c.(volumes := c.volumes[v := None]) else c
    case AttachVolume(s, v, d) =>
      if s in c.servers && v in c.volumes && c.volumes[v] == None && DeviceFree(c, s, d)
      then c.(volumes := c.volumes[v := Some(Slot(s, d))]) else c
    case Delete(s) =>
      if s in c.servers then Release(c, s) else c
    case Create(s, what, p, devices) =>
      if s !in c.servers && p in c.ports && c.ports[p] == None
         && (forall v :: v in devices ==> v in c.volumes && c.volumes[v] == None)
      then Project(
          c.servers[s := what],
          c.ports[p := Some(s)],
          map v | v in c.volumes :: if v in devices then Some(Slot(s, devices[v])) else c.volumes[v])
      else c
  }
}
