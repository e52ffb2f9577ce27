/** The custom resources of api/v1, as values: a spec the user edits and a status the
    controllers write. An empty string or a zero is Go's unset field. */
module Resources {
  import opened Conditions

  datatype StreamSpec = StreamSpec(tenantID: string, name: string, description: string, retentionDays: int)
  datatype StreamStatus = StreamStatus(phase: string, streamID: string, topic: string, conditions: seq<Condition>)
  datatype FrkrStream = FrkrStream(spec: StreamSpec, status: StreamStatus)

  datatype TenantSpec = TenantSpec(name: string, plan: string)
  datatype TenantStatus = TenantStatus(id: string, phase: string, conditions: seq<Condition>)
  datatype FrkrTenant = FrkrTenant(spec: TenantSpec, status: TenantStatus)

  datatype UserSpec = UserSpec(username: string, password: string, tenantID: string, roles: seq<string>)
  datatype UserStatus = UserStatus(phase: string, password: string, passwordGenerated: bool, conditions: seq<Condition>)
  datatype FrkrUser = FrkrUser(spec: UserSpec, status: UserStatus)

  datatype ClientSpec = ClientSpec(tenantID: string, clientID: string, streamID: string, secret: string)
  datatype ClientStatus = ClientStatus(id: string, phase: string, secretGenerated: bool, conditions: seq<Condition>)
  datatype FrkrClient = FrkrClient(spec: ClientSpec, status: ClientStatus)

  datatype AuthSpec = AuthSpec(typ: string)
  datatype AuthStatus = AuthStatus(phase: string, previousType: string, conditions: seq<Condition>)
  datatype FrkrAuthConfig = FrkrAuthConfig(spec: AuthSpec, status: AuthStatus)

  datatype InitSpec = InitSpec(migrationsPath: string, databaseURL: string, gateways: seq<string>)
  datatype InitStatus = InitStatus(phase: string, version: nat, dirty: bool, conditions: seq<Condition>)
  datatype FrkrInit = FrkrInit(spec: InitSpec, status: InitStatus)

  datatype DatabaseConfig = DatabaseConfig(
    host: string, port: int, database: string, user: string, passwordRef: string,
    sslMode: string, typ: string)
  datatype MessageQueueConfig = MessageQueueConfig(brokers: seq<string>, tlsEnabled: bool, tlsConfigRef: string)
  datatype DataPlaneSpec = DataPlaneSpec(postgres: DatabaseConfig, broker: MessageQueueConfig)
  datatype DataPlaneStatus = DataPlaneStatus(
    phase: string, postgresConnected: bool, brokerConnected: bool, warnings: seq<string>,
    conditions: seq<Condition>)
  datatype FrkrDataPlane = FrkrDataPlane(spec: DataPlaneSpec, status: DataPlaneStatus)

  datatype Kind = StreamKind | TenantKind | UserKind | ClientKind | AuthKind | InitKind | DataPlaneKind

  /** A custom resource of any kind. */
  datatype Resource =
    | StreamR(stream: FrkrStream)
    | TenantR(tenant: FrkrTenant)
    | UserR(user: FrkrUser)
    | ClientR(client: FrkrClient)
    | AuthR(auth: FrkrAuthConfig)
    | InitR(init: FrkrInit)
    | DataPlaneR(plane: FrkrDataPlane)
  {
    function KindOf(): Kind {
      match this
      case StreamR(_) => StreamKind
      case TenantR(_) => TenantKind
      case UserR(_) => UserKind
      case ClientR(_) => ClientKind
      case AuthR(_) => AuthKind
      case InitR(_) => InitKind
      case DataPlaneR(_) => DataPlaneKind
    }

    /** The resource as a user first submits it: the status subresource starts empty. */
    function Fresh(): Resource {
      match this
      case StreamR(r) => StreamR(r.(status := StreamStatus("", "", "", [])))
      case TenantR(r) => TenantR(r.(status := TenantStatus("", "", [])))
      case UserR(r) => UserR(r.(status := UserStatus("", "", false, [])))
      case ClientR(r) => ClientR(r.(status := ClientStatus("", "", false, [])))
      case AuthR(r) => AuthR(r.(status := AuthStatus("", "", [])))
      case InitR(r) => InitR(r.(status := InitStatus("", 0, false, [])))
      case DataPlaneR(r) => DataPlaneR(r.(status := DataPlaneStatus("", false, false, [], [])))
    }

    /** This resource's spec with the status of `old`: a user's edit leaves the status alone. */
    function EditOf(current: Resource): Resource
      requires KindOf() == current.KindOf()
    {
      match this
      case StreamR(r) => StreamR(r.(status := current.stream.status))
      case TenantR(r) => TenantR(r.(status := current.tenant.status))
      case UserR(r) => UserR(r.(status := current.user.status))
      case ClientR(r) => ClientR(r.(status := current.client.status))
      case AuthR(r) => AuthR(r.(status := current.auth.status))
      case InitR(r) => InitR(r.(status := current.init.status))
      case DataPlaneR(r) => DataPlaneR(r.(status := current.plane.status))
    }
  }

  /** An edit brings its spec and keeps the status that is there; a new resource brings its spec
      and shows nothing yet. */
  lemma SubmittedSpec(r: Resource, current: Resource)
    requires r.KindOf() == current.KindOf()
    ensures match r
      case StreamR(x) =>
        && r.EditOf(current) == StreamR(FrkrStream(x.spec, current.stream.status))
        && r.Fresh() == StreamR(FrkrStream(x.spec, StreamStatus("", "", "", [])))
      case TenantR(x) =>
        && r.EditOf(current) == TenantR(FrkrTenant(x.spec, current.tenant.status))
        && r.Fresh() == TenantR(FrkrTenant(x.spec, TenantStatus("", "", [])))
      case UserR(x) =>
        && r.EditOf(current) == UserR(FrkrUser(x.spec, current.user.status))
        && r.Fresh() == UserR(FrkrUser(x.spec, UserStatus("", "", false, [])))
      case ClientR(x) =>
        && r.EditOf(current) == ClientR(FrkrClient(x.spec, current.client.status))
        && r.Fresh() == ClientR(FrkrClient(x.spec, ClientStatus("", "", false, [])))
      case AuthR(x) =>
        && r.EditOf(current) == AuthR(FrkrAuthConfig(x.spec, current.auth.status))
        && r.Fresh() == AuthR(FrkrAuthConfig(x.spec, AuthStatus("", "", [])))
      case InitR(x) =>
        && r.EditOf(current) == InitR(FrkrInit(x.spec, current.init.status))
        && r.Fresh() == InitR(FrkrInit(x.spec, InitStatus("", 0, false, [])))
      case DataPlaneR(x) =>
        && r.EditOf(current) == DataPlaneR(FrkrDataPlane(x.spec, current.plane.status))
        && r.Fresh() == DataPlaneR(FrkrDataPlane(x.spec, DataPlaneStatus("", false, false, [], [])))
  {
  }

  datatype Key = Key(kind: Kind, namespace: string, name: string)
  datatype Name = Name(namespace: string, name: string)

  function ClientSecretName(k: Key): Name {
    Name(k.namespace, "frkr-client-" + k.name)
  }

  function UserSecretName(k: Key, username: string): Name {
    Name(k.namespace, "frkr-user-" + username)
  }

  /** No client and no user ever share a Secret. */
  lemma SecretNamesApart(k: Key, j: Key, username: string)
    ensures ClientSecretName(k) != UserSecretName(j, username)
  {
    assert ClientSecretName(k).name[5] == 'c';
    assert UserSecretName(j, username).name[5] == 'u';
  }

  lemma SecretNamesInjective(k: Key, j: Key)
    requires ClientSecretName(k) == ClientSecretName(j) && k.kind == j.kind
    ensures k == j
  {
    assert ClientSecretName(k).name[12..] == k.name;
    assert ClientSecretName(j).name[12..] == j.name;
  }
}
