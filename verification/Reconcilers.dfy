/** The seven `Reconcile` methods as the source writes them: one pass over the cluster, calls
    in sequence, the status updated field by field. Each is proved to do what its controller's
    steps do when nothing comes in between. `ch` decides how each call ends. */
module Reconcilers {
  import opened Base
  import opened Conditions
  import opened Resources
  import opened Stores
  import opened Cluster
  import ConnectionString
  import Calls = CreateOrGet
  import S = StreamController
  import T = TenantController
  import U = UserController
  import C = ClientController
  import A = AuthController
  import I = InitController
  import D = DataPlaneController

  // ---- Tenants -------------------------------------------------------------------------

  class TenantReconciler {
    const cluster: Cluster
    const cfg: Config

    constructor (cluster: Cluster, cfg: Config)
      ensures this.cluster == cluster && this.cfg == cfg
    {
      this.cluster, this.cfg := cluster, cfg;
    }

    method Reconcile(k: Key, ch: nat -> Choice) returns (result: T.Outcome)
      modifies cluster
      ensures (cluster.State(), result) == T.Run(cfg, old(cluster.State()), k, T.Begin, ch, 0)
    {
      hide Grows;
      var read := cluster.Get(k, ch(0));
      if read.ReadError? { return T.Failed; }
      if read.NotFound? || !read.value.TenantR? { return T.Done; }
      var tenant := read.value.tenant;
      var tenantName := tenant.spec.name;
      if tenantName == "" { tenantName := k.name; }
      if !cfg.database { return T.Failed; }
      var tenantID := cluster.EnsureTenant(tenantName, ch(1));
      if tenantID.None? { return T.Failed; }
      if tenant.status.id != tenantID.value || tenant.status.phase != "Ready" {
        tenant := tenant.(status := tenant.status.(id := tenantID.value));
        tenant := tenant.(status := tenant.status.(phase := "Ready"));
        assert tenant == T.MadeReady(read.value.tenant, tenantID.value);
        var ok := cluster.UpdateStatus(k, read.version, TenantR(tenant), ch(2));
        if !ok { return T.Failed; }
      }
      return T.Done;
    }
  }

  // ---- Streams -------------------------------------------------------------------------

  class StreamReconciler {
    const cluster: Cluster
    const cfg: Config

    constructor (cluster: Cluster, cfg: Config)
      ensures this.cluster == cluster && this.cfg == cfg
    {
      this.cluster, this.cfg := cluster, cfg;
    }

    method Reconcile(k: Key, ch: nat -> Choice) returns (result: S.Outcome)
      modifies cluster
      ensures (cluster.State(), result) == S.Run(cfg, old(cluster.State()), k, S.Begin, ch, 0)
    {
      hide Grows, TenantsInjective, S.Reported, S.MadeReady;
      var read := cluster.Get(k, ch(0));
      if read.ReadError? { return S.Failed; }
      if read.NotFound? || !read.value.StreamR? { return S.Done; }
      var stream, ver := read.value.stream, read.version;
      if !cfg.database {
        Report(k, ver, stream, "Pending", "InfrastructureNotReady", "Waiting for database connection", ch(1));
        return S.RequeueAfter(5);
      }
      result := Provision(k, ver, stream, ch);
    }

    /** Steps 1 to 3, the calls `ch(1)` onwards. */
    method Provision(k: Key, ver: nat, stream: FrkrStream, ch: nat -> Choice) returns (result: S.Outcome)
      modifies cluster
      ensures (cluster.State(), result) == S.Run(cfg, old(cluster.State()), k, S.AtTenant(ver, stream), ch, 1)
    {
      hide Grows, TenantsInjective, S.Reported, S.MadeReady;
      var tenantID := cluster.EnsureTenant(stream.spec.tenantID, ch(1));
      if tenantID.None? {
        Report(k, ver, stream, "Error", "TenantError", ch(1).text, ch(2));
        return S.RequeueAfter(30);
      }
      var retentionDays := stream.spec.retentionDays;
      if retentionDays == 0 { retentionDays := 7; }
      ghost var st1 := cluster.State();
      var row := cluster.CreateStream(tenantID.value, stream.spec.name, stream.spec.description, retentionDays, ch(2));
      if row.None? {
        Report(k, ver, stream, "Error", "DatabaseError", ch(2).text, ch(3));
        assert (cluster.State(), S.RequeueAfter(30)) == S.Run(cfg, st1, k, S.AtRow(ver, stream, tenantID.value), ch, 2);
        return S.RequeueAfter(30);
      }
      result := Publish(k, ver, stream, row.value.0, row.value.1, ch);
      assert (cluster.State(), result) == S.Run(cfg, st1, k, S.AtRow(ver, stream, tenantID.value), ch, 2);
    }

    /** The topic, if there is a broker, and the ready status. */
    method Publish(k: Key, ver: nat, stream: FrkrStream, streamID: string, topic: string, ch: nat -> Choice)
        returns (result: S.Outcome)
      modifies cluster
      ensures (cluster.State(), result)
              == if cfg.broker then S.Run(cfg, old(cluster.State()), k, S.AtTopic(ver, stream, streamID, topic), ch, 3)
                 else S.Run(cfg, old(cluster.State()), k,
                     S.AtReady(ver, S.MadeReady(stream, streamID, topic, old(cluster.clock))), ch, 3)
    {
      hide Grows, TenantsInjective, S.Reported, S.MadeReady;
      var n := 3;
      if cfg.broker {
        var ok := cluster.CreateTopic(topic, ch(3));
        if !ok {
          Report(k, ver, stream, "Error", "KafkaError", ch(3).text, ch(4));
          return S.RequeueAfter(30);
        }
        n := 4;
      }
      ghost var st1 := cluster.State();
      var ready := stream.status.(phase := "Ready");
      ready := ready.(streamID := streamID);
      ready := ready.(topic := topic);
      var message := "Stream created with topic: " + topic;
      var conditions := SetStatusCondition(ready.conditions,
          Condition("StreamCreated", true, "Success", message, cluster.clock));
      ready := ready.(conditions := conditions);
      assert stream.(status := ready) == S.MadeReady(stream, streamID, topic, cluster.clock) by {
        ReadyStatus(stream, streamID, topic, cluster.clock);
      }
      var ok := cluster.UpdateStatus(k, ver, StreamR(stream.(status := ready)), ch(n));
      result := if ok then S.Done else S.Failed;
      assert (cluster.State(), result) == S.Run(cfg, st1, k, S.AtReady(ver, stream.(status := ready)), ch, n);
    }

    /** `updateStatus`: the error of the write is dropped. */
    method Report(k: Key, ver: nat, stream: FrkrStream, phase: string, reason: string, message: string, c: Choice)
      modifies cluster
      ensures cluster.State()
              == UpdateStatus(old(cluster.State()), k, ver,
                  StreamR(S.Reported(stream, phase, reason, message, old(cluster.clock))), c).0
    {
      var status := stream.status.(phase := phase);
      var conditions := SetStatusCondition(status.conditions,
          Condition("StreamCreated", false, reason, message, cluster.clock));
      status := status.(conditions := conditions);
      assert stream.(status := status) == S.Reported(stream, phase, reason, message, cluster.clock);
      var _ := cluster.UpdateStatus(k, ver, StreamR(stream.(status := status)), c);
    }
  }

  lemma ReadyStatus(s: FrkrStream, streamID: string, topic: string, now: nat)
    ensures S.MadeReady(s, streamID, topic, now)
            == s.(status := s.status.(phase := "Ready", streamID := streamID, topic := topic,
                  conditions := Set(s.status.conditions,
                      Condition("StreamCreated", true, "Success", "Stream created with topic: " + topic, now))))
  {
  }

  // ---- Users ---------------------------------------------------------------------------

  class UserReconciler {
    const cluster: Cluster
    const cfg: Config

    constructor (cluster: Cluster, cfg: Config)
      ensures this.cluster == cluster && this.cfg == cfg
    {
      this.cluster, this.cfg := cluster, cfg;
    }

    method Reconcile(k: Key, ch: nat -> Choice) returns (result: U.Outcome)
      modifies cluster
      ensures (cluster.State(), result) == U.Run(cfg, old(cluster.State()), k, U.Begin, ch, 0)
    {
      hide Grows, TenantsInjective;
      var read := cluster.Get(k, ch(0));
      if read.ReadError? { return U.Failed; }
      if read.NotFound? || !read.value.UserR? { return U.Done; }
      var user, ver := read.value.user, read.version;
      var password, n := user.spec.password, 1;
      ghost var st := cluster.State();
      if password == "" {
        if ch(1).fault != Fine || ch(1).text == "" { return U.Failed; }
        password, n := ch(1).text, 2;
        user := user.(status := user.status.(passwordGenerated := true));
      }
      if user.status.password == "" {
        user := user.(status := user.status.(password := password));
        user := user.(status := user.status.(phase := "Active"));
      }
      assert U.Run(cfg, st, k, U.Begin, ch, 0)
          == U.Run(cfg, st, k, if cfg.database then U.AtTenant(ver, user, password)
              else U.AtSecret(ver, user, password), ch, n);
      result := Persist(k, ver, user, password, ch, n);
    }

    /** The tenant and the user in the database, if there is one. */
    method Persist(k: Key, ver: nat, user: FrkrUser, password: string, ch: nat -> Choice, first: nat)
        returns (result: U.Outcome)
      modifies cluster
      ensures (cluster.State(), result)
              == U.Run(cfg, old(cluster.State()), k, if cfg.database then U.AtTenant(ver, user, password)
                  else U.AtSecret(ver, user, password), ch, first)
    {
      hide Grows, TenantsInjective;
      var n := first;
      if cfg.database {
        var tenantID := cluster.EnsureTenant(user.spec.tenantID, ch(n));
        if tenantID.None? { return U.Failed; }
        ghost var st1 := cluster.State();
        var ok := cluster.EnsureUser(tenantID.value, user.spec.username, password, ch(n + 1));
        if !ok {
          assert (cluster.State(), U.Failed)
              == U.Run(cfg, st1, k, U.AtRow(ver, user, password, tenantID.value), ch, n + 1);
          return U.Failed;
        }
        n := n + 2;
        assert U.Run(cfg, st1, k, U.AtRow(ver, user, password, tenantID.value), ch, n - 1)
            == U.Run(cfg, cluster.State(), k, U.AtSecret(ver, user, password), ch, n);
      }
      result := Apply(k, ver, user, password, ch, n);
    }

    /** Create or update the Secret, then write the status. */
    method Apply(k: Key, ver: nat, user: FrkrUser, password: string, ch: nat -> Choice, n: nat)
        returns (result: U.Outcome)
      modifies cluster
      ensures (cluster.State(), result) == U.Run(cfg, old(cluster.State()), k, U.AtSecret(ver, user, password), ch, n)
    {
      hide Grows, TenantsInjective, U.SecretOf, CreateSecret, UpdateSecret;
      var name := UserSecretName(k, user.spec.username);
      var data := U.SecretOf(user, password);
      var existing := cluster.GetSecret(name, ch(n));
      var ok := false;
      if existing.ReadError? { return U.Failed; }
      ghost var st1 := cluster.State();
      if existing.NotFound? {
        ok := cluster.CreateSecret(name, data, ch(n + 1));
      } else {
        ok := cluster.UpdateSecret(name, existing.version, data, ch(n + 1));
      }
      ghost var p := if existing.NotFound? then U.AtCreate(ver, user, password)
          else U.AtUpdate(ver, user, password, existing.version);
      assert U.Step(cfg, st1, k, p, ch(n + 1))
          == (cluster.State(), if ok then U.Go(U.AtWrite(ver, user, password)) else U.Failed);
      assert U.Run(cfg, old(cluster.State()), k, U.AtSecret(ver, user, password), ch, n)
          == U.Run(cfg, st1, k, p, ch, n + 1);
      result := U.Failed;
      if ok {
        result := Write(k, ver, user, password, ch, n + 2);
      }
    }

    method Write(k: Key, ver: nat, user: FrkrUser, ghost password: string, ch: nat -> Choice, n: nat)
        returns (result: U.Outcome)
      modifies cluster
      ensures (cluster.State(), result) == U.Run(cfg, old(cluster.State()), k, U.AtWrite(ver, user, password), ch, n)
    {
      hide Grows, TenantsInjective;
      var written := cluster.UpdateStatus(k, ver, UserR(user), ch(n));
      result := if written then U.Done else U.Failed;
    }
  }

  // ---- Clients -------------------------------------------------------------------------

  class ClientReconciler {
    const cluster: Cluster
    const cfg: Config

    constructor (cluster: Cluster, cfg: Config)
      ensures this.cluster == cluster && this.cfg == cfg
    {
      this.cluster, this.cfg := cluster, cfg;
    }

    method Reconcile(k: Key, ch: nat -> Choice) returns (result: C.Outcome)
      modifies cluster
      ensures (cluster.State(), result) == C.Run(cfg, old(cluster.State()), k, C.Begin, ch, 0)
    {
      hide Grows;
      var read := cluster.Get(k, ch(0));
      if read.ReadError? { return C.Failed; }
      if read.NotFound? || !read.value.ClientR? { return C.Done; }
      var crd, ver := read.value.client, read.version;
      var clientSecret, n := crd.spec.secret, 1;
      ghost var st := cluster.State();
      if clientSecret == "" {
        var existing := cluster.GetSecret(ClientSecretName(k), ch(1));
        n := 2;
        if existing.Found? && "clientSecret" in existing.value {
          clientSecret := existing.value["clientSecret"];
        }
        if clientSecret == "" {
          assert C.Step(cfg, st, k, C.AtEarly(ver, crd), ch(1)) == (st, C.Go(C.AtGenerate(ver, crd)));
          if ch(2).fault != Fine || ch(2).text == "" {
            assert C.Run(cfg, st, k, C.AtGenerate(ver, crd), ch, 2) == (st, C.Failed);
            return C.Failed;
          }
          clientSecret, n := ch(2).text, 3;
          crd := crd.(status := crd.status.(secretGenerated := true));
          assert C.Run(cfg, st, k, C.AtGenerate(ver, read.value.client), ch, 2)
              == C.Run(cfg, st, k, C.Chosen(cfg, ver, crd, clientSecret), ch, 3);
        }
      }
      assert C.Run(cfg, st, k, C.Begin, ch, 0) == C.Run(cfg, st, k, C.Chosen(cfg, ver, crd, clientSecret), ch, n);
      result := Persist(k, ver, crd, clientSecret, ch, n);
    }

    /** The database, if there is one. */
    method Persist(k: Key, ver: nat, given: FrkrClient, clientSecret: string, ch: nat -> Choice, first: nat)
        returns (result: C.Outcome)
      modifies cluster
      ensures (cluster.State(), result)
              == C.Run(cfg, old(cluster.State()), k, C.Chosen(cfg, ver, given, clientSecret), ch, first)
    {
      hide Grows;
      var crd, n := given, first;
      if cfg.database {
        var streamID: Option<string> := None;
        if crd.spec.streamID != "" { streamID := Some(crd.spec.streamID); }
        var key := (crd.spec.tenantID, crd.spec.clientID);
        ghost var st := cluster.State();
        var row, again := cluster.EnsureClient(key, clientSecret, streamID, ch(n), ch(n + 1));
        n := if again then n + 2 else n + 1;
        PersistSteps(cfg, st, k, ver, given, clientSecret, ch, first);
        if row.None? { return C.Failed; }
        crd := crd.(status := crd.status.(id := row.value.id));
        crd := crd.(status := crd.status.(phase := "Ready"));
      }
      result := Apply(k, ver, crd, clientSecret, ch, n);
    }

    /** Create or update the Secret, then write the status; a Secret that cannot be read for
        another reason than not-found is skipped. */
    method Apply(k: Key, ver: nat, crd: FrkrClient, clientSecret: string, ch: nat -> Choice, n: nat)
        returns (result: C.Outcome)
      modifies cluster
      ensures (cluster.State(), result)
              == C.Run(cfg, old(cluster.State()), k, C.AtSecret(ver, crd, clientSecret), ch, n)
    {
      hide Grows, C.SecretOf;
      var name := ClientSecretName(k);
      var data := C.SecretOf(crd.spec, clientSecret);
      var existing := cluster.GetSecret(name, ch(n));
      var m := n + 1;
      ghost var st1 := cluster.State();
      if !existing.ReadError? {
        var ok := false;
        if existing.NotFound? {
          ok := cluster.CreateSecret(name, data, ch(m));
        } else {
          ok := cluster.UpdateSecret(name, existing.version, data, ch(m));
        }
        ghost var p := if existing.NotFound? then C.AtCreate(ver, crd, clientSecret)
            else C.AtUpdate(ver, crd, clientSecret, existing.version);
        assert C.Step(cfg, st1, k, p, ch(m)) == (cluster.State(), if ok then C.Go(C.AtWrite(ver, crd)) else C.Failed);
        if !ok {
          assert C.Run(cfg, st1, k, p, ch, m) == (cluster.State(), C.Failed);
          return C.Failed;
        }
        m := m + 1;
        assert C.Run(cfg, st1, k, p, ch, m - 1) == C.Run(cfg, cluster.State(), k, C.AtWrite(ver, crd), ch, m);
      }
      ghost var st2 := cluster.State();
      var written := cluster.UpdateStatus(k, ver, ClientR(crd), ch(m));
      result := if written then C.Done else C.Failed;
      assert C.Run(cfg, st2, k, C.AtWrite(ver, crd), ch, m) == (cluster.State(), result);
    }
  }

  /** The database steps of a client pass are one `EnsureClient`. */
  lemma PersistSteps(cfg: Config, st: Stores, k: Key, ver: nat, x: FrkrClient, secret: string, ch: nat -> Choice,
      n: nat)
    ensures var req := Calls.Request(C.RowKeyOf(x.spec), secret, C.StreamOf(x.spec));
      var first := Calls.Advanced(st, Calls.Inserting(req), ch(n));
      var last := if first.1.Fetching? then Calls.Advanced(first.0, first.1, ch(n + 1)) else first;
      var m := if first.1.Fetching? then n + 2 else n + 1;
      C.Run(cfg, st, k, C.AtInsert(ver, x, secret), ch, n)
      == if last.1.Returned? && last.1.result.Some?
          then C.Run(cfg, last.0, k, C.AtSecret(ver, C.MadeReady(x, last.1.result.value.id), secret), ch, m)
         else (last.0, C.Failed)
  {
    hide Grows;
    var (st1, o) := C.Step(cfg, st, k, C.AtInsert(ver, x, secret), ch(n));
    if o == C.Go(C.AtFetch(ver, x, secret)) {
      assert st1 == st;
      assert C.Run(cfg, st, k, C.AtInsert(ver, x, secret), ch, n)
          == C.Run(cfg, st, k, C.AtFetch(ver, x, secret), ch, n + 1);
    }
  }

  // ---- Data planes ---------------------------------------------------------------------

  class DataPlaneReconciler {
    const cluster: Cluster

    constructor (cluster: Cluster)
      ensures this.cluster == cluster
    {
      this.cluster := cluster;
    }

    /** The flags of the first choice are the answers of the two probes. */
    method Reconcile(k: Key, ch: nat -> Choice) returns (result: D.Outcome)
      modifies cluster
      ensures (cluster.State(), result) == D.Run(old(cluster.State()), k, D.Begin, ch, 0)
    {
      hide Grows;
      var read := cluster.Get(k, ch(0));
      if read.ReadError? { return D.Failed; }
      if read.NotFound? || !read.value.DataPlaneR? { return D.Done; }
      var plane := read.value.plane;
      var warnings: seq<string> := [];
      var postgresConnected, brokerConnected := ch(0).flag, ch(0).flag2;
      if !postgresConnected { warnings := warnings + ["Postgres connectivity test failed"]; }
      if !brokerConnected { warnings := warnings + ["Kafka-compatible broker connectivity test failed"]; }
      var status := plane.status.(postgresConnected := postgresConnected);
      status := status.(brokerConnected := brokerConnected);
      status := status.(warnings := warnings);
      status := status.(phase := "Active");
      var ready := postgresConnected && brokerConnected;
      var reason, message := "ComponentsUnhealthy", "One or more components are not reachable";
      if ready {
        reason, message := "ComponentsHealthy", "All data plane components are connected and healthy";
      }
      var conditions := SetStatusCondition(status.conditions,
          Condition("Ready", ready, reason, message, cluster.clock));
      status := status.(conditions := conditions);
      assert plane.(status := status) == D.Probed(plane, postgresConnected, brokerConnected, cluster.clock);
      var ok := cluster.UpdateStatus(k, read.version, DataPlaneR(plane.(status := status)), ch(1));
      result := if ok then D.Done else D.Failed;
    }
  }

  // ---- Auth configurations -----------------------------------------------------------------

  class AuthConfigReconciler {
    const cluster: Cluster

    constructor (cluster: Cluster)
      ensures this.cluster == cluster
    {
      this.cluster := cluster;
    }

    method Reconcile(k: Key, ch: nat -> Choice) returns (result: A.Outcome)
      modifies cluster
      ensures (cluster.State(), result) == A.Run(old(cluster.State()), k, A.Begin, ch, 0)
    {
      hide Grows, IsListing;
      var read := cluster.Get(k, ch(0));
      if read.ReadError? { return A.Failed; }
      if read.NotFound? || !read.value.AuthR? { return A.Done; }
      var config, ver := read.value.auth, read.version;
      var previousType, n := config.status.previousType, 1;
      ghost var listed: seq<A.Listed> := [];
      if previousType != "" && previousType != config.spec.typ && previousType == A.BASIC {
        listed, n := DeleteUsers(k, ver, config, ch);
      }
      assert A.Run(old(cluster.State()), k, A.Begin, ch, 0)
          == A.Run(cluster.State(), k, A.AtWrite(ver, config, listed), ch, n);
      config := config.(status := config.status.(previousType := config.spec.typ));
      config := config.(status := config.status.(phase := "Active"));
      var ok := cluster.UpdateStatus(k, ver, AuthR(config), ch(n));
      result := if ok then A.Done else A.Failed;
    }

    /** Every listed user is deleted; a deletion that fails is skipped. */
    method DeleteUsers(k: Key, ver: nat, config: FrkrAuthConfig, ch: nat -> Choice)
        returns (ghost listed: seq<A.Listed>, n: nat)
      modifies cluster
      ensures A.Run(old(cluster.State()), k, A.AtList(ver, config), ch, 1)
              == A.Run(cluster.State(), k, A.AtWrite(ver, config, listed), ch, n)
      ensures n == 2 + |listed|
      ensures ch(1).fault == Fine && IsListing(old(cluster.State()), UserKind, ch(1).keys) ==>
                && |listed| == |ch(1).keys|
                && forall i :: 0 <= i < |listed| ==> listed[i] == A.ListedNow(old(cluster.State()), ch(1).keys[i])
    {
      hide Grows, IsListing, A.Run, A.Step, DeleteResource;
      var items := cluster.List(UserKind, ch(1));
      listed, n := [], 2;
      ghost var st := cluster.State();
      if items.None? || items.value == [] {
        NothingListed(st, k, ver, config, ch);
        return;
      }
      listed := seq(|items.value|, i requires 0 <= i < |items.value| => A.ListedNow(st, items.value[i]));
      ListedRun(st, k, ver, config, listed, ch);
      for i := 0 to |items.value|
        invariant n == 2 + i
        invariant A.Run(st, k, A.AtList(ver, config), ch, 1)
                  == A.Run(cluster.State(), k, Deleting(ver, config, listed, i), ch, n)
      {
        DeletedRun(cluster.State(), k, ver, config, listed, i, ch, n);
        var _ := cluster.Delete(items.value[i], ch(n));
        n := n + 1;
      }
    }
  }

  /** The point of a pass that has deleted the first `i` listed users. */
  function Deleting(ver: nat, config: FrkrAuthConfig, listed: seq<A.Listed>, i: nat): A.AuthPass {
    if i < |listed| then A.AtDelete(ver, config, listed, i) else A.AtWrite(ver, config, listed)
  }

  lemma NothingListed(st: Stores, k: Key, ver: nat, config: FrkrAuthConfig, ch: nat -> Choice)
    requires ch(1).fault != Fine || ch(1).keys == [] || !IsListing(st, UserKind, ch(1).keys)
    ensures A.Run(st, k, A.AtList(ver, config), ch, 1) == A.Run(st, k, A.AtWrite(ver, config, []), ch, 2)
  {
    hide Grows, IsListing;
  }

  lemma ListedRun(st: Stores, k: Key, ver: nat, config: FrkrAuthConfig, listed: seq<A.Listed>, ch: nat -> Choice)
    requires ch(1).fault == Fine && IsListing(st, UserKind, ch(1).keys) && |listed| == |ch(1).keys| > 0
    requires forall i :: 0 <= i < |listed| ==> listed[i] == A.ListedNow(st, ch(1).keys[i])
    ensures A.Run(st, k, A.AtList(ver, config), ch, 1) == A.Run(st, k, A.AtDelete(ver, config, listed, 0), ch, 2)
  {
    hide Grows, IsListing;
    assert A.List(st, ver, config, ch(1)).1.pass.listed == listed;
  }

  lemma DeletedRun(st: Stores, k: Key, ver: nat, config: FrkrAuthConfig, listed: seq<A.Listed>, i: nat,
      ch: nat -> Choice, n: nat)
    requires i < |listed|
    ensures A.Run(st, k, Deleting(ver, config, listed, i), ch, n)
            == A.Run(DeleteResource(st, listed[i].key, ch(n)).0, k, Deleting(ver, config, listed, i + 1), ch, n + 1)
  {
    hide Grows, DeleteResource;
  }

  // ---- Init ------------------------------------------------------------------------------------

  /** What one check of a gateway's deployment reads. */
  function GatewayRead(st: Stores, k: Key, gateway: string, c: Choice): Read<nat> {
    GetDeployment(st, Name(k.namespace, gateway), c)
  }

  predicate Up(st: Stores, k: Key, gateway: string, c: Choice) {
    GatewayRead(st, k, gateway, c).Found? && GatewayRead(st, k, gateway, c).value > 0
  }

  datatype Verdict = AllUp | NotUp | CheckFailed

  class InitReconciler {
    const cluster: Cluster

    constructor (cluster: Cluster)
      ensures this.cluster == cluster
    {
      this.cluster := cluster;
    }

    /** The URL of the first data plane's database, from its spec and its password Secret; the
        calls `ch(1)` and, with a password, `ch(2)`. Nothing when one of them fails. */
    method DatabaseURL(k: Key, ver: nat, init: FrkrInit, ch: nat -> Choice) returns (dbURL: Option<string>, n: nat)
      ensures I.Run(cluster.State(), k, I.AtPlanes(ver, init), ch, 1)
              == if dbURL.Some? then I.Run(cluster.State(), k, I.AtMigrate(ver, init, dbURL.value), ch, n)
                  else (cluster.State(), I.Failed)
      ensures dbURL.Some? ==>
        && ch(1).keys != [] && I.PlaneSeen(cluster.State(), ch(1).keys[0]).Some?
        && var db := I.PlaneSeen(cluster.State(), ch(1).keys[0]).value;
           var read := GetSecret(cluster.State(), Name(k.namespace, db.passwordRef), ch(2));
           && (db.passwordRef != "" ==> read.Found? && "password" in read.value)
           && I.IsUrl(db, if db.passwordRef != "" then read.value["password"] else "", dbURL.value)
    {
      hide Grows, IsListing, ConnectionString.Print, I.Within, I.IsUrl;
      var planes := cluster.List(DataPlaneKind, ch(1));
      n := 2;
      if planes.None? || planes.value == [] { return None, n; }
      var plane := ReadAt(cluster.log, planes.value[0], Seen(cluster.State(), planes.value[0]));
      if !plane.Found? || !plane.value.DataPlaneR? { return None, n; }
      var db := plane.value.plane.spec.postgres;
      var scheme, password := "postgres", "";
      if db.typ == "cockroachdb" { scheme := "cockroachdb"; }
      ghost var st := cluster.State();
      if db.passwordRef != "" {
        assert I.Run(st, k, I.AtPlanes(ver, init), ch, 1) == I.Run(st, k, I.AtPassword(ver, init, db), ch, 2);
        var secret := cluster.GetSecret(Name(k.namespace, db.passwordRef), ch(2));
        n := 3;
        if !secret.Found? || "password" !in secret.value { return None, n; }
        password := secret.value["password"];
      }
      var url := ConnectionString.Url(scheme, db.user, password, db.host, db.port, db.database, db.sslMode);
      I.IsUrlPrinted(db, password, ConnectionString.Print(url));
      dbURL := Some(ConnectionString.Print(url));
    }

    /** `checkGateways`: all up exactly when every gateway is seen up; not up, without an error,
        at the first one that is missing or has no available replica; an error at the first
        read that fails otherwise. */
    method CheckGateways(k: Key, gateways: seq<string>, ch: nat -> Choice, n: nat)
        returns (verdict: Verdict, checked: nat)
      ensures checked <= |gateways|
      ensures forall j :: 0 <= j < checked ==> Up(cluster.State(), k, gateways[j], ch(n + j))
      ensures verdict.AllUp? <==> checked == |gateways|
      ensures verdict.NotUp? ==>
        var r := GatewayRead(cluster.State(), k, gateways[checked], ch(n + checked));
        r.NotFound? || (r.Found? && r.value == 0)
      ensures verdict.CheckFailed? ==> GatewayRead(cluster.State(), k, gateways[checked], ch(n + checked)).ReadError?
    {
      checked := 0;
      while checked < |gateways|
        invariant checked <= |gateways|
        invariant forall j :: 0 <= j < checked ==> Up(cluster.State(), k, gateways[j], ch(n + j))
      {
        var dep := cluster.GetDeployment(Name(k.namespace, gateways[checked]), ch(n + checked));
        if dep.ReadError? { return CheckFailed, checked; }
        if dep.NotFound? || dep.value == 0 { return NotUp, checked; }
        checked := checked + 1;
      }
      verdict := AllUp;
    }

    method Reconcile(k: Key, ch: nat -> Choice) returns (result: I.Outcome)
      modifies cluster
      ensures (cluster.State(), result) == I.Run(old(cluster.State()), k, I.Begin, ch, 0)
    {
      hide Grows, I.Within;
      var read := cluster.Get(k, ch(0));
      if read.ReadError? { return I.Failed; }
      if read.NotFound? || !read.value.InitR? { return I.Done; }
      var init, ver := read.value.init, read.version;
      var dbURL, n := init.spec.databaseURL, 1;
      if dbURL == "" {
        var built: Option<string>;
        built, n := DatabaseURL(k, ver, init, ch);
        if built.None? { return I.Failed; }
        dbURL := built.value;
      }
      result := MigrateAndCheck(k, ver, init, dbURL, ch, n);
    }

    method MigrateAndCheck(k: Key, ver: nat, init: FrkrInit, dbURL: string, ch: nat -> Choice, n: nat)
        returns (result: I.Outcome)
      modifies cluster
      ensures (cluster.State(), result) == I.Run(old(cluster.State()), k, I.AtMigrate(ver, init, dbURL), ch, n)
    {
      hide Grows, I.Within, I.MigrationsFailed;
      var migrated := cluster.Migrate(dbURL, ch(n));
      if !migrated {
        Fail(k, ver, init, ch(n).text, ch, n + 1);
        return I.Failed;
      }
      result := Check(k, ver, init, dbURL, ch, n + 1);
    }

    method Fail(k: Key, ver: nat, init: FrkrInit, message: string, ch: nat -> Choice, n: nat)
      modifies cluster
      ensures (cluster.State(), I.Failed)
              == I.Run(old(cluster.State()), k,
                  I.AtFailure(ver, I.MigrationsFailed(init, message, old(cluster.clock))), ch, n)
    {
      hide Grows, I.Within;
      var failed := init.status.(phase := "Failed");
      var conditions := SetStatusCondition(failed.conditions,
          Condition("MigrationsComplete", false, "MigrationError", message, cluster.clock));
      failed := failed.(conditions := conditions);
      assert init.(status := failed) == I.MigrationsFailed(init, message, cluster.clock);
      var _ := cluster.UpdateStatus(k, ver, InitR(init.(status := failed)), ch(n));
    }

    method Wait(k: Key, ver: nat, init: FrkrInit, ch: nat -> Choice, n: nat) returns (result: I.Outcome)
      modifies cluster
      ensures (cluster.State(), result)
              == I.Run(old(cluster.State()), k, I.AtWaiting(ver, I.Waiting(init, old(cluster.clock))), ch, n)
    {
      hide Grows, I.Within;
      var waiting := init.status;
      var conditions := SetStatusCondition(waiting.conditions,
        Condition("Ready", false, "WaitingForGateways", "Migrations complete, waiting for gateways", cluster.clock));
      waiting := waiting.(conditions := conditions);
      assert init.(status := waiting) == I.Waiting(init, cluster.clock);
      var ok := cluster.UpdateStatus(k, ver, InitR(init.(status := waiting)), ch(n));
      result := if ok then I.RequeueAfter(10_000_000_000) else I.Failed;
    }

    method Finish(k: Key, ver: nat, init: FrkrInit, dbURL: string, version: nat, ch: nat -> Choice, n: nat)
        returns (result: I.Outcome)
      modifies cluster
      ensures (cluster.State(), result)
              == I.Run(old(cluster.State()), k,
                  I.AtReady(ver, I.Initialized(init, version, old(cluster.clock)), dbURL), ch, n)
    {
      hide Grows, I.Within, I.Initialized, Set, StringOf;
      var done := init.status.(phase := "Initialized");
      var message := "Database migrations completed successfully (version: " + StringOf(version)
          + ") and gateways are ready";
      var conditions := SetStatusCondition(done.conditions,
          Condition("Ready", true, "MigrationsComplete", message, cluster.clock));
      done := done.(conditions := conditions);
      InitializedIs(init, version, cluster.clock);
      assert init.(status := done) == I.Initialized(init, version, cluster.clock);
      var ok := cluster.UpdateStatus(k, ver, InitR(init.(status := done)), ch(n));
      result := if ok then I.Done else I.Failed;
    }

    /** The migration version, the gateways, and the status they give. */
    method Check(k: Key, ver: nat, given: FrkrInit, dbURL: string, ch: nat -> Choice, n: nat)
        returns (result: I.Outcome)
      modifies cluster
      ensures (cluster.State(), result) == I.Run(old(cluster.State()), k, I.AtVersion(ver, given, dbURL), ch, n)
    {
      hide Grows, I.Within, I.Waiting, I.Initialized, I.Run;
      var init, version := given, 0;
      if ch(n).fault == Fine {
        version := ch(n).number;
        init := init.(status := init.status.(version := version));
        init := init.(status := init.status.(dirty := ch(n).flag));
      }
      ghost var st := cluster.State();
      VersionRead(st, k, ver, given, dbURL, ch, n);
      var verdict, checked := CheckGateways(k, init.spec.gateways, ch, n + 1);
      PolledSoFar(st, k, ver, init, dbURL, version, ch, n + 1, checked);
      if checked < |init.spec.gateways| {
        GatewayDown(st, k, ver, init, dbURL, version, ch, n + 1 + checked, checked);
      }
      if verdict.CheckFailed? { return I.Failed; }
      var m := n + 1 + checked;
      if verdict.NotUp? && |init.spec.gateways| > 0 {
        result := Wait(k, ver, init, ch, m + 1);
      } else {
        result := Finish(k, ver, init, dbURL, version, ch, m);
      }
    }
  }

  lemma InitializedIs(i: FrkrInit, version: nat, now: nat)
    ensures I.Initialized(i, version, now)
            == i.(status := i.status.(phase := "Initialized", conditions := Set(i.status.conditions,
                 Condition("Ready", true, "MigrationsComplete",
                   "Database migrations completed successfully (version: " + StringOf(version)
                       + ") and gateways are ready", now))))
  {
  }

  lemma VersionRead(st: Stores, k: Key, ver: nat, i: FrkrInit, url: string, ch: nat -> Choice, n: nat)
    ensures I.Run(st, k, I.AtVersion(ver, i, url), ch, n)
            == if ch(n).fault == Fine then
                 I.Run(st, k,
                     I.Polling(st.clock, ver, i.(status := i.status.(version := ch(n).number, dirty := ch(n).flag)),
                         url, ch(n).number, 0), ch, n + 1)
               else I.Run(st, k, I.Polling(st.clock, ver, i, url, 0, 0), ch, n + 1)
  {
    hide Grows, I.Within, I.Initialized;
  }

  /** A gateway that is not up ends the polling. */
  lemma GatewayDown(st: Stores, k: Key, ver: nat, i: FrkrInit, url: string, version: nat, ch: nat -> Choice, n: nat,
      next: nat)
    requires next < |i.spec.gateways| && !Up(st, k, i.spec.gateways[next], ch(n))
    ensures
      I.Run(st, k, I.Polling(st.clock, ver, i, url, version, next), ch, n)
      == if GatewayRead(st, k, i.spec.gateways[next], ch(n)).ReadError? then (st, I.Failed)
         else I.Run(st, k, I.AtWaiting(ver, I.Waiting(i, st.clock)), ch, n + 1)
  {
    hide Grows, I.Within, I.Initialized, I.Waiting;
  }

  lemma GatewayUp(st: Stores, k: Key, ver: nat, i: FrkrInit, url: string, version: nat, ch: nat -> Choice, n: nat,
      next: nat)
    requires next < |i.spec.gateways| && Up(st, k, i.spec.gateways[next], ch(n))
    ensures I.Run(st, k, I.Polling(st.clock, ver, i, url, version, next), ch, n)
            == I.Run(st, k, I.Polling(st.clock, ver, i, url, version, next + 1), ch, n + 1)
  {
    hide Grows, I.Within, I.Initialized, I.Waiting;
  }

  /** While the gateways are up, the steps of a pass only move to the next one. */
  lemma {:induction false} PolledSoFar(st: Stores, k: Key, ver: nat, i: FrkrInit, url: string, version: nat,
      ch: nat -> Choice, n: nat, checked: nat)
    requires checked <= |i.spec.gateways|
    requires forall j :: 0 <= j < checked ==> Up(st, k, i.spec.gateways[j], ch(n + j))
    ensures I.Run(st, k, I.Polling(st.clock, ver, i, url, version, 0), ch, n)
            == I.Run(st, k, I.Polling(st.clock, ver, i, url, version, checked), ch, n + checked)
    decreases checked
  {
    hide Grows, I.Within, I.Initialized, I.Run, I.Polling, Up;
    if checked > 0 {
      PolledSoFar(st, k, ver, i, url, version, ch, n, checked - 1);
      assert Up(st, k, i.spec.gateways[checked - 1], ch(n + (checked - 1)));
      GatewayUp(st, k, ver, i, url, version, ch, n + checked - 1, checked - 1);
    }
  }
}
