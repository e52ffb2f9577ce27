/** Every row that a pass puts into the database is that of the spec it read, whatever became of
    the pass; and one tenant has one ID: the rows of streams and users carry the ID of the tenant
    their spec names. */
module Tenancy {
  import opened Base
  import opened Resources
  import opened Stores
  import opened Machine
  import opened Invariant
  import opened Histories
  import opened Flights
  import S = StreamController
  import T = TenantController
  import U = UserController
  import C = ClientController
  import A = AuthController
  import I = InitController
  import D = DataPlaneController

  /** A ready tenant has the ID of a name exactly if it had that name when its status was
      written. */
  lemma NameOrigin(z: World, name: string, tk: Key, ti: nat, tenant: TenantStatus) returns (m: nat)
    requires Inv(z) && name in z.st.tenants && IsTenant(z.st, tk, ti, tenant) && tenant.phase == "Ready"
    ensures m <= ti && TenantWritten(z.st, tk, m, tenant)
    ensures z.st.tenants[name] == tenant.id <==> IsNameOf(tk, At(z.st, tk, m).value.tenant.spec, name)
  {
    hide LogsOk, PassOk;
    m := TenantOrigin(z.cfg, z.st, tk, ti, tenant);
  }

  // ---- Stream rows ------------------------------------------------------------------------

  ghost predicate AddsStreamRow(v: World, l: Label, id: string) {
    id in Next(v, l).st.streamRows && id !in v.st.streamRows
  }

  /** The label is the row call of a pass over the spec. */
  ghost predicate IsRowCall(v: World, l: Label, spec: StreamSpec) {
    && l.Call? && l.k in v.passes && v.passes[l.k].OfStream? && v.passes[l.k].s.AtRow? && v.passes[l.k].s.s.spec == spec
    && ReadOf(v.st, l.k, v.passes[l.k].s.ver) == Some(StreamR(v.passes[l.k].s.s))
  }

  /** The row is for the tenant of the spec, with its name, description and retention. */
  ghost predicate IsRowFor(st: Stores, id: string, spec: StreamSpec) {
    && id in st.streamRows && st.streamRows[id].name == spec.name && st.streamRows[id].description == spec.description
    && st.streamRows[id].retentionDays == (if spec.retentionDays == 0 then 7 else spec.retentionDays)
    && spec.tenantID in st.tenants && st.streamRows[id].tenantID == st.tenants[spec.tenantID]
  }

  lemma CallAddsStreamRow(cfg: Config, st: Stores, k: Key, p: Pass, c: Choice, id: string)
    requires PassOk(cfg, st, k, p)
    requires id in PassStep(cfg, st, k, p, c).0.streamRows && id !in st.streamRows
    ensures p.OfStream? && p.s.AtRow? && ReadOf(st, k, p.s.ver) == Some(StreamR(p.s.s))
    ensures IsRowFor(PassStep(cfg, st, k, p, c).0, id, p.s.s.spec)
  {
    hide TenantsInjective, LogsGrow, S.Step, T.Step, U.Step, C.Step, A.Step, I.Step, D.Step;
    hide TenantPassOk, UserPassOk, ClientPassOk, AuthPassOk, InitPassOk, DataPlanePassOk;
    match p {
      case OfStream(p) => S.StepRows(cfg, st, k, p, c);
      case OfTenant(_) =>
      case OfUser(_) =>
      case OfClient(_) =>
      case OfAuth(_) =>
      case OfInit(_) =>
      case OfDataPlane(_) =>
    }
  }

  lemma EnvironmentRows(st: Stores, l: Label)
    ensures Environment(st, l).streamRows == st.streamRows && Environment(st, l).userRows == st.userRows
    ensures Environment(st, l).clientRows == st.clientRows && Environment(st, l).tenants == st.tenants
  {
    hide Grows, LogsGrow, Commit;
  }

  lemma StreamRowAdded(v: World, l: Label, id: string) returns (spec: StreamSpec)
    requires Inv(v) && AddsStreamRow(v, l, id)
    ensures IsRowCall(v, l, spec) && IsRowFor(Next(v, l).st, id, spec)
  {
    hide LogsOk, TenantsInjective, PassOk, PassStep, Grows, Environment, IsRowFor;
    EnvironmentRows(v.st, l);
    assert l.Call? && l.k in v.passes;
    CallAddsStreamRow(v.cfg, v.st, l.k, v.passes[l.k], l.c, id);
    spec := v.passes[l.k].s.s.spec;
  }

  lemma RowForStays(st: Stores, st': Stores, id: string, spec: StreamSpec)
    requires Grows(st, st') && IsRowFor(st, id, spec)
    ensures IsRowFor(st', id, spec)
  {
    hide LogsGrow;
  }

  /** Any label of a reachable run that adds a stream row is the row call of a pass over some
      spec. In every later world the row's tenant is that of a ready tenant exactly when the
      spec names the tenant that status was written for. */
  lemma StreamRowTenant(w: World, before: seq<Label>, l: Label, after: seq<Label>, id: string, tk: Key, ti: nat,
      tenant: TenantStatus)
      returns (spec: StreamSpec, m: nat)
    requires Initial(w) && AddsStreamRow(Exec(w, before), l, id)
    requires IsTenant(Exec(Next(Exec(w, before), l), after).st, tk, ti, tenant) && tenant.phase == "Ready"
    ensures IsRowCall(Exec(w, before), l, spec)
    ensures var st := Exec(Next(Exec(w, before), l), after).st;
      && IsRowFor(st, id, spec) && m <= ti && TenantWritten(st, tk, m, tenant)
      && (st.streamRows[id].tenantID == tenant.id
          <==> IsNameOf(tk, At(st, tk, m).value.tenant.spec, spec.tenantID))
  {
    hide Inv, Next, Initial, AddsStreamRow, IsRowCall, IsTenant, TenantWritten, Grows;
    Reachable(w, before);
    spec := StreamRowAdded(Exec(w, before), l, id);
    var v := Next(Exec(w, before), l);
    NextInv(Exec(w, before), l);
    ExecInv(v, after);
    ExecGrows(v, after);
    RowForStays(v.st, Exec(v, after).st, id, spec);
    m := NameOrigin(Exec(v, after), spec.tenantID, tk, ti, tenant);
  }

  /** Every stream row of a reachable world that was not there at the start was added so. */
  lemma {:induction false} StreamRowsAreAdded(w: World, ls: seq<Label>, id: string)
      returns (before: seq<Label>, l: Label, after: seq<Label>)
    requires id in Exec(w, ls).st.streamRows && id !in w.st.streamRows
    ensures ls == before + [l] + after && AddsStreamRow(Exec(w, before), l, id)
    ensures Exec(w, ls) == Exec(Next(Exec(w, before), l), after)
    decreases |ls|
  {
    hide Next;
    if id in Next(w, ls[0]).st.streamRows {
      before, l, after := [], ls[0], ls[1..];
    } else {
      before, l, after := StreamRowsAreAdded(Next(w, ls[0]), ls[1..], id);
      before := [ls[0]] + before;
      assert before[1..] + [l] + after == ls[1..];
    }
  }

  // ---- User rows --------------------------------------------------------------------------

  ghost predicate WritesUserRow(v: World, l: Label, key: RowKey) {
    key in Next(v, l).st.userRows
    && (key !in v.st.userRows || Next(v, l).st.userRows[key] != v.st.userRows[key])
  }

  ghost predicate IsUserRowCall(v: World, l: Label, spec: UserSpec) {
    && l.Call? && l.k in v.passes && v.passes[l.k].OfUser? && v.passes[l.k].u.AtRow? && v.passes[l.k].u.u.spec == spec
    && ReadOf(v.st, l.k, v.passes[l.k].u.ver).Some? && ReadOf(v.st, l.k, v.passes[l.k].u.ver).value.UserR?
    && ReadOf(v.st, l.k, v.passes[l.k].u.ver).value.user.spec == spec
  }

  /** The key is that of the spec's username in the spec's tenant. */
  ghost predicate IsKeyFor(st: Stores, key: RowKey, spec: UserSpec) {
    spec.tenantID in st.tenants && key == (st.tenants[spec.tenantID], spec.username)
  }

  lemma CallWritesUserRow(v: World, k: Key, c: Choice, key: RowKey) returns (spec: UserSpec)
    requires Inv(v) && k in v.passes && WritesUserRow(v, Call(k, c), key)
    ensures IsUserRowCall(v, Call(k, c), spec) && IsKeyFor(v.st, key, spec)
  {
    hide LogsOk, TenantsInjective, Grows, S.Step, T.Step, U.Step, C.Step, A.Step, I.Step, D.Step;
    hide StreamPassOk, TenantPassOk, ClientPassOk, AuthPassOk, InitPassOk, DataPlanePassOk;
    assert PassOk(v.cfg, v.st, k, v.passes[k]);
    match v.passes[k] {
      case OfUser(p) =>
        U.StepRows(v.cfg, v.st, k, p, c);
        spec := p.u.spec;
      case OfStream(_) =>
      case OfTenant(_) =>
      case OfClient(_) =>
      case OfAuth(_) =>
      case OfInit(_) =>
      case OfDataPlane(_) =>
    }
  }

  lemma UserRowWritten(v: World, l: Label, key: RowKey) returns (spec: UserSpec)
    requires Inv(v) && WritesUserRow(v, l, key)
    ensures IsUserRowCall(v, l, spec) && IsKeyFor(v.st, key, spec)
  {
    hide Inv, PassStep, Grows, Environment, IsKeyFor, IsUserRowCall;
    EnvironmentRows(v.st, l);
    assert l.Call? && l.k in v.passes;
    spec := CallWritesUserRow(v, l.k, l.c, key);
  }

  lemma KeyForStays(st: Stores, st': Stores, key: RowKey, spec: UserSpec)
    requires Grows(st, st') && IsKeyFor(st, key, spec)
    ensures IsKeyFor(st', key, spec)
  {
    hide LogsGrow;
  }

  /** The same of a user row, added or overwritten: the tenant in its key. */
  lemma UserRowTenant(w: World, before: seq<Label>, l: Label, after: seq<Label>, key: RowKey, tk: Key, ti: nat,
      tenant: TenantStatus)
      returns (spec: UserSpec, m: nat)
    requires Initial(w) && WritesUserRow(Exec(w, before), l, key)
    requires IsTenant(Exec(Next(Exec(w, before), l), after).st, tk, ti, tenant) && tenant.phase == "Ready"
    ensures IsUserRowCall(Exec(w, before), l, spec)
    ensures var st := Exec(Next(Exec(w, before), l), after).st;
      && IsKeyFor(st, key, spec) && m <= ti && TenantWritten(st, tk, m, tenant)
      && (key.0 == tenant.id <==> IsNameOf(tk, At(st, tk, m).value.tenant.spec, spec.tenantID))
  {
    hide Inv, Next, Initial, WritesUserRow, IsUserRowCall, IsTenant, TenantWritten, Grows;
    Reachable(w, before);
    spec := UserRowWritten(Exec(w, before), l, key);
    var v := Next(Exec(w, before), l);
    NextInv(Exec(w, before), l);
    ExecInv(v, after);
    ExecGrows(v, after);
    KeyForStays(Exec(w, before).st, v.st, key, spec);
    KeyForStays(v.st, Exec(v, after).st, key, spec);
    m := NameOrigin(Exec(v, after), spec.tenantID, tk, ti, tenant);
  }

  lemma {:induction false} UserRowsAreAdded(w: World, ls: seq<Label>, key: RowKey)
      returns (before: seq<Label>, l: Label, after: seq<Label>)
    requires key in Exec(w, ls).st.userRows && key !in w.st.userRows
    ensures ls == before + [l] + after && WritesUserRow(Exec(w, before), l, key)
    ensures Exec(w, ls) == Exec(Next(Exec(w, before), l), after)
    decreases |ls|
  {
    hide Next;
    if key in Next(w, ls[0]).st.userRows {
      before, l, after := [], ls[0], ls[1..];
    } else {
      before, l, after := UserRowsAreAdded(Next(w, ls[0]), ls[1..], key);
      before := [ls[0]] + before;
      assert before[1..] + [l] + after == ls[1..];
    }
  }

  // ---- Client rows ------------------------------------------------------------------------

  ghost predicate AddsClientRow(v: World, l: Label, key: RowKey) {
    key in Next(v, l).st.clientRows && key !in v.st.clientRows
  }

  /** The label is the insert of a pass over the spec. */
  ghost predicate IsInsertCall(v: World, l: Label, spec: ClientSpec, secret: string) {
    && l.Call? && l.k in v.passes && v.passes[l.k].OfClient? && v.passes[l.k].c.AtInsert?
    && v.passes[l.k].c.c.spec == spec && v.passes[l.k].c.secret == secret
    && ReadOf(v.st, l.k, v.passes[l.k].c.ver).Some? && ReadOf(v.st, l.k, v.passes[l.k].c.ver).value.ClientR?
    && ReadOf(v.st, l.k, v.passes[l.k].c.ver).value.client.spec == spec
  }

  /** The row is that of the spec's tenant and client ID, with this secret, bound to the spec's
      stream if it names one. */
  ghost predicate IsClientRow(st: Stores, key: RowKey, spec: ClientSpec, secret: string) {
    && key == (spec.tenantID, spec.clientID) && key in st.clientRows && st.clientRows[key].secret == secret
    && st.clientRows[key].streamID == (if spec.streamID == "" then None else Some(spec.streamID))
    && secret != "" && (spec.secret != "" ==> secret == spec.secret)
  }

  lemma CallAddsClientRow(v: World, k: Key, c: Choice, key: RowKey) returns (spec: ClientSpec, secret: string)
    requires Inv(v) && k in v.passes && AddsClientRow(v, Call(k, c), key)
    ensures IsInsertCall(v, Call(k, c), spec, secret) && IsClientRow(Next(v, Call(k, c)).st, key, spec, secret)
  {
    hide LogsOk, TenantsInjective, Grows, S.Step, T.Step, U.Step, C.Step, A.Step, I.Step, D.Step;
    hide StreamPassOk, TenantPassOk, UserPassOk, AuthPassOk, InitPassOk, DataPlanePassOk;
    assert PassOk(v.cfg, v.st, k, v.passes[k]);
    match v.passes[k] {
      case OfClient(p) =>
        C.StepRows(v.cfg, v.st, k, p, c);
        spec, secret := p.c.spec, p.secret;
      case OfStream(_) =>
      case OfTenant(_) =>
      case OfUser(_) =>
      case OfAuth(_) =>
      case OfInit(_) =>
      case OfDataPlane(_) =>
    }
  }

  lemma ClientRowStays(st: Stores, st': Stores, key: RowKey, spec: ClientSpec, secret: string)
    requires Grows(st, st') && IsClientRow(st, key, spec, secret)
    ensures IsClientRow(st', key, spec, secret)
  {
    hide LogsGrow;
  }

  /** Any label of a reachable run that adds a client row is the insert of a pass over some spec,
      and the row is that spec's in every later world. */
  lemma ClientRowIsSpecs(w: World, before: seq<Label>, l: Label, after: seq<Label>, key: RowKey)
      returns (spec: ClientSpec, secret: string)
    requires Initial(w) && AddsClientRow(Exec(w, before), l, key)
    ensures IsInsertCall(Exec(w, before), l, spec, secret)
    ensures IsClientRow(Exec(Next(Exec(w, before), l), after).st, key, spec, secret)
  {
    hide LogsOk, TenantsInjective, PassOk, PassStep, Grows, Environment, Initial, IsInsertCall, IsClientRow;
    Reachable(w, before);
    var u := Exec(w, before);
    EnvironmentRows(u.st, l);
    assert l.Call? && l.k in u.passes;
    spec, secret := CallAddsClientRow(u, l.k, l.c, key);
    ExecGrows(Next(u, l), after);
    ClientRowStays(Next(u, l).st, Exec(Next(u, l), after).st, key, spec, secret);
  }

  lemma {:induction false} ClientRowsAreAdded(w: World, ls: seq<Label>, key: RowKey)
      returns (before: seq<Label>, l: Label, after: seq<Label>)
    requires key in Exec(w, ls).st.clientRows && key !in w.st.clientRows
    ensures ls == before + [l] + after && AddsClientRow(Exec(w, before), l, key)
    ensures Exec(w, ls) == Exec(Next(Exec(w, before), l), after)
    decreases |ls|
  {
    hide Next;
    if key in Next(w, ls[0]).st.clientRows {
      before, l, after := [], ls[0], ls[1..];
    } else {
      before, l, after := ClientRowsAreAdded(Next(w, ls[0]), ls[1..], key);
      before := [ls[0]] + before;
      assert before[1..] + [l] + after == ls[1..];
    }
  }

  // ---- Tenant rows ------------------------------------------------------------------------

  /** The pass asks for the tenant of this name: a stream's or a user's, by its spec's tenant ID,
      or a tenant's, by the name of its spec, or its own if that is empty. */
  ghost predicate AsksFor(k: Key, p: Pass, name: string) {
    match p
    case OfStream(p) => p.AtTenant? && p.s.spec.tenantID == name
    case OfUser(p) => p.AtTenant? && p.u.spec.tenantID == name
    case OfTenant(p) => p.AtEnsure? && IsNameOf(k, p.t.spec, name)
    case _ => false
  }

  /** A tenant row is added only under a name that a pass asks for. */
  lemma TenantRowIsAsked(v: World, l: Label, name: string)
    requires name in Next(v, l).st.tenants && name !in v.st.tenants
    ensures l.Call? && l.k in v.passes && AsksFor(l.k, v.passes[l.k], name)
  {
    hide PassStep, Grows, Environment, AsksFor;
    EnvironmentRows(v.st, l);
    CallAsks(v.cfg, v.st, l.k, v.passes[l.k], l.c, name);
  }

  lemma CallAsks(cfg: Config, st: Stores, k: Key, p: Pass, c: Choice, name: string)
    requires name in PassStep(cfg, st, k, p, c).0.tenants && name !in st.tenants
    ensures AsksFor(k, p, name)
  {
    hide Grows, LogsGrow, TenantsInjective, S.Step, T.Step, U.Step, C.Step, A.Step, I.Step, D.Step;
    match p {
      case OfStream(p) => S.StepTenants(cfg, st, k, p, c);
      case OfTenant(p) => T.StepTenants(cfg, st, k, p, c);
      case OfUser(p) => U.StepTenants(cfg, st, k, p, c);
      case OfClient(_) =>
      case OfAuth(_) =>
      case OfInit(_) =>
      case OfDataPlane(_) =>
    }
  }
}
