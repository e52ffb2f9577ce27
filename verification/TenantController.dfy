/** internal/controller/tenant_controller.go: create or get the row, then write the status
    only if it would change. */
module TenantController {
  import opened Base
  import opened Resources
  import opened Stores

  datatype TenantPass =
    | Begin
    | AtEnsure(ver: nat, t: FrkrTenant)
    | AtWrite(ver: nat, t: FrkrTenant)

  datatype Outcome = Go(pass: TenantPass) | Done | Failed

  type Reply = (Stores, Outcome)

  function Rank(p: TenantPass): nat {
    match p
    case Begin => 2
    case AtEnsure(_, _) => 1
    case AtWrite(_, _) => 0
  }

  function TenantName(k: Key, spec: TenantSpec): string {
    if spec.name == "" then k.name else spec.name
  }

  function MadeReady(t: FrkrTenant, id: string): FrkrTenant {
    t.(status := t.status.(id := id, phase := "Ready"))
  }

  ghost predicate Within(st: Stores, rank: nat, r: Reply) {
    && Grows(st, r.0)
    && (TenantsInjective(st) ==> TenantsInjective(r.0))
    && r.0 == st.(log := r.0.log, tenants := r.0.tenants)
    && (r.1.Go? ==> Rank(r.1.pass) < rank && !r.1.pass.Begin?)
  }

  function Read(st: Stores, k: Key, c: Choice): (r: Reply)
    ensures Within(st, 2, r)
  {
    match Get(st, k, c)
    case Found(ver, TenantR(t)) => (st, Go(AtEnsure(ver, t)))
    case ReadError => (st, Failed)
    case _ => (st, Done)
  }

  /** Without a database the call panics, which the controller runtime turns into an error. */
  function Ensure(cfg: Config, st: Stores, k: Key, ver: nat, t: FrkrTenant, c: Choice): (r: Reply)
    ensures Within(st, 1, r)
  {
    if !cfg.database then (st, Failed) else
    var (st', id) := EnsureTenant(st, TenantName(k, t.spec), c);
    if id.None? then (st', Failed)
    else if t.status.id != id.value || t.status.phase != "Ready" then (st', Go(AtWrite(ver, MadeReady(t, id.value))))
    else (st', Done)
  }

  function Write(st: Stores, k: Key, ver: nat, t: FrkrTenant, c: Choice): (r: Reply)
    ensures Within(st, 0, r)
  {
    var (st', ok) := UpdateStatus(st, k, ver, TenantR(t), c);
    (st', if ok then Done else Failed)
  }

  function Step(cfg: Config, st: Stores, k: Key, p: TenantPass, c: Choice): (r: Reply)
    ensures Within(st, Rank(p), r)
    ensures r.1.Go? ==> if p.Begin? then Get(st, k, c).Found? && r.1.pass.ver == Get(st, k, c).version
                        else r.1.pass.ver == p.ver
  {
    match p
    case Begin => Read(st, k, c)
    case AtEnsure(ver, t) => Ensure(cfg, st, k, ver, t, c)
    case AtWrite(ver, t) => Write(st, k, ver, t, c)
  }

  /** A pass from point `p` to its end with nothing else in between; its calls are decided
      by `ch(n)`, `ch(n + 1)`, and so on. */
  function Run(cfg: Config, st: Stores, k: Key, p: TenantPass, ch: nat -> Choice, n: nat): (r: Reply)
    ensures !r.1.Go?
    decreases Rank(p)
  {
    var r := Step(cfg, st, k, p, ch(n));
    if r.1.Go? then Run(cfg, r.0, k, r.1.pass, ch, n + 1) else r
  }

  // ---- What a pass and its writes guarantee --------------------------------------

  /** The status is ready and holds the ID of the row for this tenant's name. */
  ghost predicate Identified(st: Stores, k: Key, t: FrkrTenant) {
    && t.status.phase == "Ready"
    && (t.spec.name != "" ==> t.spec.name in st.tenants && st.tenants[t.spec.name] == t.status.id)
    && (t.spec.name == "" ==> k.name in st.tenants && st.tenants[k.name] == t.status.id)
  }

  ghost predicate Writes(st: Stores, k: Key, a: FrkrTenant, b: FrkrTenant) {
    b.spec == a.spec && b.status.conditions == a.status.conditions && Identified(st, k, b)
  }

  ghost predicate PassOk(st: Stores, k: Key, a: FrkrTenant, p: TenantPass)
    requires !p.Begin?
  {
    match p
    case AtEnsure(_, t) => t == a
    case AtWrite(_, t) => Writes(st, k, a, t)
  }

  lemma WritesStable(st: Stores, st': Stores, k: Key, a: FrkrTenant, b: FrkrTenant)
    requires Writes(st, k, a, b) && Grows(st, st')
    ensures Writes(st', k, a, b)
  {
  }

  lemma PassStable(st: Stores, st': Stores, k: Key, a: FrkrTenant, p: TenantPass)
    requires !p.Begin? && PassOk(st, k, a, p) && Grows(st, st')
    ensures PassOk(st', k, a, p)
  {
  }

  lemma StepWrites(cfg: Config, st: Stores, k: Key, p: TenantPass, c: Choice)
    ensures var st' := Step(cfg, st, k, p, c).0;
      || st'.log == st.log
      || (p.AtWrite? && p.ver == Version(st.log, k) && Latest(st.log, k).Some?
          && st'.log == Commit(st.log, k, Some(TenantR(p.t))))
  {
    match p {
      case Begin =>
      case AtEnsure(_, _) =>
      case AtWrite(_, _) =>
    }
  }

  /** The only tenant a pass adds is the one its spec names, or of its own name. */
  lemma StepTenants(cfg: Config, st: Stores, k: Key, p: TenantPass, c: Choice)
    ensures var st' := Step(cfg, st, k, p, c).0;
      || st'.tenants == st.tenants
      || (p.AtEnsure? && st'.tenants == st.tenants[(if p.t.spec.name == "" then k.name else p.t.spec.name) := c.id])
  {
    hide Grows, LogsGrow, TenantsInjective, UpdateStatus;
    match p {
      case Begin =>
      case AtEnsure(_, _) =>
      case AtWrite(_, _) =>
    }
  }

  /** Any call that fails, or whose reply is lost, ends the pass with an error. */
  lemma FaultDecides(cfg: Config, st: Stores, k: Key, p: TenantPass, c: Choice)
    requires c.fault != Fine
    ensures Step(cfg, st, k, p, c).1 == Failed
  {
    hide Grows, LogsGrow, TenantsInjective, Commit;
  }

  /** The status is written only if its ID or phase would change, and then nothing else of it. */
  lemma WritesOnChange(cfg: Config, st: Stores, k: Key, p: TenantPass, c: Choice)
    requires p.AtEnsure? && cfg.database && c.fault == Fine
    ensures var (st', o) := Step(cfg, st, k, p, c);
      var name := if p.t.spec.name == "" then k.name else p.t.spec.name;
      if name !in st'.tenants then o == Failed
      else if p.t.status.id == st'.tenants[name] && p.t.status.phase == "Ready" then o == Done
      else o == Go(AtWrite(p.ver,
          FrkrTenant(p.t.spec, TenantStatus(st'.tenants[name], "Ready", p.t.status.conditions))))
  {
    hide Grows, TenantsInjective;
  }

  lemma StepPass(cfg: Config, st: Stores, k: Key, a: FrkrTenant, p: TenantPass, c: Choice)
    requires p.Begin? ==> Get(st, k, c).Found? ==> Get(st, k, c).value == TenantR(a)
    requires !p.Begin? ==> PassOk(st, k, a, p)
    ensures var (st', o) := Step(cfg, st, k, p, c);
            && (o.Go? ==> PassOk(st', k, a, o.pass))
            && (o.Done? && p.AtEnsure? ==> Identified(st', k, a))
  {
    match p {
      case Begin =>
      case AtEnsure(_, t) =>
        if cfg.database {
          var (st', id) := EnsureTenant(st, TenantName(k, t.spec), c);
          if id.None? {
          } else {
          }
        }
      case AtWrite(_, _) =>
    }
  }
}
