/** What every run keeps: the history of each custom resource is a chain of user edits and
    sound status writes, and every pass in flight still holds what it has established. */
module Invariant {
  import opened Base
  import opened Resources
  import opened Stores
  import opened Machine
  import S = StreamController
  import T = TenantController
  import U = UserController
  import C = ClientController
  import A = AuthController
  import I = InitController
  import D = DataPlaneController

  ghost predicate StatusOk(st: Stores, r: Resource) {
    match r
    case StreamR(x) => S.StatusOk(st, x.status)
    case InitR(x) => I.StatusOk(st, x.status)
    case DataPlaneR(x) => D.ConditionsOk(st, x.status)
    case _ => true
  }

  /** A pass of the kind of `k` that read `a` may have written `b`. */
  ghost predicate Wrote(cfg: Config, st: Stores, k: Key, a: Resource, b: Resource)
    requires a.KindOf() == b.KindOf()
  {
    match a
    case StreamR(x) => S.Write(cfg, st, x, b.stream)
    case TenantR(x) => T.Writes(st, k, x, b.tenant)
    case UserR(x) => U.Writes(x, b.user)
    case ClientR(x) => C.Writes(cfg, st, x, b.client)
    case AuthR(x) => b.auth == FrkrAuthConfig(x.spec, AuthStatus("Active", x.spec.typ, x.status.conditions))
    case InitR(x) => I.Writes(st, k, x, b.init)
    case DataPlaneR(x) => D.Writes(st, x, b.plane)
  }

  ghost predicate Edited(a: Resource, b: Resource)
    requires a.KindOf() == b.KindOf()
  {
    b == b.EditOf(a)
  }

  /** Two consecutive versions: a removal, a creation, an edit, or the write of a pass. */
  ghost predicate LinkOk(cfg: Config, st: Stores, k: Key, a: Option<Resource>, b: Option<Resource>) {
    && (a.Some? ==> a.value.KindOf() == k.kind)
    && (b.Some? ==>
         && b.value.KindOf() == k.kind
         && StatusOk(st, b.value)
         && (a.None? ==> b.value == b.value.Fresh())
         && (a.Some? ==> Edited(a.value, b.value) || Wrote(cfg, st, k, a.value, b.value)))
  }

  ghost predicate LogOk(cfg: Config, st: Stores, k: Key) {
    && LogOf(st.log, k)[0] == None
    && forall i :: 0 < i < |LogOf(st.log, k)| ==> LinkOk(cfg, st, k, LogOf(st.log, k)[i - 1], LogOf(st.log, k)[i])
  }

  ghost predicate LogsOk(cfg: Config, st: Stores) {
    forall k :: LogOk(cfg, st, k)
  }

  /** The version of `k` that a pass read. */
  function ReadOf(st: Stores, k: Key, ver: nat): Option<Resource> {
    if ver < |LogOf(st.log, k)| then LogOf(st.log, k)[ver] else None
  }

  ghost predicate StreamPassOk(cfg: Config, st: Stores, k: Key, p: S.StreamPass) {
    p.Begin? || var r := ReadOf(st, k, p.ver); r.Some? && r.value.StreamR? && S.PassOk(cfg, st, r.value.stream, p)
  }

  ghost predicate TenantPassOk(st: Stores, k: Key, p: T.TenantPass) {
    p.Begin? || var r := ReadOf(st, k, p.ver); r.Some? && r.value.TenantR? && T.PassOk(st, k, r.value.tenant, p)
  }

  ghost predicate UserPassOk(cfg: Config, st: Stores, k: Key, p: U.UserPass) {
    p.Begin? || var r := ReadOf(st, k, p.ver); r.Some? && r.value.UserR? && U.PassOk(cfg, st, k, r.value.user, p)
  }

  ghost predicate ClientPassOk(cfg: Config, st: Stores, k: Key, p: C.ClientPass) {
    p.Begin? || var r := ReadOf(st, k, p.ver); r.Some? && r.value.ClientR? && C.PassOk(cfg, st, r.value.client, p)
  }

  ghost predicate AuthPassOk(st: Stores, k: Key, p: A.AuthPass) {
    p.Begin? || var r := ReadOf(st, k, p.ver); r.Some? && r.value.AuthR? && A.PassOk(st, r.value.auth, p)
  }

  ghost predicate InitPassOk(st: Stores, k: Key, p: I.InitPass) {
    p.Begin? || var r := ReadOf(st, k, p.ver); r.Some? && r.value.InitR? && I.PassOk(st, k, r.value.init, p)
  }

  ghost predicate DataPlanePassOk(st: Stores, k: Key, p: D.DataPlanePass) {
    p.Begin? || var r := ReadOf(st, k, p.ver); r.Some? && r.value.DataPlaneR? && D.PassOk(st, r.value.plane, p)
  }

  /** The pass at `k` is of its kind, and past its read it holds what its point asks for. */
  ghost predicate PassOk(cfg: Config, st: Stores, k: Key, p: Pass) {
    match p
    case OfStream(p) => k.kind == StreamKind && StreamPassOk(cfg, st, k, p)
    case OfTenant(p) => k.kind == TenantKind && TenantPassOk(st, k, p)
    case OfUser(p) => k.kind == UserKind && UserPassOk(cfg, st, k, p)
    case OfClient(p) => k.kind == ClientKind && ClientPassOk(cfg, st, k, p)
    case OfAuth(p) => k.kind == AuthKind && AuthPassOk(st, k, p)
    case OfInit(p) => k.kind == InitKind && InitPassOk(st, k, p)
    case OfDataPlane(p) => k.kind == DataPlaneKind && DataPlanePassOk(st, k, p)
  }

  ghost predicate Inv(w: World) {
    && LogsOk(w.cfg, w.st)
    && TenantsInjective(w.st)
    && forall k :: k in w.passes ==> PassOk(w.cfg, w.st, k, w.passes[k])
  }

  // ---- Growing stores keep it ----------------------------------------------------

  lemma LinkStable(cfg: Config, st: Stores, st': Stores, k: Key, a: Option<Resource>, b: Option<Resource>)
    requires LinkOk(cfg, st, k, a, b) && Grows(st, st')
    ensures LinkOk(cfg, st', k, a, b)
  {
    hide S.Provisioned, I.Writes, I.Verified;
    if a.Some? && b.Some? && Wrote(cfg, st, k, a.value, b.value) {
      match a.value {
        case StreamR(x) => S.WriteStable(cfg, st, st', x, b.value.stream);
        case InitR(x) => I.WritesStable(st, st', k, x, b.value.init);
        case _ =>
      }
    }
  }

  lemma PassStable(cfg: Config, st: Stores, st': Stores, k: Key, p: Pass)
    requires PassOk(cfg, st, k, p) && Grows(st, st')
    ensures PassOk(cfg, st', k, p)
  {
    hide S.PassOk, T.PassOk, U.PassOk, C.PassOk, A.PassOk, I.PassOk, D.PassOk;
    assert LogOf(st.log, k) <= LogOf(st'.log, k);
    match p {
      case OfStream(p) => if !p.Begin? { S.PassStable(cfg, st, st', ReadOf(st, k, p.ver).value.stream, p); }
      case OfTenant(p) => if !p.Begin? { T.PassStable(st, st', k, ReadOf(st, k, p.ver).value.tenant, p); }
      case OfUser(p) => if !p.Begin? { U.PassStable(cfg, st, st', k, ReadOf(st, k, p.ver).value.user, p); }
      case OfClient(p) => if !p.Begin? { C.PassStable(cfg, st, st', ReadOf(st, k, p.ver).value.client, p); }
      case OfAuth(p) => if !p.Begin? { A.PassStable(st, st', ReadOf(st, k, p.ver).value.auth, p); }
      case OfInit(p) => if !p.Begin? { I.PassStable(st, st', k, ReadOf(st, k, p.ver).value.init, p); }
      case OfDataPlane(p) => if !p.Begin? { D.PassStable(st, st', ReadOf(st, k, p.ver).value.plane, p); }
    }
  }

  /** A log that gains one sound version stays sound, and so do all the others. */
  lemma AppendOk(cfg: Config, st: Stores, st': Stores, k: Key, v: Option<Resource>)
    requires LogsOk(cfg, st) && Grows(st, st') && st'.log == Commit(st.log, k, v)
    requires LinkOk(cfg, st', k, Latest(st.log, k), v)
    ensures LogsOk(cfg, st')
  {
    hide LinkOk, Grows;
    forall j ensures LogOk(cfg, st', j) {
      assert LogOk(cfg, st, j);
      forall i | 0 < i < |LogOf(st'.log, j)|
          ensures LinkOk(cfg, st', j, LogOf(st'.log, j)[i - 1], LogOf(st'.log, j)[i]) {
        if i < |LogOf(st.log, j)| {
          LinkStable(cfg, st, st', j, LogOf(st.log, j)[i - 1], LogOf(st.log, j)[i]);
        }
      }
    }
  }

  /** Stores that grow without a new version keep sound logs. */
  lemma SameLogsOk(cfg: Config, st: Stores, st': Stores)
    requires LogsOk(cfg, st) && Grows(st, st') && st'.log == st.log
    ensures LogsOk(cfg, st')
  {
    hide LinkOk, Grows;
    forall j ensures LogOk(cfg, st', j) {
      assert LogOk(cfg, st, j);
      forall i | 0 < i < |LogOf(st'.log, j)|
          ensures LinkOk(cfg, st', j, LogOf(st'.log, j)[i - 1], LogOf(st'.log, j)[i]) {
        LinkStable(cfg, st, st', j, LogOf(st.log, j)[i - 1], LogOf(st.log, j)[i]);
      }
    }
  }

  lemma KindAt(cfg: Config, st: Stores, k: Key, i: nat)
    requires LogsOk(cfg, st) && i < |LogOf(st.log, k)| && LogOf(st.log, k)[i].Some?
    ensures LogOf(st.log, k)[i].value.KindOf() == k.kind && StatusOk(st, LogOf(st.log, k)[i].value)
  {
    assert LogOk(cfg, st, k);
    assert i > 0 ==> LinkOk(cfg, st, k, LogOf(st.log, k)[i - 1], LogOf(st.log, k)[i]);
  }

  lemma RemovalOk(cfg: Config, st: Stores, st': Stores, k: Key)
    requires LogsOk(cfg, st) && Grows(st, st') && st'.log == Commit(st.log, k, None)
    ensures LogsOk(cfg, st')
  {
    hide LogsOk, Grows;
    if Latest(st.log, k).Some? {
      KindAt(cfg, st, k, Version(st.log, k));
    }
    AppendOk(cfg, st, st', k, None);
  }

  // ---- One call of each kind of pass ----------------------------------------------

  /** A read that finds `k` finds a version of its log, of the kind of `k`. */
  lemma GetIsVersion(cfg: Config, st: Stores, k: Key, c: Choice)
    requires LogsOk(cfg, st) && Get(st, k, c).Found?
    ensures ReadOf(st, k, Get(st, k, c).version) == Some(Get(st, k, c).value)
    ensures Get(st, k, c).value.KindOf() == k.kind && StatusOk(st, Get(st, k, c).value)
  {
    hide LogsOk, StatusOk;
    KindAt(cfg, st, k, Seen(st, k));
  }

  lemma StreamWriteOk(cfg: Config, st: Stores, st': Stores, k: Key, p: S.StreamPass)
    requires LogsOk(cfg, st) && Grows(st, st') && k.kind == StreamKind
    requires (p.AtReady? || p.AtReport?) && StreamPassOk(cfg, st, k, p)
    requires p.ver == Version(st.log, k) && st'.log == Commit(st.log, k, Some(StreamR(p.s)))
    ensures LogsOk(cfg, st')
  {
    hide LogsOk, Grows;
    var a := ReadOf(st, k, p.ver).value.stream;
    S.WriteStable(cfg, st, st', a, p.s);
    AppendOk(cfg, st, st', k, Some(StreamR(p.s)));
  }

  lemma StreamStepOk(cfg: Config, st: Stores, k: Key, p: S.StreamPass, c: Choice)
    requires LogsOk(cfg, st) && k.kind == StreamKind && StreamPassOk(cfg, st, k, p)
    ensures var r := S.Step(cfg, st, k, p, c);
            LogsOk(cfg, r.0) && (r.1.Go? ==> StreamPassOk(cfg, r.0, k, r.1.pass))
  {
    hide S.PassOk, S.Step, LogsOk, Grows;
    var r := S.Step(cfg, st, k, p, c);
    Prefix(st, r.0, k);
    S.StepWrites(cfg, st, k, p, c);
    if p.Begin? {
      if Get(st, k, c).Found? {
        GetIsVersion(cfg, st, k, c);
        S.StepPass(cfg, st, k, Get(st, k, c).value.stream, p, c);
      }
      SameLogsOk(cfg, st, r.0);
    } else {
      KindAt(cfg, st, k, p.ver);
      S.StepPass(cfg, st, k, ReadOf(st, k, p.ver).value.stream, p, c);
      if r.0.log == st.log {
        SameLogsOk(cfg, st, r.0);
      } else {
        StreamWriteOk(cfg, st, r.0, k, p);
      }
    }
  }

  lemma TenantWriteOk(cfg: Config, st: Stores, st': Stores, k: Key, p: T.TenantPass)
    requires LogsOk(cfg, st) && Grows(st, st') && k.kind == TenantKind && (p.AtWrite?) && TenantPassOk(st, k, p)
    requires p.ver == Version(st.log, k) && st'.log == Commit(st.log, k, Some(TenantR(p.t)))
    ensures LogsOk(cfg, st')
  {
    hide LogsOk, Grows;
    var a := ReadOf(st, k, p.ver).value.tenant;
    T.WritesStable(st, st', k, a, p.t);
    AppendOk(cfg, st, st', k, Some(TenantR(p.t)));
  }

  lemma TenantStepOk(cfg: Config, st: Stores, k: Key, p: T.TenantPass, c: Choice)
    requires LogsOk(cfg, st) && k.kind == TenantKind && TenantPassOk(st, k, p)
    ensures var r := T.Step(cfg, st, k, p, c);
            LogsOk(cfg, r.0) && (r.1.Go? ==> TenantPassOk(r.0, k, r.1.pass))
  {
    hide T.PassOk, T.Step, LogsOk, Grows;
    var r := T.Step(cfg, st, k, p, c);
    Prefix(st, r.0, k);
    T.StepWrites(cfg, st, k, p, c);
    if p.Begin? {
      if Get(st, k, c).Found? {
        GetIsVersion(cfg, st, k, c);
        T.StepPass(cfg, st, k, Get(st, k, c).value.tenant, p, c);
      }
      SameLogsOk(cfg, st, r.0);
    } else {
      KindAt(cfg, st, k, p.ver);
      T.StepPass(cfg, st, k, ReadOf(st, k, p.ver).value.tenant, p, c);
      if r.0.log == st.log {
        SameLogsOk(cfg, st, r.0);
      } else {
        TenantWriteOk(cfg, st, r.0, k, p);
      }
    }
  }

  lemma UserWriteOk(cfg: Config, st: Stores, st': Stores, k: Key, p: U.UserPass)
    requires LogsOk(cfg, st) && Grows(st, st') && k.kind == UserKind && (p.AtWrite?) && UserPassOk(cfg, st, k, p)
    requires p.ver == Version(st.log, k) && st'.log == Commit(st.log, k, Some(UserR(p.u)))
    ensures LogsOk(cfg, st')
  {
    hide LogsOk, Grows;
    var a := ReadOf(st, k, p.ver).value.user;
    AppendOk(cfg, st, st', k, Some(UserR(p.u)));
  }

  lemma UserStepOk(cfg: Config, st: Stores, k: Key, p: U.UserPass, c: Choice)
    requires LogsOk(cfg, st) && k.kind == UserKind && UserPassOk(cfg, st, k, p)
    ensures var r := U.Step(cfg, st, k, p, c);
            LogsOk(cfg, r.0) && (r.1.Go? ==> UserPassOk(cfg, r.0, k, r.1.pass))
  {
    hide U.PassOk, U.Step, LogsOk, Grows;
    var r := U.Step(cfg, st, k, p, c);
    Prefix(st, r.0, k);
    U.StepWrites(cfg, st, k, p, c);
    if p.Begin? {
      if Get(st, k, c).Found? {
        GetIsVersion(cfg, st, k, c);
        U.StepPass(cfg, st, k, Get(st, k, c).value.user, p, c);
      }
      SameLogsOk(cfg, st, r.0);
    } else {
      KindAt(cfg, st, k, p.ver);
      U.StepPass(cfg, st, k, ReadOf(st, k, p.ver).value.user, p, c);
      if r.0.log == st.log {
        SameLogsOk(cfg, st, r.0);
      } else {
        UserWriteOk(cfg, st, r.0, k, p);
      }
    }
  }

  lemma ClientWriteOk(cfg: Config, st: Stores, st': Stores, k: Key, p: C.ClientPass)
    requires LogsOk(cfg, st) && Grows(st, st') && k.kind == ClientKind && (p.AtWrite?) && ClientPassOk(cfg, st, k, p)
    requires p.ver == Version(st.log, k) && st'.log == Commit(st.log, k, Some(ClientR(p.c)))
    ensures LogsOk(cfg, st')
  {
    hide LogsOk, Grows;
    var a := ReadOf(st, k, p.ver).value.client;
    C.WritesStable(cfg, st, st', a, p.c);
    AppendOk(cfg, st, st', k, Some(ClientR(p.c)));
  }

  lemma ClientStepOk(cfg: Config, st: Stores, k: Key, p: C.ClientPass, c: Choice)
    requires LogsOk(cfg, st) && k.kind == ClientKind && ClientPassOk(cfg, st, k, p)
    ensures var r := C.Step(cfg, st, k, p, c);
            LogsOk(cfg, r.0) && (r.1.Go? ==> ClientPassOk(cfg, r.0, k, r.1.pass))
  {
    hide C.PassOk, C.Step, LogsOk, Grows;
    var r := C.Step(cfg, st, k, p, c);
    Prefix(st, r.0, k);
    C.StepWrites(cfg, st, k, p, c);
    if p.Begin? {
      if Get(st, k, c).Found? {
        GetIsVersion(cfg, st, k, c);
        C.StepPass(cfg, st, k, Get(st, k, c).value.client, p, c);
      }
      SameLogsOk(cfg, st, r.0);
    } else {
      KindAt(cfg, st, k, p.ver);
      C.StepPass(cfg, st, k, ReadOf(st, k, p.ver).value.client, p, c);
      if r.0.log == st.log {
        SameLogsOk(cfg, st, r.0);
      } else {
        ClientWriteOk(cfg, st, r.0, k, p);
      }
    }
  }

  lemma AuthWriteOk(cfg: Config, st: Stores, st': Stores, k: Key, p: A.AuthPass)
    requires LogsOk(cfg, st) && Grows(st, st') && k.kind == AuthKind && (p.AtWrite?) && AuthPassOk(st, k, p)
    requires p.ver == Version(st.log, k) && st'.log == Commit(st.log, k, Some(AuthR(A.Activated(p.a))))
    ensures LogsOk(cfg, st')
  {
    hide LogsOk, Grows;
    var a := ReadOf(st, k, p.ver).value.auth;
    AppendOk(cfg, st, st', k, Some(AuthR(A.Activated(p.a))));
  }

  lemma AuthStepOk(cfg: Config, st: Stores, k: Key, p: A.AuthPass, c: Choice)
    requires LogsOk(cfg, st) && k.kind == AuthKind && AuthPassOk(st, k, p)
    ensures var r := A.Step(st, k, p, c);
            LogsOk(cfg, r.0) && (r.1.Go? ==> AuthPassOk(r.0, k, r.1.pass))
  {
    hide A.PassOk, A.Step, LogsOk, Grows;
    var r := A.Step(st, k, p, c);
    Prefix(st, r.0, k);
    A.StepWrites(st, k, p, c);
    if p.Begin? {
      if Get(st, k, c).Found? {
        GetIsVersion(cfg, st, k, c);
        A.StepPass(st, k, Get(st, k, c).value.auth, p, c);
      }
      SameLogsOk(cfg, st, r.0);
    } else {
      KindAt(cfg, st, k, p.ver);
      A.StepPass(st, k, ReadOf(st, k, p.ver).value.auth, p, c);
      if r.0.log == st.log {
        SameLogsOk(cfg, st, r.0);
      } else if p.AtDelete? {
        RemovalOk(cfg, st, r.0, p.listed[p.done].key);
      } else {
        AuthWriteOk(cfg, st, r.0, k, p);
      }
    }
  }

  lemma InitWriteOk(cfg: Config, st: Stores, st': Stores, k: Key, p: I.InitPass)
    requires LogsOk(cfg, st) && Grows(st, st') && k.kind == InitKind
    requires (p.AtFailure? || p.AtWaiting? || p.AtReady?) && InitPassOk(st, k, p)
    requires p.ver == Version(st.log, k) && st'.log == Commit(st.log, k, Some(InitR(p.i)))
    ensures LogsOk(cfg, st')
  {
    hide LogsOk, Grows;
    var a := ReadOf(st, k, p.ver).value.init;
    I.WritesStable(st, st', k, a, p.i);
    AppendOk(cfg, st, st', k, Some(InitR(p.i)));
  }

  lemma InitStepOk(cfg: Config, st: Stores, k: Key, p: I.InitPass, c: Choice)
    requires LogsOk(cfg, st) && k.kind == InitKind && InitPassOk(st, k, p)
    ensures var r := I.Step(st, k, p, c);
            LogsOk(cfg, r.0) && (r.1.Go? ==> InitPassOk(r.0, k, r.1.pass))
  {
    hide I.PassOk, I.Step, LogsOk, Grows;
    var r := I.Step(st, k, p, c);
    Prefix(st, r.0, k);
    I.StepWrites(st, k, p, c);
    if p.Begin? {
      if Get(st, k, c).Found? {
        GetIsVersion(cfg, st, k, c);
        I.StepPass(st, k, Get(st, k, c).value.init, p, c);
      }
      SameLogsOk(cfg, st, r.0);
    } else {
      KindAt(cfg, st, k, p.ver);
      I.StepPass(st, k, ReadOf(st, k, p.ver).value.init, p, c);
      if r.0.log == st.log {
        SameLogsOk(cfg, st, r.0);
      } else {
        InitWriteOk(cfg, st, r.0, k, p);
      }
    }
  }

  lemma DataPlaneWriteOk(cfg: Config, st: Stores, st': Stores, k: Key, p: D.DataPlanePass)
    requires LogsOk(cfg, st) && Grows(st, st') && k.kind == DataPlaneKind && (p.AtWrite?) && DataPlanePassOk(st, k, p)
    requires p.ver == Version(st.log, k) && st'.log == Commit(st.log, k, Some(DataPlaneR(p.d)))
    ensures LogsOk(cfg, st')
  {
    hide LogsOk, Grows;
    var a := ReadOf(st, k, p.ver).value.plane;
    D.WritesStable(st, st', a, p.d);
    AppendOk(cfg, st, st', k, Some(DataPlaneR(p.d)));
  }

  lemma DataPlaneStepOk(cfg: Config, st: Stores, k: Key, p: D.DataPlanePass, c: Choice)
    requires LogsOk(cfg, st) && k.kind == DataPlaneKind && DataPlanePassOk(st, k, p)
    ensures var r := D.Step(st, k, p, c);
            LogsOk(cfg, r.0) && (r.1.Go? ==> DataPlanePassOk(r.0, k, r.1.pass))
  {
    hide D.PassOk, D.Step, LogsOk, Grows;
    var r := D.Step(st, k, p, c);
    Prefix(st, r.0, k);
    D.StepWrites(st, k, p, c);
    if p.Begin? {
      if Get(st, k, c).Found? {
        GetIsVersion(cfg, st, k, c);
        D.StepPass(st, k, Get(st, k, c).value.plane, p, c);
      }
      SameLogsOk(cfg, st, r.0);
    } else {
      KindAt(cfg, st, k, p.ver);
      D.StepPass(st, k, ReadOf(st, k, p.ver).value.plane, p, c);
      if r.0.log == st.log {
        SameLogsOk(cfg, st, r.0);
      } else {
        DataPlaneWriteOk(cfg, st, r.0, k, p);
      }
    }
  }

  lemma PassStepOk(cfg: Config, st: Stores, k: Key, p: Pass, c: Choice)
    requires LogsOk(cfg, st) && PassOk(cfg, st, k, p)
    ensures var r := PassStep(cfg, st, k, p, c);
            LogsOk(cfg, r.0) && (r.1.Go? ==> PassOk(cfg, r.0, k, r.1.pass))
  {
    hide LogsOk, Grows, S.Step, T.Step, U.Step, C.Step, A.Step, I.Step, D.Step;
    hide StreamPassOk, TenantPassOk, UserPassOk, ClientPassOk, AuthPassOk, InitPassOk, DataPlanePassOk;
    match p {
      case OfStream(p) => StreamStepOk(cfg, st, k, p, c);
      case OfTenant(p) => TenantStepOk(cfg, st, k, p, c);
      case OfUser(p) => UserStepOk(cfg, st, k, p, c);
      case OfClient(p) => ClientStepOk(cfg, st, k, p, c);
      case OfAuth(p) => AuthStepOk(cfg, st, k, p, c);
      case OfInit(p) => InitStepOk(cfg, st, k, p, c);
      case OfDataPlane(p) => DataPlaneStepOk(cfg, st, k, p, c);
    }
  }

  // ---- Every label, every run -------------------------------------------------------

  lemma EnvironmentOk(cfg: Config, st: Stores, l: Label)
    requires LogsOk(cfg, st)
    ensures LogsOk(cfg, Environment(st, l))
  {
    hide LogsOk, Grows, LogsGrow;
    var st' := Environment(st, l);
    match l {
      case Create(k, o) => CreateOk(cfg, st, k, o);
      case Edit(k, o) => EditOk(cfg, st, k, o);
      case Remove(k) => RemovalOk(cfg, st, st', k);
      case _ => SameLogsOk(cfg, st, st');
    }
  }

  lemma CreateOk(cfg: Config, st: Stores, k: Key, o: Resource)
    requires LogsOk(cfg, st)
    ensures LogsOk(cfg, Environment(st, Create(k, o)))
  {
    hide LogsOk, Grows, LogsGrow;
    var st' := Environment(st, Create(k, o));
    if st'.log != st.log {
      AppendOk(cfg, st, st', k, Some(o.Fresh()));
    } else {
      SameLogsOk(cfg, st, st');
    }
  }

  lemma EditOk(cfg: Config, st: Stores, k: Key, o: Resource)
    requires LogsOk(cfg, st)
    ensures LogsOk(cfg, Environment(st, Edit(k, o)))
  {
    hide LogsOk, Grows, LogsGrow;
    var st' := Environment(st, Edit(k, o));
    if st'.log != st.log {
      KindAt(cfg, st, k, Version(st.log, k));
      AppendOk(cfg, st, st', k, Some(o.EditOf(Latest(st.log, k).value)));
    } else {
      SameLogsOk(cfg, st, st');
    }
  }

  lemma CallInv(w: World, k: Key, c: Choice)
    requires Inv(w) && k in w.passes
    ensures Inv(Next(w, Call(k, c)))
  {
    hide LogsOk, PassOk, PassStep, TenantsInjective, Grows;
    PassStepOk(w.cfg, w.st, k, w.passes[k], c);
    var w' := Next(w, Call(k, c));
    forall j | j in w'.passes ensures PassOk(w'.cfg, w'.st, j, w'.passes[j]) {
      if j != k {
        PassStable(w.cfg, w.st, w'.st, j, w.passes[j]);
      }
    }
  }

  /** Every label keeps the invariant. */
  lemma NextInv(w: World, l: Label)
    requires Inv(w)
    ensures Inv(Next(w, l))
  {
    hide LogsOk, PassOk, PassStep, TenantsInjective, Grows, Environment;
    var w' := Next(w, l);
    if l.Call? && l.k in w.passes {
      CallInv(w, l.k, l.c);
    } else {
      OtherInv(w, l);
    }
  }

  lemma OtherInv(w: World, l: Label)
    requires Inv(w) && !(l.Call? && l.k in w.passes)
    ensures Inv(Next(w, l))
  {
    hide LogsOk, PassOk, PassStep, Grows;
    var w' := Next(w, l);
    assert LogsOk(w'.cfg, w'.st) by {
      if l.Deliver? || l.Timer? || l.Start? || l.Abort? || l.Restart? || l.Call? {
        SameLogsOk(w.cfg, w.st, w'.st);
      } else {
        EnvironmentOk(w.cfg, w.st, l);
      }
    }
    forall j | j in w'.passes ensures PassOk(w'.cfg, w'.st, j, w'.passes[j]) {
      if l.Start? && j == l.k && j !in w.passes {
        BeginOk(w'.cfg, w'.st, j);
      } else {
        PassStable(w.cfg, w.st, w'.st, j, w.passes[j]);
      }
    }
  }

  lemma BeginOk(cfg: Config, st: Stores, k: Key)
    ensures PassOk(cfg, st, k, BeginOf(k.kind))
  {
  }

  lemma InitialInv(w: World)
    requires Initial(w)
    ensures Inv(w)
  {
    hide LinkOk;
    forall k ensures LogOk(w.cfg, w.st, k) {
      assert LogOf(w.st.log, k) == [None];
    }
  }

  lemma {:induction false} ExecInv(w: World, ls: seq<Label>)
    requires Inv(w)
    ensures Inv(Exec(w, ls))
    decreases |ls|
  {
    hide Inv, Next;
    if ls != [] {
      NextInv(w, ls[0]);
      ExecInv(Next(w, ls[0]), ls[1..]);
    }
  }

  /** In every reachable world the invariant holds. */
  lemma Reachable(w: World, ls: seq<Label>)
    requires Initial(w)
    ensures Inv(Exec(w, ls))
  {
    InitialInv(w);
    ExecInv(w, ls);
  }

  // ---- Who writes versions ----------------------------------------------------------

  ghost predicate SameSpec(a: Resource, b: Resource) {
    match a
    case StreamR(x) => b.StreamR? && b.stream.spec == x.spec
    case TenantR(x) => b.TenantR? && b.tenant.spec == x.spec
    case UserR(x) => b.UserR? && b.user.spec == x.spec
    case ClientR(x) => b.ClientR? && b.client.spec == x.spec
    case AuthR(x) => b.AuthR? && b.auth.spec == x.spec
    case InitR(x) => b.InitR? && b.init.spec == x.spec
    case DataPlaneR(x) => b.DataPlaneR? && b.plane.spec == x.spec
  }

  /** At most one version is new: the removal of some user, or a version of `k` with the
      spec of its latest version. */
  ghost predicate OneVersion(st: Stores, st': Stores, k: Key, j: Key, v: Option<Resource>) {
    || st'.log == st.log
    || (st'.log == Commit(st.log, j, v)
        && (v.None? ==> j.kind == UserKind)
        && (v.Some? ==> j == k && Latest(st.log, k).Some? && SameSpec(Latest(st.log, k).value, v.value)))
  }

  lemma StreamVersions(cfg: Config, st: Stores, k: Key, p: S.StreamPass, c: Choice)
      returns (j: Key, v: Option<Resource>)
    requires StreamPassOk(cfg, st, k, p)
    ensures OneVersion(st, S.Step(cfg, st, k, p, c).0, k, j, v)
  {
    hide S.Step, S.PassOk, Grows, SameSpec;
    j, v := k, None;
    S.StepWrites(cfg, st, k, p, c);
    if p.AtReady? || p.AtReport? {
      v := Some(StreamR(p.s));
      StreamSpecKept(cfg, st, k, p);
    }
  }

  lemma TenantVersions(cfg: Config, st: Stores, k: Key, p: T.TenantPass, c: Choice)
      returns (j: Key, v: Option<Resource>)
    requires TenantPassOk(st, k, p)
    ensures OneVersion(st, T.Step(cfg, st, k, p, c).0, k, j, v)
  {
    hide T.Step, T.PassOk, Grows, SameSpec;
    j, v := k, None;
    T.StepWrites(cfg, st, k, p, c);
    if p.AtWrite? {
      v := Some(TenantR(p.t));
      TenantSpecKept(st, k, p);
    }
  }

  lemma UserVersions(cfg: Config, st: Stores, k: Key, p: U.UserPass, c: Choice) returns (j: Key, v: Option<Resource>)
    requires UserPassOk(cfg, st, k, p)
    ensures OneVersion(st, U.Step(cfg, st, k, p, c).0, k, j, v)
  {
    hide U.Step, U.PassOk, Grows, SameSpec;
    j, v := k, None;
    U.StepWrites(cfg, st, k, p, c);
    if p.AtWrite? {
      v := Some(UserR(p.u));
      UserSpecKept(cfg, st, k, p);
    }
  }

  lemma ClientVersions(cfg: Config, st: Stores, k: Key, p: C.ClientPass, c: Choice)
      returns (j: Key, v: Option<Resource>)
    requires ClientPassOk(cfg, st, k, p)
    ensures OneVersion(st, C.Step(cfg, st, k, p, c).0, k, j, v)
  {
    hide C.Step, C.PassOk, Grows, SameSpec;
    j, v := k, None;
    C.StepWrites(cfg, st, k, p, c);
    if p.AtWrite? {
      v := Some(ClientR(p.c));
      ClientSpecKept(cfg, st, k, p);
    }
  }

  lemma AuthVersions(cfg: Config, st: Stores, k: Key, p: A.AuthPass, c: Choice) returns (j: Key, v: Option<Resource>)
    requires AuthPassOk(st, k, p)
    ensures OneVersion(st, A.Step(st, k, p, c).0, k, j, v)
  {
    hide A.Step, A.PassOk, Grows, SameSpec;
    j, v := k, None;
    A.StepWrites(st, k, p, c);
    if p.AtWrite? {
      v := Some(AuthR(A.Activated(p.a)));
      AuthSpecKept(st, k, p);
    } else if p.AtDelete? && p.done < |p.listed| {
      j := p.listed[p.done].key;
      ListedAreUsers(st, k, p);
    }
  }

  lemma ListedAreUsers(st: Stores, k: Key, p: A.AuthPass)
    requires AuthPassOk(st, k, p) && p.AtDelete? && p.done < |p.listed|
    ensures p.listed[p.done].key.kind == UserKind
  {
    assert p.listed[p.done] in p.listed;
  }

  lemma InitVersions(cfg: Config, st: Stores, k: Key, p: I.InitPass, c: Choice) returns (j: Key, v: Option<Resource>)
    requires InitPassOk(st, k, p)
    ensures OneVersion(st, I.Step(st, k, p, c).0, k, j, v)
  {
    hide I.Step, I.PassOk, Grows, SameSpec;
    j, v := k, None;
    I.StepWrites(st, k, p, c);
    if p.AtFailure? || p.AtWaiting? || p.AtReady? {
      v := Some(InitR(p.i));
      InitSpecKept(st, k, p);
    }
  }

  lemma DataPlaneVersions(cfg: Config, st: Stores, k: Key, p: D.DataPlanePass, c: Choice)
      returns (j: Key, v: Option<Resource>)
    requires DataPlanePassOk(st, k, p)
    ensures OneVersion(st, D.Step(st, k, p, c).0, k, j, v)
  {
    hide D.Step, D.PassOk, Grows, SameSpec;
    j, v := k, None;
    D.StepWrites(st, k, p, c);
    if p.AtWrite? {
      v := Some(DataPlaneR(p.d));
      DataPlaneSpecKept(st, k, p);
    }
  }

  lemma CallWrites(w: World, k: Key, c: Choice) returns (j: Key, v: Option<Resource>)
    requires Inv(w) && k in w.passes
    ensures OneVersion(w.st, Next(w, Call(k, c)).st, k, j, v)
  {
    hide LogsOk, TenantsInjective, Grows, OneVersion, S.Step, T.Step, U.Step, C.Step, A.Step, I.Step, D.Step;
    hide StreamPassOk, TenantPassOk, UserPassOk, ClientPassOk, AuthPassOk, InitPassOk, DataPlanePassOk;
    assert PassOk(w.cfg, w.st, k, w.passes[k]);
    match w.passes[k] {
      case OfStream(p) => j, v := StreamVersions(w.cfg, w.st, k, p, c);
      case OfTenant(p) => j, v := TenantVersions(w.cfg, w.st, k, p, c);
      case OfUser(p) => j, v := UserVersions(w.cfg, w.st, k, p, c);
      case OfClient(p) => j, v := ClientVersions(w.cfg, w.st, k, p, c);
      case OfAuth(p) => j, v := AuthVersions(w.cfg, w.st, k, p, c);
      case OfInit(p) => j, v := InitVersions(w.cfg, w.st, k, p, c);
      case OfDataPlane(p) => j, v := DataPlaneVersions(w.cfg, w.st, k, p, c);
    }
  }

  lemma StreamSpecKept(cfg: Config, st: Stores, k: Key, p: S.StreamPass)
    requires StreamPassOk(cfg, st, k, p) && !p.Begin?
    ensures SameSpec(ReadOf(st, k, p.ver).value, StreamR(p.s))
  {
    hide S.Provisioned, S.StatusOk;
  }

  lemma TenantSpecKept(st: Stores, k: Key, p: T.TenantPass)
    requires TenantPassOk(st, k, p) && !p.Begin?
    ensures SameSpec(ReadOf(st, k, p.ver).value, TenantR(p.t))
  {
  }

  lemma UserSpecKept(cfg: Config, st: Stores, k: Key, p: U.UserPass)
    requires UserPassOk(cfg, st, k, p) && !p.Begin?
    ensures SameSpec(ReadOf(st, k, p.ver).value, UserR(p.u))
  {
  }

  lemma ClientSpecKept(cfg: Config, st: Stores, k: Key, p: C.ClientPass)
    requires ClientPassOk(cfg, st, k, p) && !p.Begin?
    ensures SameSpec(ReadOf(st, k, p.ver).value, ClientR(p.c))
  {
  }

  lemma AuthSpecKept(st: Stores, k: Key, p: A.AuthPass)
    requires AuthPassOk(st, k, p) && !p.Begin?
    ensures SameSpec(ReadOf(st, k, p.ver).value, AuthR(A.Activated(p.a)))
  {
  }

  lemma InitSpecKept(st: Stores, k: Key, p: I.InitPass)
    requires InitPassOk(st, k, p) && !p.Begin?
    ensures SameSpec(ReadOf(st, k, p.ver).value, InitR(p.i))
  {
    hide I.Verified, I.StatusOk, I.UrlFor, I.GatewaysSeen;
  }

  lemma DataPlaneSpecKept(st: Stores, k: Key, p: D.DataPlanePass)
    requires DataPlanePassOk(st, k, p) && !p.Begin?
    ensures SameSpec(ReadOf(st, k, p.ver).value, DataPlaneR(p.d))
  {
    hide D.ConditionsOk, D.Consistent;
  }
}
