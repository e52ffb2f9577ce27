/** internal/infra/infra.go, `EnsureClient`: an insert and, when the row is already there, a
    read. Callers interleave freely, and yet each call acts like one atomic create-or-get. */
module CreateOrGet {
  import opened Base
  import opened Stores
  import opened Resources
  import C = ClientController

  datatype Request = Request(key: RowKey, secret: string, streamID: Option<string>)

  // ---- Insert, then read ---------------------------------------------------------------

  datatype Call =
    | Inserting(req: Request)
    | Fetching(req: Request)   // the insert said "already exists"
    | Returned(req: Request, result: Option<ClientRow>)

  datatype System = System(st: Stores, calls: map<nat, Call>)

  /** A caller asks, or its call to the database is answered. */
  datatype Event = Invoke(i: nat, req: Request) | Advance(i: nat, c: Choice)

  function Advanced(st: Stores, call: Call, c: Choice): (Stores, Call) {
    match call
    case Inserting(req) =>
      var (st', o) := InsertClient(st, req.key, req.secret, req.streamID, c);
      (match o
       case Inserted(row) => (st', Returned(req, Some(row)))
       case AlreadyExists => (st', Fetching(req))
       case InsertError => (st', Returned(req, None)))
    case Fetching(req) => (st, Returned(req, FetchClient(st, req.key, c)))
    case Returned(_, _) => (st, call)
  }

  function Step(s: System, e: Event): System {
    match e
    case Invoke(i, req) =>
      if i in s.calls && !s.calls[i].Returned? then s else s.(calls := s.calls[i := Inserting(req)])
    case Advance(i, c) =>
      if i !in s.calls then s else
      var (st', call) := Advanced(s.st, s.calls[i], c);
      System(st', s.calls[i := call])
  }

  function Exec(s: System, es: seq<Event>): System
    decreases |es|
  {
    if es == [] then s else Exec(Step(s, es[0]), es[1..])
  }

  // ---- One atomic create-or-get ---------------------------------------------------------

  datatype Atomic = Pending(req: Request) | Answered(req: Request, result: Option<ClientRow>)

  datatype Spec = Spec(rows: map<RowKey, ClientRow>, calls: map<nat, Atomic>)

  /** A caller asks, or its whole call happens: it takes effect or not, and if it does the
      caller may or may not be told. */
  datatype Action = Ask(i: nat, req: Request) | Happen(i: nat, id: string, takes: bool, told: bool)

  function CreateOrGet(rows: map<RowKey, ClientRow>, req: Request, id: string): map<RowKey, ClientRow> {
    if req.key in rows then rows else rows[req.key := ClientRow(id, req.secret, req.streamID)]
  }

  function Act(a: Spec, e: Action): Spec {
    match e
    case Ask(i, req) =>
      if i in a.calls && a.calls[i].Pending? then a else a.(calls := a.calls[i := Pending(req)])
    case Happen(i, id, takes, told) =>
      if i !in a.calls || !a.calls[i].Pending? then a else
      var req := a.calls[i].req;
      if !takes then a.(calls := a.calls[i := Answered(req, None)]) else
      var rows := CreateOrGet(a.rows, req, id);
      Spec(rows, a.calls[i := Answered(req, if told then Some(rows[req.key]) else None)])
  }

  function Acts(a: Spec, es: seq<Action>): Spec
    decreases |es|
  {
    if es == [] then a else Acts(Act(a, es[0]), es[1..])
  }

  // ---- The first refines the second -------------------------------------------------------

  function Abstract(call: Call): Atomic {
    match call
    case Inserting(req) => Pending(req)
    case Fetching(req) => Pending(req)
    case Returned(req, result) => Answered(req, result)
  }

  function Abs(s: System): Spec {
    Spec(s.st.clientRows, map i | i in s.calls :: Abstract(s.calls[i]))
  }

  /** Whoever was told "already exists" will find the row: rows are never removed. */
  ghost predicate Ok(s: System) {
    forall i :: i in s.calls && s.calls[i].Fetching? ==> s.calls[i].req.key in s.st.clientRows
  }

  /** The atomic action that a step amounts to, at the moment the call takes effect. */
  function ActionOf(s: System, e: Event): seq<Action> {
    match e
    case Invoke(i, req) => [Ask(i, req)]
    case Advance(i, c) =>
      if i !in s.calls then [] else
      match s.calls[i]
      case Inserting(req) =>
        if c.fault == Broken then [Happen(i, c.id, false, false)]
        else if req.key in s.st.clientRows then (if c.fault == Fine then [] else [Happen(i, c.id, true, false)])
        else [Happen(i, c.id, FreshClient(s.st, c.id), c.fault == Fine)]
      case Fetching(_) => [Happen(i, c.id, c.fault == Fine, true)]
      case Returned(_, _) => []
  }

  function ActionsOf(s: System, es: seq<Event>): seq<Action>
    decreases |es|
  {
    if es == [] then [] else ActionOf(s, es[0]) + ActionsOf(Step(s, es[0]), es[1..])
  }

  lemma InsertKeepsOk(s: System, i: nat, c: Choice)
    requires Ok(s) && i in s.calls && s.calls[i].Inserting?
    ensures Ok(Step(s, Advance(i, c)))
  {
    hide Grows, LogsGrow, FreshClient;
  }

  lemma InsertSimulates(s: System, i: nat, c: Choice)
    requires i in s.calls && s.calls[i].Inserting?
    ensures Abs(Step(s, Advance(i, c))) == Acts(Abs(s), ActionOf(s, Advance(i, c)))
  {
    hide Grows, LogsGrow, Submap, FreshClient;
    var a := Abs(s);
    var s' := Step(s, Advance(i, c));
    var acts := ActionOf(s, Advance(i, c));
    assert acts != [] ==> |acts| == 1 && acts[1..] == [];
    var req := s.calls[i].req;
    assert a.calls[i] == Pending(req);
    if c.fault == Broken || req.key in s.st.clientRows || !FreshClient(s.st, c.id) {
      assert s'.st.clientRows == s.st.clientRows;
      assert Abs(s').calls == Acts(a, acts).calls;
    } else {
      assert Abs(s').calls == Acts(a, acts).calls;
    }
  }

  lemma FetchSimulates(s: System, i: nat, c: Choice)
    requires Ok(s) && i in s.calls && !s.calls[i].Inserting?
    ensures Ok(Step(s, Advance(i, c)))
    ensures Abs(Step(s, Advance(i, c))) == Acts(Abs(s), ActionOf(s, Advance(i, c)))
  {
    hide InsertClient;
    var a := Abs(s);
    var acts := ActionOf(s, Advance(i, c));
    assert acts != [] ==> |acts| == 1 && acts[1..] == [];
    assert a.calls[i] == Abstract(s.calls[i]);
    assert Abs(Step(s, Advance(i, c))).calls == Acts(a, acts).calls;
  }

  lemma StepSimulates(s: System, e: Event)
    requires Ok(s)
    ensures Ok(Step(s, e)) && Abs(Step(s, e)) == Acts(Abs(s), ActionOf(s, e))
  {
    hide Advanced, Grows;
    match e {
      case Advance(i, c) =>
        if i in s.calls {
          if s.calls[i].Inserting? {
            InsertKeepsOk(s, i, c);
            InsertSimulates(s, i, c);
          } else {
            FetchSimulates(s, i, c);
          }
        }
      case Invoke(i, req) =>
        assert [Ask(i, req)][1..] == [];
        assert Abs(Step(s, e)).calls == Act(Abs(s), Ask(i, req)).calls;
    }
  }

  lemma {:induction false} ActsConcat(a: Spec, xs: seq<Action>, ys: seq<Action>)
    ensures Acts(a, xs + ys) == Acts(Acts(a, xs), ys)
    decreases |xs|
  {
    hide Act;
    if xs == [] {
      assert xs + ys == ys;
    } else {
      assert (xs + ys)[1..] == xs[1..] + ys;
      ActsConcat(Act(a, xs[0]), xs[1..], ys);
    }
  }

  /** Every interleaving of inserts and reads ends where a sequence of atomic create-or-gets
      ends: with the same rows, and with the same answer for every caller. */
  lemma {:induction false} Refines(s: System, es: seq<Event>)
    requires Ok(s)
    ensures Ok(Exec(s, es)) && Abs(Exec(s, es)) == Acts(Abs(s), ActionsOf(s, es))
    decreases |es|
  {
    hide Step, ActionOf, Abs, Act, Ok;
    if es != [] {
      StepSimulates(s, es[0]);
      Refines(Step(s, es[0]), es[1..]);
      ActsConcat(Abs(s), ActionOf(s, es[0]), ActionsOf(Step(s, es[0]), es[1..]));
    }
  }

  // ---- What callers may rely on ------------------------------------------------------------

  /** Every successful answer is the row that is stored. */
  ghost predicate AnswersStored(a: Spec) {
    forall i :: i in a.calls && a.calls[i].Answered? && a.calls[i].result.Some?
      ==> a.calls[i].req.key in a.rows && a.rows[a.calls[i].req.key] == a.calls[i].result.value
  }

  lemma {:induction false} ActsKeep(a: Spec, es: seq<Action>)
    requires AnswersStored(a)
    ensures Submap(a.rows, Acts(a, es).rows) && AnswersStored(Acts(a, es))
    decreases |es|
  {
    if es != [] {
      ActsKeep(Act(a, es[0]), es[1..]);
    }
  }

  /** The secret of the first call for `key` that takes effect. */
  function FirstSecret(a: Spec, es: seq<Action>, key: RowKey): Option<string>
    decreases |es|
  {
    if es == [] then None
    else if es[0].Happen? && es[0].takes && es[0].i in a.calls
            && a.calls[es[0].i].Pending? && a.calls[es[0].i].req.key == key then
      Some(a.calls[es[0].i].req.secret)
    else FirstSecret(Act(a, es[0]), es[1..], key)
  }

  /** A key without a row gets one exactly when a call for it takes effect, and the row has
      the secret of the first that does. */
  lemma {:induction false} FirstWriterWins(a: Spec, es: seq<Action>, key: RowKey)
    requires key !in a.rows && AnswersStored(a)
    ensures key in Acts(a, es).rows <==> FirstSecret(a, es, key).Some?
    ensures key in Acts(a, es).rows ==> Acts(a, es).rows[key].secret == FirstSecret(a, es, key).value
    decreases |es|
  {
    if es != [] {
      if key in Act(a, es[0]).rows {
        ActsKeep(Act(a, es[0]), es[1..]);
      } else {
        FirstWriterWins(Act(a, es[0]), es[1..], key);
      }
    }
  }

  ghost predicate DistinctIds(rows: map<RowKey, ClientRow>) {
    forall k, j :: k in rows && j in rows && rows[k].id == rows[j].id ==> k == j
  }

  lemma InsertKeepsDistinct(st: Stores, key: RowKey, secret: string, streamID: Option<string>, c: Choice)
    requires DistinctIds(st.clientRows)
    ensures DistinctIds(InsertClient(st, key, secret, streamID, c).0.clientRows)
  {
    hide Grows;
    var rows := InsertClient(st, key, secret, streamID, c).0.clientRows;
    if rows != st.clientRows {
      assert FreshClient(st, c.id) && rows == st.clientRows[key := ClientRow(c.id, secret, streamID)];
    }
  }

  lemma {:induction false} ExecDistinctIds(s: System, es: seq<Event>)
    requires DistinctIds(s.st.clientRows)
    ensures DistinctIds(Exec(s, es).st.clientRows)
    decreases |es|
  {
    hide Grows, DistinctIds, InsertClient;
    if es != [] {
      if es[0].Advance? && es[0].i in s.calls && s.calls[es[0].i].Inserting? {
        var req := s.calls[es[0].i].req;
        InsertKeepsDistinct(s.st, req.key, req.secret, req.streamID, es[0].c);
      }
      ExecDistinctIds(Step(s, es[0]), es[1..]);
    }
  }

  /** Started idle, after any interleaving: rows that existed are as they were, a new row has
      the secret of the first call that took effect, IDs stay distinct, and every call that
      succeeded returned the row that is stored now. */
  lemma EnsureClientIsAtomic(s: System, es: seq<Event>, key: RowKey, i: nat)
    requires s.calls == map[] && DistinctIds(s.st.clientRows)
    ensures var rows := Exec(s, es).st.clientRows;
      && Submap(s.st.clientRows, rows) && DistinctIds(rows)
      && (key !in s.st.clientRows ==>
           var first := FirstSecret(Abs(s), ActionsOf(s, es), key);
           (key in rows <==> first.Some?) && (key in rows ==> rows[key].secret == first.value))
    ensures var v := Exec(s, es);
      (i in v.calls && v.calls[i].Returned? && v.calls[i].result.Some? ==>
         && v.calls[i].req.key in v.st.clientRows
         && v.calls[i].result.value == v.st.clientRows[v.calls[i].req.key])
  {
    hide Step, ActionOf, Act, FirstSecret, DistinctIds, Submap;
    Refines(s, es);
    ExecDistinctIds(s, es);
    ActsKeep(Abs(s), ActionsOf(s, es));
    if key !in s.st.clientRows {
      FirstWriterWins(Abs(s), ActionsOf(s, es), key);
    }
    var v := Exec(s, es);
    if i in v.calls && v.calls[i].Returned? {
      assert Abs(v).calls[i] == Answered(v.calls[i].req, v.calls[i].result);
    }
  }

  /** The database calls of a client pass are such calls. */
  function CallOf(p: C.ClientPass): Option<Call> {
    match p
    case AtInsert(_, x, secret) => Some(Inserting(Request(C.RowKeyOf(x.spec), secret, C.StreamOf(x.spec))))
    case AtFetch(_, x, secret) => Some(Fetching(Request(C.RowKeyOf(x.spec), secret, C.StreamOf(x.spec))))
    case _ => None
  }

  /** A pass takes from the call the row it returned, fails with it, or goes on to the read. */
  lemma PassCallsEnsureClient(cfg: Config, st: Stores, k: Key, p: C.ClientPass, c: Choice)
    requires p.AtInsert? || p.AtFetch?
    ensures var (st', o) := C.Step(cfg, st, k, p, c);
      var (st'', call) := Advanced(st, CallOf(p).value, c);
      && st' == st''
      && (match call
          case Returned(_, Some(row)) => o == C.Go(C.AtSecret(p.ver, C.MadeReady(p.c, row.id), p.secret))
          case Returned(_, None) => o == C.Failed
          case _ => o.Go? && CallOf(o.pass) == Some(call))
  {
    hide Grows;
  }
}
