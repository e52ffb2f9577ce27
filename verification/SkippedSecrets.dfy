/** A client pass that cannot read its Secret, for another reason than not-found, skips it and
    writes its status all the same. So a client may come to rest without a Secret. */
module SkippedSecrets {
  import opened Base
  import opened Resources
  import opened Stores
  import opened Machine
  import opened NoLostWork
  import opened Convergence
  import opened WholePasses
  import C = ClientController

  predicate NoSecret(st: Stores, k: Key) {
    Latest(st.secrets, ClientSecretName(k)).None?
  }

  /** All else working, a pass that finds no Secret creates it exactly if its read worked; it
      is done in either case. */
  lemma ReadDecides(cfg: Config, st: Stores, k: Key, x: FrkrClient, secret: string, ch: nat -> Choice, n: nat)
    requires Latest(st.log, k).Some? && NoSecret(st, k) && ch(n).at >= Version(st.secrets, ClientSecretName(k))
    requires ch(n + 1).fault == Fine && ch(n + 2).fault == Fine
    ensures var r := C.Run(cfg, st, k, C.AtSecret(Version(st.log, k), x, secret), ch, n);
      r.1 == C.Done && (NoSecret(r.0, k) <==> ch(n).fault != Fine)
  {
    hide Grows, LogsGrow, C.SecretOf, ClientSecretName;
    var ver := Version(st.log, k);
    if ch(n).fault == Fine {
      assert C.Step(cfg, st, k, C.AtSecret(ver, x, secret), ch(n)) == (st, C.Go(C.AtCreate(ver, x, secret)));
      var (st1, o) := C.Step(cfg, st, k, C.AtCreate(ver, x, secret), ch(n + 1));
      assert o == C.Go(C.AtWrite(ver, x)) && st1.log == st.log;
      assert C.Run(cfg, st1, k, C.AtWrite(ver, x), ch, n + 2)
          == C.Run(cfg, st, k, C.AtCreate(ver, x, secret), ch, n + 1);
    } else {
      assert C.Step(cfg, st, k, C.AtSecret(ver, x, secret), ch(n)) == (st, C.Go(C.AtWrite(ver, x)));
    }
  }

  // ---- Passes that skip the Secret --------------------------------------------------------

  const BROKEN: Choice := Choice(Broken, "", "", 0, 0, [], false, false)

  /** Calls that work, the `skip`-th apart. */
  function Skipping(id: string, skip: nat): nat -> Choice {
    (n: nat) => if n == skip then BROKEN else BROKEN.(fault := Fine, id := id)
  }

  lemma SkippedWrite(cfg: Config, st: Stores, k: Key, x: FrkrClient, secret: string, ch: nat -> Choice, n: nat)
    requires Latest(st.log, k).Some? && ch(n) == BROKEN && ch(n + 1).fault == Fine
    ensures C.Run(cfg, st, k, C.AtSecret(Version(st.log, k), x, secret), ch, n)
            == (st.(log := Commit(st.log, k, Some(ClientR(x)))), C.Done)
  {
    hide Grows, LogsGrow, Commit;
    var ver := Version(st.log, k);
    assert C.Step(cfg, st, k, C.AtSecret(ver, x, secret), ch(n)) == (st, C.Go(C.AtWrite(ver, x)));
  }

  /** A pass over a registered client changes nothing, whatever its Secret holds. */
  lemma RegisteredPass(cfg: Config, st: Stores, k: Key, x: FrkrClient, id: string)
    requires Latest(st.log, k) == Some(ClientR(x)) && Seen(st, k) == Version(st.log, k)
    requires x.spec.secret != "" && ClientRegistered(cfg, st, x)
    ensures C.Run(cfg, st, k, C.Begin, Skipping(id, if cfg.database then 3 else 1), 0) == (st, C.Done)
  {
    hide Grows, LogsGrow;
    var ver, secret := Version(st.log, k), x.spec.secret;
    var ch := Skipping(id, if cfg.database then 3 else 1);
    assert C.Step(cfg, st, k, C.Begin, ch(0)) == (st, C.Go(C.Chosen(cfg, ver, x, secret)));
    if cfg.database {
      assert C.MadeReady(x, st.clientRows[C.RowKeyOf(x.spec)].id) == x;
      assert C.Step(cfg, st, k, C.AtInsert(ver, x, secret), ch(1)) == (st, C.Go(C.AtFetch(ver, x, secret)));
      assert C.Step(cfg, st, k, C.AtFetch(ver, x, secret), ch(2)) == (st, C.Go(C.AtSecret(ver, x, secret)));
      SkippedWrite(cfg, st, k, x, secret, ch, 3);
      assert C.Run(cfg, st, k, C.AtFetch(ver, x, secret), ch, 2) == (st, C.Done);
    } else {
      SkippedWrite(cfg, st, k, x, secret, ch, 1);
    }
  }

  /** The first pass registers the client. */
  lemma FirstPass(cfg: Config, st: Stores, k: Key, x: FrkrClient, id: string)
    requires Latest(st.log, k) == Some(ClientR(x)) && Seen(st, k) == Version(st.log, k)
    requires x.spec.secret != "" && cfg.database && C.RowKeyOf(x.spec) !in st.clientRows && FreshClient(st, id)
    ensures C.Run(cfg, st, k, C.Begin, Skipping(id, 2), 0) == (Registering(st, k, x, id), C.Done)
  {
    hide Grows, LogsGrow, Commit;
    var ver, secret, ch := Version(st.log, k), x.spec.secret, Skipping(id, 2);
    var st1 := WithRow(st, x, id);
    assert C.Step(cfg, st, k, C.Begin, ch(0)) == (st, C.Go(C.AtInsert(ver, x, secret)));
    assert C.Step(cfg, st, k, C.AtInsert(ver, x, secret), ch(1))
        == (st1, C.Go(C.AtSecret(ver, C.MadeReady(x, id), secret)));
    SkippedWrite(cfg, st1, k, C.MadeReady(x, id), secret, ch, 2);
    assert C.Run(cfg, st, k, C.AtInsert(ver, x, secret), ch, 1) == (Registering(st, k, x, id), C.Done);
  }

  function WithRow(st: Stores, x: FrkrClient, id: string): Stores {
    st.(clientRows := st.clientRows[C.RowKeyOf(x.spec) := ClientRow(id, x.spec.secret, C.StreamOf(x.spec))])
  }

  function Registering(st: Stores, k: Key, x: FrkrClient, id: string): Stores {
    WithRow(st, x, id).(log := Commit(st.log, k, Some(ClientR(C.MadeReady(x, id)))))
  }

  // ---- A reachable world ------------------------------------------------------------------

  /** The latest version of `k` is `x`, of which the cache lacks `behind`, and nothing but
      perhaps a pass that begins is under way. */
  ghost predicate Holds(w: World, k: Key, x: FrkrClient, behind: nat, begun: bool) {
    && k.kind == ClientKind && Latest(w.st.log, k) == Some(ClientR(x))
    && (if k in w.st.seen then w.st.seen[k] else 0) + behind == Version(w.st.log, k)
    && k !in w.queue && k !in w.delayed
    && (if begun then k in w.passes && w.passes[k] == OfClient(C.Begin) else k !in w.passes)
  }

  lemma Created(w: World, k: Key, x: FrkrClient)
    requires Initial(w) && k.kind == ClientKind && x.status == ClientStatus("", "", false, [])
    ensures var v := Next(w, Create(k, ClientR(x)));
      Holds(v, k, x, 1, false) && v.st == w.st.(log := v.st.log)
  {
    hide Grows, TenantsInjective, PassStep;
  }

  lemma Begun(w: World, k: Key, x: FrkrClient)
    requires Holds(w, k, x, 1, false)
    ensures var v := Next(Next(w, Deliver(k)), Start(k));
      Holds(v, k, x, 0, true) && v.st == w.st.(seen := v.st.seen)
  {
    hide Grows, TenantsInjective, PassStep;
  }

  /** A whole pass that is done, as a run. */
  lemma Passes(w: World, k: Key, x: FrkrClient, id: string, skip: nat, st: Stores) returns (ls: seq<Label>)
    requires Holds(w, k, x, 0, true) && C.Run(w.cfg, w.st, k, C.Begin, Skipping(id, skip), 0) == (st, C.Done)
    ensures Exec(w, ls) == w.(st := st, passes := w.passes - {k})
  {
    hide Next, C.Run, Grows;
    var m := ClientRunIsCalls(w, k, Skipping(id, skip), 0);
    ls := Calls(k, Skipping(id, skip), 0, m);
  }

  /** No version of the Secret was ever written. */
  ghost predicate Bare(st: Stores, k: Key) {
    LogOf(st.secrets, ClientSecretName(k)) == [None]
  }

  /** A registered client whose pass has begun comes to rest without a Secret. */
  lemma Rests(w: World, k: Key, x: FrkrClient, id: string) returns (ls: seq<Label>)
    requires Holds(w, k, x, 0, true) && x.spec.secret != "" && ClientRegistered(w.cfg, w.st, x) && Bare(w.st, k)
    ensures var v := Exec(w, ls); Holds(v, k, x, 0, false) && ClientRegistered(v.cfg, v.st, x) && Bare(v.st, k)
  {
    hide Next, C.Run, Grows, ClientRegistered;
    RegisteredPass(w.cfg, w.st, k, x, id);
    ls := Passes(w, k, x, id, if w.cfg.database then 3 else 1, w.st);
  }

  lemma Registers(w: World, k: Key, x: FrkrClient, id: string) returns (ls: seq<Label>)
    requires Holds(w, k, x, 0, true) && x.spec.secret != "" && w.cfg.database && Bare(w.st, k)
    requires C.RowKeyOf(x.spec) !in w.st.clientRows && FreshClient(w.st, id) && x.status.phase == ""
    ensures var v := Exec(w, ls);
      Holds(v, k, C.MadeReady(x, id), 1, false) && ClientRegistered(v.cfg, v.st, C.MadeReady(x, id)) && Bare(v.st, k)
  {
    hide Next, C.Run, Grows;
    FirstPass(w.cfg, w.st, k, x, id);
    ls := Passes(w, k, x, id, 2, Registering(w.st, k, x, id));
  }

  /** From any fresh start, for any spec with a secret: a run that leaves the client at its
      goal, idle, delivered, and without a Secret. */
  lemma RestsWithoutSecret(w: World, k: Key, spec: ClientSpec, id: string) returns (ls: seq<Label>)
    requires Initial(w) && k.kind == ClientKind && spec.secret != "" && Bare(w.st, k)
    requires w.cfg.database ==> C.RowKeyOf(spec) !in w.st.clientRows && FreshClient(w.st, id)
    ensures var v := Exec(w, ls);
      && Latest(v.st.log, k).Some? && Latest(v.st.log, k).value.ClientR?
          && Latest(v.st.log, k).value.client.spec == spec
      && NoLostWork.Settled(v.cfg, v.st, k) && Idle(v, k) && Bare(v.st, k)
  {
    hide Next, Grows, Initial;
    var x := FrkrClient(spec, ClientStatus("", "", false, []));
    Created(w, k, x);
    var v1 := Next(w, Create(k, ClientR(x)));
    Begun(v1, k, x);
    var v2 := Next(Next(v1, Deliver(k)), Start(k));
    ls := [Create(k, ClientR(x)), Deliver(k), Start(k)];
    assert Exec(w, ls) == v2 by { Three(w, Create(k, ClientR(x)), Deliver(k), Start(k)); }
    var ms;
    if w.cfg.database {
      ms := Registers(v2, k, x, id);
      ExecConcat(w, ls, ms);
      var v3, y := Exec(v2, ms), C.MadeReady(x, id);
      Begun(v3, k, y);
      var v4 := Next(Next(v3, Deliver(k)), Start(k));
      ls := ls + ms;
      var ns := Rests(v4, k, y, id);
      ExecConcat(w, ls, [Deliver(k), Start(k)] + ns);
      ls := ls + ([Deliver(k), Start(k)] + ns);
      Two(v3, Deliver(k), Start(k), ns);
    } else {
      ms := Rests(v2, k, x, id);
      ExecConcat(w, ls, ms);
      ls := ls + ms;
    }
  }

  lemma Two(w: World, l: Label, m: Label, ns: seq<Label>)
    ensures Exec(w, [l, m] + ns) == Exec(Next(Next(w, l), m), ns)
  {
    hide Next;
    assert ([l, m] + ns)[1..] == [m] + ns && ([m] + ns)[1..] == ns;
  }

  lemma Three(w: World, l: Label, m: Label, n: Label)
    ensures Exec(w, [l, m, n]) == Next(Next(Next(w, l), m), n)
  {
    hide Next;
    Two(w, l, m, [n]);
    assert [l, m] + [n] == [l, m, n] && [n][1..] == [];
  }
}
