/** What one whole client pass leaves in the database row and the Kubernetes Secret, and the two
    ways in which they come to differ. */
module ClientPasses {
  import opened Base
  import opened Resources
  import opened Stores
  import opened ClientCredentials
  import C = ClientController

  /** The call works, it reads the latest version, and the database would give a fresh ID. */
  predicate Works(st: Stores, k: Key, c: Choice) {
    && c.fault == Fine && c.text != "" && FreshClient(st, c.id)
    && c.at >= Version(st.secrets, ClientSecretName(k))
  }

  ghost predicate AllWork(st: Stores, k: Key, ch: nat -> Choice) {
    forall n :: Works(st, k, ch(n))
  }

  predicate SecretFound(st: Stores, k: Key) {
    Latest(st.secrets, ClientSecretName(k)).Some? && C.Held(Latest(st.secrets, ClientSecretName(k)).value) != ""
  }

  /** The secret a pass settles on: the Secret's, or else the text it generates. */
  function Effective(st: Stores, k: Key, text: string): string {
    if SecretFound(st, k) then C.Held(Latest(st.secrets, ClientSecretName(k)).value) else text
  }

  /** The rows after inserting where there is none. */
  function WithRow(rows: map<RowKey, ClientRow>, x: FrkrClient, secret: string, id: string): map<RowKey, ClientRow> {
    if C.RowKeyOf(x.spec) in rows then rows else rows[C.RowKeyOf(x.spec) := ClientRow(id, secret, C.StreamOf(x.spec))]
  }

  lemma RunFromWrite(cfg: Config, st: Stores, k: Key, p: C.ClientPass, ch: nat -> Choice, n: nat)
    requires p.AtWrite?
    ensures var st' := C.Run(cfg, st, k, p, ch, n).0; st'.secrets == st.secrets && st'.clientRows == st.clientRows
  {
    hide Grows, LogsGrow, UpdateStatus;
  }

  lemma RunFromCreate(cfg: Config, st: Stores, k: Key, p: C.ClientPass, ch: nat -> Choice, n: nat)
    requires p.AtCreate? && Latest(st.secrets, ClientSecretName(k)).None? && ch(n).fault == Fine
    ensures var st' := C.Run(cfg, st, k, p, ch, n).0; SecretHolds(st', k, p.secret) && st'.clientRows == st.clientRows
  {
    hide Grows, LogsGrow, UpdateStatus;
    var (st1, o1) := C.Step(cfg, st, k, p, ch(n));
    assert o1.Go? && o1.pass.AtWrite? && SecretHolds(st1, k, p.secret) && st1.clientRows == st.clientRows;
    RunFromWrite(cfg, st1, k, o1.pass, ch, n + 1);
  }

  lemma RunFromUpdate(cfg: Config, st: Stores, k: Key, p: C.ClientPass, ch: nat -> Choice, n: nat)
    requires p.AtUpdate? && p.secretVer == Version(st.secrets, ClientSecretName(k))
    requires Latest(st.secrets, ClientSecretName(k)).Some? && ch(n).fault == Fine
    ensures var st' := C.Run(cfg, st, k, p, ch, n).0; SecretHolds(st', k, p.secret) && st'.clientRows == st.clientRows
  {
    hide Grows, LogsGrow, UpdateStatus;
    var (st1, o1) := C.Step(cfg, st, k, p, ch(n));
    assert o1.Go? && o1.pass.AtWrite? && SecretHolds(st1, k, p.secret) && st1.clientRows == st.clientRows;
    RunFromWrite(cfg, st1, k, o1.pass, ch, n + 1);
  }

  lemma RunFromSecret(cfg: Config, st: Stores, k: Key, p: C.ClientPass, ch: nat -> Choice, n: nat)
    requires p.AtSecret? && ch(n).fault == Fine && ch(n + 1).fault == Fine
    requires ch(n).at >= Version(st.secrets, ClientSecretName(k))
    ensures var st' := C.Run(cfg, st, k, p, ch, n).0; SecretHolds(st', k, p.secret) && st'.clientRows == st.clientRows
  {
    hide Grows, LogsGrow, CreateSecret, UpdateSecret, UpdateStatus;
    var (st1, o1) := C.Step(cfg, st, k, p, ch(n));
    assert st1 == st && o1.Go? && (o1.pass.AtCreate? || o1.pass.AtUpdate?) && o1.pass.secret == p.secret;
    if o1.pass.AtCreate? {
      RunFromCreate(cfg, st, k, o1.pass, ch, n + 1);
    } else {
      RunFromUpdate(cfg, st, k, o1.pass, ch, n + 1);
    }
  }

  lemma RunFromInsert(cfg: Config, st: Stores, k: Key, p: C.ClientPass, ch: nat -> Choice, n: nat)
    requires p.AtInsert? && AllWork(st, k, ch)
    ensures var st' := C.Run(cfg, st, k, p, ch, n).0;
            SecretHolds(st', k, p.secret) && st'.clientRows == WithRow(st.clientRows, p.c, p.secret, ch(n).id)
  {
    hide Grows, LogsGrow, CreateSecret, UpdateSecret, UpdateStatus, GetSecret, SecretHolds;
    assert Works(st, k, ch(n)) && Works(st, k, ch(n + 1)) && Works(st, k, ch(n + 2)) && Works(st, k, ch(n + 3));
    var (st1, o1) := C.Step(cfg, st, k, p, ch(n));
    if C.RowKeyOf(p.c.spec) in st.clientRows {
      assert st1 == st && o1.Go? && o1.pass.AtFetch?;
      var (st2, o2) := C.Step(cfg, st1, k, o1.pass, ch(n + 1));
      assert st2 == st && o2.Go? && o2.pass.AtSecret? && o2.pass.secret == p.secret;
      RunFromSecret(cfg, st2, k, o2.pass, ch, n + 2);
      assert C.Run(cfg, st1, k, o1.pass, ch, n + 1) == C.Run(cfg, st2, k, o2.pass, ch, n + 2);
    } else {
      assert o1.Go? && o1.pass.AtSecret? && o1.pass.secret == p.secret;
      RunFromSecret(cfg, st1, k, o1.pass, ch, n + 1);
    }
  }

  /** The insert a whole pass with an empty secret in the spec comes to. */
  function InsertPoint(st: Stores, k: Key, ver: nat, x: FrkrClient, text: string): C.ClientPass {
    if SecretFound(st, k) then C.AtInsert(ver, x, Effective(st, k, text))
    else C.AtInsert(ver, x.(status := x.status.(secretGenerated := true)), text)
  }

  /** It comes there with the stores as they were. */
  lemma RunToInsert(cfg: Config, st: Stores, k: Key, ver: nat, x: FrkrClient, ch: nat -> Choice)
    requires cfg.database && Get(st, k, ch(0)) == Read.Found(ver, ClientR(x)) && x.spec.secret == ""
    requires AllWork(st, k, ch)
    ensures C.Run(cfg, st, k, C.Begin, ch, 0)
         == C.Run(cfg, st, k, InsertPoint(st, k, ver, x, ch(2).text), ch, if SecretFound(st, k) then 2 else 3)
  {
    hide Grows, LogsGrow, InsertClient, FetchClient, CreateSecret, UpdateSecret, UpdateStatus;
    assert Works(st, k, ch(1)) && Works(st, k, ch(2));
    var p := InsertPoint(st, k, ver, x, ch(2).text);
    assert C.Step(cfg, st, k, C.Begin, ch(0)) == (st, C.Go(C.AtEarly(ver, x)));
    if SecretFound(st, k) {
      assert C.Step(cfg, st, k, C.AtEarly(ver, x), ch(1)) == (st, C.Go(p));
    } else {
      assert C.Step(cfg, st, k, C.AtEarly(ver, x), ch(1)) == (st, C.Go(C.AtGenerate(ver, x)));
      assert C.Step(cfg, st, k, C.AtGenerate(ver, x), ch(2)) == (st, C.Go(p));
      assert C.Run(cfg, st, k, C.AtGenerate(ver, x), ch, 2) == C.Run(cfg, st, k, p, ch, 3);
    }
    assert C.Run(cfg, st, k, C.Begin, ch, 0) == C.Run(cfg, st, k, C.AtEarly(ver, x), ch, 1);
  }

  /** A whole pass with an empty secret in the spec: the Secret ends up with the effective
      secret, the row with the first one ever inserted. So they agree exactly when there was
      no row, or its secret was the effective one; after a pass that stopped between its
      insert and its first Secret write, that takes generating the same text again. */
  lemma WholePass(cfg: Config, st: Stores, k: Key, ver: nat, x: FrkrClient, ch: nat -> Choice)
    requires cfg.database && Get(st, k, ch(0)) == Read.Found(ver, ClientR(x)) && x.spec.secret == ""
    requires AllWork(st, k, ch)
    ensures var st' := C.Run(cfg, st, k, C.Begin, ch, 0).0;
            var row := C.RowKeyOf(x.spec);
            && SecretHolds(st', k, Effective(st, k, ch(2).text))
            && row in st'.clientRows
            && (row in st.clientRows ==> st'.clientRows[row] == st.clientRows[row])
            && (SecretHolds(st', k, st'.clientRows[row].secret)
                <==> (row in st.clientRows ==> st.clientRows[row].secret == Effective(st, k, ch(2).text)))
  {
    hide Grows, AllWork, C.Run;
    RunToInsert(cfg, st, k, ver, x, ch);
    RunFromInsert(cfg, st, k, InsertPoint(st, k, ver, x, ch(2).text), ch, if SecretFound(st, k) then 2 else 3);
  }

  lemma LostInsert(cfg: Config, st: Stores, k: Key, x: FrkrClient, ver: nat, first: string, c: Choice)
    requires C.RowKeyOf(x.spec) !in st.clientRows && c.fault == Lost && FreshClient(st, c.id)
    ensures var (st1, o) := C.Step(cfg, st, k, C.AtInsert(ver, x, first), c);
      o == C.Failed && RowHolds(st1, C.RowKeyOf(x.spec), first) && st1.secrets == st.secrets
      && st1.log == st.log && st1.seen == st.seen
  {
    hide Grows;
  }

  /** The insert commits, its reply is lost and the pass stops; the next pass generates its
      own secret: the row keeps the first, and the Secret agrees only if the second is equal. */
  lemma StoppedThenRetried(cfg: Config, st: Stores, k: Key, x: FrkrClient, ver: nat, first: string, c: Choice,
      ch: nat -> Choice)
    requires cfg.database && x.spec.secret == "" && C.RowKeyOf(x.spec) !in st.clientRows
    requires Latest(st.secrets, ClientSecretName(k)).None?
    requires c.fault == Lost && FreshClient(st, c.id)
    requires Get(st, k, ch(0)) == Read.Found(ver, ClientR(x))
    requires AllWork(C.Step(cfg, st, k, C.AtInsert(ver, x, first), c).0, k, ch)
    ensures var st1 := C.Step(cfg, st, k, C.AtInsert(ver, x, first), c).0;
      var st2 := C.Run(cfg, st1, k, C.Begin, ch, 0).0;
      RowHolds(st2, C.RowKeyOf(x.spec), first) && (SecretHolds(st2, k, first) <==> ch(2).text == first)
  {
    hide Grows, C.Step, C.Run, AllWork;
    var st1 := C.Step(cfg, st, k, C.AtInsert(ver, x, first), c).0;
    LostInsert(cfg, st, k, x, ver, first, c);
    assert Get(st1, k, ch(0)) == Get(st, k, ch(0));
    WholePass(cfg, st1, k, ver, x, ch);
  }

  /** The early read fails for another reason than not-found, though row and Secret exist: the
      pass generates a secret, and all else working it overwrites the Secret; the two agree
      only if the new text is the row's secret. */
  lemma UnreadSecret(cfg: Config, st: Stores, k: Key, x: FrkrClient, ver: nat, c: Choice, ch: nat -> Choice)
    requires cfg.database && C.RowKeyOf(x.spec) in st.clientRows && c.fault != Fine && AllWork(st, k, ch)
    ensures C.Step(cfg, st, k, C.AtEarly(ver, x), c) == (st, C.Go(C.AtGenerate(ver, x)))
    ensures var st' := C.Run(cfg, st, k, C.AtGenerate(ver, x), ch, 2).0;
      var row := C.RowKeyOf(x.spec);
      && st'.clientRows == st.clientRows && SecretHolds(st', k, ch(2).text)
      && (SecretHolds(st', k, st.clientRows[row].secret) <==> ch(2).text == st.clientRows[row].secret)
  {
    hide Grows, LogsGrow, InsertClient, FetchClient, CreateSecret, UpdateSecret, UpdateStatus;
    assert Works(st, k, ch(2));
    var y := x.(status := x.status.(secretGenerated := true));
    assert C.Step(cfg, st, k, C.AtGenerate(ver, x), ch(2)) == (st, C.Go(C.AtInsert(ver, y, ch(2).text)));
    RunFromInsert(cfg, st, k, C.AtInsert(ver, y, ch(2).text), ch, 3);
  }
}
