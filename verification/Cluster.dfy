/** The three stores as one object that the reconcilers' calls update in place: the API
    server, the database of internal/infra/infra.go, and the broker. */
module Cluster {
  import opened Base
  import opened Resources
  import S = Stores
  import Calls = CreateOrGet

  class Cluster {
    var log: map<Key, Log<Resource>>
    var seen: map<Key, nat>
    var secrets: map<Name, Log<S.Data>>
    var deployments: map<Name, Log<nat>>
    var tenants: map<string, string>
    var streamRows: map<string, S.StreamRow>
    var userRows: map<S.RowKey, string>
    var clientRows: map<S.RowKey, S.ClientRow>
    var topics: set<string>
    var migrated: set<string>
    var clock: nat

    constructor (st: S.Stores)
      ensures State() == st
    {
      log, seen, secrets, deployments := st.log, st.seen, st.secrets, st.deployments;
      tenants, streamRows, userRows, clientRows := st.tenants, st.streamRows, st.userRows, st.clientRows;
      topics, migrated, clock := st.topics, st.migrated, st.clock;
    }

    function State(): S.Stores
      reads this
    {
      S.Stores(log, seen, secrets, deployments, tenants, streamRows, userRows, clientRows, topics, migrated, clock)
    }

    // ---- API server ------------------------------------------------------------------

    method Get(k: Key, c: S.Choice) returns (r: Read<Resource>)
      ensures r == S.Get(State(), k, c)
    {
      if c.fault != S.Fine { return ReadError; }
      var at := 0;
      if k in seen { at := seen[k]; }
      r := ReadAt(log, k, Clamp(log, k, at));
    }

    method UpdateStatus(k: Key, ver: nat, obj: Resource, c: S.Choice) returns (ok: bool)
      modifies this
      ensures (State(), ok) == S.UpdateStatus(old(State()), k, ver, obj, c)
    {
      if c.fault == S.Broken || ver != Version(log, k) || Latest(log, k).None? { return false; }
      if Latest(log, k) != Some(obj) {
        log := log[k := LogOf(log, k) + [Some(obj)]];
      }
      ok := c.fault == S.Fine;
    }

    method Delete(k: Key, c: S.Choice) returns (ok: bool)
      modifies this
      ensures (State(), ok) == S.DeleteResource(old(State()), k, c)
    {
      if c.fault == S.Broken || Latest(log, k).None? { return false; }
      log := log[k := LogOf(log, k) + [None]];
      ok := c.fault == S.Fine;
    }

    /** The resources of a kind that the cache holds, or nothing when the listing fails. */
    method List(kind: Kind, c: S.Choice) returns (items: Option<seq<Key>>)
      ensures items == if c.fault == S.Fine && S.IsListing(State(), kind, c.keys) then Some(c.keys) else None
    {
      if c.fault == S.Fine && S.IsListing(State(), kind, c.keys) { return Some(c.keys); }
      return None;
    }

    method GetSecret(n: Name, c: S.Choice) returns (r: Read<S.Data>)
      ensures r == S.GetSecret(State(), n, c)
    {
      if c.fault != S.Fine { return ReadError; }
      r := ReadAt(secrets, n, c.at);
    }

    method CreateSecret(n: Name, d: S.Data, c: S.Choice) returns (ok: bool)
      modifies this
      ensures (State(), ok) == S.CreateSecret(old(State()), n, d, c)
    {
      if c.fault == S.Broken || Latest(secrets, n).Some? { return false; }
      secrets := secrets[n := LogOf(secrets, n) + [Some(d)]];
      ok := c.fault == S.Fine;
    }

    method UpdateSecret(n: Name, ver: nat, d: S.Data, c: S.Choice) returns (ok: bool)
      modifies this
      ensures (State(), ok) == S.UpdateSecret(old(State()), n, ver, d, c)
    {
      if c.fault == S.Broken || ver != Version(secrets, n) || Latest(secrets, n).None? { return false; }
      if Latest(secrets, n) != Some(d) {
        secrets := secrets[n := LogOf(secrets, n) + [Some(d)]];
      }
      ok := c.fault == S.Fine;
    }

    method GetDeployment(n: Name, c: S.Choice) returns (r: Read<nat>)
      ensures r == S.GetDeployment(State(), n, c)
    {
      if c.fault != S.Fine { return ReadError; }
      r := ReadAt(deployments, n, c.at);
    }

    // ---- Database ----------------------------------------------------------------------

    /** Create or get, in one step. */
    method EnsureTenant(name: string, c: S.Choice) returns (id: Option<string>)
      modifies this
      ensures (State(), id) == S.EnsureTenant(old(State()), name, c)
    {
      if c.fault == S.Broken { return None; }
      if name !in tenants {
        if !S.FreshTenant(State(), c.id) { return None; }
        tenants := tenants[name := c.id];
      }
      id := if c.fault == S.Fine then Some(tenants[name]) else None;
    }

    method CreateStream(tenantID: string, name: string, description: string, retentionDays: int, c: S.Choice)
      returns (row: Option<(string, string)>)
      modifies this
      ensures (State(), row) == S.CreateStream(old(State()), tenantID, name, description, retentionDays, c)
    {
      if c.fault == S.Broken || c.id == "" { return None; }
      if c.id !in streamRows {
        streamRows := streamRows[c.id := S.StreamRow(tenantID, name, c.text, description, retentionDays)];
      }
      var found := streamRows[c.id];
      if c.fault == S.Fine && found.tenantID == tenantID && found.name == name {
        return Some((c.id, found.topic));
      }
      return None;
    }

    method EnsureUser(tenantID: string, username: string, password: string, c: S.Choice) returns (ok: bool)
      modifies this
      ensures (State(), ok) == S.EnsureUser(old(State()), tenantID, username, password, c)
    {
      var key := (tenantID, username);
      if c.fault == S.Broken { return false; }
      if key in userRows && c.number == 0 { return false; }
      if key !in userRows || c.number > 1 {
        userRows := userRows[key := password];
      }
      ok := c.fault == S.Fine;
    }

    method InsertClient(key: S.RowKey, secret: string, streamID: Option<string>, c: S.Choice)
        returns (r: S.InsertResult)
      modifies this
      ensures (State(), r) == S.InsertClient(old(State()), key, secret, streamID, c)
    {
      if c.fault == S.Broken { return S.InsertError; }
      if key in clientRows {
        r := if c.fault == S.Fine then S.AlreadyExists else S.InsertError;
        return;
      }
      if !S.FreshClient(State(), c.id) { return S.InsertError; }
      var row := S.ClientRow(c.id, secret, streamID);
      clientRows := clientRows[key := row];
      r := if c.fault == S.Fine then S.Inserted(row) else S.InsertError;
    }

    /** Insert; if the row is already there, read it. The second choice decides the read.
        Whatever the choices, it is one atomic create-or-get: a row that exists stays, a
        successful call returns the row that is stored, and a new row has this secret. */
    method EnsureClient(key: S.RowKey, secret: string, streamID: Option<string>, c1: S.Choice, c2: S.Choice)
      returns (row: Option<S.ClientRow>, read: bool)
      modifies this
      ensures State() == old(State()).(clientRows := clientRows)
      ensures clientRows == old(clientRows)
              || clientRows == Calls.CreateOrGet(old(clientRows), Calls.Request(key, secret, streamID), c1.id)
      ensures row.Some?
              ==> clientRows == Calls.CreateOrGet(old(clientRows), Calls.Request(key, secret, streamID), c1.id)
      ensures row.Some? ==> key in clientRows && clientRows[key] == row.value
      ensures var first := Calls.Advanced(old(State()), Calls.Inserting(Calls.Request(key, secret, streamID)), c1);
              read == first.1.Fetching?
              && (State(), Calls.Returned(Calls.Request(key, secret, streamID), row))
                 == if read then Calls.Advanced(first.0, first.1, c2) else first
    {
      var inserted := InsertClient(key, secret, streamID, c1);
      read := inserted.AlreadyExists?;
      match inserted
      case Inserted(new_row) => row := Some(new_row);
      case InsertError => row := None;
      case AlreadyExists =>
        if c2.fault == S.Fine && key in clientRows {
          row := Some(clientRows[key]);
        } else {
          row := None;
        }
    }

    method Migrate(url: string, c: S.Choice) returns (ok: bool)
      modifies this
      ensures (State(), ok) == S.Migrate(old(State()), url, c)
    {
      if c.fault == S.Broken { return false; }
      migrated := migrated + {url};
      ok := c.fault == S.Fine;
    }

    // ---- Broker -------------------------------------------------------------------------

    /** A topic that exists already is fine. */
    method CreateTopic(topic: string, c: S.Choice) returns (ok: bool)
      modifies this
      ensures (State(), ok) == S.CreateTopic(old(State()), topic, c)
    {
      if c.fault == S.Broken { return false; }
      if topic !in topics {
        topics := topics + {topic};
      }
      assert topics == old(topics) + {topic};
      ok := c.fault == S.Fine;
    }
  }
}
