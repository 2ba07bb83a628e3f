/** The worker's state client over forge-api's internal routes (cmd/forge-worker/main.go,
    internal/apiserver/server.go). */
module Remote {
  import opened Records
  import opened Handlers
  import opened Stores

  /** What a request carries. NoSource is dev mode: no header is sent. Unavailable: the token exchange fails. */
  datatype Credential = NoSource | Unavailable | Bearer(valid: bool, canRead: bool, canWrite: bool)

  datatype Reply = Got(record: Record) | NoSuch | Done | Failed

  /** o tells how the request travels: Lost is carried out but the response never arrives. */
  datatype Call = GetCall(id: string, o: Outcome) | PutCall(record: Record, now: nat, o: Outcome)

  /** forge-api's side of the internal routes. */
  class Gateway {
    const store: Store
    const verifying: bool

    constructor (store: Store, verifying: bool)
      ensures this.store == store && this.verifying == verifying
    {
      this.store, this.verifying := store, verifying;
    }

    /** The middleware in front of both routes: with a verifier, a valid token is needed. */
    predicate Admits(cred: Credential)
    {
      verifying ==> cred.Bearer? && cred.valid
    }

    method InternalGet(cred: Credential, id: string) returns (status: int, body: Found)
      ensures status == if !Admits(cred) then 401 else if verifying && !cred.canRead then 403
                        else if id in store.rows then 200 else 404
      ensures status == 200 ==> id in store.rows && body == Found(store.rows[id])
    {
      if !Admits(cred) { return 401, NotFound; }
      if verifying && !cred.canRead { return 403, NotFound; }
      body := store.Get(id);
      return if body.NotFound? then 404 else 200, body;
    }

    /** A write needs both scopes, and goes under the ID in the body. */
    method InternalPut(cred: Credential, body: Record, now: nat) returns (status: int)
      requires store.Valid()
      modifies store
      ensures store.Valid()
      ensures status == if !Admits(cred) then 401 else if verifying && !(cred.canRead && cred.canWrite) then 403
                        else 200
      ensures store.rows == if status == 200 then old(store.rows)[body.id := Row(body, now)] else old(store.rows)
      ensures RecordsOf(store.rows) == if status == 200 then RecordsOf(old(store.rows))[body.id := body]
                                       else RecordsOf(old(store.rows))
    {
      if !Admits(cred) { return 401; }
      if verifying && !(cred.canRead && cred.canWrite) { return 403; }
      var env := new Environment(body, 0);
      var _ := store.Put(env, now, Ok(""));
      return 200;
    }
  }

  /** The client: a failed token exchange or transport is an error, 404 is not-found, anything but 200 is an error. */
  class RemoteClient {
    const gateway: Gateway

    constructor (gateway: Gateway)
      ensures this.gateway == gateway
    {
      this.gateway := gateway;
    }

    method Get(id: string, cred: Credential, o: Outcome) returns (reply: Reply)
      ensures (RecordsOf(gateway.store.rows), reply)
           == Remotely(gateway.verifying, RecordsOf(gateway.store.rows), GetCall(id, o), cred)
    {
      if cred.Unavailable? { return Failed; }
      if o.Fail? || o.Partial? { return Failed; }
      var status, body := gateway.InternalGet(cred, id);
      if o.Lost? { return Failed; }
      if status == 404 { return NoSuch; }
      if status != 200 { return Failed; }
      return Got(body.row.record);
    }

    method Put(env: Environment, now: nat, cred: Credential, o: Outcome) returns (reply: Reply)
      requires gateway.store.Valid()
      modifies gateway.store
      ensures gateway.store.Valid()
      ensures (RecordsOf(gateway.store.rows), reply)
           == Remotely(gateway.verifying, RecordsOf(old(gateway.store.rows)), PutCall(env.Value(), now, o), cred)
    {
      if cred.Unavailable? { return Failed; }
      if o.Fail? || o.Partial? { return Failed; }
      var status := gateway.InternalPut(cred, env.Value(), now);
      if o.Lost? { return Failed; }
      if status != 200 { return Failed; }
      return Done;
    }
  }

  /** A call as it goes through the client and the internal routes. */
  function Remotely(verifying: bool, store: map<string, Record>, call: Call, cred: Credential): (map<string, Record>,
    Reply) {
    if cred.Unavailable? || call.o.Fail? || call.o.Partial? then (store, Failed)
    else
      var admitted := verifying ==> cred.Bearer? && cred.valid;
      match call
      case GetCall(id, o) =>
        var status := if !admitted then 401 else if verifying && !cred.canRead then 403 else if id in store then 200
                      else 404;
        (store, if o.Lost? then Failed else if status == 404 then NoSuch else if status != 200 then Failed
         else Got(store[id]))
      case PutCall(r, _, o) =>
        var status := if !admitted then 401 else if verifying && !(cred.canRead && cred.canWrite) then 403 else 200;
        (if status == 200 then store[r.id := r] else store, if o.Lost? || status != 200 then Failed else Done)
  }

  /** The same call on a store at hand, whose Put may fail or may be reported as failed. */
  function Locally(store: map<string, Record>, call: Call): (map<string, Record>, Reply) {
    match call
    case GetCall(id, o) => (store, if !o.Ok? then Failed else if id in store then Got(store[id]) else NoSuch)
    case PutCall(r, _, o) => (if o.Ok? || o.Lost? then store[r.id := r] else store, if o.Ok? then Done else Failed)
  }

  /** The store itself as a state client, as forge-api's own goroutines use it. */
  class LocalClient {
    const store: Store

    constructor (store: Store)
      ensures this.store == store
    {
      this.store := store;
    }

    method Get(id: string, o: Outcome) returns (reply: Reply)
      ensures (RecordsOf(store.rows), reply) == Locally(RecordsOf(store.rows), GetCall(id, o))
      ensures reply == if !o.Ok? then Failed else if id in store.rows then Got(store.rows[id].record) else NoSuch
    {
      if !o.Ok? { return Failed; }
      var found := store.Get(id);
      return if found.NotFound? then NoSuch else Got(found.row.record);
    }

    method Put(env: Environment, now: nat, o: Outcome) returns (reply: Reply)
      requires store.Valid()
      modifies store`rows, env`updatedAt
      ensures store.Valid()
      ensures (RecordsOf(store.rows), reply) == Locally(RecordsOf(old(store.rows)), PutCall(env.Value(), now, o))
      ensures store.rows == if o.Ok? || o.Lost? then old(store.rows)[env.id := Row(old(env.Value()), now)]
                            else old(store.rows)
      ensures reply == if o.Ok? then Done else Failed
    {
      var ok := store.Put(env, now, o);
      return if ok then Done else Failed;
    }
  }

  /** A token can be had where one is needed, with the scopes the call needs. */
  predicate Sufficient(verifying: bool, call: Call, cred: Credential) {
    && !cred.Unavailable?
    && (verifying ==> cred.Bearer? && cred.valid && cred.canRead && (call.PutCall? ==> cred.canWrite))
  }

  /** For a call that would otherwise go well, going through forge-api makes no difference exactly when
      the credential is sufficient. */
  lemma RemoteEqualsLocalIff(verifying: bool, store: map<string, Record>, call: Call, cred: Credential)
    requires call.o.Ok?
    ensures Remotely(verifying, store, call, cred) == Locally(store, call) <==> Sufficient(verifying, call, cred)
    ensures !Sufficient(verifying, call, cred) ==> Remotely(verifying, store, call, cred) == (store, Failed)
  {
  }

  function AllRemotely(verifying: bool, store: map<string, Record>, calls: seq<(Call, Credential)>): (map<string,
    Record>, seq<Reply>)
    decreases |calls|
  {
    if calls == [] then (store, [])
    else
      var (store', reply) := Remotely(verifying, store, calls[0].0, calls[0].1);
      var (last, replies) := AllRemotely(verifying, store', calls[1..]);
      (last, [reply] + replies)
  }

  function AllLocally(store: map<string, Record>, calls: seq<(Call, Credential)>): (map<string, Record>, seq<Reply>)
    decreases |calls|
  {
    if calls == [] then (store, [])
    else
      var (store', reply) := Locally(store, calls[0].0);
      var (last, replies) := AllLocally(store', calls[1..]);
      (last, [reply] + replies)
  }

  /** Remote state refines local state: any sequence of sufficiently authorised calls gives the same replies and the
      same final store, faults in transit included. */
  lemma {:induction false} RemoteRefinesLocal(verifying: bool, store: map<string, Record>,
                                              calls: seq<(Call, Credential)>)
    requires forall i | 0 <= i < |calls| :: Sufficient(verifying, calls[i].0, calls[i].1)
    ensures AllRemotely(verifying, store, calls) == AllLocally(store, calls)
    decreases |calls|
  {
    if calls == [] {
    } else {
      var call := calls[0];
      assert Sufficient(verifying, call.0, call.1);
      assert Remotely(verifying, store, call.0, call.1) == Locally(store, call.0);
      RemoteRefinesLocal(verifying, Locally(store, call.0).0, calls[1..]);
    }
  }

  /** Calls without sufficient authority fail and leave no trace, wherever they occur. */
  lemma {:induction false} UnauthorisedCallsLeaveNoTrace(verifying: bool, store: map<string, Record>,
                                                         calls: seq<(Call, Credential)>)
    ensures AllRemotely(verifying, store, calls).0 == AllLocally(store, Authorised(verifying, calls)).0
    decreases |calls|
  {
    if calls == [] {
    } else {
      var (call, cred) := calls[0];
      var store' := Remotely(verifying, store, call, cred).0;
      UnauthorisedCallsLeaveNoTrace(verifying, store', calls[1..]);
      if Sufficient(verifying, call, cred) {
        assert Remotely(verifying, store, call, cred) == Locally(store, call);
        assert Authorised(verifying, calls)[1..] == Authorised(verifying, calls[1..]);
      } else {
        assert store' == store;
        assert Authorised(verifying, calls) == Authorised(verifying, calls[1..]);
      }
    }
  }

  function Authorised(verifying: bool, calls: seq<(Call, Credential)>): seq<(Call, Credential)>
    decreases |calls|
  {
    if calls == [] then []
    else (if Sufficient(verifying, calls[0].0, calls[0].1) then [calls[0]] else []) + Authorised(verifying, calls[1..])
  }
}
