/** forge-api's record store (internal/environment/store.go) and the record object that handlers and steps mutate. */
module Stores {
  import opened Records
  import opened Handlers

  /** Environment as an object, its fields assigned in place (internal/environment/types.go). */
  class Environment {
    var id: EnvId
    var owner: string
    var status: string
    var sagaId: string
    var dryRun: bool
    var createdAt: nat
    var updatedAt: nat
    var vpcId: string
    var publicSubnetId: string
    var privateSubnetId: string
    var securityGroupId: string
    var rdsInstanceId: string
    var rdsEndpoint: string
    var rdsPassword: string
    var ec2InstanceId: string
    var ec2PublicIp: string
    var s3BucketName: string
    var spireEntryIds: seq<string>
    var svidExchangePolicyName: string
    var localEnvPath: string
    var failAtHealth: bool

    function Value(): Record
      reads this
    {
      Record(id, owner, status, sagaId, dryRun, createdAt, vpcId, publicSubnetId, privateSubnetId, securityGroupId,
             rdsInstanceId, rdsEndpoint, rdsPassword, ec2InstanceId, ec2PublicIp, s3BucketName,
             spireEntryIds, svidExchangePolicyName, localEnvPath, failAtHealth)
    }

    constructor (r: Record, stamped: nat)
      ensures Value() == r && updatedAt == stamped
    {
      id, owner, status, sagaId, dryRun, createdAt, updatedAt := r.id, r.owner, r.status, r.sagaId, r.dryRun,
                                                                 r.createdAt, stamped;
      vpcId, publicSubnetId, privateSubnetId, securityGroupId := r.vpcId, r.publicSubnetId, r.privateSubnetId,
                                                                 r.securityGroupId;
      rdsInstanceId, rdsEndpoint, rdsPassword := r.rdsInstanceId, r.rdsEndpoint, r.rdsPassword;
      ec2InstanceId, ec2PublicIp, s3BucketName := r.ec2InstanceId, r.ec2PublicIp, r.s3BucketName;
      spireEntryIds, svidExchangePolicyName := r.spireEntryIds, r.svidExchangePolicyName;
      localEnvPath, failAtHealth := r.localEnvPath, r.failAtHealth;
    }
  }

  datatype Row = Row(record: Record, updatedAt: nat)
  type Rows = map<string, Row>

  datatype Found = Found(row: Row) | NotFound

  /** The records, without the time stamps. */
  function RecordsOf(rows: Rows): map<string, Record> {
    map e | e in rows :: rows[e].record
  }

  predicate Keyed(rows: Rows) {
    forall e :: e in rows ==> rows[e].record.id == e
  }

  // ----- byte order -----

  predicate Below(a: string, b: string) {
    a == "" || (b != "" && (a[0] < b[0] || (a[0] == b[0] && Below(a[1..], b[1..]))))
  }

  /** Byte order by position: a prefix, or smaller at the first difference. */
  lemma {:induction false} BelowIsByteOrder(a: string, b: string)
    ensures Below(a, b) <==>
            a <= b || exists i :: 0 <= i < |a| && i < |b| && a[..i] == b[..i] && a[i] < b[i]
  {
    if a == "" || b == "" {
    } else if a[0] != b[0] {
      assert a[..0] == b[..0];
      forall i | 0 < i < |a| && i < |b| ensures a[..i] != b[..i] {
        assert a[..i][0] != b[..i][0];
      }
    } else {
      BelowIsByteOrder(a[1..], b[1..]);
      assert a == [a[0]] + a[1..] && b == [b[0]] + b[1..];
      if i :| 0 <= i < |a| && i < |b| && a[..i] == b[..i] && a[i] < b[i] {
        assert a[1..][..i - 1] == a[..i][1..] && b[1..][..i - 1] == b[..i][1..];
        assert a[1..][i - 1] < b[1..][i - 1];
      }
      if i :| 0 <= i < |a| - 1 && i < |b| - 1 && a[1..][..i] == b[1..][..i] && a[1..][i] < b[1..][i] {
        assert a[..i + 1] == [a[0]] + a[1..][..i] && b[..i + 1] == [b[0]] + b[1..][..i];
        assert a[i + 1] < b[i + 1];
      }
    }
  }

  lemma {:induction false} BelowTotal(a: string, b: string)
    ensures Below(a, b) || Below(b, a)
    ensures Below(a, b) && Below(b, a) ==> a == b
  {
    if a != "" && b != "" {
      BelowTotal(a[1..], b[1..]);
      if a[0] == b[0] && a[1..] == b[1..] { assert a == [a[0]] + a[1..] && b == [b[0]] + b[1..]; }
    }
  }

  lemma {:induction false} BelowTrans(a: string, b: string, c: string)
    requires Below(a, b) && Below(b, c)
    ensures Below(a, c)
  {
    if a != "" && a[0] == b[0] == c[0] { BelowTrans(a[1..], b[1..], c[1..]); }
  }

  lemma {:induction false} PrefixBelow(p: string, a: string)
    requires p <= a
    ensures Below(p, a)
  {
    if p != "" { PrefixBelow(p[1..], a[1..]); }
  }

  // ----- keys in order -----

  predicate IsLeast(k: string, keys: set<string>) {
    k in keys && forall j :: j in keys ==> Below(k, j)
  }

  lemma {:induction false} LeastExists(keys: set<string>)
    requires keys != {}
    ensures exists k :: IsLeast(k, keys)
    decreases |keys|
  {
    var a :| a in keys;
    BelowTotal(a, a);
    if keys == {a} {
      assert IsLeast(a, keys);
    } else {
      var rest := keys - {a};
      assert rest != {};
      LeastExists(rest);
      var k :| IsLeast(k, rest);
      BelowTotal(a, k);
      if Below(a, k) {
        forall j | j in keys ensures Below(a, j) { if j != a { BelowTrans(a, k, j); } }
        assert IsLeast(a, keys);
      } else {
        assert IsLeast(k, keys);
      }
    }
  }

  lemma LeastIsUnique(j: string, k: string, keys: set<string>)
    requires IsLeast(j, keys) && IsLeast(k, keys)
    ensures j == k
  {
    BelowTotal(j, k);
  }

  ghost function Least(keys: set<string>): (k: string)
    requires keys != {}
    ensures IsLeast(k, keys)
  {
    LeastExists(keys);
    var k :| IsLeast(k, keys);
    k
  }

  /** The keys as a bolt cursor visits them. */
  ghost function Ordered(keys: set<string>): seq<string>
    decreases |keys|
  {
    if keys == {} then [] else [Least(keys)] + Ordered(keys - {Least(keys)})
  }

  predicate Ascending(keys: seq<string>) {
    forall i, j :: 0 <= i < j < |keys| ==> keys[i] != keys[j] && Below(keys[i], keys[j])
  }

  lemma {:induction false} OrderedIsAscending(keys: set<string>)
    ensures Ascending(Ordered(keys)) && |Ordered(keys)| == |keys|
    ensures forall k :: k in keys <==> k in Ordered(keys)
    decreases |keys|
  {
    if keys != {} {
      var k := Least(keys);
      OrderedIsAscending(keys - {k});
      var tail := Ordered(keys - {k});
      assert Ordered(keys) == [k] + tail;
      forall i | 0 <= i < |tail| ensures tail[i] in keys && tail[i] != k { assert tail[i] in tail; }
    }
  }

  // ----- the listing -----

  predicate Shown(row: Row, filter: string) {
    filter == "" || row.record.status == filter
  }

  /** The rows of the given keys that pass the filter, in that order. */
  function Selected(rows: Rows, keys: seq<string>, filter: string): seq<Row>
    requires forall k | k in keys :: k in rows
  {
    if keys == [] then []
    else (if Shown(rows[keys[0]], filter) then [rows[keys[0]]] else []) + Selected(rows, keys[1..], filter)
  }

  /** The part of a listing that covers these keys. */
  ghost function Rest(rows: Rows, keys: set<string>, filter: string): seq<Row>
    requires keys <= rows.Keys
  {
    OrderedIsAscending(keys);
    Selected(rows, Ordered(keys), filter)
  }

  ghost function Listing(rows: Rows, filter: string): seq<Row> {
    Rest(rows, rows.Keys, filter)
  }

  lemma RestStartsWithLeast(rows: Rows, keys: set<string>, key: string, filter: string)
    requires keys <= rows.Keys && IsLeast(key, keys)
    ensures Rest(rows, keys, filter)
         == (if Shown(rows[key], filter) then [rows[key]] else []) + Rest(rows, keys - {key}, filter)
  {
    LeastIsUnique(key, Least(keys), keys);
    assert Ordered(keys) == [key] + Ordered(keys - {key});
    assert Ordered(keys)[1..] == Ordered(keys - {key});
    OrderedIsAscending(keys);
    OrderedIsAscending(keys - {key});
  }

  class Store {
    var rows: Rows

    ghost predicate Valid()
      reads this
    {
      Keyed(rows)
    }

    constructor ()
      ensures Valid() && rows == map[]
    {
      rows := map[];
    }

    /** Writes the whole record under its ID and stamps it; the stamp stays in the caller's copy even when the write
        fails. */
    method Put(env: Environment, now: nat, o: Outcome) returns (ok: bool)
      requires Valid()
      modifies this`rows, env`updatedAt
      ensures Valid()
      ensures env.updatedAt == now
      ensures ok == o.Ok?
      ensures rows == if o.Ok? || o.Lost? then old(rows)[env.id := Row(old(env.Value()), now)] else old(rows)
      ensures RecordsOf(rows) == if o.Ok? || o.Lost? then RecordsOf(old(rows))[env.id := env.Value()]
                                 else RecordsOf(old(rows))
    {
      env.updatedAt := now;
      if o.Ok? || o.Lost? {
        rows := rows[env.id := Row(env.Value(), env.updatedAt)];
      }
      return o.Ok?;
    }

    method Get(id: string) returns (found: Found)
      ensures found == if id in rows then Found(rows[id]) else NotFound
    {
      if id in rows { return Found(rows[id]); }
      return NotFound;
    }

    /** Removes a record; an absent one is not an error. */
    method Delete(id: string)
      requires Valid()
      modifies this
      ensures Valid()
      ensures rows == old(rows) - {id}
    {
      rows := rows - {id};
    }

    /** Walks the keys in order and appends what passes the filter. */
    method List(filter: string) returns (envs: seq<Row>)
      ensures envs == Listing(rows, filter)
    {
      hide Rest, Shown;
      envs := [];
      var remaining := rows.Keys;
      while remaining != {}
        invariant remaining <= rows.Keys
        invariant envs + Rest(rows, remaining, filter) == Listing(rows, filter)
        decreases |remaining|
      {
        LeastExists(remaining);
        var key :| IsLeast(key, remaining);
        RestStartsWithLeast(rows, remaining, key, filter);
        if Shown(rows[key], filter) { envs := envs + [rows[key]]; }
        remaining := remaining - {key};
      }
      NothingIsLeft(rows, filter);
    }
  }

  lemma NothingIsLeft(rows: Rows, filter: string)
    ensures Rest(rows, {}, filter) == []
  {
  }

  // ----- what listings promise -----

  /** The rows of a listing that have the given status. */
  function WithStatus(envs: seq<Row>, status: string): seq<Row> {
    if envs == [] then []
    else (if envs[0].record.status == status then [envs[0]] else []) + WithStatus(envs[1..], status)
  }

  lemma {:induction false} SelectedIsFiltered(rows: Rows, keys: seq<string>, filter: string)
    requires forall k | k in keys :: k in rows
    requires filter != ""
    ensures Selected(rows, keys, filter) == WithStatus(Selected(rows, keys, ""), filter)
  {
    if keys == [] {
    } else {
      SelectedIsFiltered(rows, keys[1..], filter);
      var all := Selected(rows, keys, "");
      assert all == [rows[keys[0]]] + Selected(rows, keys[1..], "");
      assert all[1..] == Selected(rows, keys[1..], "");
    }
  }

  /** A filtered listing is the unfiltered one, in the same order, without the rows of other statuses. */
  lemma ListingIsFiltered(rows: Rows, filter: string)
    requires filter != ""
    ensures Listing(rows, filter) == WithStatus(Listing(rows, ""), filter)
  {
    OrderedIsAscending(rows.Keys);
    SelectedIsFiltered(rows, Ordered(rows.Keys), filter);
  }

  lemma {:induction false} SelectedAll(rows: Rows, keys: seq<string>)
    requires forall k | k in keys :: k in rows
    ensures |Selected(rows, keys, "")| == |keys|
    ensures forall i | 0 <= i < |keys| :: Selected(rows, keys, "")[i] == rows[keys[i]]
  {
    if keys != [] { SelectedAll(rows, keys[1..]); }
  }

  lemma ByPosition(keys: seq<string>)
    requires Ascending(keys)
    ensures forall i, j :: 0 <= i < j < |keys| ==>
                             && keys[i] != keys[j]
                             && (keys[i] <= keys[j]
                                 || exists p :: 0 <= p < |keys[i]| && p < |keys[j]| && keys[i][..p] == keys[j][..p]
                                                && keys[i][p] < keys[j][p])
  {
    forall i, j | 0 <= i < j < |keys|
      ensures keys[i] <= keys[j]
              || exists p :: 0 <= p < |keys[i]| && p < |keys[j]| && keys[i][..p] == keys[j][..p]
                             && keys[i][p] < keys[j][p]
    {
      BelowIsByteOrder(keys[i], keys[j]);
    }
  }

  lemma ListingRows(rows: Rows)
    ensures
      var keys := Ordered(rows.Keys);
      && |Listing(rows, "")| == |rows| == |keys| && Ascending(keys)
      && (forall k :: k in keys <==> k in rows)
      && forall i | 0 <= i < |keys| :: keys[i] in rows && Listing(rows, "")[i] == rows[keys[i]]
  {
    OrderedIsAscending(rows.Keys);
    SelectedAll(rows, Ordered(rows.Keys));
    forall i | 0 <= i < |Ordered(rows.Keys)| ensures Ordered(rows.Keys)[i] in rows {
      assert Ordered(rows.Keys)[i] in Ordered(rows.Keys);
    }
  }

  /** The unfiltered listing holds each row once, its keys ascending in byte order. */
  lemma ListingIsOrdered(rows: Rows)
    ensures
      var keys := Ordered(rows.Keys);
      && |Listing(rows, "")| == |rows| == |keys|
      && (forall i, j :: 0 <= i < j < |keys| ==>
                           && keys[i] != keys[j]
                           && (keys[i] <= keys[j]
                               || exists p :: 0 <= p < |keys[i]| && p < |keys[j]| && keys[i][..p] == keys[j][..p]
                                              && keys[i][p] < keys[j][p]))
      && (forall k :: k in keys <==> k in rows)
      && forall i | 0 <= i < |keys| :: keys[i] in rows && Listing(rows, "")[i] == rows[keys[i]]
  {
    hide Listing, Ordered, Ascending;
    ListingRows(rows);
    ByPosition(Ordered(rows.Keys));
  }

  predicate KnownStatus(status: string) {
    status in {PROVISIONING, READY, FAILED, DESTROYED}
  }

  /** A listing by status has each row as often as the whole listing if it has that status, and never otherwise. */
  lemma {:induction false} StatusCounts(envs: seq<Row>, status: string, row: Row)
    ensures multiset(WithStatus(envs, status))[row] == if row.record.status == status then multiset(envs)[row] else 0
  {
    if envs == [] {
    } else {
      StatusCounts(envs[1..], status, row);
      assert envs == [envs[0]] + envs[1..];
    }
  }

  lemma StatusesPartitionRows(envs: seq<Row>)
    requires forall row | row in envs :: KnownStatus(row.record.status)
    ensures multiset(envs) == multiset(WithStatus(envs, PROVISIONING)) + multiset(WithStatus(envs, READY))
                              + multiset(WithStatus(envs, FAILED)) + multiset(WithStatus(envs, DESTROYED))
  {
    hide WithStatus;
    var all := multiset(WithStatus(envs, PROVISIONING)) + multiset(WithStatus(envs, READY))
    + multiset(WithStatus(envs, FAILED)) + multiset(WithStatus(envs, DESTROYED));
    forall row ensures multiset(envs)[row] == all[row] {
      StatusCounts(envs, PROVISIONING, row);
      StatusCounts(envs, READY, row);
      StatusCounts(envs, FAILED, row);
      StatusCounts(envs, DESTROYED, row);
      assert row !in envs ==> multiset(envs)[row] == 0;
    }
  }

  lemma {:induction false} WithStatusHas(envs: seq<Row>, status: string)
    ensures forall row | row in WithStatus(envs, status) :: row.record.status == status
  {
    if envs != [] { WithStatusHas(envs[1..], status); }
  }

  /** With the code's four statuses, the four filtered listings have no row in common and together are the whole
      store. */
  lemma ListingsPartition(rows: Rows)
    requires forall e :: e in rows ==> KnownStatus(rows[e].record.status)
    ensures multiset(Listing(rows, "")) == multiset(Listing(rows, PROVISIONING)) + multiset(Listing(rows, READY))
                                           + multiset(Listing(rows, FAILED)) + multiset(Listing(rows, DESTROYED))
    ensures forall s, t | s != "" && t != ""
                          && s != t :: forall row | row in Listing(rows, s) :: row !in Listing(rows, t)
  {
    ListingRows(rows);
    StatusesPartitionRows(Listing(rows, ""));
    ListingIsFiltered(rows, PROVISIONING);
    ListingIsFiltered(rows, READY);
    ListingIsFiltered(rows, FAILED);
    ListingIsFiltered(rows, DESTROYED);
    forall s, t | s != "" && t != "" && s != t
      ensures forall row | row in Listing(rows, s) :: row !in Listing(rows, t)
    {
      ListingIsFiltered(rows, s);
      ListingIsFiltered(rows, t);
      WithStatusHas(Listing(rows, ""), s);
      WithStatusHas(Listing(rows, ""), t);
    }
  }

  // ----- lookup by prefix (internal/apiserver/server.go) -----

  /** The first record of the listing whose ID starts with prefix. */
  method FindByPrefix(store: Store, prefix: string) returns (found: Found)
    requires store.Valid()
    ensures found.Found? ==>
              var id := found.row.record.id;
              && id in store.rows && store.rows[id] == found.row && prefix <= id
              && forall e :: e in store.rows && prefix <= e ==>
                               id <= e || exists p :: 0 <= p < |id| && p < |e| && id[..p] == e[..p] && id[p] < e[p]
    ensures found.Found? <==> exists e :: e in store.rows && prefix <= e
    ensures prefix in store.rows ==> found == Found(store.rows[prefix])
  {
    hide Listing, Ordered, Ascending;
    var envs := store.List("");
    ghost var keys := Ordered(store.rows.Keys);
    ListingRows(store.rows);
    for i := 0 to |envs|
      invariant forall j | 0 <= j < i :: !(prefix <= keys[j])
    {
      var row := envs[i];
      assert row == store.rows[keys[i]] && row.record.id == keys[i];
      if |row.record.id| >= |prefix| && row.record.id[..|prefix|] == prefix {
        MatchByPosition(store.rows, keys, prefix, i);
        if prefix in store.rows { StoredPrefixIsFirst(keys, prefix, i); }
        return Found(row);
      }
    }
    forall e | e in store.rows ensures !(prefix <= e) {
      assert e in keys;
    }
    return NotFound;
  }

  lemma FirstMatchIsLeast(keys: seq<string>, prefix: string, i: nat, e: string)
    requires Ascending(keys) && i < |keys| && e in keys && prefix <= e
    requires forall j | 0 <= j < i :: !(prefix <= keys[j])
    ensures Below(keys[i], e)
  {
    var j :| 0 <= j < |keys| && keys[j] == e;
    BelowTotal(e, e);
  }

  lemma MatchByPosition(rows: Rows, keys: seq<string>, prefix: string, i: nat)
    requires Ascending(keys) && i < |keys| && (forall k :: k in keys <==> k in rows)
    requires forall j | 0 <= j < i :: !(prefix <= keys[j])
    ensures
      var id := keys[i];
      forall e :: e in rows && prefix <= e ==>
                    id <= e || exists p :: 0 <= p < |id| && p < |e| && id[..p] == e[..p] && id[p] < e[p]
  {
    var id := keys[i];
    forall e | e in rows && prefix <= e
      ensures id <= e || exists p :: 0 <= p < |id| && p < |e| && id[..p] == e[..p] && id[p] < e[p]
    {
      FirstMatchIsLeast(keys, prefix, i, e);
      BelowIsByteOrder(id, e);
    }
  }

  lemma StoredPrefixIsFirst(keys: seq<string>, prefix: string, i: nat)
    requires Ascending(keys) && i < |keys| && prefix in keys && prefix <= keys[i]
    requires forall j | 0 <= j < i :: !(prefix <= keys[j])
    ensures keys[i] == prefix
  {
    FirstMatchIsLeast(keys, prefix, i, prefix);
    PrefixBelow(prefix, keys[i]);
    BelowTotal(prefix, keys[i]);
  }

  // ----- histories -----

  datatype StoreOp = PutOp(record: Record, now: nat) | DeleteOp(id: string)

  function ApplyOp(rows: Rows, op: StoreOp): Rows {
    match op
    case PutOp(r, now) => rows[r.id := Row(r, now)]
    case DeleteOp(id) => rows - {id}
  }

  function Replay(ops: seq<StoreOp>): Rows {
    if ops == [] then map[] else ApplyOp(Replay(ops[..|ops| - 1]), ops[|ops| - 1])
  }

  function Target(op: StoreOp): string {
    if op.PutOp? then op.record.id else op.id
  }

  /** Operation i puts this ID and no later one concerns it. */
  predicate LastPut(ops: seq<StoreOp>, i: nat, id: string) {
    && i < |ops| && ops[i].PutOp? && ops[i].record.id == id
    && forall j | i < j < |ops| :: Target(ops[j]) != id
  }

  lemma LastPutBefore(ops: seq<StoreOp>, id: string)
    requires ops != []
    ensures
      var n := |ops| - 1;
      forall i: nat :: i < n ==> (LastPut(ops, i, id) <==> LastPut(ops[..n], i, id) && Target(ops[n]) != id)
  {
    var n := |ops| - 1;
    forall i: nat | i < n ensures LastPut(ops, i, id) <==> LastPut(ops[..n], i, id) && Target(ops[n]) != id {
      assert forall j | i < j < n :: Target(ops[j]) == Target(ops[..n][j]);
    }
  }

  /** After any history the keys are the records' own IDs, and an ID is present with the record last put under it. */
  lemma {:induction false} ReplayHoldsLastPut(ops: seq<StoreOp>, id: string)
    ensures Keyed(Replay(ops))
    ensures id in Replay(ops) <==> exists i: nat :: LastPut(ops, i, id)
    ensures forall i: nat :: LastPut(ops, i, id) ==>
                               id in Replay(ops) && Replay(ops)[id] == Row(ops[i].record, ops[i].now)
  {
    if ops == [] {
    } else {
      var n := |ops| - 1;
      var before := ops[..n];
      ReplayHoldsLastPut(before, id);
      LastPutBefore(ops, id);
      if Target(ops[n]) != id && id in Replay(before) {
        var i: nat :| LastPut(before, i, id);
        assert LastPut(ops, i, id);
      }
      if ops[n].PutOp? && Target(ops[n]) == id { assert LastPut(ops, n, id); }
    }
  }
}
