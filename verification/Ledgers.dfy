/** Everything a step can change: the record store, and a ledger of external resources
    (AWS, svid-exchange policies, local files) that refuses a delete while something depends on the target. */
module Ledgers {
  import opened Records

  datatype Key =
    | VpcKey(id: string) | SubnetKey(id: string) | GroupKey(id: string) | InstanceKey(id: string)
    | DbKey(name: string) | BucketKey(name: string) | PolicyKey(name: string) | FileKey(path: string)

  datatype DbState = Creating | Available | Deleting
  datatype InstanceState = Pending | Running | ShuttingDown

  /** One entry of a versioned bucket, all under the key config.json. */
  datatype Version = Placeholder | Json(body: ConfigJson) | DeleteMarker

  /** What a security group lets in. */
  datatype Ingress = Closed | Open(port: int, cidr: string)

  /** Versions of a bucket are kept newest first, the order in which they are listed. */
  datatype Item =
    | VpcItem(cidr: string, dnsHostnames: bool)
    | SubnetItem(vpc: string, cidr: string)
    | GroupItem(vpc: string, ingress: Ingress)
    | InstanceItem(subnet: string, group: string, instanceState: InstanceState)
    | DbItem(group: string, password: string, dbState: DbState)
    | BucketItem(versioned: bool, versions: seq<Version>)
    | PolicyItem(subject: string, target: string, scopes: seq<string>, maxTtl: int)
    | FileItem(file: EnvFile)

  function KeyName(k: Key): string {
    match k
    case VpcKey(id) => id
    case SubnetKey(id) => id
    case GroupKey(id) => id
    case InstanceKey(id) => id
    case DbKey(name) => name
    case BucketKey(name) => name
    case PolicyKey(name) => name
    case FileKey(path) => path
  }

  /** Resources whose identifier the cloud picks, and never picks twice. */
  predicate CloudNamed(k: Key) {
    k.VpcKey? || k.SubnetKey? || k.GroupKey? || k.InstanceKey?
  }

  /** The resources that must outlive this one. */
  function Uses(item: Item): set<Key> {
    match item
    case SubnetItem(vpc, _) => {VpcKey(vpc)}
    case GroupItem(vpc, _) => {VpcKey(vpc)}
    case InstanceItem(subnet, group, _) => {SubnetKey(subnet), GroupKey(group)}
    case DbItem(group, _, _) => {GroupKey(group)}
    case _ => {}
  }

  type Ledger = map<Key, Item>

  /** issued remembers, for every identifier the cloud ever picked, the short ID of the environment it was tagged
      with. */
  datatype World = World(store: map<string, Record>, ledger: Ledger, issued: map<Key, string>)

  /** What one external request asks for. */
  datatype Op =
    | Create(key: Key, item: Item)   // refused if it exists or something it uses does not
    | Remove(key: Key)               // refused if absent, in use, or a bucket that is not empty
    | Change(key: Key, item: Item)   // refused if absent
    | Overwrite(key: Key, item: Item)
    | Erase(key: Key)                // tolerates absence
    | Query                          // changes nothing
    | Reject                         // the service refuses

  predicate Legal(w: World, op: Op) {
    match op
    case Create(key, item) =>
      && KeyName(key) != ""
      && key !in w.ledger
      && (CloudNamed(key) ==> key !in w.issued)
      && Uses(item) <= w.ledger.Keys
    case Remove(key) =>
      && key in w.ledger
      && (forall k :: k in w.ledger ==> key !in Uses(w.ledger[k]))
      && (w.ledger[key].BucketItem? ==> w.ledger[key].versions == [])
    case Change(key, _) => key in w.ledger
    case Overwrite(_, _) => true
    case Erase(_) => true
    case Query => true
    case Reject => false
  }

  function Apply(w: World, op: Op, tag: string): World {
    match op
    case Create(key, item) =>
      w.(ledger := w.ledger[key := item], issued := if CloudNamed(key) then w.issued[key := tag] else w.issued)
    case Remove(key) => w.(ledger := w.ledger - {key})
    case Change(key, item) => w.(ledger := w.ledger[key := item])
    case Overwrite(key, item) => w.(ledger := w.ledger[key := item])
    case Erase(key) => w.(ledger := w.ledger - {key})
    case Query => w
    case Reject => w
  }

  /** The newest first list of versions after a PutObject or DeleteObject of config.json. */
  function Pushed(bucket: Item, v: Version): Item
    requires bucket.BucketItem?
  {
    if bucket.versioned then bucket.(versions := [v] + bucket.versions)
    else if v.DeleteMarker? then bucket.(versions := [])
    else bucket.(versions := [v])
  }

  /** What becomes of a resource by itself, without any request. */
  function Grown(item: Item): Item {
    if item.DbItem? && item.dbState == Creating then item.(dbState := Available)
    else if item.InstanceItem? && item.instanceState == Pending then item.(instanceState := Running)
    else item
  }

  /** Time passes between two requests: some of these resources have become available or running. */
  ghost predicate Matures(w: World, w': World, keys: set<Key>) {
    && w'.store == w.store && w'.issued == w.issued && w'.ledger.Keys == w.ledger.Keys
    && forall k :: k in w.ledger && k in w'.ledger ==>
                     w'.ledger[k] == w.ledger[k] || (k in keys && w'.ledger[k] == Grown(w.ledger[k]))
  }

  /** A database in creation may become available, and a pending instance running. */
  lemma CanMature(w: World, k: Key)
    requires k in w.ledger
    ensures
      var item := w.ledger[k];
      && (item.DbItem? && item.dbState == Creating ==>
            Matures(w, w.(ledger := w.ledger[k := item.(dbState := Available)]), {k}))
      && (item.InstanceItem? && item.instanceState == Pending ==>
            Matures(w, w.(ledger := w.ledger[k := item.(instanceState := Running)]), {k}))
  {
    var item := w.ledger[k];
    if item.DbItem? {
      assert w.ledger[k := item.(dbState := Available)].Keys == w.ledger.Keys;
    } else if item.InstanceItem? {
      assert w.ledger[k := item.(instanceState := Running)].Keys == w.ledger.Keys;
    }
  }
}
