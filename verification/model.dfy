/** The objects the operator reads and writes, and the store that holds them. */
module Model {
  import opened Wrappers
  import opened Naming
  import opened Admission

  /** Logical clusters, numbered in the order kcp allocates them. */
  type ClusterId = nat

  /** The cluster root:orgs, which holds the organizations' accounts and all workspace types. */
  const ORGS: ClusterId := 0
  const ORGS_PATH := "root:orgs"

  /** A cluster-scoped object: its cluster and its name. */
  datatype Key = Key(cluster: ClusterId, name: string)

  datatype Finalizer = WorkspaceFinalizer | TypeFinalizer

  datatype Account = Account(uid: nat, kind: string, finalizers: set<Finalizer>, deleting: bool)

  datatype TypeRef = TypeRef(name: string, path: string)

  datatype Phase = Scheduling | Initializing | Ready | OtherPhase

  /** What kcp fills in when it schedules a workspace. */
  datatype Placement = Placement(cluster: ClusterId, url: string)

  datatype Workspace = Workspace(wsType: Option<TypeRef>, owner: Option<nat>,
                                 placement: Option<Placement>, phase: Phase, deleting: bool, rv: nat)

  datatype Location = Location(name: string, generated: ClusterId, origin: ClusterId,
                               path: string, url: string, kind: string)

  datatype Oidc = Oidc(issuer: string, clients: map<string, string>)

  datatype InfoSpec = InfoSpec(account: Location, parent: Option<Location>, organization: Location,
                               fga: string, oidc: Option<Oidc>, ca: string)

  /** An AccountInfo; each cluster has at most one, named "account". */
  datatype Info = Info(spec: InfoSpec, finalizer: bool, deleting: bool, rv: nat)

  /** A workspace type; foreign stands for every field the operator never sets. */
  datatype WorkspaceType = WorkspaceType(labels: map<string, string>, extend: seq<TypeRef>,
                                         defaultChild: Option<TypeRef>,
                                         parents: Option<seq<TypeRef>>, children: Option<seq<TypeRef>>,
                                         foreign: string, ready: bool)

  /** kcp's record of an allocated cluster: the workspace it was allocated for, and its URL.
      It outlives the workspace. The type of the owning account is kept for the statements. */
  datatype Place = Place(host: Key, url: string, kind: string)

  datatype World = World(accounts: map<Key, Account>, workspaces: map<Key, Workspace>,
                         infos: map<ClusterId, Info>, types: map<string, WorkspaceType>,
                         clusters: map<ClusterId, Place>, rv: nat, uid: nat)

  function Find<K, V>(m: map<K, V>, k: K): Option<V> {
    if k in m then Some(m[k]) else None
  }

  datatype Sub = WorkspaceTypeSub | WorkspaceSub | AccountInfoSub | WorkspaceReadySub

  /** What the operator is started with. */
  datatype Config = Config(pipeline: seq<Sub>, validator: Validator)

  /** There is a workspace type of this name, and it is Ready. */
  predicate IsReady(w: World, name: string) {
    name in w.types && w.types[name].ready
  }

  /** The workspace that hosts cluster c is still there. */
  predicate Hosted(w: World, c: ClusterId) {
    c in w.clusters && w.clusters[c].host in w.workspaces &&
    w.workspaces[w.clusters[c].host].placement == Some(Placement(c, w.clusters[c].url))
  }

  /** Cluster c accepts new objects: kcp refuses creates in a terminating cluster. */
  predicate Open(w: World, c: ClusterId) {
    c == ORGS || (Hosted(w, c) && !w.workspaces[w.clusters[c].host].deleting)
  }
}
