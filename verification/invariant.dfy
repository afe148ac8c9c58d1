/** What every reachable state keeps. */
module Invariant {
  import opened Wrappers
  import opened Naming
  import opened WorkspaceUrl
  import opened Admission
  import opened Model
  import opened WorkspaceTypes
  import opened Program
  import opened System

  // ----- the tree of clusters -----

  type Clusters = map<ClusterId, Place>

  predicate PlaceOk(cl: Clusters, c: ClusterId) {
    && c in cl
    && (cl[c].host.cluster == ORGS || (cl[c].host.cluster in cl && cl[c].host.cluster < c))
    && (cl[c].kind == ORG <==> cl[c].host.cluster == ORGS)
    && (cl[c].kind == ORG ==> cl[c].host.name != "")
  }

  predicate TreeOk(cl: Clusters) {
    ORGS !in cl && forall c {:trigger PlaceOk(cl, c)} :: c in cl ==> PlaceOk(cl, c)
  }

  /** The organization cluster above c, or c itself. */
  function OrgOf(cl: Clusters, c: ClusterId): (o: ClusterId)
    ensures TreeOk(cl) && c in cl ==>
              o in cl && cl[o].host.cluster == ORGS && cl[o].kind == ORG && cl[o].host.name != ""
    decreases c
  {
    assert TreeOk(cl) && c in cl ==> PlaceOk(cl, c);
    if c in cl && cl[c].host.cluster in cl && cl[c].host.cluster < c then OrgOf(cl, cl[c].host.cluster) else c
  }

  predicate Extends(cl: Clusters, cl': Clusters) {
    forall c :: c in cl ==> c in cl' && cl'[c] == cl[c]
  }

  lemma {:induction false} OrgOfStays(cl: Clusters, cl': Clusters, c: ClusterId)
    requires TreeOk(cl) && TreeOk(cl') && Extends(cl, cl') && c in cl
    ensures OrgOf(cl', c) == OrgOf(cl, c)
    decreases c
  {
    assert PlaceOk(cl, c) && PlaceOk(cl', c);
    if cl[c].host.cluster != ORGS {
      OrgOfStays(cl, cl', cl[c].host.cluster);
    }
  }

  function PathOf(url: string): string {
    match WorkspacePath(url)
    case Some(p) => p
    case None => ""
  }

  /** The location that the AccountInfo in c must name as its own. */
  function LocationOf(cl: Clusters, c: ClusterId): Location
    requires c in cl
  {
    Location(cl[c].host.name, c, cl[c].host.cluster, PathOf(cl[c].url), cl[c].url, cl[c].kind)
  }

  /** The workspace type that an account of this kind at k gets. */
  function TypeFor(cl: Clusters, k: Key, kind: string): string {
    if kind == ORG then TypeName(k.name, kind)
    else if OrgOf(cl, k.cluster) in cl then TypeName(cl[OrgOf(cl, k.cluster)].host.name, kind)
    else ""
  }

  // ----- objects -----

  predicate AccountOk(w: World, k: Key) {
    && k in w.accounts
    && (k.cluster == ORGS || Hosted(w, k.cluster))
    && (w.accounts[k].kind == ORG ==> k.cluster == ORGS && k.name != "")
    && (TypeFinalizer in w.accounts[k].finalizers ==> w.accounts[k].kind == ORG)
    && (w.accounts[k].deleting ==> w.accounts[k].finalizers != {})
    && w.accounts[k].uid < w.uid
  }

  predicate AccountsOk(w: World) {
    && (forall k {:trigger AccountOk(w, k)} :: k in w.accounts ==> AccountOk(w, k))
    && (forall k1, k2 :: k1 in w.accounts && k2 in w.accounts && w.accounts[k1].uid == w.accounts[k2].uid ==> k1 == k2)
  }

  /** A workspace belongs to the account of the same key, which is there and cannot go first. */
  predicate WorkspaceOk(w: World, k: Key) {
    && k in w.workspaces && k in w.accounts
    && var ws, a := w.workspaces[k], w.accounts[k];
    && WorkspaceFinalizer in a.finalizers
    && ws.owner == Some(a.uid)
    && (k.cluster != ORGS ==> k.cluster in w.clusters)
    && (a.kind != ORG ==> k.cluster != ORGS)
    && ws.wsType == Some(TypeRef(TypeFor(w.clusters, k, a.kind), ORGS_PATH))
    && (ws.placement.Some? ==>
          var at := ws.placement.value;
          at.cluster in w.clusters && w.clusters[at.cluster] == Place(k, at.url, a.kind))
  }

  predicate WorkspacesOk(w: World) {
    forall k {:trigger WorkspaceOk(w, k)} :: k in w.workspaces ==> WorkspaceOk(w, k)
  }

  /** Every AccountInfo names itself, its parent and its organization, and shares what the
      organization shared at one moment. */
  predicate InfoOk(w: World, h: History, c: ClusterId) {
    && c in w.infos && c in w.clusters && Hosted(w, c)
    && WorkspacePath(w.clusters[c].url).Some?
    && var spec := w.infos[c].spec;
    && spec.account == LocationOf(w.clusters, c)
    && (if w.clusters[c].host.cluster == ORGS then spec.parent == None
        else w.clusters[c].host.cluster in w.clusters &&
             spec.parent == Some(LocationOf(w.clusters, w.clusters[c].host.cluster)))
    && c in h.version
    && h.version[c] < |Past(h, OrgOf(w.clusters, c))|
    && SharedOf(spec) == Past(h, OrgOf(w.clusters, c))[h.version[c]]
    && (w.infos[c].deleting ==> w.infos[c].finalizer)
    && w.infos[c].rv < w.rv
  }

  predicate InfosOk(w: World, h: History) {
    forall c {:trigger InfoOk(w, h, c)} :: c in w.infos ==> InfoOk(w, h, c)
  }

  // ----- history -----

  /** Versions point into the organization's past, and grow towards the organization. */
  predicate VersionOk(cl: Clusters, h: History, c: ClusterId) {
    && c in h.version && c in cl
    && h.version[c] < |Past(h, OrgOf(cl, c))|
    && (if cl[c].host.cluster == ORGS then h.version[c] == |Past(h, c)| - 1
        else cl[c].host.cluster in h.version && h.version[c] <= h.version[cl[c].host.cluster])
  }

  predicate PastOk(cl: Clusters, h: History, o: ClusterId) {
    && o in h.past && o in cl && cl[o].host.cluster == ORGS
    && forall i :: 0 <= i < |h.past[o]| ==> h.past[o][i].organization == LocationOf(cl, o)
  }

  predicate HistoryOk(cl: Clusters, h: History) {
    && (forall c {:trigger VersionOk(cl, h, c)} :: c in h.version ==> VersionOk(cl, h, c))
    && (forall o {:trigger PastOk(cl, h, o)} :: o in h.past ==> PastOk(cl, h, o))
  }

  // ----- workers -----

  predicate Finalizing(pc: Pc) {
    pc.FinWsGet? || pc.FinWsDelete? || pc.FinTypeDelete? || pc.FinRelease?
  }

  /** The finalizer that keeps the account there while the worker is at pc. */
  function Holds(pc: Pc): Finalizer {
    match pc
    case FinTypeDelete(_) => TypeFinalizer
    case FinRelease(f) => f
    case _ => WorkspaceFinalizer
  }

  predicate SelfOk(cl: Clusters, k: Key, kind: string, self: Location) {
    && self.generated in cl
    && cl[self.generated].host == k && cl[self.generated].kind == kind
    && self == LocationOf(cl, self.generated)
    && WorkspacePath(cl[self.generated].url).Some?
  }

  /** A parent record in hand: what was read, at the version noted for it. */
  predicate ParentOk(cl: Clusters, h: History, k: Key, self: Location, p: InfoSpec) {
    && k.cluster in cl && k.cluster in h.version && k in h.read
    && p.account == LocationOf(cl, k.cluster)
    && h.read[k] <= h.version[k.cluster]
    && h.read[k] < |Past(h, OrgOf(cl, k.cluster))|
    && SharedOf(p) == Past(h, OrgOf(cl, k.cluster))[h.read[k]]
    && (self.generated in h.version ==> h.version[self.generated] <= h.read[k])
  }

  predicate GotInfoOk(w: World, self: Location, parent: Option<InfoSpec>, got: Info) {
    if parent.None? then
      && got.spec == OrgSpec(got.spec, self, got.spec.ca)
      && (self.generated in w.infos ==>
            w.infos[self.generated].spec == OrgSpec(w.infos[self.generated].spec, self, got.spec.ca))
    else
      && got.rv < w.rv
      && (self.generated in w.infos ==>
            && w.infos[self.generated].spec == got.spec
            && (w.infos[self.generated].rv == got.rv ==> w.infos[self.generated] == got))
  }

  predicate InfoPcOk(w: World, h: History, k: Key, kind: string, pc: Pc)
    requires pc.AiOwnGet? || pc.AiPut?
  {
    && SelfOk(w.clusters, k, kind, pc.self)
    && (kind == ORG <==> pc.parent.None?)
    && (pc.parent.Some? ==> ParentOk(w.clusters, h, k, pc.self, pc.parent.value))
    && (pc.AiPut? && pc.gotInfo.Some? ==> GotInfoOk(w, pc.self, pc.parent, pc.gotInfo.value))
  }

  predicate TypePcOk(w: World, k: Key, kind: string, typeName: string) {
    typeName == TypeFor(w.clusters, k, kind) && (kind != ORG ==> k.cluster in w.clusters)
  }

  predicate PcOk(w: World, h: History, k: Key, a: Account, pc: Pc) {
    match pc
    case TypeGet(_) => a.kind == ORG
    case TypePut(_, _) => a.kind == ORG
    case WsInfoGet => a.kind != ORG
    case WsTypeGet(n) => TypePcOk(w, k, a.kind, n)
    case WsGet(n) => TypePcOk(w, k, a.kind, n)
    case WsPut(n, got) =>
      TypePcOk(w, k, a.kind, n) &&
      (got.Some? ==> got.value.wsType == Some(TypeRef(n, ORGS_PATH)) && got.value.owner == Some(a.uid))
    case AiParentGet(self) => a.kind != ORG && SelfOk(w.clusters, k, a.kind, self)
    case AiOwnGet(_, _) => InfoPcOk(w, h, k, a.kind, pc)
    case AiPut(_, _, _) => InfoPcOk(w, h, k, a.kind, pc)
    case FinRelease(f) => f == WorkspaceFinalizer ==> k !in w.workspaces
    case _ => true
  }

  predicate WorkerOk(w: World, h: History, k: Key, wk: Worker) {
    && k in w.accounts
    && w.accounts[k].uid == wk.instance.uid && w.accounts[k].kind == wk.instance.kind
    && Holds(wk.pc) in w.accounts[k].finalizers
    && (Finalizing(wk.pc) ==> w.accounts[k].deleting)
    && PcOk(w, h, k, wk.instance, wk.pc)
  }

  predicate WorkersOk(s: Sys) {
    forall k {:trigger WorkerOk(s.w, s.h, k, s.workers[k])} :: k in s.workers ==> WorkerOk(s.w, s.h, k, s.workers[k])
  }

  /** An AccountInfo that is being released is there, and being deleted. */
  predicate ReleasingOk(s: Sys) {
    forall c :: c in s.releasing ==> c in s.w.infos && s.w.infos[c].deleting
  }

  predicate Inv(cfg: Config, s: Sys) {
    && TreeOk(s.w.clusters)
    && AccountsOk(s.w)
    && WorkspacesOk(s.w)
    && InfosOk(s.w, s.h)
    && HistoryOk(s.w.clusters, s.h)
    && WorkersOk(s)
    && ReleasingOk(s)
  }

  lemma InitInv(cfg: Config, types: map<string, WorkspaceType>)
    ensures Inv(cfg, Init(types))
  {
  }
}
