/** The subroutines as programs of API calls: Call performs one call and says how to go on.
    Interleaved runs take these calls one at a time; Run takes them in a row. */
module Program {
  import opened Wrappers
  import opened Naming
  import opened WorkspaceUrl
  import opened Model
  import opened WorkspaceTypes

  /** The next call of a subroutine, with what it has read so far. */
  datatype Pc =
    // WorkspaceType
    | TypeGet(role: Role)
    | TypePut(role: Role, gotType: Option<WorkspaceType>)
    // Workspace
    | WsInfoGet
    | WsTypeGet(typeName: string)
    | WsGet(typeName: string)
    | WsPut(typeName: string, gotWs: Option<Workspace>)
    // ManageAccountInfo
    | AiWsGet
    | AiParentGet(self: Location)
    | AiOwnGet(self: Location, parent: Option<InfoSpec>)
    | AiPut(self: Location, parent: Option<InfoSpec>, gotInfo: Option<Info>)
    // WorkspaceReady
    | ReadyGet
    // finalizers, and the lifecycle's removal of the finalizer after them
    | FinWsGet
    | FinWsDelete
    | FinTypeDelete(role: Role)
    | FinRelease(finalizer: Finalizer)

  datatype Signal = Go(pc: Pc) | Ok | Requeue | Error

  function Rank(pc: Pc): nat {
    match pc
    case TypeGet(OrgRole) => 4
    case TypePut(OrgRole, _) => 3
    case TypeGet(AccountRole) => 2
    case TypePut(AccountRole, _) => 1
    case WsInfoGet => 4
    case WsTypeGet(_) => 3
    case WsGet(_) => 2
    case WsPut(_, _) => 1
    case AiWsGet => 4
    case AiParentGet(_) => 3
    case AiOwnGet(_, _) => 2
    case AiPut(_, _, _) => 1
    case ReadyGet => 1
    case FinWsGet => 2
    case FinWsDelete => 1
    case FinTypeDelete(OrgRole) => 2
    case FinTypeDelete(AccountRole) => 1
    case FinRelease(_) => 0
  }

  /** Where a subroutine starts; none when it has nothing to do for this account. */
  function Entry(k: Key, a: Account, sub: Sub): Option<Pc> {
    match sub
    case WorkspaceTypeSub => if a.kind == ORG then Some(TypeGet(OrgRole)) else None
    case WorkspaceSub => Some(if a.kind == ORG then WsTypeGet(TypeName(k.name, a.kind)) else WsInfoGet)
    case AccountInfoSub => Some(AiWsGet)
    case WorkspaceReadySub => Some(ReadyGet)
  }

  function CallType(w: World, k: Key, a: Account, pc: Pc): (r: (World, Signal))
    requires pc.TypeGet? || pc.TypePut?
    ensures r.0.clusters == w.clusters && r.0.uid == w.uid && w.rv <= r.0.rv
    ensures r.1.Go? ==> Rank(r.1.pc) < Rank(pc)
  {
    var name := RoleName(pc.role, k.name);
    var desired := Generate(pc.role, k.name);
    var next := if pc.role == OrgRole then Go(TypeGet(AccountRole)) else Ok;
    match pc
    case TypeGet(role) => (w, Go(TypePut(role, Find(w.types, name))))
    case TypePut(_, None) =>
      if name in w.types then (w, Error) else (w.(types := w.types[name := desired]), next)
    case TypePut(_, Some(got)) =>
      var mutated := Mutate(got, desired);
      if mutated == got then (w, next)
      else if name !in w.types then (w, Error)
      else (w.(types := w.types[name := Patch(w.types[name], got, mutated)]), next)
  }

  function CallWorkspace(w: World, k: Key, a: Account, pc: Pc): (r: (World, Signal))
    requires pc.WsInfoGet? || pc.WsTypeGet? || pc.WsGet? || pc.WsPut?
    ensures r.0.clusters == w.clusters && r.0.uid == w.uid && w.rv <= r.0.rv
    ensures r.1.Go? ==> Rank(r.1.pc) < Rank(pc)
  {
    match pc
    case WsInfoGet =>
      if k.cluster !in w.infos then (w, Requeue)
      else
        var org := w.infos[k.cluster].spec.organization.name;
        (w, if org == "" then Requeue else Go(WsTypeGet(TypeName(org, a.kind))))
    case WsTypeGet(typeName) =>
      (w, if typeName in w.types && w.types[typeName].ready then Go(WsGet(typeName)) else Requeue)
    case WsGet(typeName) => (w, Go(WsPut(typeName, Find(w.workspaces, k))))
    case WsPut(typeName, None) =>
      if k in w.workspaces || !Open(w, k.cluster) then (w, Error)
      else
        var ws := Workspace(Some(TypeRef(typeName, ORGS_PATH)), Some(a.uid), None, Scheduling, false, w.rv);
        (w.(workspaces := w.workspaces[k := ws], rv := w.rv + 1), Ok)
    case WsPut(typeName, Some(got)) =>
      var mutated := got.(wsType := Some(TypeRef(typeName, ORGS_PATH)), owner := Some(a.uid));
      if mutated == got then (w, Ok)
      else if k !in w.workspaces || w.workspaces[k].rv != got.rv then (w, Error)
      else (w.(workspaces := w.workspaces[k := mutated.(rv := w.rv)], rv := w.rv + 1), Ok)
  }

  /** The AccountInfo of an organization: FGA store and OIDC are left to an external writer. */
  function OrgSpec(spec: InfoSpec, self: Location, ca: string): InfoSpec {
    spec.(account := self, parent := None, organization := self, ca := ca)
  }

  /** The AccountInfo of any other account: all it shares is copied from the parent's. */
  function ChildSpec(self: Location, parent: InfoSpec, ca: string): InfoSpec {
    InfoSpec(self, Some(parent.account), parent.organization, parent.fga, parent.oidc, ca)
  }

  const ZERO_LOCATION := Location("", 0, 0, "", "", "")
  const ZERO_SPEC := InfoSpec(ZERO_LOCATION, None, ZERO_LOCATION, "", None, "")

  /** A merge patch goes down to the single fields. */
  function PatchLocation(cur: Location, got: Location, mutated: Location): Location {
    Location(if got.name == mutated.name then cur.name else mutated.name,
             if got.generated == mutated.generated then cur.generated else mutated.generated,
             if got.origin == mutated.origin then cur.origin else mutated.origin,
             if got.path == mutated.path then cur.path else mutated.path,
             if got.url == mutated.url then cur.url else mutated.url,
             if got.kind == mutated.kind then cur.kind else mutated.kind)
  }

  function PatchSpec(cur: InfoSpec, got: InfoSpec, mutated: InfoSpec): InfoSpec {
    InfoSpec(PatchLocation(cur.account, got.account, mutated.account),
             if got.parent == mutated.parent then cur.parent else mutated.parent,
             PatchLocation(cur.organization, got.organization, mutated.organization),
             if got.fga == mutated.fga then cur.fga else mutated.fga,
             if got.oidc == mutated.oidc then cur.oidc else mutated.oidc,
             if got.ca == mutated.ca then cur.ca else mutated.ca)
  }

  function PutInfo(w: World, c: ClusterId, spec: InfoSpec, finalizer: bool, deleting: bool): World {
    w.(infos := w.infos[c := Info(spec, finalizer, deleting, w.rv)], rv := w.rv + 1)
  }

  /** The account's own location, once its workspace is far enough and has a usable URL. */
  function ReadLocation(w: World, k: Key, a: Account): (r: Signal)
    ensures r.Go? ==> r.pc.AiParentGet? || r.pc.AiOwnGet?
  {
    if k !in w.workspaces then Error
    else
      var ws := w.workspaces[k];
      if ws.phase != Initializing && ws.phase != Ready then Requeue
      else if ws.placement.None? || WorkspacePath(ws.placement.value.url).None? then Error
      else if !Hosted(w, ws.placement.value.cluster) then Error
      else
        var at := ws.placement.value;
        var self := Location(k.name, at.cluster, k.cluster, WorkspacePath(at.url).value, at.url, a.kind);
        Go(if a.kind == ORG then AiOwnGet(self, None) else AiParentGet(self))
  }

  function CreateInfo(ca: string, w: World, self: Location, parent: Option<InfoSpec>): (r: (World, Signal))
    ensures r.0.clusters == w.clusters && r.0.uid == w.uid && w.rv <= r.0.rv
    ensures !r.1.Go?
  {
    var spec := if parent.Some? then ChildSpec(self, parent.value, ca) else OrgSpec(ZERO_SPEC, self, ca);
    if self.generated in w.infos || !Open(w, self.generated) then (w, Error)
    else (PutInfo(w, self.generated, spec, false, false), Ok)
  }

  function PatchOrgInfo(ca: string, w: World, self: Location, got: Info): (r: (World, Signal))
    ensures r.0.clusters == w.clusters && r.0.uid == w.uid && w.rv <= r.0.rv
    ensures !r.1.Go?
  {
    var mutated := OrgSpec(got.spec, self, ca);
    if mutated == got.spec then (w, Ok)
    else if self.generated !in w.infos then (w, Error)
    else
      var cur := w.infos[self.generated];
      (PutInfo(w, self.generated, PatchSpec(cur.spec, got.spec, mutated), cur.finalizer, cur.deleting), Ok)
  }

  function UpdateChildInfo(ca: string, w: World, self: Location, parent: InfoSpec, got: Info): (r: (World, Signal))
    ensures r.0.clusters == w.clusters && r.0.uid == w.uid && w.rv <= r.0.rv
    ensures !r.1.Go?
  {
    var mutated := ChildSpec(self, parent, ca);
    if mutated == got.spec then (w, Ok)
    else if self.generated !in w.infos || w.infos[self.generated].rv != got.rv then (w, Error)
    else (PutInfo(w, self.generated, mutated, got.finalizer, got.deleting), Ok)
  }

  function WriteInfo(ca: string, w: World, self: Location, parent: Option<InfoSpec>, got: Option<Info>)
    : (r: (World, Signal))
    ensures r.0.clusters == w.clusters && r.0.uid == w.uid && w.rv <= r.0.rv
    ensures r.0 == w || (r.1.Ok? && self.generated in r.0.infos && r.0.infos[self.generated].rv == w.rv &&
                         r.0 == w.(infos := w.infos[self.generated := r.0.infos[self.generated]], rv := w.rv + 1))
    ensures !r.1.Go?
  {
    if got.None? then CreateInfo(ca, w, self, parent)
    else if parent.None? then PatchOrgInfo(ca, w, self, got.value)
    else UpdateChildInfo(ca, w, self, parent.value, got.value)
  }

  function CallInfo(ca: string, w: World, k: Key, a: Account, pc: Pc): (r: (World, Signal))
    requires pc.AiWsGet? || pc.AiParentGet? || pc.AiOwnGet? || pc.AiPut?
    ensures r.0.clusters == w.clusters && r.0.uid == w.uid && w.rv <= r.0.rv
    ensures r.1.Go? ==> Rank(r.1.pc) < Rank(pc)
  {
    match pc
    case AiWsGet => (w, ReadLocation(w, k, a))
    case AiParentGet(self) =>
      (w, if k.cluster !in w.infos then Requeue else Go(AiOwnGet(self, Some(w.infos[k.cluster].spec))))
    case AiOwnGet(self, parent) => (w, Go(AiPut(self, parent, Find(w.infos, self.generated))))
    case AiPut(self, parent, got) => WriteInfo(ca, w, self, parent, got)
  }

  /** Deletion is only requested: kcp removes the workspace once its cluster is empty. */
  function DeleteWorkspace(w: World, k: Key): World
    requires k in w.workspaces
  {
    if w.workspaces[k].deleting then w
    else w.(workspaces := w.workspaces[k := w.workspaces[k].(deleting := true, rv := w.rv)], rv := w.rv + 1)
  }

  /** Removing a finalizer; the last one lets go of a deleted account. */
  function Release(w: World, k: Key, f: Finalizer): World {
    if k !in w.accounts then w
    else
      var a := w.accounts[k].(finalizers := w.accounts[k].finalizers - {f});
      w.(accounts := if a.deleting && a.finalizers == {} then w.accounts - {k} else w.accounts[k := a])
  }

  function CallFinalize(w: World, k: Key, pc: Pc): (r: (World, Signal))
    requires pc.FinWsGet? || pc.FinWsDelete? || pc.FinTypeDelete? || pc.FinRelease?
    ensures r.0.clusters == w.clusters && r.0.uid == w.uid && w.rv <= r.0.rv
    ensures r.1.Go? ==> Rank(r.1.pc) < Rank(pc)
  {
    match pc
    case FinWsGet =>
      (w, if k !in w.workspaces then Ok else if w.workspaces[k].deleting then Requeue else Go(FinWsDelete))
    case FinWsDelete => if k !in w.workspaces then (w, Error) else (DeleteWorkspace(w, k), Requeue)
    case FinTypeDelete(role) =>
      (w.(types := w.types - {RoleName(role, k.name)}),
       if role == OrgRole then Go(FinTypeDelete(AccountRole)) else Ok)
    case FinRelease(f) => (Release(w, k, f), Ok)
  }

  /** One API call on behalf of account a at k. */
  function Call(ca: string, w: World, k: Key, a: Account, pc: Pc): (r: (World, Signal))
    ensures r.0.clusters == w.clusters && r.0.uid == w.uid && w.rv <= r.0.rv
    ensures r.1.Go? ==> Rank(r.1.pc) < Rank(pc)
  {
    match pc
    case TypeGet(_) => CallType(w, k, a, pc)
    case TypePut(_, _) => CallType(w, k, a, pc)
    case WsInfoGet => CallWorkspace(w, k, a, pc)
    case WsTypeGet(_) => CallWorkspace(w, k, a, pc)
    case WsGet(_) => CallWorkspace(w, k, a, pc)
    case WsPut(_, _) => CallWorkspace(w, k, a, pc)
    case AiWsGet => CallInfo(ca, w, k, a, pc)
    case AiParentGet(_) => CallInfo(ca, w, k, a, pc)
    case AiOwnGet(_, _) => CallInfo(ca, w, k, a, pc)
    case AiPut(_, _, _) => CallInfo(ca, w, k, a, pc)
    case ReadyGet =>
      (w, if k !in w.workspaces then Error else if w.workspaces[k].phase == Ready then Ok else Requeue)
    case FinWsGet => CallFinalize(w, k, pc)
    case FinWsDelete => CallFinalize(w, k, pc)
    case FinTypeDelete(_) => CallFinalize(w, k, pc)
    case FinRelease(_) => CallFinalize(w, k, pc)
  }

  datatype Result = Done | Again | Failed

  /** The create-or-update helpers make no second call when the object they got is already right. */
  predicate Idle(ca: string, k: Key, a: Account, pc: Pc) {
    match pc
    case TypePut(role, Some(got)) => Mutate(got, Generate(role, k.name)) == got
    case WsPut(n, Some(got)) => got.wsType == Some(TypeRef(n, ORGS_PATH)) && got.owner == Some(a.uid)
    case AiPut(self, None, Some(got)) => OrgSpec(got.spec, self, ca) == got.spec
    case AiPut(self, Some(p), Some(got)) => ChildSpec(self, p, ca) == got.spec
    case _ => false
  }

  /** The calls of one subroutine in a row, of which the one numbered failAt (from 0) is the
      first to come back with an error; None is a pass without errors. */
  function Run(ca: string, w: World, k: Key, a: Account, pc: Pc, failAt: Option<nat>): (World, Result)
    decreases Rank(pc)
  {
    if failAt == Some(0) && !Idle(ca, k, a, pc) then (w, Failed)
    else
      var (w', signal) := Call(ca, w, k, a, pc);
      match signal
      case Go(pc') => Run(ca, w', k, a, pc', if Idle(ca, k, a, pc) then failAt else Later(failAt))
      case Ok => (w', Done)
      case Requeue => (w', Again)
      case Error => (w', Failed)
  }

  function Later(failAt: Option<nat>): Option<nat>
    requires failAt != Some(0)
  {
    if failAt.None? then None else Some(failAt.value - 1)
  }

  function RunSub(ca: string, w: World, k: Key, a: Account, sub: Sub, failAt: Option<nat>): (World, Result) {
    match Entry(k, a, sub)
    case None => (w, Done)
    case Some(pc) => Run(ca, w, k, a, pc, failAt)
  }
}
