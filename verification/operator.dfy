/** The operator's subroutines as it runs them, one call on the platform after the other. Each is
    proved to do exactly what its program of calls does, whichever call fails. */
module Operator {
  import opened Wrappers
  import opened Naming
  import opened WorkspaceUrl
  import opened Model
  import opened WorkspaceTypes
  import opened Program
  import opened System
  import opened Deadlock
  import opened Answers

  /** Why a call comes back with an error: the cluster does not know the kind, a listing is answered
      with "not found", or anything else. */
  datatype Reason = NoMatch | ListNotFound | OtherReason

  datatype Got<+T> = Found(value: T) | NotFound | Unreachable(reason: Reason)

  datatype Wrote = Written | Missing | Refused

  /** The multicluster manager with the store behind its clients. */
  class Manager {
    const ca: string
    var accounts: map<Key, Account>
    var workspaces: map<Key, Workspace>
    var infos: map<ClusterId, Info>
    var types: map<string, WorkspaceType>
    var clusters: map<ClusterId, Place>
    var rv: nat
    var uid: nat
    /** How many more calls come through before one comes back with an error, and why it does. */
    var failAt: Option<nat>
    const reason: Reason

    constructor (ca: string, w: World, failAt: Option<nat>, reason: Reason)
      ensures Store() == w && this.failAt == failAt && this.ca == ca && this.reason == reason
    {
      this.ca, this.reason := ca, reason;
      accounts, workspaces, infos, types := w.accounts, w.workspaces, w.infos, w.types;
      clusters, rv, uid := w.clusters, w.rv, w.uid;
      this.failAt := failAt;
    }

    function Store(): World
      reads this`accounts, this`workspaces, this`infos, this`types, this`clusters, this`rv, this`uid
    {
      World(accounts, workspaces, infos, types, clusters, rv, uid)
    }

    method Reach() returns (up: bool)
      modifies this`failAt
      ensures up <==> old(failAt) != Some(0)
      ensures up ==> failAt == Later(old(failAt))
    {
      up := failAt != Some(0);
      if up {
        failAt := Later(failAt);
      }
    }

    /** A client for a cluster, from the manager's own records: no call. */
    method GetCluster(c: ClusterId) returns (ok: bool)
      ensures ok <==> Hosted(Store(), c)
    {
      ok := Hosted(Store(), c);
    }

    method GetType(name: string) returns (r: Got<WorkspaceType>)
      modifies this`failAt
      ensures r == (if old(failAt) == Some(0) then Unreachable(reason)
                    else if name in types then Found(types[name]) else NotFound)
      ensures old(failAt) != Some(0) ==> failAt == Later(old(failAt))
    {
      var up := Reach();
      r := if !up then Unreachable(reason) else if name in types then Found(types[name]) else NotFound;
    }

    method CreateType(name: string, t: WorkspaceType) returns (r: Wrote)
      modifies this`failAt, this`types
      ensures r == (if old(failAt) == Some(0) || name in old(types) then Refused else Written)
      ensures types == if r == Written then old(types)[name := t] else old(types)
      ensures old(failAt) != Some(0) ==> failAt == Later(old(failAt))
    {
      var up := Reach();
      r := if up && name !in types then Written else Refused;
      if r == Written {
        types := types[name := t];
      }
    }

    method PatchType(name: string, got: WorkspaceType, mutated: WorkspaceType) returns (r: Wrote)
      modifies this`failAt, this`types
      ensures r == (if old(failAt) == Some(0) then Refused else if name in old(types) then Written else Missing)
      ensures types == if r == Written then old(types)[name := Patch(old(types)[name], got, mutated)] else old(types)
      ensures old(failAt) != Some(0) ==> failAt == Later(old(failAt))
    {
      var up := Reach();
      r := if !up then Refused else if name in types then Written else Missing;
      if r == Written {
        types := types[name := Patch(types[name], got, mutated)];
      }
    }

    method DeleteType(name: string) returns (r: Wrote)
      modifies this`failAt, this`types
      ensures r == (if old(failAt) == Some(0) then Refused else if name in old(types) then Written else Missing)
      ensures types == if r == Written then old(types) - {name} else old(types)
      ensures old(failAt) != Some(0) ==> failAt == Later(old(failAt))
    {
      var up := Reach();
      r := if !up then Refused else if name in types then Written else Missing;
      if r == Written {
        types := types - {name};
      }
    }

    method GetWorkspace(k: Key) returns (r: Got<Workspace>)
      modifies this`failAt
      ensures r == (if old(failAt) == Some(0) then Unreachable(reason)
                    else if k in workspaces then Found(workspaces[k]) else NotFound)
      ensures old(failAt) != Some(0) ==> failAt == Later(old(failAt))
    {
      var up := Reach();
      r := if !up then Unreachable(reason) else if k in workspaces then Found(workspaces[k]) else NotFound;
    }

    /** The server gives every object it writes a new resource version. */
    method CreateWorkspace(k: Key, ws: Workspace) returns (r: Wrote)
      modifies this`failAt, this`workspaces, this`rv
      ensures r == (if old(failAt) == Some(0) || k in old(workspaces) || !old(Open(Store(), k.cluster))
                    then Refused else Written)
      ensures workspaces == if r == Written then old(workspaces)[k := ws.(rv := old(rv))] else old(workspaces)
      ensures rv == if r == Written then old(rv) + 1 else old(rv)
      ensures old(failAt) != Some(0) ==> failAt == Later(old(failAt))
    {
      var up := Reach();
      r := if up && k !in workspaces && Open(Store(), k.cluster) then Written else Refused;
      if r == Written {
        workspaces, rv := workspaces[k := ws.(rv := rv)], rv + 1;
      }
    }

    /** An update carries the resource version that was read, and is refused unless it is the current one. */
    method UpdateWorkspace(k: Key, ws: Workspace) returns (r: Wrote)
      modifies this`failAt, this`workspaces, this`rv
      ensures r == (if old(failAt) == Some(0) then Refused else if k !in old(workspaces) then Missing
                    else if old(workspaces)[k].rv != ws.rv then Refused else Written)
      ensures workspaces == if r == Written then old(workspaces)[k := ws.(rv := old(rv))] else old(workspaces)
      ensures rv == if r == Written then old(rv) + 1 else old(rv)
      ensures old(failAt) != Some(0) ==> failAt == Later(old(failAt))
    {
      var up := Reach();
      r := if !up then Refused else if k !in workspaces then Missing
           else if workspaces[k].rv != ws.rv then Refused else Written;
      if r == Written {
        workspaces, rv := workspaces[k := ws.(rv := rv)], rv + 1;
      }
    }

    method DeleteWorkspace(k: Key) returns (r: Wrote)
      modifies this`failAt, this`workspaces, this`rv
      ensures r == (if old(failAt) == Some(0) then Refused else if k in old(workspaces) then Written else Missing)
      ensures Store() == if r == Written then Program.DeleteWorkspace(old(Store()), k) else old(Store())
      ensures old(failAt) != Some(0) ==> failAt == Later(old(failAt))
    {
      var up := Reach();
      r := if !up then Refused else if k in workspaces then Written else Missing;
      if r == Written && !workspaces[k].deleting {
        workspaces, rv := workspaces[k := workspaces[k].(deleting := true, rv := rv)], rv + 1;
      }
    }

    method GetInfo(c: ClusterId) returns (r: Got<Info>)
      modifies this`failAt
      ensures r == (if old(failAt) == Some(0) then Unreachable(reason)
                    else if c in infos then Found(infos[c]) else NotFound)
      ensures old(failAt) != Some(0) ==> failAt == Later(old(failAt))
    {
      var up := Reach();
      r := if !up then Unreachable(reason) else if c in infos then Found(infos[c]) else NotFound;
    }

    method CreateInfo(c: ClusterId, spec: InfoSpec) returns (r: Wrote)
      modifies this`failAt, this`infos, this`rv
      ensures r == (if old(failAt) == Some(0) || c in old(infos) || !old(Open(Store(), c)) then Refused else Written)
      ensures Store() == if r == Written then PutInfo(old(Store()), c, spec, false, false) else old(Store())
      ensures old(failAt) != Some(0) ==> failAt == Later(old(failAt))
    {
      var up := Reach();
      r := if up && c !in infos && Open(Store(), c) then Written else Refused;
      if r == Written {
        infos, rv := infos[c := Info(spec, false, false, rv)], rv + 1;
      }
    }

    method PatchInfo(c: ClusterId, got: InfoSpec, mutated: InfoSpec) returns (r: Wrote)
      modifies this`failAt, this`infos, this`rv
      ensures r == (if old(failAt) == Some(0) then Refused else if c in old(infos) then Written else Missing)
      ensures Store() == if r == Written then
                           var cur := old(infos)[c];
                           PutInfo(old(Store()), c, PatchSpec(cur.spec, got, mutated), cur.finalizer, cur.deleting)
                         else old(Store())
      ensures old(failAt) != Some(0) ==> failAt == Later(old(failAt))
    {
      var up := Reach();
      r := if !up then Refused else if c in infos then Written else Missing;
      if r == Written {
        var cur := infos[c];
        infos, rv := infos[c := Info(PatchSpec(cur.spec, got, mutated), cur.finalizer, cur.deleting, rv)], rv + 1;
      }
    }

    method UpdateInfo(c: ClusterId, info: Info) returns (r: Wrote)
      modifies this`failAt, this`infos, this`rv
      ensures r == (if old(failAt) == Some(0) then Refused else if c !in old(infos) then Missing
                    else if old(infos)[c].rv != info.rv then Refused else Written)
      ensures Store() == if r == Written then PutInfo(old(Store()), c, info.spec, info.finalizer, info.deleting)
                         else old(Store())
      ensures old(failAt) != Some(0) ==> failAt == Later(old(failAt))
    {
      var up := Reach();
      r := if !up then Refused else if c !in infos then Missing
           else if infos[c].rv != info.rv then Refused else Written;
      if r == Written {
        infos, rv := infos[c := info.(rv := rv)], rv + 1;
      }
    }

    method ListAccounts(c: ClusterId) returns (r: Got<set<Key>>)
      modifies this`failAt
      ensures r == if old(failAt) == Some(0) then Unreachable(reason)
                   else Found(set k | k in accounts && k.cluster == c)
      ensures old(failAt) != Some(0) ==> failAt == Later(old(failAt))
    {
      var up := Reach();
      r := if up then Found(set k | k in accounts && k.cluster == c) else Unreachable(reason);
    }
  }

  // ----- WorkspaceType -----

  class WorkspaceTypeSubroutine {
    const mgr: Manager

    constructor (mgr: Manager)
      ensures this.mgr == mgr
    {
      this.mgr := mgr;
    }

    /** Get, then create or patch; what comes next depends on the role. */
    method CreateOrPatchWorkspaceType(k: Key, a: Account, role: Role) returns (ok: bool)
      modifies mgr
      ensures var before := Run(mgr.ca, old(mgr.Store()), k, a, TypeGet(role), old(mgr.failAt));
              before == if !ok then (mgr.Store(), Failed)
                        else if role == OrgRole then Run(mgr.ca, mgr.Store(), k, a, TypeGet(AccountRole), mgr.failAt)
                        else (mgr.Store(), Done)
    {
      var name := RoleName(role, k.name);
      var desired := Generate(role, k.name);
      ghost var w := mgr.Store();
      var got := mgr.GetType(name);
      if got.Unreachable? {
        return false;
      }
      assert mgr.Store() == w;
      ghost var pc := TypePut(role, if got.Found? then Some(got.value) else None);
      assert Call(mgr.ca, w, k, a, TypeGet(role)) == (w, Go(pc));
      if got.NotFound? {
        var r := mgr.CreateType(name, desired);
        return r == Written;
      }
      var wst := got.value;
      wst := wst.(labels := wst.labels + desired.labels);
      wst := wst.(extend := desired.extend);
      wst := wst.(defaultChild := desired.defaultChild);
      wst := wst.(parents := desired.parents);
      wst := wst.(children := desired.children);
      assert wst == Mutate(got.value, desired);
      if wst == got.value {
        // nothing to patch, and no call
        return true;
      }
      var r := mgr.PatchType(name, got.value, wst);
      return r == Written;
    }

    method Process(k: Key, a: Account) returns (r: Result)
      modifies mgr
      ensures (mgr.Store(), r) == RunSub(mgr.ca, old(mgr.Store()), k, a, WorkspaceTypeSub, old(mgr.failAt))
      ensures TypesAnswered(old(mgr.Store()), mgr.Store(), k, a, old(mgr.failAt), r)
    {
      hide TypesAnswered;
      TypesAnswers(mgr.ca, mgr.Store(), k, a, mgr.failAt);
      if a.kind != ORG {
        return Done;
      }
      var ok := CreateOrPatchWorkspaceType(k, a, OrgRole);
      if !ok {
        return Failed;
      }
      ok := CreateOrPatchWorkspaceType(k, a, AccountRole);
      return if ok then Done else Failed;
    }

    /** Both types go, in this order; one that is gone already is no error. */
    method Finalize(k: Key, a: Account) returns (r: Result)
      modifies mgr
      ensures (mgr.Store(), r) == if a.kind != ORG then (old(mgr.Store()), Done)
                                  else Run(mgr.ca, old(mgr.Store()), k, a, FinTypeDelete(OrgRole), old(mgr.failAt))
      ensures a.kind == ORG ==> TypesFinalized(old(mgr.Store()), mgr.Store(), k.name, old(mgr.failAt), r)
    {
      hide TypesFinalized;
      TypesFinalizeAnswers(mgr.ca, mgr.Store(), k, a, mgr.failAt);
      if a.kind != ORG {
        return Done;
      }
      ghost var w := mgr.Store();
      var gone := mgr.DeleteType(RoleName(OrgRole, k.name));
      if gone == Refused {
        return Failed;
      }
      assert mgr.Store() == Call(mgr.ca, w, k, a, FinTypeDelete(OrgRole)).0;
      ghost var w1 := mgr.Store();
      gone := mgr.DeleteType(RoleName(AccountRole, k.name));
      if gone == Refused {
        return Failed;
      }
      assert mgr.Store() == Call(mgr.ca, w1, k, a, FinTypeDelete(AccountRole)).0;
      return Done;
    }
  }

  // ----- Workspace -----

  class WorkspaceSubroutine {
    const mgr: Manager

    constructor (mgr: Manager)
      ensures this.mgr == mgr
    {
      this.mgr := mgr;
    }

    /** None is an error; a missing type is not ready. */
    method CheckWorkspaceTypeReady(typeName: string) returns (ready: Option<bool>)
      modifies mgr`failAt
      ensures old(mgr.failAt) == Some(0) ==> ready == None
      ensures old(mgr.failAt) != Some(0) ==>
                && mgr.failAt == Later(old(mgr.failAt))
                && ready == Some(typeName in mgr.types && mgr.types[typeName].ready)
    {
      var wst := mgr.GetType(typeName);
      match wst
      case Unreachable(_) => return None;
      case NotFound => return Some(false);
      case Found(t) => return Some(t.ready);
    }

    method CreateOrUpdateWorkspace(k: Key, a: Account, typeName: string) returns (ok: bool)
      modifies mgr
      ensures Run(mgr.ca, old(mgr.Store()), k, a, WsGet(typeName), old(mgr.failAt)) ==
              (mgr.Store(), if ok then Done else Failed)
    {
      ghost var w := mgr.Store();
      var got := mgr.GetWorkspace(k);
      if got.Unreachable? {
        return false;
      }
      ghost var pc := WsPut(typeName, if got.Found? then Some(got.value) else None);
      assert Call(mgr.ca, w, k, a, WsGet(typeName)) == (w, Go(pc));
      if got.NotFound? {
        var ws := Workspace(None, None, None, Scheduling, false, 0);
        ws := ws.(wsType := Some(TypeRef(typeName, ORGS_PATH)));
        ws := ws.(owner := Some(a.uid));
        var r := mgr.CreateWorkspace(k, ws);
        return r == Written;
      }
      var ws := got.value;
      ws := ws.(wsType := Some(TypeRef(typeName, ORGS_PATH)));
      ws := ws.(owner := Some(a.uid));
      if ws == got.value {
        return true;
      }
      var r := mgr.UpdateWorkspace(k, ws);
      return r == Written;
    }

    method Process(k: Key, a: Account) returns (r: Result)
      modifies mgr
      ensures (mgr.Store(), r) == RunSub(mgr.ca, old(mgr.Store()), k, a, WorkspaceSub, old(mgr.failAt))
      ensures WorkspaceAnswered(old(mgr.Store()), mgr.Store(), k, a, old(mgr.failAt), r)
    {
      hide WorkspaceAnswered;
      WorkspaceAnswers(mgr.ca, mgr.Store(), k, a, mgr.failAt);
      ghost var w := mgr.Store();
      var typeName := TypeName(k.name, a.kind);
      if a.kind != ORG {
        var info := mgr.GetInfo(k.cluster);
        if info.NotFound? {
          return Again;
        }
        if info.Unreachable? {
          return Failed;
        }
        if info.value.spec.organization.name == "" {
          return Again;
        }
        typeName := TypeName(info.value.spec.organization.name, a.kind);
      }
      assert RunSub(mgr.ca, w, k, a, WorkspaceSub, old(mgr.failAt)) ==
             Run(mgr.ca, mgr.Store(), k, a, WsTypeGet(typeName), mgr.failAt);
      var ready := CheckWorkspaceTypeReady(typeName);
      if ready.None? {
        return Failed;
      }
      if !ready.value {
        return Again;
      }
      var ok := CreateOrUpdateWorkspace(k, a, typeName);
      return if ok then Done else Failed;
    }

    /** Done only once the workspace is gone, or where the cluster knows no workspaces; until then
        deletion is asked for, once. */
    method Finalize(k: Key, a: Account) returns (r: Result)
      modifies mgr
      ensures (mgr.Store(), r) == if old(mgr.failAt) == Some(0) && mgr.reason == NoMatch then (old(mgr.Store()), Done)
                                  else Run(mgr.ca, old(mgr.Store()), k, a, FinWsGet, old(mgr.failAt))
      ensures WorkspaceFinalized(old(mgr.Store()), mgr.Store(), k, old(mgr.failAt), mgr.reason == NoMatch, r)
    {
      WorkspaceFinalizeAnswers(mgr.ca, mgr.Store(), k, a, mgr.failAt);
      var ws := mgr.GetWorkspace(k);
      if ws.NotFound? || (ws.Unreachable? && ws.reason == NoMatch) {
        return Done;
      }
      if ws.Unreachable? {
        return Failed;
      }
      if ws.value.deleting {
        return Again;
      }
      var gone := mgr.DeleteWorkspace(k);
      return if gone == Written then Again else Failed;
    }
  }

  // ----- ManageAccountInfo -----

  class ManageAccountInfoSubroutine {
    const mgr: Manager
    const serverCA: string

    constructor (mgr: Manager, serverCA: string)
      ensures this.mgr == mgr && this.serverCA == serverCA
    {
      this.mgr := mgr;
      this.serverCA := serverCA;
    }

    /** The organization's own record: FGA store and OIDC stay as they are found. */
    method CreateOrPatchOrgInfo(k: Key, a: Account, self: Location) returns (ok: bool)
      modifies mgr
      ensures Run(serverCA, old(mgr.Store()), k, a, AiOwnGet(self, None), old(mgr.failAt)) ==
              (mgr.Store(), if ok then Done else Failed)
      ensures ok ==>
                && self.generated in mgr.infos
                && var (before, spec) := (old(mgr.infos), mgr.infos[self.generated].spec);
                && spec.account == self && spec.parent == None && spec.organization == self && spec.ca == serverCA
                && (if self.generated in before then
                      spec.fga == before[self.generated].spec.fga && spec.oidc == before[self.generated].spec.oidc
                    else spec.fga == "" && spec.oidc == None)
    {
      ghost var w := mgr.Store();
      var got := mgr.GetInfo(self.generated);
      if got.Unreachable? {
        return false;
      }
      ghost var pc := AiPut(self, None, if got.Found? then Some(got.value) else None);
      assert Call(serverCA, w, k, a, AiOwnGet(self, None)) == (w, Go(pc));
      var spec := if got.Found? then got.value.spec else ZERO_SPEC;
      spec := spec.(account := self);
      spec := spec.(parent := None);
      spec := spec.(organization := self);
      spec := spec.(ca := serverCA);
      if got.NotFound? {
        var r := mgr.CreateInfo(self.generated, spec);
        return r == Written;
      }
      if spec == got.value.spec {
        return true;
      }
      var r := mgr.PatchInfo(self.generated, got.value.spec, spec);
      return r == Written;
    }

    /** The record of any other account: what its tree shares is copied from the parent's record. */
    method CreateOrUpdateInfo(k: Key, a: Account, self: Location, parentInfo: InfoSpec) returns (ok: bool)
      modifies mgr
      ensures Run(serverCA, old(mgr.Store()), k, a, AiOwnGet(self, Some(parentInfo)), old(mgr.failAt)) ==
              (mgr.Store(), if ok then Done else Failed)
      ensures ok ==>
                && self.generated in mgr.infos
                && mgr.infos[self.generated].spec == InfoSpec(self, Some(parentInfo.account), parentInfo.organization,
                                                              parentInfo.fga, parentInfo.oidc, serverCA)
    {
      ghost var w := mgr.Store();
      var got := mgr.GetInfo(self.generated);
      if got.Unreachable? {
        return false;
      }
      ghost var pc := AiPut(self, Some(parentInfo), if got.Found? then Some(got.value) else None);
      assert Call(serverCA, w, k, a, AiOwnGet(self, Some(parentInfo))) == (w, Go(pc));
      var spec := if got.Found? then got.value.spec else ZERO_SPEC;
      spec := spec.(account := self);
      spec := spec.(parent := Some(parentInfo.account));
      spec := spec.(organization := parentInfo.organization);
      spec := spec.(fga := parentInfo.fga);
      spec := spec.(oidc := parentInfo.oidc);
      spec := spec.(ca := serverCA);
      if got.NotFound? {
        var r := mgr.CreateInfo(self.generated, spec);
        return r == Written;
      }
      if spec == got.value.spec {
        return true;
      }
      var r := mgr.UpdateInfo(self.generated, got.value.(spec := spec));
      return r == Written;
    }

    method Process(k: Key, a: Account) returns (r: Result)
      modifies mgr
      ensures (mgr.Store(), r) == RunSub(serverCA, old(mgr.Store()), k, a, AccountInfoSub, old(mgr.failAt))
      ensures InfoAnswered(serverCA, old(mgr.Store()), mgr.Store(), k, a, old(mgr.failAt), r)
    {
      hide InfoAnswered;
      InfoAnswers(serverCA, mgr.Store(), k, a, mgr.failAt);
      ghost var w := mgr.Store();
      var got := mgr.GetWorkspace(k);
      if !got.Found? {
        return Failed;
      }
      var ws := got.value;
      if ws.phase != Initializing && ws.phase != Ready {
        return Again;
      }
      var path := RetrieveWorkspacePath(if ws.placement.Some? then ws.placement.value.url else "");
      if path.None? {
        return Failed;
      }
      var at := ws.placement.value;
      var self := Location(k.name, at.cluster, k.cluster, path.value.0, path.value.1, a.kind);
      var found := mgr.GetCluster(at.cluster);
      if !found {
        return Failed;
      }
      if a.kind == ORG {
        assert RunSub(serverCA, w, k, a, AccountInfoSub, old(mgr.failAt)) ==
               Run(serverCA, mgr.Store(), k, a, AiOwnGet(self, None), mgr.failAt);
        var ok := CreateOrPatchOrgInfo(k, a, self);
        return if ok then Done else Failed;
      }
      var parent := mgr.GetInfo(k.cluster);
      if parent.NotFound? {
        return Again;
      }
      if parent.Unreachable? {
        return Failed;
      }
      assert RunSub(serverCA, w, k, a, AccountInfoSub, old(mgr.failAt)) ==
             Run(serverCA, mgr.Store(), k, a, AiOwnGet(self, Some(parent.value.spec)), mgr.failAt);
      var ok := CreateOrUpdateInfo(k, a, self, parent.value.spec);
      return if ok then Done else Failed;
    }
  }

  // ----- WorkspaceReady -----

  class WorkspaceReadySubroutine {
    const mgr: Manager

    constructor (mgr: Manager)
      ensures this.mgr == mgr
    {
      this.mgr := mgr;
    }

    method Process(k: Key, a: Account) returns (r: Result)
      modifies mgr
      ensures (mgr.Store(), r) == RunSub(mgr.ca, old(mgr.Store()), k, a, WorkspaceReadySub, old(mgr.failAt))
      ensures ReadyAnswered(old(mgr.Store()), mgr.Store(), k, old(mgr.failAt), r)
    {
      ReadyAnswers(mgr.ca, mgr.Store(), k, a, mgr.failAt);
      var ws := mgr.GetWorkspace(k);
      if !ws.Found? {
        return Failed;
      }
      return if ws.value.phase == Ready then Done else Again;
    }
  }

  // ----- FinalizeAccountInfo -----

  class FinalizeAccountInfoSubroutine {
    const mgr: Manager

    constructor (mgr: Manager)
      ensures this.mgr == mgr
    {
      this.mgr := mgr;
    }

    /** Done exactly when the listing finds no account in the cluster, or comes back with an error that
        says there is no such kind. */
    method Finalize(c: ClusterId) returns (r: Result)
      modifies mgr`failAt
      ensures r == Failed <==> old(mgr.failAt) == Some(0) && mgr.reason == OtherReason
      ensures r == Done <==>
                if old(mgr.failAt) == Some(0) then mgr.reason != OtherReason else NoAccounts(mgr.Store(), c)
    {
      var items: set<Key> := {};
      var list := mgr.ListAccounts(c);
      if list.Found? {
        items := list.value;
      } else if list.reason != ListNotFound && list.reason != NoMatch {
        return Failed;
      }
      assert list.Found? ==> forall k :: k in items <==> k in mgr.accounts && k.cluster == c;
      if |items| > 0 {
        assert exists k :: k in items;
        return Again;
      }
      return Done;
    }
  }

  // ----- the pipeline -----

  datatype Flags = Flags(workspaceType: bool, workspace: bool, accountInfo: bool, workspaceReady: bool)

  /** The reconciler's pipeline: whatever is switched on, always in the one order. */
  method NewPipeline(flags: Flags) returns (subs: seq<Sub>)
    ensures WorkspaceTypeSub in subs <==> flags.workspaceType
    ensures WorkspaceSub in subs <==> flags.workspace
    ensures AccountInfoSub in subs <==> flags.accountInfo
    ensures WorkspaceReadySub in subs <==> flags.workspaceReady
    ensures InOrder(subs)
    ensures flags == Flags(true, true, true, true) ==>
              subs == [WorkspaceTypeSub, WorkspaceSub, AccountInfoSub, WorkspaceReadySub]
  {
    subs := [];
    if flags.workspaceType {
      subs := subs + [WorkspaceTypeSub];
    }
    if flags.workspace {
      subs := subs + [WorkspaceSub];
    }
    if flags.accountInfo {
      subs := subs + [AccountInfoSub];
    }
    if flags.workspaceReady {
      subs := subs + [WorkspaceReadySub];
    }
  }
}
