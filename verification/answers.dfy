/** How the subroutines answer, said of what they find in the store and of which of their calls fails:
    Done, Again, which is a requeue without an error, or Failed; and what they leave behind. */
module Answers {
  import opened Wrappers
  import opened Naming
  import opened WorkspaceUrl
  import opened Model
  import opened WorkspaceTypes
  import opened Program

  /** One of the first n calls comes back with an error. */
  predicate FailsWithin(failAt: Option<nat>, n: nat) {
    failAt.Some? && failAt.value < n
  }

  /** The last call of a subroutine. */
  lemma LastCall(ca: string, w: World, k: Key, a: Account, pc: Pc, failAt: Option<nat>)
    ensures var (w', signal) := Call(ca, w, k, a, pc);
            (signal.Ok? || signal.Error?) ==>
              Run(ca, w, k, a, pc, failAt) ==
              if failAt == Some(0) && !Idle(ca, k, a, pc) then (w, Failed)
              else (w', if signal.Ok? then Done else Failed)
  {
    hide Call, Idle;
  }

  /** A call that only reads. */
  lemma ReadCall(ca: string, w: World, k: Key, a: Account, pc: Pc, pc': Pc, failAt: Option<nat>)
    requires Call(ca, w, k, a, pc) == (w, Go(pc')) && !Idle(ca, k, a, pc)
    ensures Run(ca, w, k, a, pc, failAt) ==
            if failAt == Some(0) then (w, Failed) else Run(ca, w, k, a, pc', Later(failAt))
  {
    hide Call, Idle;
  }

  // ----- Workspace -----

  /** The workspace type for the account at k; None as long as the record beside it cannot tell. */
  function WantedType(w: World, k: Key, a: Account): Option<string> {
    if a.kind == "org" then Some(k.name + "-org")
    else if k.cluster in w.infos && w.infos[k.cluster].spec.organization.name != "" then
      Some(w.infos[k.cluster].spec.organization.name + "-" + a.kind)
    else None
  }

  /** The workspace at k is there, of this type and owned by this account. */
  predicate WorkspaceRight(w: World, k: Key, a: Account, name: string) {
    && k in w.workspaces
    && w.workspaces[k].wsType == Some(TypeRef(name, "root:orgs")) && w.workspaces[k].owner == Some(a.uid)
  }

  /** Apart from type and owner, the workspace at k is as it was, or as kcp has them at first. */
  predicate WorkspaceKept(w: World, w': World, k: Key)
    requires k in w'.workspaces
  {
    var ws' := w'.workspaces[k];
    if k in w.workspaces then
      var ws := w.workspaces[k];
      ws'.placement == ws.placement && ws'.phase == ws.phase && ws'.deleting == ws.deleting
    else ws'.placement == None && ws'.phase == Scheduling && !ws'.deleting
  }

  /** The account waits for its parent's record or for its type. */
  predicate Waits(w: World, k: Key, a: Account) {
    WantedType(w, k, a).None? || !IsReady(w, WantedType(w, k, a).value)
  }

  /** How many calls there are: the parent's record, the type, the workspace and its write. */
  function WorkspaceCalls(w: World, k: Key, a: Account): nat {
    if WantedType(w, k, a).None? then 1
    else
      (if a.kind == "org" then 1 else 2) +
      (if Waits(w, k, a) then 0 else if WorkspaceRight(w, k, a, WantedType(w, k, a).value) then 1 else 2)
  }

  predicate WorkspaceAnswered(w: World, w': World, k: Key, a: Account, failAt: Option<nat>, r: Result) {
    && (r == Again <==> Waits(w, k, a) && !FailsWithin(failAt, WorkspaceCalls(w, k, a)))
    && (r == Failed <==>
          || FailsWithin(failAt, WorkspaceCalls(w, k, a))
          || (!Waits(w, k, a) && k !in w.workspaces && !Open(w, k.cluster)))
    && (r != Done ==> w' == w)
    && (r == Done ==> WorkspaceRight(w', k, a, WantedType(w, k, a).value) && WorkspaceKept(w, w', k))
    && w' == w.(workspaces := w'.workspaces, rv := w'.rv)
    && w'.workspaces - {k} == w.workspaces - {k}
  }

  lemma WorkspacePut(ca: string, w: World, k: Key, a: Account, name: string)
    ensures var pc := WsPut(name, Find(w.workspaces, k)); var (w', signal) := Call(ca, w, k, a, pc);
            && (Idle(ca, k, a, pc) <==> WorkspaceRight(w, k, a, name))
            && signal == (if k !in w.workspaces && !Open(w, k.cluster) then Error else Ok)
            && (signal == Error ==> w' == w)
            && (signal == Ok ==> WorkspaceRight(w', k, a, name) && WorkspaceKept(w, w', k))
            && w' == w.(workspaces := w'.workspaces, rv := w'.rv)
            && w'.workspaces - {k} == w.workspaces - {k}
  {
    hide Open;
  }

  lemma WorkspaceWrites(ca: string, w: World, k: Key, a: Account, name: string, failAt: Option<nat>)
    ensures var (w', r) := Run(ca, w, k, a, WsGet(name), failAt);
            var calls := if WorkspaceRight(w, k, a, name) then 1 else 2;
            && (r == Done || r == Failed)
            && (r == Failed <==> FailsWithin(failAt, calls) || (k !in w.workspaces && !Open(w, k.cluster)))
            && (r != Done ==> w' == w)
            && (r == Done ==> WorkspaceRight(w', k, a, name) && WorkspaceKept(w, w', k))
            && w' == w.(workspaces := w'.workspaces, rv := w'.rv)
            && w'.workspaces - {k} == w.workspaces - {k}
  {
    var pc := WsPut(name, Find(w.workspaces, k));
    ReadCall(ca, w, k, a, WsGet(name), pc, failAt);
    WorkspacePut(ca, w, k, a, name);
    hide Open, Call, Idle, Run, WorkspaceRight, WorkspaceKept;
    if failAt != Some(0) {
      LastCall(ca, w, k, a, pc, Later(failAt));
    }
  }

  /** The Workspace subroutine: Again exactly while it waits, Failed exactly when a call fails or the create
      is refused, and otherwise the workspace is there with type and owner, whatever it was before. */
  lemma WorkspaceAnswers(ca: string, w: World, k: Key, a: Account, failAt: Option<nat>)
    ensures var (w', r) := RunSub(ca, w, k, a, WorkspaceSub, failAt); WorkspaceAnswered(w, w', k, a, failAt, r)
  {
    hide Open, WorkspaceRight, WorkspaceKept;
    assert k.name + "-" + "org" == k.name + "-org";
    if a.kind == ORG {
      TypeChecked(ca, w, k, a, TypeName(k.name, a.kind), failAt);
    } else if failAt != Some(0) && WantedType(w, k, a).Some? {
      var n := WantedType(w, k, a).value;
      assert Call(ca, w, k, a, WsInfoGet) == (w, Go(WsTypeGet(n)));
      assert Run(ca, w, k, a, WsInfoGet, failAt) == Run(ca, w, k, a, WsTypeGet(n), Later(failAt));
      TypeChecked(ca, w, k, a, n, Later(failAt));
    }
  }

  lemma TypeChecked(ca: string, w: World, k: Key, a: Account, name: string, failAt: Option<nat>)
    ensures var (w', r) := Run(ca, w, k, a, WsTypeGet(name), failAt);
            var calls := if !IsReady(w, name) then 1 else if WorkspaceRight(w, k, a, name) then 2 else 3;
            && (r == Again <==> !IsReady(w, name) && !FailsWithin(failAt, calls))
            && (r == Failed <==>
                  FailsWithin(failAt, calls) || (IsReady(w, name) && k !in w.workspaces && !Open(w, k.cluster)))
            && (r != Done ==> w' == w)
            && (r == Done ==> WorkspaceRight(w', k, a, name) && WorkspaceKept(w, w', k))
            && w' == w.(workspaces := w'.workspaces, rv := w'.rv)
            && w'.workspaces - {k} == w.workspaces - {k}
  {
    hide Open, WorkspaceRight, WorkspaceKept;
    if failAt != Some(0) && IsReady(w, name) {
      assert Call(ca, w, k, a, WsTypeGet(name)) == (w, Go(WsGet(name)));
      assert Run(ca, w, k, a, WsTypeGet(name), failAt) == Run(ca, w, k, a, WsGet(name), Later(failAt));
      WorkspaceWrites(ca, w, k, a, name, Later(failAt));
    }
  }

  /** Its finalization: Done only once the workspace is gone, or the cluster has no such kind; until then
      Again, with deletion asked for. */
  predicate WorkspaceFinalized(w: World, w': World, k: Key, failAt: Option<nat>, noMatch: bool, r: Result) {
    var (gone, asked) := (k !in w.workspaces, k in w.workspaces && w.workspaces[k].deleting);
    && (r == Done <==> (noMatch && failAt == Some(0)) || (gone && !FailsWithin(failAt, 1)))
    && (r == Again <==> !gone && !FailsWithin(failAt, if asked then 1 else 2))
    && (r == Again && !asked ==>
          && k in w'.workspaces && w'.workspaces[k] == w.workspaces[k].(deleting := true, rv := w'.workspaces[k].rv)
          && w' == w.(workspaces := w.workspaces[k := w'.workspaces[k]], rv := w'.rv))
    && (r != Again || asked ==> w' == w)
  }

  lemma WorkspaceFinalizeAnswers(ca: string, w: World, k: Key, a: Account, failAt: Option<nat>)
    ensures var (w', r) := Run(ca, w, k, a, FinWsGet, failAt); WorkspaceFinalized(w, w', k, failAt, false, r)
  {
    if k in w.workspaces && !w.workspaces[k].deleting && failAt != Some(0) {
      assert Run(ca, w, k, a, FinWsGet, failAt) == Run(ca, w, k, a, FinWsDelete, Later(failAt));
    }
  }

  // ----- ManageAccountInfo -----

  /** The workspace is there, but kcp is not yet initializing it. */
  predicate Gated(w: World, k: Key) {
    k in w.workspaces && w.workspaces[k].phase != Initializing && w.workspaces[k].phase != Ready
  }

  /** It is past the gate, placed, reachable, and has a URL with a path. */
  predicate Located(w: World, k: Key) {
    && k in w.workspaces && (w.workspaces[k].phase == Initializing || w.workspaces[k].phase == Ready)
    && w.workspaces[k].placement.Some? && WorkspacePath(w.workspaces[k].placement.value.url).Some?
    && Hosted(w, w.workspaces[k].placement.value.cluster)
  }

  /** An account that is no organization and has no record beside it. */
  predicate NoParentRecord(w: World, k: Key, a: Account) {
    a.kind != "org" && k.cluster !in w.infos
  }

  function OwnCluster(w: World, k: Key): ClusterId
    requires Located(w, k)
  {
    w.workspaces[k].placement.value.cluster
  }

  /** The record says what it must: where the account is, whose child it is, and the operator's CA; below
      an organization, all that its tree shares is the parent's. */
  predicate RecordSays(spec: InfoSpec, ca: string, w: World, k: Key, a: Account)
    requires Located(w, k) && !NoParentRecord(w, k, a)
  {
    var at := w.workspaces[k].placement.value;
    && spec.account.name == k.name && spec.account.generated == at.cluster && spec.account.origin == k.cluster
    && Some(spec.account.path) == WorkspacePath(at.url) && spec.account.url == at.url && spec.account.kind == a.kind
    && spec.ca == ca
    && (a.kind == "org" ==> spec.parent == None && spec.organization == spec.account)
    && (a.kind != "org" ==>
          var parent := w.infos[k.cluster].spec;
          && spec.parent == Some(parent.account) && spec.organization == parent.organization
          && spec.fga == parent.fga && spec.oidc == parent.oidc)
  }

  predicate RecordRight(ca: string, w: World, k: Key, a: Account)
    requires Located(w, k) && !NoParentRecord(w, k, a)
  {
    OwnCluster(w, k) in w.infos && RecordSays(w.infos[OwnCluster(w, k)].spec, ca, w, k, a)
  }

  /** How many calls there are: the workspace, the parent's record, the own record and its write. */
  function InfoCalls(ca: string, w: World, k: Key, a: Account): nat {
    if !Located(w, k) then 1
    else if NoParentRecord(w, k, a) then 2
    else (if a.kind == "org" then 2 else 3) + (if RecordRight(ca, w, k, a) then 0 else 1)
  }

  /** What the write leaves: the record that is right, with what is not managed on it as it was, or unset. */
  predicate RecordLeft(ca: string, w: World, w': World, k: Key, a: Account)
    requires Located(w, k) && !NoParentRecord(w, k, a)
  {
    var c := OwnCluster(w, k);
    && c in w'.infos && RecordSays(w'.infos[c].spec, ca, w, k, a)
    && (if c in w.infos then
          w'.infos[c].finalizer == w.infos[c].finalizer && w'.infos[c].deleting == w.infos[c].deleting
        else !w'.infos[c].finalizer && !w'.infos[c].deleting)
    && (a.kind == "org" ==>
          if c in w.infos then
            w'.infos[c].spec.fga == w.infos[c].spec.fga && w'.infos[c].spec.oidc == w.infos[c].spec.oidc
          else w'.infos[c].spec.fga == "" && w'.infos[c].spec.oidc == None)
  }

  predicate InfoAnswered(ca: string, w: World, w': World, k: Key, a: Account, failAt: Option<nat>, r: Result) {
    var fails := FailsWithin(failAt, InfoCalls(ca, w, k, a));
    && (r == Again <==> !fails && (Gated(w, k) || (Located(w, k) && NoParentRecord(w, k, a))))
    && (r == Done <==>
          && !fails && Located(w, k) && !NoParentRecord(w, k, a)
          && (OwnCluster(w, k) in w.infos || Open(w, OwnCluster(w, k))))
    && (r != Done ==> w' == w)
    && (r == Done ==> RecordLeft(ca, w, w', k, a))
    && w' == w.(infos := w'.infos, rv := w'.rv)
    && (Located(w, k) ==> w'.infos - {OwnCluster(w, k)} == w.infos - {OwnCluster(w, k)})
  }

  lemma RecordPut(ca: string, w: World, k: Key, a: Account, self: Location, parent: Option<InfoSpec>)
    requires Located(w, k) && !NoParentRecord(w, k, a)
    requires var at := w.workspaces[k].placement.value;
             self == Location(k.name, at.cluster, k.cluster, WorkspacePath(at.url).value, at.url, a.kind)
    requires parent == if a.kind == ORG then None else Some(w.infos[k.cluster].spec)
    ensures var c := self.generated; var pc := AiPut(self, parent, Find(w.infos, c));
            var (w', signal) := Call(ca, w, k, a, pc);
            && (Idle(ca, k, a, pc) <==> RecordRight(ca, w, k, a))
            && signal == (if c !in w.infos && !Open(w, c) then Error else Ok)
            && (signal == Error ==> w' == w)
            && (signal == Ok ==> RecordLeft(ca, w, w', k, a))
            && w' == w.(infos := w'.infos, rv := w'.rv) && w'.infos - {c} == w.infos - {c}
  {
    hide Open, Hosted, WorkspacePath;
  }

  /** The writing half, from the read of the own record on. */
  lemma RecordWritten(ca: string, w: World, k: Key, a: Account, self: Location, parent: Option<InfoSpec>,
                      failAt: Option<nat>)
    requires Located(w, k) && !NoParentRecord(w, k, a)
    requires var at := w.workspaces[k].placement.value;
             self == Location(k.name, at.cluster, k.cluster, WorkspacePath(at.url).value, at.url, a.kind)
    requires parent == if a.kind == ORG then None else Some(w.infos[k.cluster].spec)
    ensures var (w', r) := Run(ca, w, k, a, AiOwnGet(self, parent), failAt); var c := self.generated;
            && (r == Done || r == Failed)
            && (r == Failed <==>
                  FailsWithin(failAt, if RecordRight(ca, w, k, a) then 1 else 2) || (c !in w.infos && !Open(w, c)))
            && (r != Done ==> w' == w)
            && (r == Done ==> RecordLeft(ca, w, w', k, a))
            && w' == w.(infos := w'.infos, rv := w'.rv) && w'.infos - {c} == w.infos - {c}
  {
    var pc := AiPut(self, parent, Find(w.infos, self.generated));
    ReadCall(ca, w, k, a, AiOwnGet(self, parent), pc, failAt);
    RecordPut(ca, w, k, a, self, parent);
    hide Open, Call, Idle, Run, RecordRight, RecordLeft, Located, WorkspacePath;
    if failAt != Some(0) {
      LastCall(ca, w, k, a, pc, Later(failAt));
    }
  }

  /** ManageAccountInfo: Again exactly at the phase gate and without the parent's record, Done exactly with
      a record that says what it must, and Failed otherwise. */
  lemma InfoAnswers(ca: string, w: World, k: Key, a: Account, failAt: Option<nat>)
    ensures var (w', r) := RunSub(ca, w, k, a, AccountInfoSub, failAt); InfoAnswered(ca, w, w', k, a, failAt, r)
  {
    hide Open, RecordSays, RecordLeft, WorkspacePath;
    if failAt != Some(0) && Located(w, k) {
      var at := w.workspaces[k].placement.value;
      var self := Location(k.name, at.cluster, k.cluster, WorkspacePath(at.url).value, at.url, a.kind);
      if a.kind == ORG {
        assert Run(ca, w, k, a, AiWsGet, failAt) == Run(ca, w, k, a, AiOwnGet(self, None), Later(failAt));
        RecordWritten(ca, w, k, a, self, None, Later(failAt));
      } else {
        assert Run(ca, w, k, a, AiWsGet, failAt) == Run(ca, w, k, a, AiParentGet(self), Later(failAt));
        if Later(failAt) != Some(0) && k.cluster in w.infos {
          var parent := Some(w.infos[k.cluster].spec);
          assert Run(ca, w, k, a, AiParentGet(self), Later(failAt)) ==
                 Run(ca, w, k, a, AiOwnGet(self, parent), Later(Later(failAt)));
          RecordWritten(ca, w, k, a, self, parent, Later(Later(failAt)));
        }
      }
    }
  }

  // ----- WorkspaceReady -----

  predicate ReadyAnswered(w: World, w': World, k: Key, failAt: Option<nat>, r: Result) {
    && w' == w
    && (r == Failed <==> FailsWithin(failAt, 1) || k !in w.workspaces)
    && (r == Done <==> !FailsWithin(failAt, 1) && k in w.workspaces && w.workspaces[k].phase == Ready)
  }

  /** WorkspaceReady: Failed without the workspace, Again until it is Ready. */
  lemma ReadyAnswers(ca: string, w: World, k: Key, a: Account, failAt: Option<nat>)
    ensures var (w', r) := RunSub(ca, w, k, a, WorkspaceReadySub, failAt); ReadyAnswered(w, w', k, failAt, r)
  {
  }

  // ----- WorkspaceType -----

  /** The type of this role is there, with all that the operator manages on it. */
  predicate TypeRight(w: World, t: Role, org: string) {
    RoleName(t, org) in w.types && Managed(w.types[RoleName(t, org)], Generate(t, org))
  }

  function TypeCalls(w: World, t: Role, org: string): nat {
    if TypeRight(w, t, org) then 1 else 2
  }

  /** Of a type that was there only what is managed has changed; a new one is as generated. */
  predicate TypeKept(w: World, w': World, t: Role, org: string)
    requires RoleName(t, org) in w'.types
  {
    var name := RoleName(t, org);
    if name in w.types then
      && w'.types[name].foreign == w.types[name].foreign && w'.types[name].ready == w.types[name].ready
      && (forall l :: l != "core.platform-mesh.io/org" && l in w.types[name].labels ==>
            l in w'.types[name].labels && w'.types[name].labels[l] == w.types[name].labels[l])
    else w'.types[name] == Generate(t, org)
  }

  ghost predicate TypesAnswered(w: World, w': World, k: Key, a: Account, failAt: Option<nat>, r: Result) {
    var (orgCalls, accountCalls) := (TypeCalls(w, OrgRole, k.name), TypeCalls(w, AccountRole, k.name));
    if a.kind != "org" then r == Done && w' == w
    else
      && r != Again && (r == Failed <==> FailsWithin(failAt, orgCalls + accountCalls))
      && (forall t :: (t == OrgRole && !FailsWithin(failAt, orgCalls)) || r == Done ==>
            TypeRight(w', t, k.name) && TypeKept(w, w', t, k.name))
      && (FailsWithin(failAt, orgCalls) ==> w' == w)
      && w' == w.(types := w'.types)
      && w'.types - {RoleName(OrgRole, k.name), RoleName(AccountRole, k.name)} ==
         w.types - {RoleName(OrgRole, k.name), RoleName(AccountRole, k.name)}
      && (r != Done ==> w'.types - {RoleName(OrgRole, k.name)} == w.types - {RoleName(OrgRole, k.name)})
  }

  /** What is left of the calls for one type, once they have come through. */
  function NextType(ca: string, w: World, k: Key, a: Account, t: Role, failAt: Option<nat>): (World, Result) {
    if t == OrgRole then Run(ca, w, k, a, TypeGet(AccountRole), failAt) else (w, Done)
  }

  function After(failAt: Option<nat>, n: nat): Option<nat>
    requires !FailsWithin(failAt, n)
  {
    if failAt.None? then None else Some(failAt.value - n)
  }

  lemma OneType(ca: string, w: World, k: Key, a: Account, t: Role, failAt: Option<nat>)
    ensures var calls := TypeCalls(w, t, k.name);
            if FailsWithin(failAt, calls) then Run(ca, w, k, a, TypeGet(t), failAt) == (w, Failed)
            else Run(ca, w, k, a, TypeGet(t), failAt) ==
                 NextType(ca, WithType(w, t, k.name), k, a, t, After(failAt, calls))
  {
    hide Generate;
    var (name, desired) := (RoleName(t, k.name), Generate(t, k.name));
    var pc := TypePut(t, Find(w.types, name));
    assert Call(ca, w, k, a, TypeGet(t)) == (w, Go(pc));
    if failAt != Some(0) {
      assert Run(ca, w, k, a, TypeGet(t), failAt) == Run(ca, w, k, a, pc, Later(failAt));
      if name in w.types {
        PatchIsMerge(w.types[name], desired);
        assert w.types[name := w.types[name]] == w.types;
      }
      assert Idle(ca, k, a, pc) <==> TypeRight(w, t, k.name);
      hide Mutate, Patch, Managed;
    }
  }

  /** The store with the type of this role in place. */
  function WithType(w: World, t: Role, org: string): World {
    var name := RoleName(t, org);
    w.(types := w.types[name := if name in w.types then Mutate(w.types[name], Generate(t, org)) else Generate(t, org)])
  }

  lemma MutateKeeps(t: WorkspaceType, desired: WorkspaceType)
    ensures var m := Mutate(t, desired);
            && Managed(m, desired) && m.foreign == t.foreign && m.ready == t.ready
            && (forall l :: l !in desired.labels && l in t.labels ==> l in m.labels && m.labels[l] == t.labels[l])
  {
  }

  lemma WithTypeRight(w: World, t: Role, org: string)
    ensures TypeRight(WithType(w, t, org), t, org) && TypeKept(w, WithType(w, t, org), t, org)
  {
    var name := RoleName(t, org);
    assert Generate(t, org).labels.Keys == {"core.platform-mesh.io/org"};
    hide Generate, Patch, RoleName;
    if name in w.types {
      MutateKeeps(w.types[name], Generate(t, org));
      hide Mutate, Managed;
    }
  }

  /** Both types in place, one after the other. */
  lemma BothTypes(w: World, org: string)
    ensures var (orgName, accountName) := (RoleName(OrgRole, org), RoleName(AccountRole, org));
            var w1 := WithType(w, OrgRole, org); var w2 := WithType(w1, AccountRole, org);
            && TypeRight(w1, OrgRole, org) && TypeKept(w, w1, OrgRole, org)
            && (forall t :: TypeRight(w2, t, org) && TypeKept(w, w2, t, org))
            && TypeCalls(w1, AccountRole, org) == TypeCalls(w, AccountRole, org)
            && w1.types - {orgName} == w.types - {orgName}
            && w2.types - {orgName, accountName} == w.types - {orgName, accountName}
  {
    var w1 := WithType(w, OrgRole, org);
    RoleNameInjective(OrgRole, org, AccountRole, org);
    WithTypeRight(w, OrgRole, org);
    WithTypeRight(w1, AccountRole, org);
    hide Generate, Mutate, Managed, RoleName;
    var w2 := WithType(w1, AccountRole, org);
    forall t ensures TypeRight(w2, t, org) && TypeKept(w, w2, t, org) {
      match t
      case OrgRole => assert w2.types[RoleName(OrgRole, org)] == w1.types[RoleName(OrgRole, org)];
      case AccountRole => assert RoleName(AccountRole, org) in w1.types <==> RoleName(AccountRole, org) in w.types;
    }
  }

  /** WorkspaceType: never Again, Failed exactly when a call fails; the organization's type comes first. */
  lemma TypesAnswers(ca: string, w: World, k: Key, a: Account, failAt: Option<nat>)
    ensures var (w', r) := RunSub(ca, w, k, a, WorkspaceTypeSub, failAt); TypesAnswered(w, w', k, a, failAt, r)
  {
    if a.kind == ORG {
      BothTypes(w, k.name);
      OneType(ca, w, k, a, OrgRole, failAt);
      var w1 := WithType(w, OrgRole, k.name);
      var calls := TypeCalls(w, OrgRole, k.name);
      if !FailsWithin(failAt, calls) {
        OneType(ca, w1, k, a, AccountRole, After(failAt, calls));
      }
      assert WithType(w1, AccountRole, k.name) == w.(types := WithType(w1, AccountRole, k.name).types);
      hide Run, TypeRight, TypeKept, WithType, RoleName, TypeCalls;
    }
  }

  predicate TypesFinalized(w: World, w': World, org: string, failAt: Option<nat>, r: Result) {
    && r != Again && (r == Failed <==> FailsWithin(failAt, 2))
    && w'.types == w.types - ((if FailsWithin(failAt, 1) then {} else {org + "-org"}) +
                              (if FailsWithin(failAt, 2) then {} else {org + "-account"}))
    && w' == w.(types := w'.types)
  }

  /** Its finalization takes away the two types, the organization's first, and is never Again. */
  lemma TypesFinalizeAnswers(ca: string, w: World, k: Key, a: Account, failAt: Option<nat>)
    ensures var (w', r) := Run(ca, w, k, a, FinTypeDelete(OrgRole), failAt); TypesFinalized(w, w', k.name, failAt, r)
  {
    assert RoleName(OrgRole, k.name) == k.name + "-org" && RoleName(AccountRole, k.name) == k.name + "-account" by {
      GeneratedShape(OrgRole, k.name);
      GeneratedShape(AccountRole, k.name);
    }
    var w1 := Call(ca, w, k, a, FinTypeDelete(OrgRole)).0;
    assert w1.types == w.types - {k.name + "-org"};
    if failAt != Some(0) {
      assert Run(ca, w, k, a, FinTypeDelete(OrgRole), failAt) ==
             Run(ca, w1, k, a, FinTypeDelete(AccountRole), Later(failAt));
      assert w1.types - {k.name + "-account"} == w.types - {k.name + "-org", k.name + "-account"};
    }
  }
}
