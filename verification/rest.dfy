/** Reachable states at rest: when every pass says OK and changes nothing, everything is as it
    should be, whatever URLs and workspace types there are. */
module Rest {
  import opened Wrappers
  import opened Naming
  import opened WorkspaceUrl
  import opened Model
  import opened WorkspaceTypes
  import opened Program
  import opened System
  import opened Invariant
  import opened Preserve
  import opened Ranking
  import opened Progress
  import opened TypeLifecycle
  import opened Passes
  import opened Convergence

  /** Undisturbed, a pass leaves the accounts alone, and after its first subroutine the types. */
  lemma {:induction false} FinishKeeps(ca: string, w: World, k: Key, wk: Worker)
    requires !Finalizing(wk.pc)
    ensures var w' := Finish(ca, w, k, wk).0;
            && w'.accounts == w.accounts
            && (!wk.pc.TypeGet? && !wk.pc.TypePut? && WorkspaceTypeSub !in wk.rest ==> w'.types == w.types)
    decreases Size(wk)
  {
    var (w', signal) := Call(ca, w, k, wk.instance, wk.pc);
    CallAccounts(ca, w, k, wk.instance, wk.pc);
    CallAdds(ca, w, k, wk.instance, wk.pc);
    CallSmaller(ca, w, k, wk);
    GoKeepsFinalizing(ca, w, k, wk.instance, wk.pc);
    TypeSignal(ca, w, k, wk.instance, wk.pc);
    AdvanceKeeps(k, wk.instance, wk.rest);
    hide Call;
    if AfterCall(k, wk, signal).Some? {
      FinishKeeps(ca, w', k, AfterCall(k, wk, signal).value);
    }
  }

  lemma {:induction false} AdvanceKeeps(k: Key, a: Account, rest: seq<Sub>)
    ensures var next := Advance(k, a, rest);
            next.Some? ==>
              && !Finalizing(next.value.pc) && next.value.instance == a
              && (WorkspaceTypeSub !in rest ==>
                    !next.value.pc.TypeGet? && !next.value.pc.TypePut? && WorkspaceTypeSub !in next.value.rest)
  {
    if rest != [] {
      AdvanceKeeps(k, a, rest[1..]);
    }
  }

  /** From the readiness check of the type on: what a pass that ends well without a change has found. */
  lemma WorkspaceRests(ca: string, w: World, k: Key, a: Account, n: string)
    requires k in w.workspaces ==>
               w.workspaces[k].wsType == Some(TypeRef(n, ORGS_PATH)) && w.workspaces[k].owner == Some(a.uid)
    requires Finish(ca, w, k, Worker(a, FROM_INFO, WsTypeGet(n))) == (w, Done)
    ensures n in w.types && w.types[n].ready && k in w.workspaces
    ensures Finish(ca, w, k, Worker(a, FROM_READY, AiWsGet)) == (w, Done)
  {
    assert FROM_INFO[1..] == FROM_READY;
    assert n in w.types && w.types[n].ready;
    assert Finish(ca, w, k, Worker(a, FROM_INFO, WsGet(n))) == (w, Done);
    var put := WsPut(n, Find(w.workspaces, k));
    assert Finish(ca, w, k, Worker(a, FROM_INFO, put)) == (w, Done);
    var (w', signal) := Call(ca, w, k, a, put);
    assert signal.Ok?;
    assert AfterCall(k, Worker(a, FROM_INFO, put), signal) == Some(Worker(a, FROM_READY, AiWsGet));
    assert Finish(ca, w', k, Worker(a, FROM_READY, AiWsGet)) == (w, Done);
    assert Call(ca, w', k, a, AiWsGet).1.Go?;
  }

  lemma InfoRests(ca: string, w: World, k: Key, a: Account)
    requires k in w.workspaces && Finish(ca, w, k, Worker(a, FROM_READY, AiWsGet)) == (w, Done)
    ensures var ws := w.workspaces[k];
            && ws.phase == Ready && ws.placement.Some?
            && Hosted(w, ws.placement.value.cluster) && WorkspacePath(ws.placement.value.url).Some?
            && (a.kind != ORG ==> k.cluster in w.infos)
            && (ws.placement.value.cluster in w.infos || Open(w, ws.placement.value.cluster))
  {
    var ws := w.workspaces[k];
    assert Call(ca, w, k, a, AiWsGet).1.Go?;
    var at := ws.placement.value;
    var self := Location(k.name, at.cluster, k.cluster, WorkspacePath(at.url).value, at.url, a.kind);
    assert a.kind != ORG ==> Call(ca, w, k, a, AiParentGet(self)).1.Go? by {
      hide WorkspacePath;
      assert a.kind != ORG ==> Finish(ca, w, k, Worker(a, FROM_READY, AiParentGet(self))) == (w, Done);
    }
    var parent := if a.kind == ORG then None else Some(w.infos[k.cluster].spec);
    hide WorkspacePath, Hosted;
    assert Finish(ca, w, k, Worker(a, FROM_READY, AiOwnGet(self, parent))) == (w, Done);
    PutRests(ca, w, k, a, self, parent);
  }

  lemma PutRests(ca: string, w: World, k: Key, a: Account, self: Location, parent: Option<InfoSpec>)
    requires Finish(ca, w, k, Worker(a, FROM_READY, AiOwnGet(self, parent))) == (w, Done)
    ensures self.generated in w.infos || Open(w, self.generated)
    ensures k in w.workspaces && w.workspaces[k].phase == Ready
  {
    var put := AiPut(self, parent, Find(w.infos, self.generated));
    var (w', signal) := Call(ca, w, k, a, put);
    assert Finish(ca, w, k, Worker(a, FROM_READY, put)) == (w, Done);
    assert signal.Ok?;
    assert FROM_READY[1..] == [];
    assert AfterCall(k, Worker(a, FROM_READY, put), signal) == Some(Worker(a, [], ReadyGet));
    assert Finish(ca, w', k, Worker(a, [], ReadyGet)) == (w, Done);
  }

  /** Where a pass starts once the finalizers are there. */
  lemma PassBegins(cfg: Config, ca: string, w: World, k: Key)
    requires cfg.pipeline == STANDARD && k in w.accounts && !w.accounts[k].deleting
    requires Pass(cfg, ca, w, k) == (w, Done)
    ensures var a := w.accounts[k];
            && Needed(cfg, a) <= a.finalizers
            && Finish(ca, w, k, if a.kind == ORG then Worker(a, FROM_WORKSPACE, TypeGet(OrgRole))
                                    else Worker(a, FROM_INFO, WsInfoGet)) == (w, Done)
  {
    var a := BeginAccount(cfg, w.accounts[k]);
    var w' := w.(accounts := w.accounts[k := a]);
    assert STANDARD[1..] == FROM_WORKSPACE && FROM_WORKSPACE[1..] == FROM_INFO;
    var wk := if a.kind == ORG then Worker(a, FROM_WORKSPACE, TypeGet(OrgRole)) else Worker(a, FROM_INFO, WsInfoGet);
    assert a.kind != ORG ==> Advance(k, a, FROM_WORKSPACE) == Some(wk);
    assert Advance(k, a, STANDARD) == Some(wk);
    hide Finish;
    assert Pass(cfg, ca, w, k) == Finish(ca, w', k, wk);
    FinishKeeps(ca, w', k, wk);
    assert w.accounts[k] == w'.accounts[k];
    assert w' == w;
  }

  lemma TypesRest(cfg: Config, ca: string, w: World, k: Key, a: Account)
    requires a.kind == ORG && Finish(ca, w, k, Worker(a, FROM_WORKSPACE, TypeGet(OrgRole))) == (w, Done)
    ensures BothManaged(w.types, k.name)
    ensures Finish(ca, w, k, Worker(a, FROM_INFO, WsTypeGet(RoleName(OrgRole, k.name)))) == (w, Done)
  {
    var w1 := w.(types := BothEnsured(w.types, k.name));
    var next := Worker(a, FROM_INFO, WsTypeGet(RoleName(OrgRole, k.name)));
    assert FROM_WORKSPACE[1..] == FROM_INFO;
    assert Advance(k, a, FROM_WORKSPACE) == Some(next);
    assert RunSub(ca, w, k, a, WorkspaceTypeSub, None) == Run(ca, w, k, a, TypeGet(OrgRole), None);
    ProcessEnsures(ca, w, k, a);
    FinishRunsSubroutine(ca, w, k, Worker(a, FROM_WORKSPACE, TypeGet(OrgRole)));
    hide Finish, Run, BothEnsured;
    assert Finish(ca, w1, k, next) == (w, Done);
    FinishKeeps(ca, w1, k, next);
    assert w1 == w;
    forall t ensures RoleName(t, k.name) in w.types && Managed(w.types[RoleName(t, k.name)], Generate(t, k.name)) {
      EnsuredAt(w.types, k.name, t);
    }
  }

  ghost predicate Standard(cfg: Config, s: Sys) {
    Inv(cfg, s) && cfg.pipeline == STANDARD
  }

  /** What the Workspace subroutine names as the type, given the record it reads. */
  lemma TypeNamed(cfg: Config, s: Sys, k: Key)
    requires Standard(cfg, s) && k in s.w.accounts && s.w.accounts[k].kind != ORG && k.cluster in s.w.infos
    ensures k.cluster in s.w.clusters && OrgOf(s.w.clusters, k.cluster) in s.w.clusters && k.cluster != ORGS
    ensures var org := s.w.clusters[OrgOf(s.w.clusters, k.cluster)].host.name;
            && org != "" && s.w.infos[k.cluster].spec.organization.name == org
            && TypeFor(s.w.clusters, k, s.w.accounts[k].kind) == TypeName(org, s.w.accounts[k].kind)
  {
    assert InfoOk(s.w, s.h, k.cluster);
    OwnOrganization(s.w, s.h, k.cluster);
  }

  /** A pass that ends well without a change has found everything in place. */
  lemma RestGrown(cfg: Config, s: Sys, k: Key)
    requires Standard(cfg, s) && k in s.w.accounts && !s.w.accounts[k].deleting &&
             Pass(cfg, s.ca, s.w, k) == (s.w, Done)
    ensures Grown(cfg, s.w, k) && s.w.workspaces[k].phase == Ready
  {
    var (w, a) := (s.w, s.w.accounts[k]);
    assert AccountOk(w, k);
    PassBegins(cfg, s.ca, w, k);
    var n := TypeFor(w.clusters, k, a.kind);
    if a.kind == ORG {
      TypesRest(cfg, s.ca, w, k, a);
    } else {
      assert k.cluster in w.infos;
      TypeNamed(cfg, s, k);
      assert Finish(s.ca, w, k, Worker(a, FROM_INFO, WsTypeGet(n))) == (w, Done);
    }
    hide Finish, Pass, WorkspacePath, Grown;
    assert k in w.workspaces ==> WorkspaceOk(w, k);
    WorkspaceRests(s.ca, w, k, a, n);
    InfoRests(s.ca, w, k, a);
    GrownFacts(cfg, s, k);
  }

  lemma GrownFacts(cfg: Config, s: Sys, k: Key)
    requires Standard(cfg, s) && k in s.w.accounts && !s.w.accounts[k].deleting
    requires k in s.w.workspaces && s.w.workspaces[k].placement.Some? && s.w.workspaces[k].phase == Ready
    requires Needed(cfg, s.w.accounts[k]) <= s.w.accounts[k].finalizers
    requires var (w, a) := (s.w, s.w.accounts[k]); var n := TypeFor(w.clusters, k, a.kind);
             && n in w.types && w.types[n].ready
             && (a.kind == ORG ==> BothManaged(w.types, k.name))
             && (a.kind != ORG ==> k.cluster in w.infos)
             && var at := w.workspaces[k].placement.value;
             Hosted(w, at.cluster) && WorkspacePath(at.url).Some? && (at.cluster in w.infos || Open(w, at.cluster))
    ensures Grown(cfg, s.w, k)
  {
    var (w, a) := (s.w, s.w.accounts[k]);
    assert AccountOk(w, k) && WorkspaceOk(w, k);
    assert PlaceOk(w.clusters, w.workspaces[k].placement.value.cluster);
    if a.kind != ORG {
      TypeNamed(cfg, s, k);
    }
  }

  /** The reachable states at rest, with no account of an organization on its way out, are right:
      every such account has a Ready workspace and the one record that belongs there. */
  lemma ReachableRest(cfg: Config, types: map<string, WorkspaceType>, steps: seq<Step>, tree: set<Key>)
    requires cfg.pipeline == STANDARD && CanRun(cfg, Init(types), steps)
    requires forall k :: k in tree <==> InOrg(Exec(cfg, Init(types), steps).w, k)
    requires AtRest(cfg, Exec(cfg, Init(types), steps).ca, Exec(cfg, Init(types), steps).w, tree)
    ensures var (ca, w) := (Exec(cfg, Init(types), steps).ca, Exec(cfg, Init(types), steps).w);
            Stable(cfg, w, tree) &&
            forall k :: k in tree ==>
              Grown(cfg, w, k) && w.workspaces[k].phase == Ready && Right(ca, w, ClusterOf(w, k))
  {
    InitInv(cfg, types);
    InvRun(cfg, Init(types), steps);
    var s := Exec(cfg, Init(types), steps);
    forall k | k in tree ensures Grown(cfg, s.w, k) {
      assert Rests(cfg, s.ca, s.w, k);
      RestGrown(cfg, s, k);
    }
    forall k | k in tree && k.cluster != ORGS
      ensures k.cluster in s.w.clusters && s.w.clusters[k.cluster].host in tree
    {
      HostInOrg(cfg, s, k);
    }
    StableRest(cfg, s, tree);
    forall k | k in tree ensures s.w.workspaces[k].phase == Ready && Right(s.ca, s.w, ClusterOf(s.w, k)) {
      RestIsRight(cfg, s.ca, s.w, tree, k);
    }
  }

  /** Above an account of an organization, up to the organization, there are none but such accounts. */
  lemma HostInOrg(cfg: Config, s: Sys, k: Key)
    requires Inv(cfg, s) && InOrg(s.w, k) && k.cluster != ORGS
    ensures k.cluster in s.w.clusters && InOrg(s.w, s.w.clusters[k.cluster].host)
  {
    assert AccountOk(s.w, k);
    assert PlaceOk(s.w.clusters, k.cluster);
    assert WorkspaceOk(s.w, s.w.clusters[k.cluster].host);
  }

  lemma StableRest(cfg: Config, s: Sys, tree: set<Key>)
    requires Standard(cfg, s) && forall k {:trigger Grown(cfg, s.w, k)} :: k in tree ==> Grown(cfg, s.w, k)
    requires forall k :: k in tree && k.cluster != ORGS ==>
             k.cluster in s.w.clusters && s.w.clusters[k.cluster].host in tree
    ensures Stable(cfg, s.w, tree)
  {
    var w := s.w;
    forall c | c in w.infos ensures Named(w, c) {
      assert InfoOk(w, s.h, c);
      OwnOrganization(w, s.h, c);
    }
  }
}
