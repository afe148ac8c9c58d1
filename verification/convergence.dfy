/** Where AccountInfos end up: passes over the accounts, in any order, bring every record to one
    state that the tree and the organizations' external fields determine. */
module Convergence {
  import opened Wrappers
  import opened Naming
  import opened WorkspaceUrl
  import opened Model
  import opened WorkspaceTypes
  import opened Program
  import opened System
  import opened Invariant
  import opened Preserve
  import opened Ranking
  import opened Progress
  import opened TypeLifecycle
  import opened Passes

  /** The record that belongs in c: itself, its parent, and all that its organization shares. */
  function Expected(ca: string, w: World, c: ClusterId): InfoSpec
    requires TreeOk(w.clusters) && c in w.clusters
  {
    var cl := w.clusters;
    assert PlaceOk(cl, c);
    var o := OrgOf(cl, c);
    InfoSpec(LocationOf(cl, c), if o == c then None else Some(LocationOf(cl, cl[c].host.cluster)),
             LocationOf(cl, o), OrgRecord(w, o).fga, OrgRecord(w, o).oidc, ca)
  }

  /** Before an organization has its record, it shares no FGA store and no OIDC. */
  function OrgRecord(w: World, o: ClusterId): InfoSpec {
    if o in w.infos then w.infos[o].spec else ZERO_SPEC
  }

  /** How many accounts there are from c up to its organization. */
  function Depth(cl: Clusters, c: ClusterId): nat
    decreases c
  {
    if c in cl && cl[c].host.cluster in cl && cl[c].host.cluster < c then 1 + Depth(cl, cl[c].host.cluster) else 1
  }

  function ClusterOf(w: World, k: Key): ClusterId
    requires k in w.workspaces && w.workspaces[k].placement.Some?
  {
    w.workspaces[k].placement.value.cluster
  }

  /** All but the record is in place at k: finalizers, types, and a workspace past the phase gate,
      below an account for which the same is said. */
  predicate Grown(cfg: Config, w: World, k: Key) {
    && k in w.accounts && k in w.workspaces && w.workspaces[k].placement.Some?
    && var (a, ws, cl) := (w.accounts[k], w.workspaces[k], w.clusters); var at := ws.placement.value;
    && !a.deleting && Needed(cfg, a) <= a.finalizers
    && (ws.phase == Initializing || ws.phase == Ready) && ws.owner == Some(a.uid)
    && at.cluster in cl && cl[at.cluster] == Place(k, at.url, a.kind) && WorkspacePath(at.url).Some?
    && Hosted(w, at.cluster) && (Open(w, at.cluster) || at.cluster in w.infos)
    && (a.kind == ORG <==> k.cluster == ORGS) && (a.kind != ORG ==> k.cluster in cl && Hosted(w, k.cluster))
    && OrgOf(cl, at.cluster) in cl && var org := cl[OrgOf(cl, at.cluster)].host.name;
    && org != ""
    && ws.wsType == Some(TypeRef(TypeName(org, a.kind), ORGS_PATH))
    && TypeName(org, a.kind) in w.types && w.types[TypeName(org, a.kind)].ready
    && (a.kind == ORG ==> BothManaged(w.types, k.name))
  }

  /** Every record names the right account and the right organization, as all reachable ones do. */
  predicate Named(w: World, c: ClusterId) {
    && c in w.infos && c in w.clusters && OrgOf(w.clusters, c) in w.clusters
    && w.infos[c].spec.account == LocationOf(w.clusters, c)
    && w.infos[c].spec.organization == LocationOf(w.clusters, OrgOf(w.clusters, c))
  }

  /** A set of grown accounts that has with each account the one above it. */
  ghost predicate Stable(cfg: Config, w: World, tree: set<Key>) {
    && cfg.pipeline == STANDARD && TreeOk(w.clusters)
    && (forall k {:trigger Grown(cfg, w, k)} :: k in tree ==> Grown(cfg, w, k))
    && (forall k :: k in tree && k.cluster != ORGS ==> k.cluster in w.clusters && w.clusters[k.cluster].host in tree)
    && (forall c {:trigger Named(w, c)} :: c in w.infos ==> Named(w, c))
  }

  // ----- what one pass does -----

  function SelfLocation(w: World, k: Key): Location
    requires k in w.accounts && k in w.workspaces && w.workspaces[k].placement.Some?
  {
    var at := w.workspaces[k].placement.value;
    Location(k.name, at.cluster, k.cluster, PathOf(at.url), at.url, w.accounts[k].kind)
  }

  /** The record that a pass at k puts down: an organization's keeps its external fields, any
      other is copied from the record in the account's own cluster. */
  function RecordFor(ca: string, w: World, k: Key): InfoSpec
    requires k in w.accounts && k in w.workspaces && w.workspaces[k].placement.Some?
    requires w.accounts[k].kind != ORG ==> k.cluster in w.infos
  {
    if w.accounts[k].kind == ORG then OrgSpec(OrgRecord(w, ClusterOf(w, k)), SelfLocation(w, k), ca)
    else ChildSpec(SelfLocation(w, k), w.infos[k.cluster].spec, ca)
  }

  function Put(w: World, c: ClusterId, spec: InfoSpec): World {
    if c !in w.infos then PutInfo(w, c, spec, false, false)
    else if w.infos[c].spec == spec then w
    else PutInfo(w, c, spec, w.infos[c].finalizer, w.infos[c].deleting)
  }

  lemma TypesPass(ca: string, w: World, k: Key, a: Account)
    requires BothManaged(w.types, k.name)
    ensures Run(ca, w, k, a, TypeGet(OrgRole), None) == (w, Done)
  {
    hide Generate, Run, Mutate;
    forall t ensures Ensured(w.types, t, k.name) == w.types {
      var name := RoleName(t, k.name);
      PatchIsMerge(w.types[name], Generate(t, k.name));
      assert w.types[name := w.types[name]] == w.types;
    }
    EnsureRun(ca, w, k, a, OrgRole);
    EnsureRun(ca, w, k, a, AccountRole);
  }

  lemma WorkspacePass(ca: string, w: World, k: Key, a: Account, n: string)
    requires n in w.types && w.types[n].ready && k in w.workspaces
    requires w.workspaces[k].owner == Some(a.uid) && w.workspaces[k].wsType == Some(TypeRef(n, ORGS_PATH))
    ensures Run(ca, w, k, a, WsTypeGet(n), None) == (w, Done)
  {
    assert Call(ca, w, k, a, WsPut(n, Some(w.workspaces[k]))) == (w, Ok);
    assert Run(ca, w, k, a, WsGet(n), None) == (w, Done);
  }

  lemma InfoPass(ca: string, w: World, k: Key, a: Account)
    requires k in w.accounts && w.accounts[k] == a && k in w.workspaces && w.workspaces[k].placement.Some?
    requires w.workspaces[k].phase == Initializing || w.workspaces[k].phase == Ready
    requires var at := w.workspaces[k].placement.value;
             && Hosted(w, at.cluster) && WorkspacePath(at.url).Some?
             && (Open(w, at.cluster) || at.cluster in w.infos)
    requires a.kind != ORG ==> k.cluster in w.infos
    ensures Run(ca, w, k, a, AiWsGet, None) == (Put(w, ClusterOf(w, k), RecordFor(ca, w, k)), Done)
  {
    hide WorkspacePath, WriteInfo, Put;
    var (c, self) := (ClusterOf(w, k), SelfLocation(w, k));
    var parent := if a.kind == ORG then None else Some(w.infos[k.cluster].spec);
    var w' := Put(w, c, RecordFor(ca, w, k));
    WritePass(ca, w, self, parent);
    assert Call(ca, w, k, a, AiPut(self, parent, Find(w.infos, c))) == (w', Ok);
    assert Run(ca, w, k, a, AiOwnGet(self, parent), None) == (w', Done);
    if a.kind != ORG {
      assert Run(ca, w, k, a, AiParentGet(self), None) == (w', Done);
    }
  }

  lemma WritePass(ca: string, w: World, self: Location, parent: Option<InfoSpec>)
    requires Open(w, self.generated) || self.generated in w.infos
    ensures var c := self.generated;
            var spec := if parent.Some? then ChildSpec(self, parent.value, ca) else OrgSpec(OrgRecord(w, c), self, ca);
            WriteInfo(ca, w, self, parent, Find(w.infos, c)) == (Put(w, c, spec), Ok)
  {
    var c := self.generated;
    if c in w.infos && parent.None? {
      var (got, mutated) := (w.infos[c].spec, OrgSpec(w.infos[c].spec, self, ca));
      assert PatchSpec(got, got, mutated) == mutated;
    }
  }

  /** A pass at a grown account puts down its record, unless there is nothing above to copy yet;
      it changes nothing else. */
  lemma PassPuts(cfg: Config, ca: string, w: World, k: Key)
    requires cfg.pipeline == STANDARD && Grown(cfg, w, k) && TreeOk(w.clusters)
    requires w.accounts[k].kind != ORG ==> k.cluster in w.infos ==> Named(w, k.cluster)
    ensures Pass(cfg, ca, w, k) == if w.accounts[k].kind != ORG && k.cluster !in w.infos then (w, Again)
                               else (Put(w, ClusterOf(w, k), RecordFor(ca, w, k)),
                                     if w.workspaces[k].phase == Ready then Done else Again)
  {
    var a := w.accounts[k];
    assert a.finalizers + Needed(cfg, a) == a.finalizers;
    assert BeginAccount(cfg, a) == a && w.accounts[k := a] == w.accounts;
    assert STANDARD[1..] == FROM_WORKSPACE && FROM_WORKSPACE[1..] == FROM_INFO && FROM_INFO[1..] == FROM_READY;
    if a.kind == ORG {
      assert BeginWorker(cfg, k, a, None) == Some(Worker(a, FROM_WORKSPACE, TypeGet(OrgRole)));
      TypesPass(ca, w, k, a);
      FinishRunsSubroutine(ca, w, k, Worker(a, FROM_WORKSPACE, TypeGet(OrgRole)));
      assert Pass(cfg, ca, w, k) == Finish(ca, w, k, Worker(a, FROM_INFO, WsTypeGet(RoleName(OrgRole, k.name))));
      PassFromWorkspace(cfg, ca, w, k, RoleName(OrgRole, k.name));
    } else {
      assert Advance(k, a, FROM_WORKSPACE) == Some(Worker(a, FROM_INFO, WsInfoGet));
      assert Pass(cfg, ca, w, k) == Finish(ca, w, k, Worker(a, FROM_INFO, WsInfoGet));
      if k.cluster in w.infos {
        PassFromWorkspace(cfg, ca, w, k, TypeName(w.infos[k.cluster].spec.organization.name, a.kind));
      }
    }
  }

  lemma ReadyPass(ca: string, w: World, k: Key, a: Account)
    requires k in w.workspaces
    ensures Run(ca, w, k, a, ReadyGet, None) == (w, if w.workspaces[k].phase == Ready then Done else Again)
  {
  }

  lemma PassFromWorkspace(cfg: Config, ca: string, w: World, k: Key, n: string)
    requires Grown(cfg, w, k) && TreeOk(w.clusters) && (w.accounts[k].kind != ORG ==> k.cluster in w.infos)
    requires w.workspaces[k].wsType == Some(TypeRef(n, ORGS_PATH)) && n in w.types && w.types[n].ready
    ensures Finish(ca, w, k, Worker(w.accounts[k], FROM_INFO, WsTypeGet(n))) ==
            (Put(w, ClusterOf(w, k), RecordFor(ca, w, k)), if w.workspaces[k].phase == Ready then Done else Again)
  {
    hide Finish, Run, WorkspacePath, Generate, RecordFor;
    var a := w.accounts[k];
    var w' := Put(w, ClusterOf(w, k), RecordFor(ca, w, k));
    assert FROM_INFO[1..] == FROM_READY && FROM_READY[1..] == [];
    WorkspacePass(ca, w, k, a, n);
    FinishRunsSubroutine(ca, w, k, Worker(a, FROM_INFO, WsTypeGet(n)));
    assert Advance(k, a, FROM_INFO) == Some(Worker(a, FROM_READY, AiWsGet));
    InfoPass(ca, w, k, a);
    FinishRunsSubroutine(ca, w, k, Worker(a, FROM_READY, AiWsGet));
    assert Advance(k, a, FROM_READY) == Some(Worker(a, [], ReadyGet));
    FinishRunsSubroutine(ca, w', k, Worker(a, [], ReadyGet));
    ReadyPass(ca, w', k, a);
  }

  // ----- agreement -----

  predicate Right(ca: string, w: World, c: ClusterId) {
    TreeOk(w.clusters) && c in w.clusters && c in w.infos && w.infos[c].spec == Expected(ca, w, c)
  }

  /** All records down to depth n are right. */
  ghost predicate AgreedTo(cfg: Config, ca: string, w: World, tree: set<Key>, n: nat) {
    forall k {:trigger Grown(cfg, w, k)} :: k in tree && Grown(cfg, w, k) && Depth(w.clusters, ClusterOf(w, k)) <= n ==>
      Right(ca, w, ClusterOf(w, k))
  }

  ghost predicate SameTree(w: World, w': World) {
    w' == w.(infos := w'.infos, rv := w'.rv)
  }

  lemma GrownPlace(cfg: Config, w: World, k: Key)
    requires Grown(cfg, w, k) && TreeOk(w.clusters)
    ensures var (c, cl) := (ClusterOf(w, k), w.clusters);
            && c in cl && cl[c].host == k && c != ORGS
            && SelfLocation(w, k) == LocationOf(cl, c)
            && (w.accounts[k].kind == ORG ==> OrgOf(cl, c) == c && Depth(cl, c) == 1)
            && (w.accounts[k].kind != ORG ==>
                  && OrgOf(cl, c) == OrgOf(cl, k.cluster) != c && Depth(cl, c) == 1 + Depth(cl, k.cluster)
                  && k.cluster in cl && ClusterOfHost(w, k.cluster))
  {
    assert PlaceOk(w.clusters, ClusterOf(w, k));
  }

  predicate ClusterOfHost(w: World, c: ClusterId) {
    c in w.clusters && w.clusters[c].host in w.workspaces && w.workspaces[w.clusters[c].host].placement.Some? &&
    ClusterOf(w, w.clusters[c].host) == c
  }

  /** What belongs in a cluster depends on the tree and the external fields of its organization. */
  lemma ExpectedStays(ca: string, w: World, w': World, c: ClusterId)
    requires TreeOk(w.clusters) && c in w.clusters && TreeOk(w'.clusters) && Extends(w.clusters, w'.clusters)
    requires var o := OrgOf(w.clusters, c);
             OrgRecord(w', o).fga == OrgRecord(w, o).fga && OrgRecord(w', o).oidc == OrgRecord(w, o).oidc
    ensures Expected(ca, w', c) == Expected(ca, w, c)
  {
    OrgOfStays(w.clusters, w'.clusters, c);
    assert PlaceOk(w.clusters, c);
  }

  lemma PutWrites(w: World, c: ClusterId, spec: InfoSpec)
    ensures var w' := Put(w, c, spec);
            && SameTree(w, w') && c in w'.infos && w'.infos[c].spec == spec
            && (forall c' :: c' != c ==> (c' in w'.infos <==> c' in w.infos))
            && (forall c' :: c' != c && c' in w.infos ==> w'.infos[c'] == w.infos[c'])
  {
  }

  /** Putting down a record leaves the rest of the store, and what belongs in any cluster, alone. */
  lemma PutKeeps(cfg: Config, ca: string, w: World, k: Key)
    requires TreeOk(w.clusters) && Grown(cfg, w, k) && (w.accounts[k].kind != ORG ==> k.cluster in w.infos)
    ensures var (c, w') := (ClusterOf(w, k), Put(w, ClusterOf(w, k), RecordFor(ca, w, k)));
            && SameTree(w, w') && c in w'.infos && w'.infos[c].spec == RecordFor(ca, w, k)
            && (forall c' :: c' != c ==> (c' in w'.infos <==> c' in w.infos))
            && (forall c' :: c' != c && c' in w.infos ==> w'.infos[c'] == w.infos[c'])
            && (forall c' :: c' in w.clusters ==> Expected(ca, w', c') == Expected(ca, w, c'))
  {
    var (c, w') := (ClusterOf(w, k), Put(w, ClusterOf(w, k), RecordFor(ca, w, k)));
    GrownPlace(cfg, w, k);
    PutWrites(w, c, RecordFor(ca, w, k));
    assert PlaceOk(w.clusters, c);
    hide Grown, Put, Expected;
    forall c' | c' in w.clusters ensures Expected(ca, w', c') == Expected(ca, w, c') {
      ExpectedStays(ca, w, w', c');
    }
  }

  lemma PutStable(cfg: Config, ca: string, w: World, tree: set<Key>, k: Key)
    requires Stable(cfg, w, tree) && k in tree && Grown(cfg, w, k) &&
             (w.accounts[k].kind != ORG ==> k.cluster in w.infos)
    ensures Stable(cfg, Put(w, ClusterOf(w, k), RecordFor(ca, w, k)), tree)
  {
    hide Put, Expected, WorkspacePath, Managed, Needed;
    var (c, w') := (ClusterOf(w, k), Put(w, ClusterOf(w, k), RecordFor(ca, w, k)));
    PutKeeps(cfg, ca, w, k);
    forall j | j in tree ensures Grown(cfg, w', j) {
      assert Grown(cfg, w, j);
    }
    GrownPlace(cfg, w, k);
    forall c' | c' in w'.infos ensures Named(w', c') {
      if c' != c {
        assert Named(w, c');
      } else if w.accounts[k].kind != ORG {
        assert Named(w, k.cluster);
      }
    }
  }

  /** A pass at k makes its record right if the one above is, and leaves all other records alone. */
  lemma PassStep(cfg: Config, ca: string, w: World, tree: set<Key>, k: Key)
    requires Stable(cfg, w, tree) && k in tree && Grown(cfg, w, k)
    ensures var (c, w') := (ClusterOf(w, k), Pass(cfg, ca, w, k).0);
            && Stable(cfg, w', tree) && SameTree(w, w')
            && (forall c' :: c' != c && Right(ca, w, c') ==> Right(ca, w', c'))
            && (w.accounts[k].kind == ORG || Right(ca, w, k.cluster) ==> Right(ca, w', c))
  {
    assert w.accounts[k].kind != ORG && k.cluster in w.infos ==> Named(w, k.cluster);
    PassPuts(cfg, ca, w, k);
    if w.accounts[k].kind == ORG || k.cluster in w.infos {
      PutKeeps(cfg, ca, w, k);
      PutStable(cfg, ca, w, tree, k);
      PutRight(cfg, ca, w, tree, k);
    }
  }

  lemma PutRight(cfg: Config, ca: string, w: World, tree: set<Key>, k: Key)
    requires Stable(cfg, w, tree) && k in tree && Grown(cfg, w, k) &&
             (w.accounts[k].kind != ORG ==> k.cluster in w.infos)
    ensures var (c, w') := (ClusterOf(w, k), Put(w, ClusterOf(w, k), RecordFor(ca, w, k)));
            && (forall c' :: c' != c && Right(ca, w, c') ==> Right(ca, w', c'))
            && (w.accounts[k].kind == ORG || Right(ca, w, k.cluster) ==> Right(ca, w', c))
  {
    var (c, w') := (ClusterOf(w, k), Put(w, ClusterOf(w, k), RecordFor(ca, w, k)));
    PutKeeps(cfg, ca, w, k);
    GrownPlace(cfg, w, k);
    forall c' | c' != c && Right(ca, w, c') ensures Right(ca, w', c') {
      assert c' in w.infos;
    }
    if w.accounts[k].kind == ORG || Right(ca, w, k.cluster) {
      assert RecordFor(ca, w, k) == Expected(ca, w, c);
    }
  }

  // ----- rounds -----

  /** One pass at each account of the list, in its order; accounts that are gone or going get none. */
  function Round(cfg: Config, ca: string, w: World, order: seq<Key>): World
    decreases |order|
  {
    if order == [] then w
    else if order[0] in w.accounts && !w.accounts[order[0]].deleting then
      Round(cfg, ca, Pass(cfg, ca, w, order[0]).0, order[1..])
    else Round(cfg, ca, w, order[1..])
  }

  function Rounds(cfg: Config, ca: string, w: World, orders: seq<seq<Key>>): World
    decreases |orders|
  {
    if orders == [] then w else Rounds(cfg, ca, Round(cfg, ca, w, orders[0]), orders[1..])
  }

  lemma RecordAfter(cfg: Config, ca: string, w: World, tree: set<Key>, k: Key, j: Key, n: nat)
    requires Stable(cfg, w, tree) && k in tree && j in tree && Grown(cfg, w, k) && Grown(cfg, w, j)
    requires AgreedTo(cfg, ca, w, tree, n)
    requires var (c, d) := (ClusterOf(w, j), Depth(w.clusters, ClusterOf(w, j)));
             d <= n || (d == n + 1 && (j == k || Right(ca, w, c)))
    ensures Right(ca, Pass(cfg, ca, w, k).0, ClusterOf(w, j))
  {
    PassStep(cfg, ca, w, tree, k);
    if j == k {
      GrownPlace(cfg, w, k);
      assert w.accounts[k].kind != ORG ==> Grown(cfg, w, w.clusters[k.cluster].host);
    } else {
      hide Pass, Depth, Stable, Expected;
      GrownPlace(cfg, w, k);
      GrownPlace(cfg, w, j);
    }
  }

  /** A pass undoes no agreement, and extends it by one level at its account. */
  lemma PassAgrees(cfg: Config, ca: string, w: World, tree: set<Key>, visited: set<Key>, k: Key, n: nat)
    requires Stable(cfg, w, tree) && k in tree && Grown(cfg, w, k) && visited <= tree
    requires AgreedTo(cfg, ca, w, tree, n) && AgreedTo(cfg, ca, w, visited, n + 1)
    ensures var w' := Pass(cfg, ca, w, k).0;
            AgreedTo(cfg, ca, w', tree, n) && AgreedTo(cfg, ca, w', visited + {k}, n + 1)
  {
    var w' := Pass(cfg, ca, w, k).0;
    PassStep(cfg, ca, w, tree, k);
    forall j | j in tree && Grown(cfg, w', j)
      ensures var d := Depth(w'.clusters, ClusterOf(w', j));
              d <= n || (d == n + 1 && j in visited + {k}) ==> Right(ca, w', ClusterOf(w', j))
    {
      assert Grown(cfg, w, j);
      hide Pass, Grown, Stable;
      var d := Depth(w.clusters, ClusterOf(w, j));
      if d <= n || (d == n + 1 && j in visited + {k}) {
        RecordAfter(cfg, ca, w, tree, k, j, n);
      }
    }
  }

  /** After a round over accounts of the tree, in whatever order, those it visited agree one level
      further down. */
  lemma {:induction false} RoundAgrees(cfg: Config, ca: string, w: World, tree: set<Key>, visited: set<Key>,
                                       order: seq<Key>, n: nat)
    requires Stable(cfg, w, tree) && visited <= tree && forall k :: k in order ==> k in tree
    requires AgreedTo(cfg, ca, w, tree, n) && AgreedTo(cfg, ca, w, visited, n + 1)
    ensures var w' := Round(cfg, ca, w, order);
            && Stable(cfg, w', tree) && SameTree(w, w')
            && AgreedTo(cfg, ca, w', tree, n) && AgreedTo(cfg, ca, w', visited + (set k | k in order), n + 1)
    decreases |order|
  {
    if order == [] {
      assert visited + (set k | k in order) == visited;
    } else {
      var k := order[0];
      assert Grown(cfg, w, k);
      PassStep(cfg, ca, w, tree, k);
      PassAgrees(cfg, ca, w, tree, visited, k, n);
      hide Grown, Pass, Stable, Depth;
      RoundAgrees(cfg, ca, Pass(cfg, ca, w, k).0, tree, visited + {k}, order[1..], n);
      assert visited + {k} + (set j | j in order[1..]) == visited + (set j | j in order);
    }
  }

  /** Convergence under any schedule of passes: once the accounts of a tree are past the phase gate
      and the external fields of their organizations rest, as many rounds as a record is deep make
      it right, whatever the order of each round. */
  lemma {:induction false} RoundsAgree(cfg: Config, ca: string, w: World, tree: set<Key>, orders: seq<seq<Key>>, n: nat)
    requires Stable(cfg, w, tree) && AgreedTo(cfg, ca, w, tree, n)
    requires forall i :: 0 <= i < |orders| ==> (set k | k in orders[i]) == tree
    ensures var w' := Rounds(cfg, ca, w, orders);
            Stable(cfg, w', tree) && SameTree(w, w') && AgreedTo(cfg, ca, w', tree, n + |orders|)
    decreases |orders|
  {
    if orders != [] {
      assert forall k :: k in orders[0] ==> k in (set j | j in orders[0]);
      RoundAgrees(cfg, ca, w, tree, {}, orders[0], n);
      var w1 := Round(cfg, ca, w, orders[0]);
      assert {} + (set k | k in orders[0]) == tree;
      assert forall i :: 0 <= i < |orders[1..]| ==> orders[1..][i] == orders[i + 1];
      RoundsAgree(cfg, ca, w1, tree, orders[1..], n + 1);
    }
  }

  lemma Converges(cfg: Config, ca: string, w: World, tree: set<Key>, orders: seq<seq<Key>>)
    requires Stable(cfg, w, tree) && forall i :: 0 <= i < |orders| ==> (set k | k in orders[i]) == tree
    ensures var w' := Rounds(cfg, ca, w, orders);
            && SameTree(w, w')
            && forall k :: k in tree && Grown(cfg, w', k) && Depth(w.clusters, ClusterOf(w', k)) <= |orders| ==>
                 Right(ca, w', ClusterOf(w', k))
  {
    forall k | k in tree && Grown(cfg, w, k) ensures Depth(w.clusters, ClusterOf(w, k)) > 0 {
      GrownPlace(cfg, w, k);
    }
    RoundsAgree(cfg, ca, w, tree, orders, 0);
  }

  // ----- from the top down -----

  ghost predicate AllRight(cfg: Config, ca: string, w: World, visited: set<Key>) {
    forall k {:trigger Grown(cfg, w, k)} :: k in visited && Grown(cfg, w, k) ==> Right(ca, w, ClusterOf(w, k))
  }

  /** Each account comes after the one above it. */
  ghost predicate TopDown(w: World, visited: set<Key>, order: seq<Key>)
    decreases |order|
  {
    order == [] ||
    (var k := order[0];
     && k in w.accounts
     && (w.accounts[k].kind == ORG || (k.cluster in w.clusters && w.clusters[k.cluster].host in visited))
     && TopDown(w, visited + {k}, order[1..]))
  }

  lemma VisitRight(cfg: Config, ca: string, w: World, tree: set<Key>, visited: set<Key>, k: Key)
    requires Stable(cfg, w, tree) && k in tree && Grown(cfg, w, k) && visited <= tree && AllRight(cfg, ca, w, visited)
    requires w.accounts[k].kind == ORG || w.clusters[k.cluster].host in visited
    ensures AllRight(cfg, ca, Pass(cfg, ca, w, k).0, visited + {k})
  {
    var w' := Pass(cfg, ca, w, k).0;
    PassStep(cfg, ca, w, tree, k);
    GrownPlace(cfg, w, k);
    assert w.accounts[k].kind != ORG ==> Grown(cfg, w, w.clusters[k.cluster].host);
    forall j | j in visited + {k} && Grown(cfg, w', j) ensures Right(ca, w', ClusterOf(w', j)) {
      assert Grown(cfg, w, j);
      hide Pass, Stable, Depth, Expected;
      GrownPlace(cfg, w, j);
    }
  }

  /** One round from the top down makes every record right at once. */
  lemma {:induction false} TopDownSuffices(cfg: Config, ca: string, w: World, tree: set<Key>, visited: set<Key>,
                                           order: seq<Key>)
    requires Stable(cfg, w, tree) && visited <= tree && AllRight(cfg, ca, w, visited)
    requires (forall k :: k in order ==> k in tree) && TopDown(w, visited, order)
    ensures var w' := Round(cfg, ca, w, order);
            Stable(cfg, w', tree) && SameTree(w, w') && AllRight(cfg, ca, w', visited + (set k | k in order))
    decreases |order|
  {
    hide Right, Pass, Depth, WorkspacePath, Needed, Managed;
    if order == [] {
      assert visited + (set k | k in order) == visited;
    } else {
      var k := order[0];
      assert Grown(cfg, w, k);
      PassStep(cfg, ca, w, tree, k);
      VisitRight(cfg, ca, w, tree, visited, k);
      TopDownStays(w, Pass(cfg, ca, w, k).0, visited + {k}, order[1..]);
      hide Grown, Stable, AllRight, TopDown;
      TopDownSuffices(cfg, ca, Pass(cfg, ca, w, k).0, tree, visited + {k}, order[1..]);
      assert visited + {k} + (set j | j in order[1..]) == visited + (set j | j in order);
    }
  }

  lemma {:induction false} TopDownStays(w: World, w': World, visited: set<Key>, order: seq<Key>)
    requires TopDown(w, visited, order) && SameTree(w, w')
    ensures TopDown(w', visited, order)
    decreases |order|
  {
    if order != [] {
      TopDownStays(w, w', visited + {order[0]}, order[1..]);
    }
  }

  // ----- states at rest -----

  /** A pass at k says OK and changes nothing. */
  predicate Rests(cfg: Config, ca: string, w: World, k: Key) {
    k in w.accounts && !w.accounts[k].deleting && Pass(cfg, ca, w, k) == (w, Done)
  }

  predicate AtRest(cfg: Config, ca: string, w: World, tree: set<Key>) {
    forall k {:trigger Rests(cfg, ca, w, k)} :: k in tree ==> Rests(cfg, ca, w, k)
  }

  ghost predicate Finished(cfg: Config, ca: string, w: World, tree: set<Key>) {
    forall k {:trigger Grown(cfg, w, k)} :: k in tree && Grown(cfg, w, k) ==>
      w.workspaces[k].phase == Ready && Right(ca, w, ClusterOf(w, k))
  }

  /** At rest means finished: by induction from the organizations down. */
  lemma {:induction false} RestIsRight(cfg: Config, ca: string, w: World, tree: set<Key>, k: Key)
    requires Stable(cfg, w, tree) && AtRest(cfg, ca, w, tree) && k in tree && Grown(cfg, w, k)
    ensures w.workspaces[k].phase == Ready && Right(ca, w, ClusterOf(w, k))
    decreases k.cluster
  {
    GrownPlace(cfg, w, k);
    assert Rests(cfg, ca, w, k);
    assert w.accounts[k].kind != ORG && k.cluster in w.infos ==> Named(w, k.cluster);
    PassPuts(cfg, ca, w, k);
    PutKeeps(cfg, ca, w, k);
    if w.accounts[k].kind != ORG {
      var host := w.clusters[k.cluster].host;
      assert Grown(cfg, w, host);
      assert PlaceOk(w.clusters, k.cluster);
      RestIsRight(cfg, ca, w, tree, host);
    }
    PutRight(cfg, ca, w, tree, k);
  }

  lemma FinishedRests(cfg: Config, ca: string, w: World, tree: set<Key>, k: Key)
    requires Stable(cfg, w, tree) && Finished(cfg, ca, w, tree) && k in tree && Grown(cfg, w, k)
    ensures Pass(cfg, ca, w, k) == (w, Done)
  {
    GrownPlace(cfg, w, k);
    if w.accounts[k].kind != ORG {
      assert Grown(cfg, w, w.clusters[k.cluster].host);
      assert Named(w, k.cluster);
    }
    PassPuts(cfg, ca, w, k);
    assert RecordFor(ca, w, k) == Expected(ca, w, ClusterOf(w, k));
  }

  /** The states at rest are exactly those in which every workspace is Ready and every record the
      one that the tree and the organizations' external fields determine. */
  lemma RestExactly(cfg: Config, ca: string, w: World, tree: set<Key>)
    requires Stable(cfg, w, tree)
    ensures AtRest(cfg, ca, w, tree) <==> Finished(cfg, ca, w, tree)
  {
    if AtRest(cfg, ca, w, tree) {
      forall k | k in tree && Grown(cfg, w, k)
        ensures w.workspaces[k].phase == Ready && Right(ca, w, ClusterOf(w, k))
      {
        RestIsRight(cfg, ca, w, tree, k);
      }
    }
    if Finished(cfg, ca, w, tree) {
      forall k | k in tree
        ensures Rests(cfg, ca, w, k)
      {
        assert Grown(cfg, w, k);
        FinishedRests(cfg, ca, w, tree, k);
      }
    }
  }

  /** Whatever schedules led there, two states at rest over the same tree and the same external
      fields hold the same records. */
  lemma OneRestingPlace(cfg: Config, ca: string, w1: World, tree1: set<Key>, w2: World, tree2: set<Key>, k: Key)
    requires Stable(cfg, w1, tree1) && AtRest(cfg, ca, w1, tree1) && k in tree1 && Grown(cfg, w1, k)
    requires Stable(cfg, w2, tree2) && AtRest(cfg, ca, w2, tree2) && k in tree2 && Grown(cfg, w2, k)
    requires w1.clusters == w2.clusters && ClusterOf(w1, k) == ClusterOf(w2, k)
    requires var o := OrgOf(w1.clusters, ClusterOf(w1, k));
             OrgRecord(w1, o).fga == OrgRecord(w2, o).fga && OrgRecord(w1, o).oidc == OrgRecord(w2, o).oidc
    ensures var c := ClusterOf(w1, k); c in w1.infos && c in w2.infos && w1.infos[c].spec == w2.infos[c].spec
  {
    RestIsRight(cfg, ca, w1, tree1, k);
    RestIsRight(cfg, ca, w2, tree2, k);
    ExpectedStays(ca, w1, w2, ClusterOf(w1, k));
  }
}
