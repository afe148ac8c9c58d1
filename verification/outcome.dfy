/** Where fair runs end: with the records that the tree and the external fields determine. */
module Outcome {
  import opened Wrappers
  import opened Naming
  import opened WorkspaceUrl
  import opened Model
  import opened WorkspaceTypes
  import opened Program
  import opened System
  import opened Invariant
  import opened Preserve
  import opened Safety
  import opened Origin
  import opened EndToEnd
  import opened Ranking
  import opened Progress
  import opened Fairness
  import opened Convergence
  import opened Rest

  /** The accounts of organizations that have none but usable URLs. */
  function Tree(w: World): set<Key> {
    set k | k in w.accounts && Served(w, k)
  }

  lemma SettledGrown(cfg: Config, s: Sys, k: Key)
    requires Good(cfg, s) && Settled(cfg, s.ca, s.w) && Served(s.w, k)
    ensures Grown(cfg, s.w, k) && s.w.workspaces[k].phase == Ready
  {
    var (w, a) := (s.w, s.w.accounts[k]);
    assert Fulfilled(cfg, s.ca, w, k);
    assert AccountOk(w, k) && WorkspaceOk(w, k);
    var c := w.workspaces[k].placement.value.cluster;
    assert InfoOk(w, s.h, c);
    if a.kind == ORG {
      assert RoleName(OrgRole, k.name) in w.types;
    } else {
      Support(cfg, s, k);
    }
    hide Grown, Settled, Fulfilled;
    GrownFacts(cfg, s, k);
  }

  lemma SettledRight(cfg: Config, s: Sys, k: Key)
    requires Good(cfg, s) && Settled(cfg, s.ca, s.w) && Served(s.w, k) && Grown(cfg, s.w, k)
    ensures Right(s.ca, s.w, ClusterOf(s.w, k))
  {
    var (w, c) := (s.w, ClusterOf(s.w, k));
    assert Fulfilled(cfg, s.ca, w, k);
    assert InfoOk(w, s.h, c);
    OwnOrganization(w, s.h, c);
    assert PlaceOk(w.clusters, c);
  }

  lemma HostServed(cfg: Config, s: Sys, k: Key)
    requires Inv(cfg, s) && Served(s.w, k) && k.cluster != ORGS
    ensures k.cluster in s.w.clusters && Served(s.w, s.w.clusters[k.cluster].host)
  {
    HostInOrg(cfg, s, k);
    assert AccountOk(s.w, k);
    assert WorkspaceOk(s.w, s.w.clusters[k.cluster].host);
  }

  /** A settled state is at rest, and every record in it is right. */
  lemma SettledRests(cfg: Config, s: Sys)
    requires Good(cfg, s) && Settled(cfg, s.ca, s.w)
    ensures Stable(cfg, s.w, Tree(s.w)) && Finished(cfg, s.ca, s.w, Tree(s.w)) && AtRest(cfg, s.ca, s.w, Tree(s.w))
  {
    var tree := Tree(s.w);
    forall k | k in tree
      ensures Grown(cfg, s.w, k) && s.w.workspaces[k].phase == Ready && Right(s.ca, s.w, ClusterOf(s.w, k))
    {
      SettledGrown(cfg, s, k);
      SettledRight(cfg, s, k);
    }
    forall k | k in tree && k.cluster != ORGS
      ensures k.cluster in s.w.clusters && s.w.clusters[k.cluster].host in tree
    {
      HostServed(cfg, s, k);
    }
    StableRest(cfg, s, tree);
    RestExactly(cfg, s.ca, s.w, tree);
  }

  ghost predicate FinishedAt(cfg: Config, states: States, i: nat) {
    i in states && Stable(cfg, states[i].w, Tree(states[i].w))
    && Finished(cfg, states[i].ca, states[i].w, Tree(states[i].w))
    && AtRest(cfg, states[i].ca, states[i].w, Tree(states[i].w))
  }

  /** From some point on in every fair run, every pass at an account with usable URLs says OK and changes
      nothing, and every record is the one that belongs there. */
  lemma FairRunsConverge(cfg: Config, states: States, steps: Steps, start: nat) returns (n: nat)
    requires Endless(cfg, states, steps) && Fair(cfg, states, steps) && Good(cfg, states[0])
    requires forall i: nat :: start <= i ==> NoFailure(steps, i)
    ensures forall i: nat :: n <= i ==> FinishedAt(cfg, states, i)
  {
    n := FairRunsSettle(cfg, states, steps, start);
    forall i: nat | n <= i ensures FinishedAt(cfg, states, i) {
      assert SettledAt(cfg, states, i);
      EndlessLive(cfg, states, steps, i);
      SettledRests(cfg, states[i]);
    }
  }

  // ----- from one state -----

  /** Nothing is being deleted. */
  predicate Calm(w: World) {
    && (forall k :: k in w.accounts ==> !w.accounts[k].deleting)
    && (forall k :: k in w.workspaces ==> !w.workspaces[k].deleting)
    && (forall c :: c in w.infos ==> !w.infos[c].deleting)
  }

  /** Everything that is placed has stayed in its place, and what the organizations have from outside
      has stayed as it was. */
  ghost predicate Follows(w: World, w': World) {
    && Calm(w') && Extends(w.clusters, w'.clusters)
    && (forall k :: k in w.accounts ==> k in w'.accounts && w'.accounts[k].kind == w.accounts[k].kind)
    && (forall k :: k in w.workspaces && w.workspaces[k].placement.Some? ==>
          k in w'.workspaces && w'.workspaces[k].placement == w.workspaces[k].placement)
    && (forall o {:trigger OrgRecord(w', o)} :: IsOrgCluster(w, o) ==>
          OrgRecord(w', o).fga == OrgRecord(w, o).fga && OrgRecord(w', o).oidc == OrgRecord(w, o).oidc)
  }

  /** In a calm state no step of operator or kcp deletes anything. */
  lemma CalmSteps(cfg: Config, s: Sys, step: Step)
    requires Ticks(cfg, s, step) && Calm(s.w)
    ensures !step.DeleteAccount? && !step.RequestDeletion? && !step.RemoveWorkspace? && !step.DeleteInfo? &&
            !step.InfoRelease?
    ensures step.Work? ==> !Finalizing(s.workers[step.k].pc)
  {
    hide Call, PcOk, HistoryOk;
    var w := s.w;
    forall k | k in w.accounts ensures Open(w, k.cluster) {
      assert AccountOk(w, k);
    }
    forall k | k in w.workspaces ensures k in w.accounts {
      assert WorkspaceOk(w, k);
    }
    forall c | c in w.infos ensures Open(w, c) {
      assert InfoOk(w, s.h, c);
    }
    if step.Work? {
      assert WorkerOk(w, s.h, step.k, s.workers[step.k]);
    }
  }

  lemma OrgRecordStays(cfg: Config, s: Sys, step: Step, o: ClusterId)
    requires Ticks(cfg, s, step) && Calm(s.w) && IsOrgCluster(s.w, o)
    ensures var w' := ApplyWorld(cfg, s, step);
            OrgRecord(w', o).fga == OrgRecord(s.w, o).fga && OrgRecord(w', o).oidc == OrgRecord(s.w, o).oidc
  {
    CalmSteps(cfg, s, step);
    var w' := ApplyWorld(cfg, s, step);
    if o in s.w.infos {
      assert o in w'.infos by { InfoStays(cfg, s, step, o); }
      ExternalFieldsKept(cfg, s, step, o);
    } else if o in w'.infos {
      CreatedUnset(cfg, s, step, o);
    }
  }

  lemma CalmAccounts(cfg: Config, s: Sys, step: Step)
    requires Ticks(cfg, s, step) && Calm(s.w)
    ensures var w' := ApplyWorld(cfg, s, step);
            && (forall k :: k in s.w.accounts ==> k in w'.accounts && w'.accounts[k].kind == s.w.accounts[k].kind)
            && (forall k :: k in w'.accounts ==> !w'.accounts[k].deleting)
  {
    CalmSteps(cfg, s, step);
    hide Call, Inv, Open;
    if step.Work? {
      CallAccounts(s.ca, s.w, step.k, s.workers[step.k].instance, s.workers[step.k].pc);
    }
  }

  lemma CalmWorkspaces(cfg: Config, s: Sys, step: Step)
    requires Ticks(cfg, s, step) && Calm(s.w)
    ensures var w' := ApplyWorld(cfg, s, step);
            && (forall k :: k in s.w.workspaces && s.w.workspaces[k].placement.Some? ==>
                  k in w'.workspaces && w'.workspaces[k].placement == s.w.workspaces[k].placement)
            && (forall k :: k in w'.workspaces ==> !w'.workspaces[k].deleting)
  {
    CalmSteps(cfg, s, step);
    hide Call, HistoryOk, InfosOk, AccountsOk, WorkspacesOk, Open;
    if step.Work? {
      var wk := s.workers[step.k];
      assert WorkerOk(s.w, s.h, step.k, wk);
      CallWorkspaces(s.ca, s.w, s.h, step.k, wk.instance, wk.pc);
    }
  }

  lemma CalmInfos(cfg: Config, s: Sys, step: Step)
    requires Ticks(cfg, s, step) && Calm(s.w)
    ensures var w' := ApplyWorld(cfg, s, step); forall c :: c in w'.infos ==> !w'.infos[c].deleting
  {
    CalmSteps(cfg, s, step);
    hide Call, PcOk, HistoryOk, Open;
    if step.Work? {
      var wk := s.workers[step.k];
      if wk.pc.AiPut? {
        CallWrite(cfg, s, step.k);
      } else {
        CallInfos(s.ca, s.w, step.k, wk.instance, wk.pc);
      }
    }
  }

  lemma FollowsStep(cfg: Config, s: Sys, step: Step)
    requires Ticks(cfg, s, step) && Calm(s.w)
    ensures Follows(s.w, Apply(cfg, s, step).w)
  {
    var w' := ApplyWorld(cfg, s, step);
    CalmSteps(cfg, s, step);
    TreeStep(cfg, s, step);
    CalmAccounts(cfg, s, step);
    CalmWorkspaces(cfg, s, step);
    CalmInfos(cfg, s, step);
    forall o | IsOrgCluster(s.w, o)
      ensures OrgRecord(w', o).fga == OrgRecord(s.w, o).fga && OrgRecord(w', o).oidc == OrgRecord(s.w, o).oidc
    {
      OrgRecordStays(cfg, s, step, o);
    }
  }

  lemma FollowsOn(w: World, w1: World, w2: World)
    requires Follows(w, w1) && Follows(w1, w2)
    ensures Follows(w, w2)
  {
    forall o | IsOrgCluster(w, o)
      ensures OrgRecord(w2, o).fga == OrgRecord(w, o).fga && OrgRecord(w2, o).oidc == OrgRecord(w, o).oidc
    {
      assert OrgRecord(w1, o).fga == OrgRecord(w, o).fga && OrgRecord(w1, o).oidc == OrgRecord(w, o).oidc;
      assert IsOrgCluster(w1, o);
    }
  }

  lemma {:induction false} EndlessFollows(cfg: Config, states: States, steps: Steps, i: nat)
    requires Endless(cfg, states, steps) && Live(cfg, states[0]) && Calm(states[0].w)
    ensures Follows(states[0].w, states[i].w)
  {
    hide Inv, Apply, Enabled, Internal, Follows;
    if i == 0 {
      FollowsItself(states[0].w);
    } else {
      EndlessFollows(cfg, states, steps, i - 1);
      EndlessLive(cfg, states, steps, i - 1);
      assert Continues(cfg, states, steps, i - 1);
      if steps[i - 1].Some? {
        CalmLater(states[0].w, states[i - 1].w);
        FollowsStep(cfg, states[i - 1], steps[i - 1].value);
        FollowsOn(states[0].w, states[i - 1].w, states[i].w);
      }
    }
  }

  lemma FollowsItself(w: World)
    requires Calm(w)
    ensures Follows(w, w)
  {
  }

  lemma CalmLater(w: World, w': World)
    requires Follows(w, w')
    ensures Calm(w')
  {
  }

  /** A record that this start determines, for the account at k. */
  ghost predicate RecordAt(states: States, i: nat, k: Key) {
    && i in states && 0 in states && TreeOk(states[0].w.clusters)
    && k in states[0].w.workspaces && states[0].w.workspaces[k].placement.Some?
    && var c := ClusterOf(states[0].w, k);
    && c in states[0].w.clusters && c in states[i].w.infos
    && states[i].w.infos[c].spec == Expected(states[0].ca, states[0].w, c)
  }

  lemma ServedLater(cfg: Config, s: Sys, s': Sys, k: Key)
    requires Inv(cfg, s) && Inv(cfg, s') && Follows(s.w, s'.w)
    requires Served(s.w, k) && k in s.w.workspaces && s.w.workspaces[k].placement.Some?
    ensures Served(s'.w, k) && k in s'.w.workspaces && s'.w.workspaces[k].placement == s.w.workspaces[k].placement
  {
    if k.cluster != ORGS {
      UsableLater(s.w.clusters, s'.w.clusters, k.cluster);
    }
    assert AccountOk(s.w, k);
  }

  lemma {:induction false} UsableLater(cl: Clusters, cl': Clusters, c: ClusterId)
    requires Extends(cl, cl')
    ensures (Usable(cl, c) ==> Usable(cl', c)) && (Regular(cl, c) ==> Regular(cl', c))
    decreases c
  {
    if c in cl && cl[c].host.cluster < c {
      UsableLater(cl, cl', cl[c].host.cluster);
    }
  }

  lemma RecordDetermined(cfg: Config, states: States, i: nat, k: Key)
    requires 0 in states && i in states && Good(cfg, states[0]) && Good(cfg, states[i]) && states[i].ca == states[0].ca
    requires Follows(states[0].w, states[i].w) && Settled(cfg, states[i].ca, states[i].w)
    requires var w := states[0].w; Served(w, k) && k in w.workspaces && w.workspaces[k].placement.Some?
    ensures RecordAt(states, i, k)
  {
    var (s, s') := (states[0], states[i]);
    ServedLater(cfg, s, s', k);
    SettledGrown(cfg, s', k);
    SettledRight(cfg, s', k);
    var c := ClusterOf(s.w, k);
    assert WorkspaceOk(s.w, k);
    assert PlaceOk(s.w.clusters, c);
    assert IsOrgCluster(s.w, OrgOf(s.w.clusters, c));
    ExpectedStays(s.ca, s.w, s'.w, c);
  }

  /** The state in which the users and the external writers leave the platform determines the outcome of
      every fair run: if nothing is being deleted, each account that has its workspace placed, under
      usable URLs, ends with the record that the tree and the external fields of that state belong to. */
  lemma OutcomeDetermined(cfg: Config, states: States, steps: Steps, start: nat, k: Key) returns (n: nat)
    requires Endless(cfg, states, steps) && Fair(cfg, states, steps) && Good(cfg, states[0])
    requires (forall i: nat :: start <= i ==> NoFailure(steps, i)) && Calm(states[0].w)
    requires var w := states[0].w; Served(w, k) && k in w.workspaces && w.workspaces[k].placement.Some?
    ensures forall i: nat :: n <= i ==> RecordAt(states, i, k)
  {
    n := FairRunsSettle(cfg, states, steps, start);
    forall i: nat | n <= i ensures RecordAt(states, i, k) {
      assert SettledAt(cfg, states, i);
      EndlessLive(cfg, states, steps, i);
      EndlessFollows(cfg, states, steps, i);
      RecordDetermined(cfg, states, i, k);
    }
  }

  ghost predicate SameRecord(states1: States, i: nat, states2: States, j: nat, c: ClusterId) {
    && i in states1 && j in states2 && c in states1[i].w.infos && c in states2[j].w.infos
    && states1[i].w.infos[c].spec == states2[j].w.infos[c].spec
  }

  /** Schedules do not matter: any two fair runs from there end with the same record for it. */
  lemma SchedulesAgree(cfg: Config, states1: States, steps1: Steps, states2: States, steps2: Steps, start: nat, k: Key)
    returns (n: nat)
    requires Endless(cfg, states1, steps1) && Fair(cfg, states1, steps1) && Good(cfg, states1[0])
    requires Endless(cfg, states2, steps2) && Fair(cfg, states2, steps2) && states2[0] == states1[0]
    requires forall i: nat :: start <= i ==> NoFailure(steps1, i) && NoFailure(steps2, i)
    requires var w := states1[0].w; Calm(w) && Served(w, k) && k in w.workspaces && w.workspaces[k].placement.Some?
    ensures forall i: nat, j: nat :: n <= i && n <= j ==>
              SameRecord(states1, i, states2, j, ClusterOf(states1[0].w, k))
  {
    var n1 := OutcomeDetermined(cfg, states1, steps1, start, k);
    var n2 := OutcomeDetermined(cfg, states2, steps2, start, k);
    n := if n1 < n2 then n2 else n1;
    forall i: nat, j: nat | n <= i && n <= j ensures SameRecord(states1, i, states2, j, ClusterOf(states1[0].w, k)) {
      assert RecordAt(states1, i, k) && RecordAt(states2, j, k);
    }
  }
}
