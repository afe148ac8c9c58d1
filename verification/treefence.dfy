/** The selectors and the tree: what the operator builds is what they let through. */
module TreeFence {
  import opened Wrappers
  import opened Naming
  import opened Model
  import opened WorkspaceTypes
  import opened System
  import opened Invariant
  import opened Safety
  import opened Progress

  /** The types from the organization's workspace down to the one at k, for these clusters. */
  function Chain(cl: Clusters, k: Key): (chain: seq<(Role, string)>)
    ensures chain != []
    decreases k.cluster
  {
    if k.cluster in cl && cl[k.cluster].host.cluster < k.cluster then
      var above := Chain(cl, cl[k.cluster].host);
      above + [(AccountRole, above[0].1)]
    else [(OrgRole, k.name)]
  }

  /** The workspace at k, and all that it lies in, carry these types. */
  ghost predicate Carries(w: World, k: Key, chain: seq<(Role, string)>)
    decreases |chain|
  {
    && chain != [] && k in w.workspaces
    && var (role, org) := chain[|chain| - 1];
    && w.workspaces[k].wsType == Some(Ref(role, org))
    && (if k.cluster == ORGS then |chain| == 1
        else k.cluster in w.clusters && Carries(w, w.clusters[k.cluster].host, chain[..|chain| - 1]))
  }

  /** The chain is the organization of k followed by accounts of it. */
  lemma {:induction false} ChainShape(cl: Clusters, k: Key)
    requires TreeOk(cl) && (k.cluster == ORGS || k.cluster in cl)
    ensures OneOrganization(Chain(cl, k))
    ensures Chain(cl, k)[0].1 == if k.cluster == ORGS then k.name else cl[OrgOf(cl, k.cluster)].host.name
    ensures k.cluster != ORGS ==> |Chain(cl, k)| > 1
    decreases k.cluster
  {
    if k.cluster != ORGS {
      assert PlaceOk(cl, k.cluster);
      ChainShape(cl, cl[k.cluster].host);
    }
  }

  lemma {:induction false} ChainCarried(cfg: Config, s: Sys, k: Key)
    requires Inv(cfg, s) && k in s.w.workspaces && InOrg(s.w, k)
    ensures Carries(s.w, k, Chain(s.w.clusters, k))
    decreases k.cluster
  {
    var (w, cl) := (s.w, s.w.clusters);
    assert WorkspaceOk(w, k) && AccountOk(w, k);
    ChainShape(cl, k);
    if k.cluster != ORGS {
      var host := cl[k.cluster].host;
      assert PlaceOk(cl, k.cluster);
      assert WorkspaceOk(w, host);
      ChainCarried(cfg, s, host);
      assert Chain(cl, k)[..|Chain(cl, k)| - 1] == Chain(cl, host);
    }
  }

  /** In every reachable state, at any depth: the types from root:orgs down to the workspace of an
      account inside an organization make up a chain that the selectors admit. */
  lemma TreeAdmitted(cfg: Config, types: map<string, WorkspaceType>, steps: seq<Step>, k: Key)
    requires IsRun(cfg, types, steps)
    requires k in At(cfg, types, steps).w.workspaces && InOrg(At(cfg, types, steps).w, k)
    ensures var w := At(cfg, types, steps).w;
            Carries(w, k, Chain(w.clusters, k)) && Admitted(Chain(w.clusters, k))
  {
    RunInv(cfg, types, steps);
    if WorkspaceSub in cfg.pipeline {
      var s := At(cfg, types, steps);
      assert WorkspaceOk(s.w, k) && AccountOk(s.w, k);
      ChainCarried(cfg, s, k);
      ChainShape(s.w.clusters, k);
      FenceAnyDepth(Chain(s.w.clusters, k));
    }
  }
}
