/** Deleting an account takes its whole subtree with it. */
module Teardown {
  import opened Model
  import opened Program
  import opened System
  import opened Invariant
  import opened Ranking
  import opened Progress
  import opened Safety
  import opened Fairness

  /** j lies below k in the tree of clusters. */
  predicate Under(cl: Clusters, j: Key, k: Key)
    decreases j.cluster
  {
    j.cluster in cl && cl[j.cluster].host.cluster < j.cluster &&
    (cl[j.cluster].host == k || Under(cl, cl[j.cluster].host, k))
  }

  /** Neither k nor anything below it is left: no account, no workspace, no AccountInfo. */
  ghost predicate Gone(w: World, k: Key) {
    && k !in w.accounts && k !in w.workspaces
    && (forall j {:trigger Under(w.clusters, j, k)} :: Under(w.clusters, j, k) ==>
          j !in w.accounts && j !in w.workspaces)
    && (forall c :: c in w.infos && c in w.clusters ==>
          w.clusters[c].host != k && !Under(w.clusters, w.clusters[c].host, k))
  }

  lemma {:induction false} AnchorsAbove(w: World, j: Key, k: Key)
    requires ORGS !in w.clusters && Anchored(w, j) && Under(w.clusters, j, k)
    ensures k in w.accounts
    decreases j.cluster
  {
    if w.clusters[j.cluster].host != k {
      AnchorsAbove(w, w.clusters[j.cluster].host, k);
    }
  }

  /** Whatever is left hangs from an account above it; so when k is gone, all below is. */
  lemma NothingBelow(cfg: Config, s: Sys, k: Key)
    requires Inv(cfg, s) && k !in s.w.accounts
    ensures Gone(s.w, k)
  {
    var w := s.w;
    forall j | j in w.accounts ensures !Under(w.clusters, j, k) {
      InvAnchored(cfg, s, j);
      if Under(w.clusters, j, k) {
        AnchorsAbove(w, j, k);
      }
    }
    forall j | j in w.workspaces ensures j in w.accounts {
      assert WorkspaceOk(w, j);
    }
    forall c | c in w.infos ensures c in w.clusters && w.clusters[c].host in w.accounts {
      assert InfoOk(w, s.h, c);
      assert WorkspaceOk(w, w.clusters[c].host);
    }
  }

  /** The account at k is on its way out, or gone. */
  predicate Leaving(w: World, k: Key) {
    k in w.accounts ==> w.accounts[k].deleting
  }

  lemma LeavingStep(cfg: Config, s: Sys, step: Step, k: Key)
    requires Ticks(cfg, s, step) && Leaving(s.w, k)
    ensures Leaving(Apply(cfg, s, step).w, k)
  {
    if k in Apply(cfg, s, step).w.accounts {
      AccountBack(cfg, s, step, k);
    }
  }

  lemma {:induction false} LeavingStays(cfg: Config, states: States, steps: Steps, k: Key, i: nat)
    requires Endless(cfg, states, steps) && Live(cfg, states[0]) && Leaving(states[0].w, k)
    ensures i in states && Leaving(states[i].w, k)
  {
    hide Apply, Enabled, Internal, Inv, Leaving;
    if i > 0 {
      LeavingStays(cfg, states, steps, k, i - 1);
      EndlessLive(cfg, states, steps, i - 1);
      assert Continues(cfg, states, steps, i - 1);
      if steps[i - 1].Some? {
        LeavingStep(cfg, states[i - 1], steps[i - 1].value, k);
      }
    }
  }

  ghost predicate GoneAt(states: States, i: nat, k: Key) {
    i in states && Gone(states[i].w, k)
  }

  /** Teardown ends: in every fair run of the operator and kcp in which calls stop failing, a deleted
      account and its whole subtree are gone from some point on. */
  lemma DeletedSubtreeGoes(cfg: Config, states: States, steps: Steps, start: nat, k: Key) returns (n: nat)
    requires Endless(cfg, states, steps) && Fair(cfg, states, steps) && Live(cfg, states[0])
    requires (forall i: nat :: start <= i ==> NoFailure(steps, i)) && Leaving(states[0].w, k)
    ensures forall i: nat :: n <= i ==> GoneAt(states, i, k)
  {
    n := FairRunsRest(cfg, states, steps, start);
    forall i: nat | n <= i ensures GoneAt(states, i, k) {
      assert Unchanged(states, n, i);
      LeavingStays(cfg, states, steps, k, i);
      EndlessLive(cfg, states, steps, i);
      NothingBelow(cfg, states[i], k);
    }
  }
}
