/** Whatever lies in a cluster can be torn down without touching the cluster itself. */
module Emptying {
  import opened Model
  import opened Program
  import opened System
  import opened Invariant
  import opened Preserve
  import opened Ranking
  import opened Progress

  /** Cluster c has stayed open, with its AccountInfo as it was, and has got no new accounts. */
  ghost predicate Keeps(s: Sys, s': Sys, c: ClusterId) {
    && c in s.w.infos && c in s'.w.infos && Open(s'.w, c)
    && s'.w.infos[c].finalizer == s.w.infos[c].finalizer && s'.w.infos[c].deleting == s.w.infos[c].deleting
    && (forall k :: k in s'.w.accounts && k.cluster == c ==>
          k in s.w.accounts && (s.w.accounts[k].deleting ==> s'.w.accounts[k].deleting))
  }

  /** The calls at accounts in c or deeper. */
  lemma WorkWithin(cfg: Config, s: Sys, k: Key, c: ClusterId)
    requires Inv(cfg, s) && k in s.workers && c <= k.cluster && c in s.w.infos && c in s.w.clusters
    ensures var w' := ApplyWorld(cfg, s, Step.Work(k)); var host := s.w.clusters[c].host;
            && c in w'.infos && w'.infos[c] == s.w.infos[c]
            && (host in s.w.workspaces ==> host in w'.workspaces && w'.workspaces[host] == s.w.workspaces[host])
  {
    hide HistoryOk, AccountsOk, WorkspacesOk, Call;
    assert InfoOk(s.w, s.h, c) && PlaceOk(s.w.clusters, c);
    var wk := s.workers[k];
    assert WorkerOk(s.w, s.h, k, wk);
    CallInfos(s.ca, s.w, k, wk.instance, wk.pc);
    if wk.pc.AiPut? {
      var rest: map<ClusterId, Info> := s.w.infos - {wk.pc.self.generated};
      assert c in rest && rest[c] == s.w.infos[c];
    }
    CallWorkspaces(s.ca, s.w, s.h, k, wk.instance, wk.pc);
  }

  lemma HostWithin(cfg: Config, s: Sys, step: Step, c: ClusterId)
    requires Ticks(cfg, s, step) && Within(step, c) && c in s.w.infos && Open(s.w, c)
    ensures var w' := ApplyWorld(cfg, s, step);
            c in w'.infos && w'.infos[c] == s.w.infos[c] && Open(w', c)
  {
    hide PcOk, HistoryOk, AccountsOk, WorkspacesOk, WorkersOk;
    assert InfoOk(s.w, s.h, c) && PlaceOk(s.w.clusters, c);
    if step.Work? {
      WorkWithin(cfg, s, step.k, c);
      TreeStep(cfg, s, step) by { assert Inv(cfg, s); }
      hide Call;
    }
  }

  lemma WithinKeeps(cfg: Config, s: Sys, step: Step, c: ClusterId)
    requires Ticks(cfg, s, step) && Within(step, c) && c in s.w.infos && Open(s.w, c)
    ensures Keeps(s, Apply(cfg, s, step), c)
  {
    HostWithin(cfg, s, step, c);
    hide Inv, ApplyWorld, Open, Within;
    forall k | k in ApplyWorld(cfg, s, step).accounts && k.cluster == c
      ensures k in s.w.accounts && (s.w.accounts[k].deleting ==> ApplyWorld(cfg, s, step).accounts[k].deleting)
    {
      AccountBack(cfg, s, step, k);
    }
  }

  lemma {:induction false} RunWithin(cfg: Config, s: Sys, steps: seq<Step>, c: ClusterId)
    requires Live(cfg, s) && InternalRun(cfg, s, steps) && (forall step :: step in steps ==> Within(step, c))
    requires c in s.w.infos && Open(s.w, c)
    ensures Keeps(s, Exec(cfg, s, steps), c)
    decreases |steps|
  {
    hide Apply, Enabled, Internal, Within, Inv;
    if steps != [] {
      WithinKeeps(cfg, s, steps[0], c);
      GoodStep(cfg, s, steps[0]);
      RunWithin(cfg, Apply(cfg, s, steps[0]), steps[1..], c);
    }
  }

  /** The accounts in c go, with all that is below them. */
  lemma {:induction false} Emptied(cfg: Config, s: Sys, c: ClusterId) returns (steps: seq<Step>)
    requires Live(cfg, s) && c in s.w.infos && Open(s.w, c)
    requires forall k :: k in s.w.accounts && k.cluster == c ==> s.w.accounts[k].deleting
    ensures CanRun(cfg, s, steps)
    ensures var s' := Exec(cfg, s, steps); Live(cfg, s') && Keeps(s, s', c) && NoAccounts(s'.w, c)
    decreases TotalWork(cfg, s), TotalLag(s)
  {
    hide Inv, Apply, Enabled, Internal, Within, Due, TotalWork, TotalLag, InternalRun;
    steps := [];
    if k :| k in s.w.accounts && k.cluster == c {
      var cause;
      if k in s.w.workspaces && s.w.workspaces[k].deleting {
        var m := Deepest(s.w.clusters.Keys);
        cause := WorkspaceTeardown(cfg, s, k, m);
      } else {
        cause := AccountTeardown(cfg, s, k);
      }
      var first := DueGains(cfg, s, cause);
      RunKeeps(cfg, s, first);
      RunWithin(cfg, s, first, c);
      var more := Emptied(cfg, Exec(cfg, s, first), c);
      Joined(cfg, s, first, more);
      steps := first + more;
    }
  }

  lemma {:induction false} Joined(cfg: Config, s: Sys, r1: seq<Step>, r2: seq<Step>)
    requires CanRun(cfg, s, r1) && CanRun(cfg, Exec(cfg, s, r1), r2)
    ensures CanRun(cfg, s, r1 + r2) && Exec(cfg, s, r1 + r2) == Exec(cfg, Exec(cfg, s, r1), r2)
    decreases |r1|
  {
    hide Apply, Enabled;
    if r1 == [] {
      assert r1 + r2 == r2;
    } else {
      Joined(cfg, Apply(cfg, s, r1[0]), r1[1..], r2);
      assert (r1 + r2)[1..] == r1[1..] + r2;
    }
  }

  lemma MarkKeeps(cfg: Config, s: Sys, k: Key)
    requires Live(cfg, s) && k in s.w.accounts && k.cluster in s.w.infos && Open(s.w, k.cluster)
    ensures var s' := Apply(cfg, s, DeleteAccount(k));
            Live(cfg, s') && Keeps(s, s', k.cluster) && (k in s'.w.accounts ==> s'.w.accounts[k].deleting)
  {
    InvStep(cfg, s, DeleteAccount(k));
  }

  /** The accounts in c whose deletion nobody has asked for. */
  function Staying(w: World, c: ClusterId): set<Key> {
    set k | k in w.accounts && k.cluster == c && !w.accounts[k].deleting
  }

  /** The users delete them all. */
  lemma {:induction false} Marked(cfg: Config, s: Sys, c: ClusterId) returns (steps: seq<Step>)
    requires Live(cfg, s) && c in s.w.infos && Open(s.w, c)
    ensures CanRun(cfg, s, steps)
    ensures var s' := Exec(cfg, s, steps); Live(cfg, s') && Keeps(s, s', c) && Staying(s'.w, c) == {}
    decreases |Staying(s.w, c)|
  {
    steps := [];
    if k :| k in Staying(s.w, c) {
      var s1 := Apply(cfg, s, DeleteAccount(k));
      MarkKeeps(cfg, s, k);
      assert [DeleteAccount(k)][1..] == [];
      Fewer(Staying(s.w, c), Staying(s1.w, c), k);
      hide Apply, Inv;
      var more := Marked(cfg, s1, c);
      Joined(cfg, s, [DeleteAccount(k)], more);
      steps := [DeleteAccount(k)] + more;
    }
  }

  lemma Fewer<T>(a: set<T>, b: set<T>, x: T)
    requires b <= a && x in a && x !in b
    ensures |b| < |a|
  {
    assert a == b + (a - b) && x in a - b;
  }

  /** An open cluster can be emptied of its accounts with its AccountInfo staying as it is. */
  lemma ClusterEmptied(cfg: Config, s: Sys, c: ClusterId) returns (steps: seq<Step>)
    requires Live(cfg, s) && c in s.w.infos && Open(s.w, c)
    ensures CanRun(cfg, s, steps)
    ensures var s' := Exec(cfg, s, steps); Live(cfg, s') && Keeps(s, s', c) && NoAccounts(s'.w, c)
  {
    hide Inv;
    var first := Marked(cfg, s, c);
    var s1 := Exec(cfg, s, first);
    forall k | k in s1.w.accounts && k.cluster == c ensures s1.w.accounts[k].deleting {
      assert k !in Staying(s1.w, c);
    }
    var more := Emptied(cfg, s1, c);
    Joined(cfg, s, first, more);
    steps := first + more;
  }
}
