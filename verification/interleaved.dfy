/** Convergence with passes that interleave in any way, call by call: what counts is only that every
    account completes a pass in each round. */
module Interleaved {
  import opened Wrappers
  import opened Model
  import opened Program
  import opened System
  import opened Invariant
  import opened Preserve
  import opened Ranking
  import opened EndToEnd
  import opened Convergence
  import opened Safety

  // ----- rounds -----

  /** Every account of the tree has its workspace, not being deleted, and below an organization it lies
      in the cluster of another account of the tree. */
  ghost predicate Standing(w: World, tree: set<Key>) {
    forall k :: k in tree ==>
      && k in w.accounts && k in w.workspaces && w.workspaces[k].placement.Some?
      && Open(w, ClusterOf(w, k)) && ClusterOf(w, k) in w.clusters && w.clusters[ClusterOf(w, k)].host == k
      && (k.cluster != ORGS ==> ClusterOfHost(w, k.cluster) && w.clusters[k.cluster].host in tree)
  }

  /** The organization of k has shared just so much. */
  ghost predicate Shares(s: Sys, k: Key, n: nat) {
    k in s.w.workspaces && s.w.workspaces[k].placement.Some? &&
    |Past(s.h, OrgOf(s.w.clusters, ClusterOf(s.w, k)))| == n
  }

  /** The step does not start the operator again, nor delete an AccountInfo of the tree. */
  ghost predicate Spares(w: World, step: Step, tree: set<Key>)
    requires Standing(w, tree)
  {
    !step.Restart? && forall k {:trigger k in tree} :: k in tree ==> ClusterOf(w, k) !in RemovedBy(step)
  }

  /** Throughout these steps the tree stands, the records of its organizations are not written, none of
      its records is deleted, and the operator is not started again. */
  ghost predicate Quiet(cfg: Config, s: Sys, steps: seq<Step>, tree: set<Key>, counts: map<Key, nat>)
    requires CanRun(cfg, s, steps)
    decreases |steps|
  {
    && Standing(s.w, tree)
    && (forall k {:trigger k in tree} :: k in tree ==> k in counts && Shares(s, k, counts[k]))
    && (steps != [] ==> Spares(s.w, steps[0], tree) && Quiet(cfg, Apply(cfg, s, steps[0]), steps[1..], tree, counts))
  }

  predicate NoBegin(steps: seq<Step>, k: Key) {
    forall i :: 0 <= i < |steps| ==> !(steps[i].Begin? && steps[i].k == k)
  }

  /** The next call of the worker at k is the write of its record, and comes back OK. */
  ghost predicate Writes(s: Sys, k: Key) {
    k in s.workers && s.workers[k].pc.AiPut? && Call(s.ca, s.w, k, s.workers[k].instance, s.workers[k].pc).1.Ok?
  }

  /** Among these steps a pass at k begins, and the same pass gets its record written or found right. */
  ghost predicate Completes(cfg: Config, s: Sys, steps: seq<Step>, k: Key)
    requires CanRun(cfg, s, steps)
  {
    exists a, b, d ::
      && steps == a + ([Begin(k, None)] + (b + ([Step.Work(k)] + d))) && NoBegin(b, k)
      && CanRun(cfg, s, a + ([Begin(k, None)] + b)) && Writes(Exec(cfg, s, a + ([Begin(k, None)] + b)), k)
  }

  // ----- records that are up to date -----

  /** The record in c is there, holds the newest of what its organization shares, and the CA. */
  predicate UpToDate(s: Sys, c: ClusterId) {
    && c in s.w.infos && c in s.w.clusters && c in s.h.version
    && s.h.version[c] + 1 == |Past(s.h, OrgOf(s.w.clusters, c))|
    && s.w.infos[c].spec.ca == s.ca
  }

  lemma UpToDateStep(cfg: Config, s: Sys, step: Step, c: ClusterId)
    requires Inv(cfg, s) && Enabled(cfg, s, step) && !step.Restart? && WorkspaceSub in cfg.pipeline
    requires UpToDate(s, c) && c !in RemovedBy(step)
    requires var s' := Apply(cfg, s, step); var o := OrgOf(s.w.clusters, c); |Past(s'.h, o)| == |Past(s.h, o)|
    ensures UpToDate(Apply(cfg, s, step), c)
  {
    var s' := Apply(cfg, s, step);
    InvStep(cfg, s, step);
    TreeStep(cfg, s, step);
    HistoryStep(cfg, s, step);
    InfoStays(cfg, s, step, c);
    CaStays(cfg, s, step, c);
    OrgOfStays(s.w.clusters, s'.w.clusters, c);
    assert InfoOk(s'.w, s'.h, c);
  }

  lemma CaStays(cfg: Config, s: Sys, step: Step, c: ClusterId)
    requires Inv(cfg, s) && Enabled(cfg, s, step) && !step.Restart?
    requires c in s.w.infos && c in s.w.clusters && s.w.infos[c].spec.ca == s.ca
    ensures var w' := ApplyWorld(cfg, s, step); c in w'.infos ==> w'.infos[c].spec.ca == s.ca
  {
    if Some(s.w.clusters[c].host) != Actor(step) {
      NoForeignWrite(cfg, s, step, c);
    } else if step.Work? {
      if s.workers[step.k].pc.AiPut? {
        CallWrite(cfg, s, step.k);
      } else {
        CallInfos(s.ca, s.w, step.k, s.workers[step.k].instance, s.workers[step.k].pc);
      }
    }
  }

  // ----- a pass that knows the newest -----

  /** The newest has reached the cluster that the account at k lies in. */
  predicate ParentNewest(s: Sys, k: Key) {
    k.cluster != ORGS ==>
      k.cluster in s.h.version && s.h.version[k.cluster] + 1 == |Past(s.h, OrgOf(s.w.clusters, k.cluster))|
  }

  /** What the worker at k has read is of its cluster c, and is the newest. */
  predicate Informed(s: Sys, k: Key, c: ClusterId) {
    k in s.workers ==>
      var pc := s.workers[k].pc;
      && (pc.AiParentGet? || pc.AiOwnGet? || pc.AiPut? ==> pc.self.generated == c)
      && ((pc.AiOwnGet? || pc.AiPut?) && pc.parent.Some? ==>
            k in s.h.read && s.h.read[k] + 1 == |Past(s.h, OrgOf(s.w.clusters, c))|)
      && (pc.AiPut? && pc.gotInfo.Some? ==> c in s.w.infos)
  }

  lemma ParentNewestStep(cfg: Config, s: Sys, step: Step, k: Key)
    requires Inv(cfg, s) && Enabled(cfg, s, step) && WorkspaceSub in cfg.pipeline && ParentNewest(s, k)
    requires k.cluster in s.w.clusters
    requires var s' := Apply(cfg, s, step); var o := OrgOf(s.w.clusters, k.cluster); |Past(s'.h, o)| == |Past(s.h, o)|
    ensures ParentNewest(Apply(cfg, s, step), k)
  {
    var s' := Apply(cfg, s, step);
    InvStep(cfg, s, step);
    TreeStep(cfg, s, step);
    HistoryStep(cfg, s, step);
    if k.cluster != ORGS {
      OrgOfStays(s.w.clusters, s'.w.clusters, k.cluster);
      assert VersionOk(s'.w.clusters, s'.h, k.cluster);
    }
  }

  /** Own calls: a location is that of c, and a parent's record that is read is the newest. */
  lemma InformedCall(cfg: Config, s: Sys, k: Key, c: ClusterId)
    requires Inv(cfg, s) && k in s.workers && Informed(s, k, c) && ParentNewest(s, k)
    requires k in s.w.workspaces ==> s.w.workspaces[k].placement.Some? && ClusterOf(s.w, k) == c
    requires k.cluster != ORGS ==> OrgOf(s.w.clusters, k.cluster) == OrgOf(s.w.clusters, c)
    ensures Informed(Apply(cfg, s, Step.Work(k)), k, c)
  {
    var wk := s.workers[k];
    var (w', signal) := Call(s.ca, s.w, k, wk.instance, wk.pc);
    assert WorkerOk(s.w, s.h, k, wk) && AccountOk(s.w, k);
    if signal.Go? {
      if wk.pc.AiParentGet? {
        assert InfoOk(s.w, s.h, k.cluster);
      }
      GoInforms(s.ca, s.w, s.h, k, wk.instance, wk.pc, c);
    } else if signal.Ok? {
      AdvanceUninformed(k, wk.instance, wk.rest);
    }
  }

  lemma {:induction false} AdvanceUninformed(k: Key, a: Account, rest: seq<Sub>)
    ensures var next := Advance(k, a, rest);
            next.Some? ==> !next.value.pc.AiParentGet? && !next.value.pc.AiOwnGet? && !next.value.pc.AiPut?
  {
    if rest != [] {
      AdvanceUninformed(k, a, rest[1..]);
    }
  }

  lemma GoInforms(ca: string, w: World, h: History, k: Key, a: Account, pc: Pc, c: ClusterId)
    requires pc.AiParentGet? || pc.AiOwnGet? || pc.AiPut? ==> pc.self.generated == c
    requires k in w.workspaces ==> w.workspaces[k].placement.Some? && ClusterOf(w, k) == c
    ensures var (w', signal) := Call(ca, w, k, a, pc);
            signal.Go? ==>
              && (signal.pc.AiParentGet? || signal.pc.AiOwnGet? || signal.pc.AiPut? ==> signal.pc.self.generated == c)
              && (signal.pc.AiOwnGet? && signal.pc.parent.Some? ==> pc.AiParentGet?)
              && (signal.pc.AiPut? ==>
                    pc.AiOwnGet? && signal.pc.parent == pc.parent && w' == w && signal.pc.gotInfo == Find(w.infos, c))
  {
    hide WriteInfo, Hosted;
  }

  lemma InformedStep(cfg: Config, s: Sys, step: Step, k: Key, c: ClusterId)
    requires Inv(cfg, s) && Enabled(cfg, s, step) && !step.Restart? && !(step.Begin? && step.k == k)
    requires Informed(s, k, c) && ParentNewest(s, k) && c in s.w.clusters && c !in RemovedBy(step)
    requires k in s.w.workspaces && s.w.workspaces[k].placement.Some? && ClusterOf(s.w, k) == c
    requires k.cluster != ORGS ==> OrgOf(s.w.clusters, k.cluster) == OrgOf(s.w.clusters, c)
    requires var s' := Apply(cfg, s, step); var o := OrgOf(s.w.clusters, c); |Past(s'.h, o)| == |Past(s.h, o)|
    ensures Informed(Apply(cfg, s, step), k, c)
  {
    hide ApplyWorld, ApplyHistory, ApplyReleasing, ParentNewest;
    if step == Step.Work(k) {
      InformedCall(cfg, s, k, c);
    } else if Some(k) != Actor(step) {
      InformedMeanwhile(cfg, s, step, k, c);
    }
  }

  /** While others act. */
  lemma InformedMeanwhile(cfg: Config, s: Sys, step: Step, k: Key, c: ClusterId)
    requires Inv(cfg, s) && Enabled(cfg, s, step) && !step.Restart? && Some(k) != Actor(step)
    requires Informed(s, k, c) && c in s.w.clusters && c !in RemovedBy(step)
    requires var s' := Apply(cfg, s, step); var o := OrgOf(s.w.clusters, c); |Past(s'.h, o)| == |Past(s.h, o)|
    ensures Informed(Apply(cfg, s, step), k, c)
  {
    hide PcOk, InfoOk, ApplyHistory, Call;
    TreeStep(cfg, s, step);
    HistoryStep(cfg, s, step);
    OrgOfStays(s.w.clusters, Apply(cfg, s, step).w.clusters, c);
    if c in s.w.infos {
      InfoStays(cfg, s, step, c);
    }
    hide ApplyWorld;
  }

  /** The write that says OK leaves the record up to date. */
  lemma WriteDone(cfg: Config, s: Sys, k: Key, c: ClusterId)
    requires Inv(cfg, s) && WorkspaceSub in cfg.pipeline && Writes(s, k) && Informed(s, k, c)
    requires c in s.w.clusters && s.w.clusters[c].host == k && Open(Apply(cfg, s, Step.Work(k)).w, c)
    requires var s' := Apply(cfg, s, Step.Work(k)); var o := OrgOf(s.w.clusters, c); |Past(s'.h, o)| == |Past(s.h, o)|
    ensures UpToDate(Apply(cfg, s, Step.Work(k)), c)
  {
    var s' := Apply(cfg, s, Step.Work(k));
    var wk := s.workers[k];
    assert WorkerOk(s.w, s.h, k, wk);
    InvStep(cfg, s, Step.Work(k));
    WriteRecords(s.ca, s.w, wk.pc, c);
    hide Call, WriteInfo, PcOk;
    assert s'.w.infos == WriteInfo(s.ca, s.w, wk.pc.self, wk.pc.parent, wk.pc.gotInfo).0.infos by {
      CallIsWrite(s.ca, s.w, k, wk);
    }
    assert InfoOk(s'.w, s'.h, c);
    assert PlaceOk(s'.w.clusters, c);
    if k.cluster == ORGS {
      assert VersionOk(s'.w.clusters, s'.h, c);
    } else {
      NoteDone(s.ca, s.w, s.h, k, wk);
    }
  }

  lemma CallIsWrite(ca: string, w: World, k: Key, wk: Worker)
    requires wk.pc.AiPut?
    ensures Call(ca, w, k, wk.instance, wk.pc) == WriteInfo(ca, w, wk.pc.self, wk.pc.parent, wk.pc.gotInfo)
  {
  }

  lemma NoteDone(ca: string, w: World, h: History, k: Key, wk: Worker)
    requires wk.pc.AiPut? && wk.pc.parent.Some? && k in h.read && Call(ca, w, k, wk.instance, wk.pc).1.Ok?
    ensures var (w', signal) := Call(ca, w, k, wk.instance, wk.pc); var h' := Note(h, w, k, wk.pc, w', signal);
            h'.past == h.past && wk.pc.self.generated in h'.version && h'.version[wk.pc.self.generated] == h.read[k]
  {
  }

  lemma WriteRecords(ca: string, w: World, pc: Pc, c: ClusterId)
    requires pc.AiPut? && pc.self.generated == c && WriteInfo(ca, w, pc.self, pc.parent, pc.gotInfo).1.Ok?
    requires pc.gotInfo.Some? ==> c in w.infos && (pc.parent.None? ==> w.infos[c].spec.ca == pc.gotInfo.value.spec.ca)
    requires pc.gotInfo.Some? && pc.parent.Some? ==> w.infos[c].spec == pc.gotInfo.value.spec
    ensures var infos' := WriteInfo(ca, w, pc.self, pc.parent, pc.gotInfo).0.infos;
            c in infos' && infos'[c].spec.ca == ca
  {
  }

  // ----- over a round -----

  /** What a step of a quiet round leaves as it is, for one account of the tree. */
  lemma QuietStep(cfg: Config, s: Sys, step: Step, tree: set<Key>, k: Key, n: nat)
    requires Inv(cfg, s) && Enabled(cfg, s, step) && k in tree
    requires Standing(s.w, tree) && Standing(Apply(cfg, s, step).w, tree) && Shares(s, k, n) &&
             Shares(Apply(cfg, s, step), k, n)
    ensures var s' := Apply(cfg, s, step); var (cl, c) := (s.w.clusters, ClusterOf(s.w, k));
            && ClusterOf(s'.w, k) == c && c in cl && cl[c].host == k && Open(s'.w, c) && k in s.w.workspaces
            && |Past(s.h, OrgOf(cl, c))| == n == |Past(s'.h, OrgOf(cl, c))|
            && (k.cluster != ORGS ==> k.cluster in cl && OrgOf(cl, k.cluster) == OrgOf(cl, c))
  {
    var s' := Apply(cfg, s, step);
    var (cl, c) := (s.w.clusters, ClusterOf(s.w, k));
    WorkspaceAfter(cfg, s, step, k);
    TreeStep(cfg, s, step);
    OrgOfStays(cl, s'.w.clusters, c);
    assert PlaceOk(cl, c);
  }

  lemma {:induction false} UpToDateRun(cfg: Config, s: Sys, steps: seq<Step>, tree: set<Key>, counts: map<Key, nat>,
                                       k: Key)
    requires Inv(cfg, s) && WorkspaceSub in cfg.pipeline && CanRun(cfg, s, steps) && Quiet(cfg, s, steps, tree, counts)
    requires k in tree && k in s.w.workspaces && s.w.workspaces[k].placement.Some? && UpToDate(s, ClusterOf(s.w, k))
    ensures var s' := Exec(cfg, s, steps);
            && k in s'.w.workspaces && s'.w.workspaces[k].placement.Some?
            && ClusterOf(s'.w, k) == ClusterOf(s.w, k) && UpToDate(s', ClusterOf(s.w, k))
    decreases |steps|
  {
    if steps != [] {
      QuietStep(cfg, s, steps[0], tree, k, counts[k]);
      UpToDateStep(cfg, s, steps[0], ClusterOf(s.w, k));
      InvStep(cfg, s, steps[0]);
      hide Apply, Enabled, Inv, Standing, UpToDate;
      UpToDateRun(cfg, Apply(cfg, s, steps[0]), steps[1..], tree, counts, k);
    }
  }

  /** One step of a quiet round, for what is known about one account of the tree. */
  lemma KnownStep(cfg: Config, s: Sys, step: Step, tree: set<Key>, k: Key, n: nat)
    requires Inv(cfg, s) && Enabled(cfg, s, step) && WorkspaceSub in cfg.pipeline && k in tree
    requires Standing(s.w, tree) && Spares(s.w, step, tree) && Standing(Apply(cfg, s, step).w, tree) &&
             Shares(s, k, n) && Shares(Apply(cfg, s, step), k, n)
    requires ParentNewest(s, k)
    ensures var s' := Apply(cfg, s, step);
            && Inv(cfg, s') && ParentNewest(s', k) && k in s'.w.workspaces && s'.w.workspaces[k].placement.Some?
            && ClusterOf(s'.w, k) == ClusterOf(s.w, k)
            && (Informed(s, k, ClusterOf(s.w, k)) && !(step.Begin? && step.k == k) ==>
                  Informed(s', k, ClusterOf(s.w, k)))
  {
    QuietStep(cfg, s, step, tree, k, n);
    assert ClusterOf(s.w, k) !in RemovedBy(step) && !step.Restart?;
    hide Standing, Shares, Spares, Inv, Informed, ParentNewest;
    InvStep(cfg, s, step);
    if Informed(s, k, ClusterOf(s.w, k)) && !(step.Begin? && step.k == k) {
      InformedStep(cfg, s, step, k, ClusterOf(s.w, k));
    }
    NewestStep(cfg, s, step, k);
  }

  lemma NewestStep(cfg: Config, s: Sys, step: Step, k: Key)
    requires Inv(cfg, s) && Enabled(cfg, s, step) && WorkspaceSub in cfg.pipeline && ParentNewest(s, k)
    requires k.cluster != ORGS ==>
               && k.cluster in s.w.clusters
               && var o := OrgOf(s.w.clusters, k.cluster); |Past(Apply(cfg, s, step).h, o)| == |Past(s.h, o)|
    ensures ParentNewest(Apply(cfg, s, step), k)
  {
    if k.cluster != ORGS {
      ParentNewestStep(cfg, s, step, k);
    }
  }

  /** As long as no new pass begins, what is known stays known. */
  lemma {:induction false} InformedRun(cfg: Config, s: Sys, steps: seq<Step>, tree: set<Key>, counts: map<Key, nat>,
                                       k: Key)
    requires Inv(cfg, s) && WorkspaceSub in cfg.pipeline && CanRun(cfg, s, steps) && Quiet(cfg, s, steps, tree, counts)
    requires k in tree && k in s.w.workspaces && s.w.workspaces[k].placement.Some? && ParentNewest(s, k)
    ensures var s' := Exec(cfg, s, steps);
            && Inv(cfg, s') && k in s'.w.workspaces && s'.w.workspaces[k].placement.Some?
            && ClusterOf(s'.w, k) == ClusterOf(s.w, k) && ParentNewest(s', k)
            && (NoBegin(steps, k) && Informed(s, k, ClusterOf(s.w, k)) ==> Informed(s', k, ClusterOf(s.w, k)))
    decreases |steps|
  {
    hide Apply, Enabled, Inv, Standing, Shares, Informed, ParentNewest;
    if steps != [] {
      KnownStep(cfg, s, steps[0], tree, k, counts[k]);
      assert NoBegin(steps, k) ==> NoBegin(steps[1..], k) && !(steps[0].Begin? && steps[0].k == k);
      InformedRun(cfg, Apply(cfg, s, steps[0]), steps[1..], tree, counts, k);
    }
  }

  lemma {:induction false} QuietSplit(cfg: Config, s: Sys, a: seq<Step>, b: seq<Step>, tree: set<Key>,
                                      counts: map<Key, nat>)
    requires CanRun(cfg, s, a + b) && Quiet(cfg, s, a + b, tree, counts)
    ensures CanRun(cfg, s, a) && Quiet(cfg, s, a, tree, counts)
    ensures CanRun(cfg, Exec(cfg, s, a), b) && Quiet(cfg, Exec(cfg, s, a), b, tree, counts)
    ensures Exec(cfg, s, a + b) == Exec(cfg, Exec(cfg, s, a), b)
    decreases |a|
  {
    hide Apply, Enabled, Standing, Shares, Spares;
    if a == [] {
      assert a + b == b;
    } else {
      assert (a + b)[0] == a[0] && (a + b)[1..] == a[1..] + b;
      QuietSplit(cfg, Apply(cfg, s, a[0]), a[1..], b, tree, counts);
    }
  }

  lemma {:induction false} ExecSplit(cfg: Config, s: Sys, a: seq<Step>, b: seq<Step>)
    requires CanRun(cfg, s, a + b)
    ensures CanRun(cfg, s, a) && CanRun(cfg, Exec(cfg, s, a), b)
    ensures Exec(cfg, s, a + b) == Exec(cfg, Exec(cfg, s, a), b)
    decreases |a|
  {
    hide Apply, Enabled;
    if a == [] {
      assert a + b == b;
    } else {
      assert (a + b)[0] == a[0] && (a + b)[1..] == a[1..] + b;
      ExecSplit(cfg, Apply(cfg, s, a[0]), a[1..], b);
    }
  }

  /** A worker that has just begun has nothing yet to be informed about. */
  lemma BeginInforms(cfg: Config, s: Sys, k: Key, c: ClusterId)
    requires CanRun(cfg, s, [Begin(k, None)])
    ensures Informed(Exec(cfg, s, [Begin(k, None)]), k, c)
  {
    assert [Begin(k, None)][1..] == [];
    AdvanceUninformed(k, BeginAccount(cfg, s.w.accounts[k]), cfg.pipeline);
  }

  lemma WriteInRound(cfg: Config, s: Sys, tree: set<Key>, counts: map<Key, nat>, k: Key, c: ClusterId)
    requires Inv(cfg, s) && WorkspaceSub in cfg.pipeline && CanRun(cfg, s, [Step.Work(k)])
    requires Quiet(cfg, s, [Step.Work(k)], tree, counts) && k in tree && Writes(s, k) && Informed(s, k, c)
    requires k in s.w.workspaces && s.w.workspaces[k].placement.Some? && ClusterOf(s.w, k) == c
    ensures var s' := Exec(cfg, s, [Step.Work(k)]);
            && Inv(cfg, s') && k in s'.w.workspaces && s'.w.workspaces[k].placement.Some?
            && ClusterOf(s'.w, k) == c && UpToDate(s', c)
  {
    assert [Step.Work(k)][1..] == [];
    var s' := Apply(cfg, s, Step.Work(k));
    assert Quiet(cfg, s', [], tree, counts);
    QuietStep(cfg, s, Step.Work(k), tree, k, counts[k]);
    WriteDone(cfg, s, k, c);
    InvStep(cfg, s, Step.Work(k));
  }

  /** A pass that begins where the newest has reached the account's cluster, and completes, leaves the
      account's record up to date. */
  lemma PassBringsUpToDate(cfg: Config, s: Sys, steps: seq<Step>, tree: set<Key>, counts: map<Key, nat>, k: Key)
    requires Inv(cfg, s) && WorkspaceSub in cfg.pipeline && CanRun(cfg, s, steps) && Quiet(cfg, s, steps, tree, counts)
    requires k in tree && k in s.w.workspaces && s.w.workspaces[k].placement.Some?
    requires ParentNewest(s, k) && Completes(cfg, s, steps, k)
    ensures var s' := Exec(cfg, s, steps);
            && k in s'.w.workspaces && s'.w.workspaces[k].placement.Some?
            && ClusterOf(s'.w, k) == ClusterOf(s.w, k) && UpToDate(s', ClusterOf(s.w, k))
  {
    var c := ClusterOf(s.w, k);
    var a, b, d :|
      && steps == a + ([Begin(k, None)] + (b + ([Step.Work(k)] + d))) && NoBegin(b, k)
      && CanRun(cfg, s, a + ([Begin(k, None)] + b)) && Writes(Exec(cfg, s, a + ([Begin(k, None)] + b)), k);
    hide Apply, Enabled, Inv, Standing, Shares, Informed, ParentNewest, Writes, UpToDate, NoBegin, CanRun, Exec, Quiet;
    var rest := [Begin(k, None)] + (b + ([Step.Work(k)] + d));
    QuietSplit(cfg, s, a, rest, tree, counts);
    InformedRun(cfg, s, a, tree, counts, k);
    var s1 := Exec(cfg, s, a);
    QuietSplit(cfg, s1, [Begin(k, None)], b + ([Step.Work(k)] + d), tree, counts);
    InformedRun(cfg, s1, [Begin(k, None)], tree, counts, k);
    BeginInforms(cfg, s1, k, c);
    var s2 := Exec(cfg, s1, [Begin(k, None)]);
    QuietSplit(cfg, s2, b, [Step.Work(k)] + d, tree, counts);
    InformedRun(cfg, s2, b, tree, counts, k);
    var s3 := Exec(cfg, s2, b);
    ExecSplit(cfg, s, a, [Begin(k, None)] + b);
    ExecSplit(cfg, s1, [Begin(k, None)], b);
    QuietSplit(cfg, s3, [Step.Work(k)], d, tree, counts);
    WriteInRound(cfg, s3, tree, counts, k, c);
    UpToDateRun(cfg, Exec(cfg, s3, [Step.Work(k)]), d, tree, counts, k);
  }

  // ----- rounds upon rounds -----

  /** All records down to depth n are up to date. */
  ghost predicate Level(s: Sys, tree: set<Key>, n: nat) {
    forall k {:trigger k in tree} :: k in tree ==>
      && k in s.w.workspaces && s.w.workspaces[k].placement.Some?
      && (Depth(s.w.clusters, ClusterOf(s.w, k)) <= n ==> UpToDate(s, ClusterOf(s.w, k)))
  }

  /** In each round every account of the tree completes a pass that began in that round; how the calls
      of these passes, and of any others, interleave is left open. */
  ghost predicate Rounds(cfg: Config, s: Sys, rounds: seq<seq<Step>>, tree: set<Key>, counts: map<Key, nat>)
    decreases |rounds|
  {
    rounds != [] ==>
      && CanRun(cfg, s, rounds[0]) && Quiet(cfg, s, rounds[0], tree, counts)
      && (forall k {:trigger k in tree} :: k in tree ==> Completes(cfg, s, rounds[0], k))
      && Rounds(cfg, Exec(cfg, s, rounds[0]), rounds[1..], tree, counts)
  }

  ghost function After(cfg: Config, s: Sys, rounds: seq<seq<Step>>, tree: set<Key>, counts: map<Key, nat>): Sys
    requires Rounds(cfg, s, rounds, tree, counts)
    decreases |rounds|
  {
    if rounds == [] then s else After(cfg, Exec(cfg, s, rounds[0]), rounds[1..], tree, counts)
  }

  lemma StandingDepth(cfg: Config, s: Sys, tree: set<Key>, k: Key)
    requires Inv(cfg, s) && Standing(s.w, tree) && k in tree
    ensures var (cl, c) := (s.w.clusters, ClusterOf(s.w, k));
            && (k.cluster == ORGS ==> Depth(cl, c) == 1 && OrgOf(cl, c) == c)
            && (k.cluster != ORGS ==>
                  && Depth(cl, c) == 1 + Depth(cl, k.cluster) && OrgOf(cl, c) == OrgOf(cl, k.cluster)
                  && k.cluster in cl && cl[k.cluster].host in tree && ClusterOfHost(s.w, k.cluster) &&
                        cl[k.cluster].host.cluster < k.cluster)
  {
    assert PlaceOk(s.w.clusters, ClusterOf(s.w, k));
    if k.cluster != ORGS {
      assert PlaceOk(s.w.clusters, k.cluster);
    }
  }

  lemma {:induction false} DepthStays(cl: Clusters, cl': Clusters, c: ClusterId)
    requires TreeOk(cl) && TreeOk(cl') && Extends(cl, cl') && c in cl
    ensures Depth(cl', c) == Depth(cl, c)
    decreases c
  {
    assert PlaceOk(cl, c) && PlaceOk(cl', c);
    if cl[c].host.cluster != ORGS {
      DepthStays(cl, cl', cl[c].host.cluster);
    }
  }

  lemma {:induction false} RunTree(cfg: Config, s: Sys, steps: seq<Step>)
    requires Inv(cfg, s) && CanRun(cfg, s, steps) && WorkspaceSub in cfg.pipeline
    ensures Inv(cfg, Exec(cfg, s, steps)) && TreeOk(Exec(cfg, s, steps).w.clusters)
    ensures Extends(s.w.clusters, Exec(cfg, s, steps).w.clusters)
    decreases |steps|
  {
    if steps != [] {
      TreeStep(cfg, s, steps[0]);
      InvStep(cfg, s, steps[0]);
      RunTree(cfg, Apply(cfg, s, steps[0]), steps[1..]);
    }
  }

  lemma {:induction false} QuietEnd(cfg: Config, s: Sys, steps: seq<Step>, tree: set<Key>, counts: map<Key, nat>)
    requires CanRun(cfg, s, steps) && Quiet(cfg, s, steps, tree, counts)
    ensures Standing(Exec(cfg, s, steps).w, tree)
    decreases |steps|
  {
    hide Apply, Enabled, Standing, Shares, Spares;
    if steps != [] {
      QuietEnd(cfg, Apply(cfg, s, steps[0]), steps[1..], tree, counts);
    }
  }

  lemma RoundLevel(cfg: Config, s: Sys, steps: seq<Step>, tree: set<Key>, counts: map<Key, nat>, n: nat)
    requires Inv(cfg, s) && WorkspaceSub in cfg.pipeline && CanRun(cfg, s, steps) && Quiet(cfg, s, steps, tree, counts)
    requires Level(s, tree, n) && forall k {:trigger k in tree} :: k in tree ==> Completes(cfg, s, steps, k)
    ensures Inv(cfg, Exec(cfg, s, steps)) && Level(Exec(cfg, s, steps), tree, n + 1)
  {
    var s' := Exec(cfg, s, steps);
    RunTree(cfg, s, steps);
    assert Standing(s.w, tree);
    forall k | k in tree
      ensures && k in s'.w.workspaces && s'.w.workspaces[k].placement.Some?
              && (Depth(s'.w.clusters, ClusterOf(s'.w, k)) <= n + 1 ==> UpToDate(s', ClusterOf(s'.w, k)))
    {
      KeptOrBrought(cfg, s, steps, tree, counts, n, k);
    }
  }

  lemma KeptOrBrought(cfg: Config, s: Sys, steps: seq<Step>, tree: set<Key>, counts: map<Key, nat>, n: nat, k: Key)
    requires Inv(cfg, s) && WorkspaceSub in cfg.pipeline && CanRun(cfg, s, steps) && Quiet(cfg, s, steps, tree, counts)
    requires Level(s, tree, n) && k in tree && Completes(cfg, s, steps, k)
    ensures var s' := Exec(cfg, s, steps);
            && k in s'.w.workspaces && s'.w.workspaces[k].placement.Some?
            && (Depth(s'.w.clusters, ClusterOf(s'.w, k)) <= n + 1 ==> UpToDate(s', ClusterOf(s'.w, k)))
  {
    var c := ClusterOf(s.w, k);
    assert Standing(s.w, tree);
    NewestAbove(cfg, s, tree, n, k);
    RunTree(cfg, s, steps);
    hide Quiet, Exec, Inv, UpToDate, Completes, Depth, CanRun, Standing, Level, ParentNewest;
    if Depth(s.w.clusters, c) <= n + 1 {
      PassBringsUpToDate(cfg, s, steps, tree, counts, k);
    } else {
      PlacedThroughout(cfg, s, steps, tree, counts, k);
      DepthStays(s.w.clusters, Exec(cfg, s, steps).w.clusters, c);
    }
  }

  lemma NewestAbove(cfg: Config, s: Sys, tree: set<Key>, n: nat, k: Key)
    requires Inv(cfg, s) && Standing(s.w, tree) && Level(s, tree, n) && k in tree
    ensures Depth(s.w.clusters, ClusterOf(s.w, k)) <= n + 1 ==> ParentNewest(s, k)
    ensures TreeOk(s.w.clusters) && ClusterOf(s.w, k) in s.w.clusters
  {
    StandingDepth(cfg, s, tree, k);
    if k.cluster != ORGS {
      assert s.w.clusters[k.cluster].host in tree;
    }
  }

  lemma {:induction false} PlacedThroughout(cfg: Config, s: Sys, steps: seq<Step>, tree: set<Key>,
                                            counts: map<Key, nat>, k: Key)
    requires Inv(cfg, s) && WorkspaceSub in cfg.pipeline && CanRun(cfg, s, steps) && Quiet(cfg, s, steps, tree, counts)
    requires k in tree && k in s.w.workspaces && s.w.workspaces[k].placement.Some?
    ensures var s' := Exec(cfg, s, steps);
            k in s'.w.workspaces && s'.w.workspaces[k].placement.Some? && ClusterOf(s'.w, k) == ClusterOf(s.w, k)
    decreases |steps|
  {
    if steps != [] {
      QuietStep(cfg, s, steps[0], tree, k, counts[k]);
      InvStep(cfg, s, steps[0]);
      hide Apply, Enabled, Inv, Standing;
      PlacedThroughout(cfg, Apply(cfg, s, steps[0]), steps[1..], tree, counts, k);
    }
  }

  lemma {:induction false} RoundsLevel(cfg: Config, s: Sys, rounds: seq<seq<Step>>, tree: set<Key>,
                                       counts: map<Key, nat>, n: nat)
    requires Inv(cfg, s) && WorkspaceSub in cfg.pipeline && Rounds(cfg, s, rounds, tree, counts) && Level(s, tree, n)
    requires Standing(s.w, tree)
    ensures Standing(After(cfg, s, rounds, tree, counts).w, tree)
    ensures Inv(cfg, After(cfg, s, rounds, tree, counts)) &&
            Level(After(cfg, s, rounds, tree, counts), tree, n + |rounds|)
    decreases |rounds|
  {
    if rounds != [] {
      hide Quiet, Completes, Exec, CanRun, Inv, Level, Standing;
      QuietEnd(cfg, s, rounds[0], tree, counts);
      RoundLevel(cfg, s, rounds[0], tree, counts, n);
      RoundsLevel(cfg, Exec(cfg, s, rounds[0]), rounds[1..], tree, counts, n + 1);
    }
  }

  /** A record that is up to date, below an organization's that is, is the one that belongs there. */
  lemma UpToDateIsRight(cfg: Config, s: Sys, c: ClusterId)
    requires Inv(cfg, s) && UpToDate(s, c) && OrgOf(s.w.clusters, c) in s.w.infos
    ensures Right(s.ca, s.w, c)
  {
    var o := OrgOf(s.w.clusters, c);
    assert InfoOk(s.w, s.h, c) && InfoOk(s.w, s.h, o);
    assert PlaceOk(s.w.clusters, c) && PlaceOk(s.w.clusters, o);
    assert VersionOk(s.w.clusters, s.h, o);
    OwnOrganization(s.w, s.h, c);
    OwnOrganization(s.w, s.h, o);
  }

  lemma {:induction false} OrgLevel(cfg: Config, s: Sys, tree: set<Key>, n: nat, k: Key)
    requires Inv(cfg, s) && Standing(s.w, tree) && Level(s, tree, n) && n > 0 && k in tree
    ensures OrgOf(s.w.clusters, ClusterOf(s.w, k)) in s.w.infos
    decreases k.cluster
  {
    StandingDepth(cfg, s, tree, k);
    if k.cluster != ORGS {
      OrgLevel(cfg, s, tree, n, s.w.clusters[k.cluster].host);
    }
  }

  lemma RoundsRight(cfg: Config, s: Sys, rounds: seq<seq<Step>>, tree: set<Key>, counts: map<Key, nat>, k: Key)
    requires Inv(cfg, s) && WorkspaceSub in cfg.pipeline && Standing(s.w, tree) && Rounds(cfg, s, rounds, tree, counts)
    requires k in tree
    ensures var s' := After(cfg, s, rounds, tree, counts);
            && k in s'.w.workspaces && s'.w.workspaces[k].placement.Some?
            && (Depth(s'.w.clusters, ClusterOf(s'.w, k)) <= |rounds| ==> Right(s'.ca, s'.w, ClusterOf(s'.w, k)))
  {
    var s' := After(cfg, s, rounds, tree, counts);
    forall j {:trigger j in tree} | j in tree ensures Depth(s.w.clusters, ClusterOf(s.w, j)) > 0 {
      StandingDepth(cfg, s, tree, j);
    }
    RoundsLevel(cfg, s, rounds, tree, counts, 0);
    StandingDepth(cfg, s', tree, k);
    if Depth(s'.w.clusters, ClusterOf(s'.w, k)) <= |rounds| {
      hide Rounds, After;
      OrgLevel(cfg, s', tree, |rounds|, k);
      UpToDateIsRight(cfg, s', ClusterOf(s'.w, k));
    }
  }

  /** Convergence under interleaving: if the tree stands, its organizations' records rest and nobody deletes
      a record, then after
      n rounds, in each of which every account completes a pass that began in it, every record down to
      depth n is right, whatever the order of the single calls. */
  lemma InterleavedConverges(cfg: Config, types: map<string, WorkspaceType>, before: seq<Step>,
                             rounds: seq<seq<Step>>, tree: set<Key>, counts: map<Key, nat>, k: Key)
    requires IsRun(cfg, types, before) && Standing(At(cfg, types, before).w, tree)
    requires Rounds(cfg, At(cfg, types, before), rounds, tree, counts) && k in tree
    ensures var s' := After(cfg, At(cfg, types, before), rounds, tree, counts);
            && k in s'.w.workspaces && s'.w.workspaces[k].placement.Some?
            && (Depth(s'.w.clusters, ClusterOf(s'.w, k)) <= |rounds| ==>
                  TreeOk(s'.w.clusters) && Right(s'.ca, s'.w, ClusterOf(s'.w, k)))
  {
    RunInv(cfg, types, before);
    if WorkspaceSub in cfg.pipeline {
      RoundsRight(cfg, At(cfg, types, before), rounds, tree, counts, k);
    }
  }
}
