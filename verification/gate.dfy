/** The phase gate: no AccountInfo is written before kcp has the workspace initializing. */
module Gate {
  import opened Wrappers
  import opened WorkspaceUrl
  import opened Model
  import opened WorkspaceTypes
  import opened Program
  import opened System
  import opened Invariant
  import opened Preserve
  import opened Safety
  import opened Typing

  /** The workspace at k is placed in c, and initializing or Ready. */
  predicate PastGate(w: World, k: Key, c: ClusterId) {
    && k in w.workspaces && w.workspaces[k].placement.Some? && w.workspaces[k].placement.value.cluster == c
    && (w.workspaces[k].phase == Initializing || w.workspaces[k].phase == Ready)
  }

  /** Step q of the run reads the workspace at k for its AccountInfo, and finds it past the gate. */
  ghost predicate ReadAt(cfg: Config, types: map<string, WorkspaceType>, steps: seq<Step>, q: nat, k: Key, c: ClusterId)
  {
    && q < |steps| && IsRun(cfg, types, steps[..q]) && steps[q] == Step.Work(k)
    && var s := At(cfg, types, steps[..q]);
    && k in s.workers && s.workers[k].pc == AiWsGet && PastGate(s.w, k, c)
  }

  /** Step r of the run creates the AccountInfo in c, from k; it has been there ever since. */
  ghost predicate CreatedAt(cfg: Config, types: map<string, WorkspaceType>, steps: seq<Step>, r: nat, k: Key,
                            c: ClusterId)
  {
    && r < |steps| && IsRun(cfg, types, steps[..r]) && steps[r] == Step.Work(k)
    && var s := At(cfg, types, steps[..r]);
    && k in s.workers && s.workers[k].pc.AiPut? && s.workers[k].pc.self.generated == c && c !in s.w.infos
    && (forall i :: r < i <= |steps| ==> IsRun(cfg, types, steps[..i]) && c in At(cfg, types, steps[..i]).w.infos)
  }

  /** The pass that is under way at k has read past the gate. */
  ghost predicate ReadFor(cfg: Config, types: map<string, WorkspaceType>, steps: seq<Step>, k: Key, c: ClusterId) {
    exists q :: ReadAt(cfg, types, steps, q, k, c) && SamePass(steps, q, |steps|, k)
  }

  ghost predicate CreatedAfterRead(cfg: Config, types: map<string, WorkspaceType>, steps: seq<Step>, k: Key,
                                   c: ClusterId)
  {
    exists q, r :: && q < r && ReadAt(cfg, types, steps, q, k, c) && SamePass(steps, q, r, k)
                   && CreatedAt(cfg, types, steps, r, k, c)
  }

  // ----- one more step -----

  lemma ReadLater(cfg: Config, types: map<string, WorkspaceType>, steps: seq<Step>, q: nat, k: Key, c: ClusterId)
    requires steps != [] && ReadAt(cfg, types, steps[..|steps| - 1], q, k, c)
    ensures ReadAt(cfg, types, steps, q, k, c)
  {
    assert steps[..|steps| - 1][..q] == steps[..q];
  }

  lemma ReadForLater(cfg: Config, types: map<string, WorkspaceType>, steps: seq<Step>, k: Key, c: ClusterId)
    requires steps != [] && ReadFor(cfg, types, steps[..|steps| - 1], k, c)
    requires !(steps[|steps| - 1].Begin? && steps[|steps| - 1].k == k)
    ensures ReadFor(cfg, types, steps, k, c)
  {
    var init := steps[..|steps| - 1];
    hide ReadAt;
    var q: nat :| ReadAt(cfg, types, init, q, k, c) && SamePass(init, q, |init|, k);
    ReadLater(cfg, types, steps, q, k, c);
    assert forall i :: 0 <= i < |init| ==> init[i] == steps[i];
    assert SamePass(steps, q, |steps|, k);
  }

  lemma CreatedLater(cfg: Config, types: map<string, WorkspaceType>, steps: seq<Step>, k: Key, c: ClusterId)
    requires steps != [] && IsRun(cfg, types, steps) && c in At(cfg, types, steps).w.infos
    requires CreatedAfterRead(cfg, types, steps[..|steps| - 1], k, c)
    ensures CreatedAfterRead(cfg, types, steps, k, c)
  {
    hide Init, Exec, CanRun;
    var init := steps[..|steps| - 1];
    var q: nat, r: nat :| && q < r && ReadAt(cfg, types, init, q, k, c) && SamePass(init, q, r, k)
                          && CreatedAt(cfg, types, init, r, k, c);
    ReadLater(cfg, types, steps, q, k, c);
    hide ReadAt;
    assert SamePass(steps, q, r, k);
    assert init[..r] == steps[..r];
    forall i | r < i <= |steps| ensures IsRun(cfg, types, steps[..i]) && c in At(cfg, types, steps[..i]).w.infos {
      if i == |steps| {
        assert steps[..i] == steps;
      } else {
        assert steps[..i] == init[..i];
      }
    }
    assert CreatedAt(cfg, types, steps, r, k, c);
  }

  /** The cluster whose AccountInfo a worker is about to write. */
  function Target(pc: Pc): Option<ClusterId> {
    if pc.AiParentGet? || pc.AiOwnGet? || pc.AiPut? then Some(pc.self.generated) else None
  }

  lemma TargetCall(ca: string, w: World, k: Key, wk: Worker)
    ensures var next := AfterCall(k, wk, Call(ca, w, k, wk.instance, wk.pc).1);
            next.Some? && Target(next.value.pc).Some? ==>
              || Target(next.value.pc) == Target(wk.pc)
              || (wk.pc == AiWsGet && PastGate(w, k, Target(next.value.pc).value))
  {
    hide WriteInfo, WorkspacePath, Hosted, Generate, Patch, Mutate, Open;
    AdvanceTarget(k, wk.instance, wk.rest);
  }

  lemma {:induction false} AdvanceTarget(k: Key, a: Account, rest: seq<Sub>)
    ensures Advance(k, a, rest).Some? ==> Target(Advance(k, a, rest).value.pc) == None
  {
    if rest != [] {
      AdvanceTarget(k, a, rest[1..]);
    }
  }

  lemma TargetStep(cfg: Config, s: Sys, step: Step, k: Key)
    requires Enabled(cfg, s, step) && k in Apply(cfg, s, step).workers
    ensures var target := Target(Apply(cfg, s, step).workers[k].pc);
            target.Some? ==>
              || (k in s.workers && Target(s.workers[k].pc) == target && !(step.Begin? && step.k == k))
              || (step == Step.Work(k) && k in s.workers && s.workers[k].pc == AiWsGet &&
                    PastGate(s.w, k, target.value))
  {
    match step
    case Begin(j, f) => AdvanceTarget(j, BeginAccount(cfg, s.w.accounts[j]), cfg.pipeline);
    case Work(j) => TargetCall(s.ca, s.w, j, s.workers[j]);
    case _ =>
  }

  lemma NewInfo(cfg: Config, s: Sys, step: Step, c: ClusterId)
    requires Inv(cfg, s) && Enabled(cfg, s, step) && c in Apply(cfg, s, step).w.infos && c !in s.w.infos
    ensures step.Work? && s.workers[step.k].pc.AiPut? && Target(s.workers[step.k].pc) == Some(c)
  {
    if step.Work? {
      hide Call, Inv;
      CallInfos(s.ca, s.w, step.k, s.workers[step.k].instance, s.workers[step.k].pc);
    }
  }

  // ----- over runs -----

  ghost predicate SomeCreated(cfg: Config, types: map<string, WorkspaceType>, steps: seq<Step>, c: ClusterId) {
    exists k :: CreatedAfterRead(cfg, types, steps, k, c)
  }

  ghost predicate AllRead(cfg: Config, types: map<string, WorkspaceType>, steps: seq<Step>)
    requires IsRun(cfg, types, steps)
  {
    var s := At(cfg, types, steps);
    && (forall k :: k in s.workers && Target(s.workers[k].pc).Some? ==>
          ReadFor(cfg, types, steps, k, Target(s.workers[k].pc).value))
    && (forall c :: c in s.w.infos ==> SomeCreated(cfg, types, steps, c))
  }

  lemma WorkerRead(cfg: Config, types: map<string, WorkspaceType>, steps: seq<Step>, k: Key)
    requires IsRun(cfg, types, steps) && steps != [] && IsRun(cfg, types, steps[..|steps| - 1])
    requires AllRead(cfg, types, steps[..|steps| - 1])
    requires var (s, last) := (At(cfg, types, steps[..|steps| - 1]), steps[|steps| - 1]);
             Enabled(cfg, s, last) && At(cfg, types, steps) == Apply(cfg, s, last)
    requires k in At(cfg, types, steps).workers && Target(At(cfg, types, steps).workers[k].pc).Some?
    ensures ReadFor(cfg, types, steps, k, Target(At(cfg, types, steps).workers[k].pc).value)
  {
    var (init, last) := (steps[..|steps| - 1], steps[|steps| - 1]);
    var (s, c) := (At(cfg, types, init), Target(At(cfg, types, steps).workers[k].pc).value);
    TargetStep(cfg, s, last, k);
    hide Apply, Enabled, Init, Exec, CanRun;
    if k in s.workers && Target(s.workers[k].pc) == Some(c) && !(last.Begin? && last.k == k) {
      ReadForLater(cfg, types, steps, k, c);
    } else {
      assert ReadAt(cfg, types, steps, |init|, k, c);
      assert SamePass(steps, |init|, |steps|, k);
    }
  }

  lemma NewCreated(cfg: Config, types: map<string, WorkspaceType>, steps: seq<Step>, k: Key, c: ClusterId)
    requires IsRun(cfg, types, steps) && steps != [] && IsRun(cfg, types, steps[..|steps| - 1])
    requires ReadFor(cfg, types, steps[..|steps| - 1], k, c)
    requires steps[|steps| - 1] == Step.Work(k) && c in At(cfg, types, steps).w.infos
    requires var s := At(cfg, types, steps[..|steps| - 1]);
             k in s.workers && s.workers[k].pc.AiPut? && s.workers[k].pc.self.generated == c && c !in s.w.infos
    ensures CreatedAfterRead(cfg, types, steps, k, c)
  {
    hide Init, Exec, CanRun;
    var init := steps[..|steps| - 1];
    var q: nat :| ReadAt(cfg, types, init, q, k, c) && SamePass(init, q, |init|, k);
    ReadLater(cfg, types, steps, q, k, c);
    assert q < |init|;
    assert SamePass(steps, q, |init|, k);
    assert steps[..|steps|] == steps;
    assert CreatedAt(cfg, types, steps, |init|, k, c);
  }

  lemma InfoRead(cfg: Config, types: map<string, WorkspaceType>, steps: seq<Step>, c: ClusterId)
    requires IsRun(cfg, types, steps) && steps != [] && IsRun(cfg, types, steps[..|steps| - 1])
    requires AllRead(cfg, types, steps[..|steps| - 1])
    requires var (s, last) := (At(cfg, types, steps[..|steps| - 1]), steps[|steps| - 1]);
             Inv(cfg, s) && Enabled(cfg, s, last) && At(cfg, types, steps) == Apply(cfg, s, last)
    requires c in At(cfg, types, steps).w.infos
    ensures SomeCreated(cfg, types, steps, c)
  {
    var (init, last) := (steps[..|steps| - 1], steps[|steps| - 1]);
    var s := At(cfg, types, init);
    if c in s.w.infos {
      var k :| CreatedAfterRead(cfg, types, init, k, c);
      CreatedLater(cfg, types, steps, k, c);
    } else {
      NewInfo(cfg, s, last, c);
      hide Apply, Enabled, Inv, Init, Exec, CanRun;
      NewCreated(cfg, types, steps, last.k, c);
    }
  }

  lemma {:induction false} RunReads(cfg: Config, types: map<string, WorkspaceType>, steps: seq<Step>)
    requires IsRun(cfg, types, steps) && WorkspaceSub in cfg.pipeline
    ensures AllRead(cfg, types, steps)
    decreases |steps|
  {
    if steps != [] {
      var init := steps[..|steps| - 1];
      LastStep(cfg, Init(types), steps);
      RunReads(cfg, types, init);
      RunInv(cfg, types, init);
      hide Apply, Enabled, Inv, Init, Exec, CanRun, ReadFor, SomeCreated;
      forall k | k in At(cfg, types, steps).workers && Target(At(cfg, types, steps).workers[k].pc).Some?
        ensures ReadFor(cfg, types, steps, k, Target(At(cfg, types, steps).workers[k].pc).value)
      {
        WorkerRead(cfg, types, steps, k);
      }
      forall c | c in At(cfg, types, steps).w.infos ensures SomeCreated(cfg, types, steps, c) {
        InfoRead(cfg, types, steps, c);
      }
    }
  }

  /** Every AccountInfo was created by a pass that had read the workspace of its cluster before, and had
      found it initializing or Ready. */
  lemma WrittenPastGate(cfg: Config, types: map<string, WorkspaceType>, steps: seq<Step>, c: ClusterId)
    requires IsRun(cfg, types, steps) && c in At(cfg, types, steps).w.infos
    ensures exists k :: CreatedAfterRead(cfg, types, steps, k, c)
  {
    RunInv(cfg, types, steps);
    if WorkspaceSub in cfg.pipeline {
      RunReads(cfg, types, steps);
      assert SomeCreated(cfg, types, steps, c);
    }
  }
}
