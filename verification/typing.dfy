/** The type that every workspace refers to, and the check that each reference went through. */
module Typing {
  import opened Wrappers
  import opened Naming
  import opened Model
  import opened WorkspaceTypes
  import opened Program
  import opened System
  import opened Invariant
  import opened Preserve
  import opened Bare
  import opened Safety
  import opened Ranking

  /** Step q of the run is the readiness check of a pass at k, for this type, and finds it Ready. */
  ghost predicate CheckedAt(cfg: Config, types: map<string, WorkspaceType>, steps: seq<Step>, q: nat, k: Key,
                            name: string)
  {
    && q < |steps| && IsRun(cfg, types, steps[..q]) && steps[q] == Step.Work(k)
    && var s := At(cfg, types, steps[..q]);
    && k in s.workers && s.workers[k].pc == WsTypeGet(name) && IsReady(s.w, name)
  }

  /** No pass at k begins strictly between steps q and n. */
  predicate SamePass(steps: seq<Step>, q: nat, n: nat, k: Key) {
    forall i :: q < i < n && i < |steps| ==> !(steps[i].Begin? && steps[i].k == k)
  }

  /** Step r of the run creates the workspace at k with this type; it has been there ever since. */
  ghost predicate WrittenAt(cfg: Config, types: map<string, WorkspaceType>, steps: seq<Step>, r: nat, k: Key,
                            name: string)
  {
    && r < |steps| && IsRun(cfg, types, steps[..r]) && steps[r] == Step.Work(k)
    && var s := At(cfg, types, steps[..r]);
    && k in s.workers && s.workers[k].pc.WsPut? && s.workers[k].pc.typeName == name && k !in s.w.workspaces
    && (forall i :: r < i <= |steps| ==> IsRun(cfg, types, steps[..i]) && k in At(cfg, types, steps[..i]).w.workspaces)
  }

  ghost predicate CheckedFor(cfg: Config, types: map<string, WorkspaceType>, steps: seq<Step>, k: Key, name: string) {
    exists q :: CheckedAt(cfg, types, steps, q, k, name) && SamePass(steps, q, |steps|, k)
  }

  ghost predicate WrittenAfterCheck(cfg: Config, types: map<string, WorkspaceType>, steps: seq<Step>, k: Key,
                                    name: string)
  {
    exists q, r :: && q < r && CheckedAt(cfg, types, steps, q, k, name) && SamePass(steps, q, r, k)
                   && WrittenAt(cfg, types, steps, r, k, name)
  }

  // ----- one more step -----

  lemma CheckedLater(cfg: Config, types: map<string, WorkspaceType>, steps: seq<Step>, q: nat, k: Key, name: string)
    requires steps != [] && CheckedAt(cfg, types, steps[..|steps| - 1], q, k, name)
    ensures CheckedAt(cfg, types, steps, q, k, name)
  {
    assert steps[..|steps| - 1][..q] == steps[..q];
  }

  lemma CheckedForLater(cfg: Config, types: map<string, WorkspaceType>, steps: seq<Step>, k: Key, name: string)
    requires steps != [] && CheckedFor(cfg, types, steps[..|steps| - 1], k, name)
    requires !(steps[|steps| - 1].Begin? && steps[|steps| - 1].k == k)
    ensures CheckedFor(cfg, types, steps, k, name)
  {
    var init := steps[..|steps| - 1];
    hide CheckedAt;
    var q: nat :| CheckedAt(cfg, types, init, q, k, name) && SamePass(init, q, |init|, k);
    CheckedLater(cfg, types, steps, q, k, name);
    assert forall i :: 0 <= i < |init| ==> init[i] == steps[i];
    assert SamePass(steps, q, |steps|, k);
  }

  lemma WrittenLater(cfg: Config, types: map<string, WorkspaceType>, steps: seq<Step>, k: Key, name: string)
    requires steps != [] && IsRun(cfg, types, steps) && k in At(cfg, types, steps).w.workspaces
    requires WrittenAfterCheck(cfg, types, steps[..|steps| - 1], k, name)
    ensures WrittenAfterCheck(cfg, types, steps, k, name)
  {
    hide Init, Exec, CanRun;
    var init := steps[..|steps| - 1];
    var q: nat, r: nat :| q < r && CheckedAt(cfg, types, init, q, k, name) && SamePass(init, q, r, k) &&
        WrittenAt(cfg, types, init, r, k, name);
    CheckedLater(cfg, types, steps, q, k, name);
    hide CheckedAt;
    assert SamePass(steps, q, r, k);
    assert init[..r] == steps[..r];
    forall i | r < i <= |steps| ensures IsRun(cfg, types, steps[..i]) && k in At(cfg, types, steps[..i]).w.workspaces {
      if i == |steps| {
        assert steps[..i] == steps;
      } else {
        assert steps[..i] == init[..i];
      }
    }
    assert WrittenAt(cfg, types, steps, r, k, name);
  }

  /** The type that a worker at these calls has found Ready. */
  function Cleared(pc: Pc): Option<string> {
    match pc
    case WsGet(n) => Some(n)
    case WsPut(n, _) => Some(n)
    case _ => None
  }

  lemma {:induction false} AdvanceCleared(k: Key, a: Account, rest: seq<Sub>)
    ensures Advance(k, a, rest).Some? ==> Cleared(Advance(k, a, rest).value.pc) == None
  {
    if rest != [] {
      AdvanceCleared(k, a, rest[1..]);
    }
  }

  lemma ClearedCall(ca: string, w: World, k: Key, wk: Worker)
    ensures var next := AfterCall(k, wk, Call(ca, w, k, wk.instance, wk.pc).1);
            next.Some? && Cleared(next.value.pc).Some? ==>
              || Cleared(next.value.pc) == Cleared(wk.pc)
              || (wk.pc == WsTypeGet(Cleared(next.value.pc).value) && IsReady(w, wk.pc.typeName))
  {
    hide WriteInfo, ReadLocation, Generate, Patch, Mutate, Open;
    AdvanceCleared(k, wk.instance, wk.rest);
  }

  lemma ClearedStep(cfg: Config, s: Sys, step: Step, k: Key)
    requires Enabled(cfg, s, step) && k in Apply(cfg, s, step).workers
    ensures var cleared := Cleared(Apply(cfg, s, step).workers[k].pc);
            cleared.Some? ==>
              || (k in s.workers && Cleared(s.workers[k].pc) == cleared && !(step.Begin? && step.k == k))
              || (step == Step.Work(k) && k in s.workers && s.workers[k].pc == WsTypeGet(cleared.value) &&
                    IsReady(s.w, cleared.value))
  {
    match step
    case Begin(j, f) => AdvanceCleared(j, BeginAccount(cfg, s.w.accounts[j]), cfg.pipeline);
    case Work(j) => ClearedCall(s.ca, s.w, j, s.workers[j]);
    case _ =>
  }

  /** A workspace after a step was there before with the same type, or the step created it. */
  lemma WorkspaceStep(cfg: Config, s: Sys, step: Step, k: Key)
    requires Inv(cfg, s) && Enabled(cfg, s, step) && k in Apply(cfg, s, step).w.workspaces
    ensures var ws' := Apply(cfg, s, step).w.workspaces[k];
            if k in s.w.workspaces then ws'.wsType == s.w.workspaces[k].wsType
            else && step == Step.Work(k) && k in s.workers && s.workers[k].pc.WsPut?
                 && ws'.wsType == Some(TypeRef(s.workers[k].pc.typeName, ORGS_PATH))
  {
    if k in s.w.workspaces {
      WorkspaceAfter(cfg, s, step, k);
    } else {
      if Some(k) != Actor(step) {
        NoForeignWorkspace(cfg, s, step, k);
      }
      assert WorkerOk(s.w, s.h, k, s.workers[k]);
      NewByPut(s.ca, s.w, k, s.workers[k].instance, s.workers[k].pc);
    }
  }

  lemma NewByPut(ca: string, w: World, k: Key, a: Account, pc: Pc)
    requires k !in w.workspaces && k in Call(ca, w, k, a, pc).0.workspaces
    ensures pc.WsPut? && Call(ca, w, k, a, pc).0.workspaces[k].wsType == Some(TypeRef(pc.typeName, ORGS_PATH))
  {
    hide WriteInfo, ReadLocation, Generate, Patch, Mutate;
  }

  // ----- over runs -----

  ghost predicate AllChecked(cfg: Config, types: map<string, WorkspaceType>, steps: seq<Step>)
    requires IsRun(cfg, types, steps)
  {
    var s := At(cfg, types, steps);
    && (forall k :: k in s.workers && Cleared(s.workers[k].pc).Some? ==>
          CheckedFor(cfg, types, steps, k, Cleared(s.workers[k].pc).value))
    && (forall k :: k in s.w.workspaces ==>
          s.w.workspaces[k].wsType.Some? &&
          WrittenAfterCheck(cfg, types, steps, k, s.w.workspaces[k].wsType.value.name))
  }

  lemma WorkerChecked(cfg: Config, types: map<string, WorkspaceType>, steps: seq<Step>, k: Key)
    requires IsRun(cfg, types, steps) && steps != [] && IsRun(cfg, types, steps[..|steps| - 1])
    requires AllChecked(cfg, types, steps[..|steps| - 1])
    requires var (s, last) := (At(cfg, types, steps[..|steps| - 1]), steps[|steps| - 1]);
             Enabled(cfg, s, last) && At(cfg, types, steps) == Apply(cfg, s, last)
    requires k in At(cfg, types, steps).workers && Cleared(At(cfg, types, steps).workers[k].pc).Some?
    ensures CheckedFor(cfg, types, steps, k, Cleared(At(cfg, types, steps).workers[k].pc).value)
  {
    var (init, last) := (steps[..|steps| - 1], steps[|steps| - 1]);
    var (s, name) := (At(cfg, types, init), Cleared(At(cfg, types, steps).workers[k].pc).value);
    ClearedStep(cfg, s, last, k);
    hide Apply, Enabled, Init, Exec, CanRun;
    if k in s.workers && Cleared(s.workers[k].pc) == Some(name) && !(last.Begin? && last.k == k) {
      CheckedForLater(cfg, types, steps, k, name);
    } else {
      assert CheckedAt(cfg, types, steps, |init|, k, name);
      assert SamePass(steps, |init|, |steps|, k);
    }
  }

  lemma NewChecked(cfg: Config, types: map<string, WorkspaceType>, steps: seq<Step>, k: Key, name: string)
    requires IsRun(cfg, types, steps) && steps != [] && IsRun(cfg, types, steps[..|steps| - 1])
    requires CheckedFor(cfg, types, steps[..|steps| - 1], k, name)
    requires steps[|steps| - 1] == Step.Work(k) && k in At(cfg, types, steps).w.workspaces
    requires var s := At(cfg, types, steps[..|steps| - 1]);
             k in s.workers && s.workers[k].pc.WsPut? && s.workers[k].pc.typeName == name && k !in s.w.workspaces
    ensures WrittenAfterCheck(cfg, types, steps, k, name)
  {
    hide Init, Exec, CanRun;
    var init := steps[..|steps| - 1];
    var q: nat :| CheckedAt(cfg, types, init, q, k, name) && SamePass(init, q, |init|, k);
    CheckedLater(cfg, types, steps, q, k, name);
    assert q < |init|;
    assert SamePass(steps, q, |init|, k);
    assert steps[..|steps|] == steps;
    assert WrittenAt(cfg, types, steps, |init|, k, name);
  }

  lemma WorkspaceChecked(cfg: Config, types: map<string, WorkspaceType>, steps: seq<Step>, k: Key)
    requires IsRun(cfg, types, steps) && steps != [] && IsRun(cfg, types, steps[..|steps| - 1])
    requires AllChecked(cfg, types, steps[..|steps| - 1])
    requires var (s, last) := (At(cfg, types, steps[..|steps| - 1]), steps[|steps| - 1]);
             Inv(cfg, s) && Enabled(cfg, s, last) && At(cfg, types, steps) == Apply(cfg, s, last)
    requires k in At(cfg, types, steps).w.workspaces
    ensures var ws := At(cfg, types, steps).w.workspaces[k];
            ws.wsType.Some? && WrittenAfterCheck(cfg, types, steps, k, ws.wsType.value.name)
  {
    var (init, last) := (steps[..|steps| - 1], steps[|steps| - 1]);
    var s := At(cfg, types, init);
    WorkspaceStep(cfg, s, last, k);
    hide Apply, Enabled, Inv, Init, Exec, CanRun;
    if k in s.w.workspaces {
      WrittenLater(cfg, types, steps, k, s.w.workspaces[k].wsType.value.name);
    } else {
      NewChecked(cfg, types, steps, k, s.workers[k].pc.typeName);
    }
  }

  lemma {:induction false} RunChecks(cfg: Config, types: map<string, WorkspaceType>, steps: seq<Step>)
    requires IsRun(cfg, types, steps) && WorkspaceSub in cfg.pipeline
    ensures AllChecked(cfg, types, steps)
    decreases |steps|
  {
    if steps != [] {
      var init := steps[..|steps| - 1];
      LastStep(cfg, Init(types), steps);
      RunChecks(cfg, types, init);
      RunInv(cfg, types, init);
      hide Apply, Enabled, Inv, Init, Exec, CanRun, CheckedFor, WrittenAfterCheck;
      forall k | k in At(cfg, types, steps).workers && Cleared(At(cfg, types, steps).workers[k].pc).Some?
        ensures CheckedFor(cfg, types, steps, k, Cleared(At(cfg, types, steps).workers[k].pc).value)
      {
        WorkerChecked(cfg, types, steps, k);
      }
      forall k | k in At(cfg, types, steps).w.workspaces
        ensures var ws := At(cfg, types, steps).w.workspaces[k];
                ws.wsType.Some? && WrittenAfterCheck(cfg, types, steps, k, ws.wsType.value.name)
      {
        WorkspaceChecked(cfg, types, steps, k);
      }
    }
  }

  /** Every workspace carries its organization's type for the kind of its account, at root:orgs; the
      pass that created it had found that type Ready; and an account that is no organization has a
      workspace only inside one. */
  lemma WorkspaceTyping(cfg: Config, types: map<string, WorkspaceType>, steps: seq<Step>, k: Key)
    requires IsRun(cfg, types, steps) && k in At(cfg, types, steps).w.workspaces
    ensures var w := At(cfg, types, steps).w;
            && k in w.accounts && w.workspaces[k].wsType.Some?
            && var (kind, ref) := (w.accounts[k].kind, w.workspaces[k].wsType.value);
            && ref.path == ORGS_PATH
            && WrittenAfterCheck(cfg, types, steps, k, ref.name)
            && (kind == ORG <==> k.cluster == ORGS)
            && (kind == ORG ==> ref.name == TypeName(k.name, ORG))
            && (kind != ORG ==>
                  k.cluster in w.clusters && OrgOf(w.clusters, k.cluster) in w.clusters &&
                  ref.name == TypeName(w.clusters[OrgOf(w.clusters, k.cluster)].host.name, kind))
  {
    RunInv(cfg, types, steps);
    if WorkspaceSub in cfg.pipeline {
      RunChecks(cfg, types, steps);
      hide WrittenAfterCheck, CheckedFor;
      var s := At(cfg, types, steps);
      assert WorkspaceOk(s.w, k);
      assert AccountOk(s.w, k);
    }
  }

  // ----- between check and write -----

  /** The step takes a type away: somebody outside leaves it missing or not Ready, or the organization's
      own finalizer deletes it. */
  predicate TakesType(s: Sys, step: Step, name: string) {
    || (step.ChangeTypes? && !(name in step.types && step.types[name].ready))
    || (step.Work? && step.k in s.workers && s.workers[step.k].pc.FinTypeDelete? &&
        RoleName(s.workers[step.k].pc.role, step.k.name) == name)
  }

  /** The step makes the type Ready: kcp does, or somebody outside. */
  predicate GivesType(step: Step, name: string) {
    step == TypeReady(name) || (step.ChangeTypes? && name in step.types && step.types[name].ready)
  }

  /** Nothing else makes a type Ready or takes that back. */
  lemma ReadyStep(cfg: Config, s: Sys, step: Step, name: string)
    requires Enabled(cfg, s, step)
    ensures IsReady(Apply(cfg, s, step).w, name) <==>
              GivesType(step, name) || (IsReady(s.w, name) && !TakesType(s, step, name))
  {
    if step.Work? {
      hide Call, Drift;
      CallTypes(s.ca, s.w, step.k, s.workers[step.k].instance, s.workers[step.k].pc);
    }
  }

  /** Step i, between q and r, takes the type, and no step from there to r makes it Ready. */
  ghost predicate TakenForGood(cfg: Config, types: map<string, WorkspaceType>, steps: seq<Step>,
                               q: nat, i: nat, r: nat, name: string)
    requires r <= |steps|
  {
    && q < i < r && IsRun(cfg, types, steps[..i]) && TakesType(At(cfg, types, steps[..i]), steps[i], name)
    && forall j :: i < j < r ==> !GivesType(steps[j], name)
  }

  ghost predicate TakenBetween(cfg: Config, types: map<string, WorkspaceType>, steps: seq<Step>, q: nat, r: nat,
                               name: string)
    requires r <= |steps|
  {
    exists i :: TakenForGood(cfg, types, steps, q, i, r, name)
  }

  lemma StepBetween(cfg: Config, types: map<string, WorkspaceType>, steps: seq<Step>, i: nat)
    requires IsRun(cfg, types, steps) && i < |steps|
    ensures IsRun(cfg, types, steps[..i]) && IsRun(cfg, types, steps[..i + 1])
    ensures Enabled(cfg, At(cfg, types, steps[..i]), steps[i])
    ensures At(cfg, types, steps[..i + 1]) == Apply(cfg, At(cfg, types, steps[..i]), steps[i])
  {
    Prefix(cfg, Init(types), steps, i + 1);
    LastStep(cfg, Init(types), steps[..i + 1]);
    assert steps[..i + 1][..i] == steps[..i];
  }

  /** Exactly when a type that was Ready at the check is not Ready any more at the write: when a step in
      between has taken it, from outside or by its organization's finalizer, and no step after that one
      has made it Ready. */
  lemma {:induction false} ReadyAtWriteExactly(cfg: Config, types: map<string, WorkspaceType>, steps: seq<Step>,
                                               q: nat, r: nat, k: Key, name: string)
    requires IsRun(cfg, types, steps) && q < r <= |steps| && CheckedAt(cfg, types, steps, q, k, name)
    ensures IsRun(cfg, types, steps[..r])
    ensures !IsReady(At(cfg, types, steps[..r]).w, name) <==> TakenBetween(cfg, types, steps, q, r, name)
    decreases r
  {
    StepBetween(cfg, types, steps, r - 1);
    var s := At(cfg, types, steps[..r - 1]);
    ReadyStep(cfg, s, steps[r - 1], name);
    if q == r - 1 {
      assert IsReady(s.w, name) && !TakesType(s, steps[r - 1], name);
    } else {
      ReadyAtWriteExactly(cfg, types, steps, q, r - 1, k, name);
      hide CanRun, Init, Exec, Apply, Enabled, TakesType, GivesType, CheckedAt, IsReady;
      TakenOn(cfg, types, steps, q, r - 1, r, name);
    }
  }

  /** Whether the type has been taken for good, one step later. */
  lemma TakenOn(cfg: Config, types: map<string, WorkspaceType>, steps: seq<Step>, q: nat, p: nat, r: nat, name: string)
    requires q < p && p + 1 == r <= |steps| && IsRun(cfg, types, steps[..p])
    ensures TakenBetween(cfg, types, steps, q, r, name) <==>
              || TakesType(At(cfg, types, steps[..p]), steps[p], name)
              || (!GivesType(steps[p], name) && TakenBetween(cfg, types, steps, q, p, name))
  {
    hide CanRun, Init, Exec, TakesType, GivesType;
    if TakesType(At(cfg, types, steps[..p]), steps[p], name) {
      assert TakenForGood(cfg, types, steps, q, p, r, name);
    } else if !GivesType(steps[p], name) {
      if i: nat :| TakenForGood(cfg, types, steps, q, i, p, name) {
        assert TakenForGood(cfg, types, steps, q, i, r, name);
      }
      if i: nat :| TakenForGood(cfg, types, steps, q, i, r, name) {
        assert TakenForGood(cfg, types, steps, q, i, p, name);
      }
    }
  }
}
