/** Undisturbed passes: how the subroutines make up a pass, and how a pass is one of the schedules
    of the platform. */
module Passes {
  import opened Wrappers
  import opened Naming
  import opened Model
  import opened WorkspaceTypes
  import opened Program
  import opened System
  import opened Invariant
  import opened Progress

  /** The rest of a pass that nobody disturbs, and what it returns. */
  function Finish(ca: string, w: World, k: Key, wk: Worker): (World, Result)
    decreases Size(wk)
  {
    var (w', signal) := Call(ca, w, k, wk.instance, wk.pc);
    var next := AfterCall(k, wk, signal);
    CallSmaller(ca, w, k, wk);
    if next.Some? then Finish(ca, w', k, next.value)
    else (w', match signal case Go(_) => Again case Ok => Done case Requeue => Again case Error => Failed)
  }

  /** A whole pass at an account that is not being deleted: finalizers first, then the pipeline. */
  function Pass(cfg: Config, ca: string, w: World, k: Key): (World, Result)
    requires k in w.accounts && !w.accounts[k].deleting
  {
    var a := BeginAccount(cfg, w.accounts[k]);
    var w' := w.(accounts := w.accounts[k := a]);
    match BeginWorker(cfg, k, a, None)
    case None => (w', Done)
    case Some(wk) => Finish(ca, w', k, wk)
  }

  /** A pass is its subroutines, one after the other, as long as they say OK. */
  lemma {:induction false} FinishRunsSubroutine(ca: string, w: World, k: Key, wk: Worker)
    requires !Finalizing(wk.pc)
    ensures var (w', r) := Run(ca, w, k, wk.instance, wk.pc, None); var next := Advance(k, wk.instance, wk.rest);
            Finish(ca, w, k, wk) == if r == Done && next.Some? then Finish(ca, w', k, next.value) else (w', r)
    decreases Rank(wk.pc)
  {
    var (w', signal) := Call(ca, w, k, wk.instance, wk.pc);
    if signal.Go? {
      GoKeepsFinalizing(ca, w, k, wk.instance, wk.pc);
      FinishRunsSubroutine(ca, w', k, wk.(pc := signal.pc));
    }
  }

  lemma GoKeepsFinalizing(ca: string, w: World, k: Key, a: Account, pc: Pc)
    ensures var signal := Call(ca, w, k, a, pc).1; signal.Go? ==> Finalizing(signal.pc) == Finalizing(pc)
  {
    hide WriteInfo, Generate, Patch, Mutate;
  }

  /** Whatever a pass does undisturbed, it may do in a run of the platform. */
  lemma {:induction false} FinishIsSchedule(cfg: Config, s: Sys, k: Key) returns (steps: seq<Step>)
    requires k in s.workers
    ensures CanRun(cfg, s, steps) && forall i :: 0 <= i < |steps| ==> steps[i] == Step.Work(k)
    ensures Exec(cfg, s, steps).w == Finish(s.ca, s.w, k, s.workers[k]).0 && k !in Exec(cfg, s, steps).workers
    decreases Size(s.workers[k])
  {
    var step := Step.Work(k);
    var s' := Apply(cfg, s, step);
    CallSmaller(s.ca, s.w, k, s.workers[k]);
    if k in s'.workers {
      var more := FinishIsSchedule(cfg, s', k);
      steps := [step] + more;
      assert steps[1..] == more;
    } else {
      steps := [step];
      assert steps[1..] == [];
    }
  }

  lemma PassIsSchedule(cfg: Config, s: Sys, k: Key) returns (steps: seq<Step>)
    requires k in s.w.accounts && !s.w.accounts[k].deleting && k !in s.workers
    ensures CanRun(cfg, s, steps) && Exec(cfg, s, steps).w == Pass(cfg, s.ca, s.w, k).0
  {
    var begin := Begin(k, None);
    var s' := Apply(cfg, s, begin);
    var more := [];
    if k in s'.workers {
      more := FinishIsSchedule(cfg, s', k);
    }
    steps := [begin] + more;
    assert steps[1..] == more;
  }
}
