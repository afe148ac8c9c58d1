/** Why WorkspaceReady comes after ManageAccountInfo. */
module Deadlock {
  import opened Wrappers
  import opened Naming
  import opened Model
  import opened WorkspaceTypes
  import opened Program
  import opened System
  import opened Invariant
  import opened Preserve

  /** On the way through the pipeline, WorkspaceReady comes before any ManageAccountInfo. */
  predicate ReadyFirst(subs: seq<Sub>) {
    subs == [] || subs[0] == WorkspaceReadySub || (subs[0] != AccountInfoSub && ReadyFirst(subs[1..]))
  }

  predicate Stuck(s: Sys) {
    && s.w.infos == map[]
    && NoneReady(s.w)
    && (forall k :: k in s.workers ==> Blocked(s.workers[k]))
  }

  predicate Blocked(wk: Worker) {
    && !wk.pc.AiWsGet? && !wk.pc.AiParentGet? && !wk.pc.AiOwnGet? && !wk.pc.AiPut?
    && (wk.pc.WsPut? && wk.pc.gotWs.Some? ==> wk.pc.gotWs.value.phase != Ready)
    && (wk.pc.ReadyGet? || Finalizing(wk.pc) || ReadyFirst(wk.rest))
  }

  lemma {:induction false} AdvanceBlocked(k: Key, a: Account, rest: seq<Sub>)
    requires ReadyFirst(rest)
    ensures Advance(k, a, rest).Some? ==> Blocked(Advance(k, a, rest).value)
  {
    if rest != [] && rest[0] == WorkspaceTypeSub {
      AdvanceBlocked(k, a, rest[1..]);
    }
  }

  predicate NoneReady(w: World) {
    forall k :: k in w.workspaces ==> w.workspaces[k].phase != Ready
  }

  lemma CallNoneReady(ca: string, w: World, k: Key, wk: Worker)
    requires NoneReady(w) && Blocked(wk)
    ensures NoneReady(Call(ca, w, k, wk.instance, wk.pc).0)
  {
    hide WriteInfo, ReadLocation, Generate, Patch, Mutate, ReadyFirst;
  }

  lemma CallBlocked(ca: string, w: World, k: Key, wk: Worker)
    requires w.infos == map[] && NoneReady(w) && Blocked(wk)
    ensures var next := AfterCall(k, wk, Call(ca, w, k, wk.instance, wk.pc).1);
            next.Some? ==> Blocked(next.value)
  {
    if !wk.pc.ReadyGet? && !Finalizing(wk.pc) {
      AdvanceBlocked(k, wk.instance, wk.rest);
    }
  }

  lemma StuckStep(cfg: Config, s: Sys, step: Step)
    requires Stuck(s) && Enabled(cfg, s, step) && ReadyFirst(cfg.pipeline)
    ensures Stuck(Apply(cfg, s, step))
  {
    match step
    case Begin(k, f) => AdvanceBlocked(k, BeginAccount(cfg, s.w.accounts[k]), cfg.pipeline);
    case Work(k) =>
      CallNoneReady(s.ca, s.w, k, s.workers[k]);
      CallBlocked(s.ca, s.w, k, s.workers[k]);
      CallInfos(s.ca, s.w, k, s.workers[k].instance, s.workers[k].pc);
    case _ =>
  }

  lemma {:induction false} StuckRun(cfg: Config, s: Sys, steps: seq<Step>)
    requires Stuck(s) && CanRun(cfg, s, steps) && ReadyFirst(cfg.pipeline)
    ensures Stuck(Exec(cfg, s, steps))
    decreases |steps|
  {
    if steps != [] {
      StuckStep(cfg, s, steps[0]);
      StuckRun(cfg, Apply(cfg, s, steps[0]), steps[1..]);
    }
  }

  /** With WorkspaceReady ahead of ManageAccountInfo nothing is ever provisioned: in no run does
      any AccountInfo come to be or any workspace become Ready. */
  lemma ReadyFirstDeadlocks(cfg: Config, types: map<string, WorkspaceType>, steps: seq<Step>)
    requires ReadyFirst(cfg.pipeline) && CanRun(cfg, Init(types), steps)
    ensures var w := Exec(cfg, Init(types), steps).w;
            w.infos == map[] && NoneReady(w)
  {
    StuckRun(cfg, Init(types), steps);
  }

  function Position(sub: Sub): nat {
    match sub
    case WorkspaceTypeSub => 0
    case WorkspaceSub => 1
    case AccountInfoSub => 2
    case WorkspaceReadySub => 3
  }

  /** The order in which the reconciler puts the subroutines together. */
  predicate InOrder(subs: seq<Sub>) {
    forall i, j :: 0 <= i < j < |subs| ==> Position(subs[i]) < Position(subs[j])
  }

  /** In the reconciler's order only one thing leads to that deadlock: switching ManageAccountInfo off. */
  lemma {:induction false} OrderAvoidsDeadlock(subs: seq<Sub>)
    requires InOrder(subs)
    ensures ReadyFirst(subs) <==> AccountInfoSub !in subs
  {
    if subs != [] {
      OrderAvoidsDeadlock(subs[1..]);
      assert forall sub :: sub in subs <==> sub == subs[0] || sub in subs[1..];
      assert forall i :: 0 < i < |subs| ==> Position(subs[0]) < Position(subs[i]);
    }
  }

  /** With a subroutine pipeline in the reconciler's order but without ManageAccountInfo, nothing is
      ever provisioned. */
  lemma WithoutInfoDeadlocks(cfg: Config, types: map<string, WorkspaceType>, steps: seq<Step>)
    requires InOrder(cfg.pipeline) && AccountInfoSub !in cfg.pipeline && CanRun(cfg, Init(types), steps)
    ensures var w := Exec(cfg, Init(types), steps).w;
            w.infos == map[] && NoneReady(w)
  {
    OrderAvoidsDeadlock(cfg.pipeline);
    ReadyFirstDeadlocks(cfg, types, steps);
  }
}
