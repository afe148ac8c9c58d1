/** With the Workspace subroutine switched off nothing below root:orgs ever comes to be. */
module Bare {
  import opened Wrappers
  import opened Model
  import opened WorkspaceTypes
  import opened Program
  import opened System
  import opened Invariant
  import opened Preserve

  /** A worker that is not at a call of the Workspace subroutine, nor past the first of
      ManageAccountInfo, and has no Workspace subroutine ahead. */
  predicate Unplaced(wk: Worker) {
    && !wk.pc.WsInfoGet? && !wk.pc.WsTypeGet? && !wk.pc.WsGet? && !wk.pc.WsPut?
    && !wk.pc.AiParentGet? && !wk.pc.AiOwnGet? && !wk.pc.AiPut?
    && WorkspaceSub !in wk.rest
  }

  predicate BareOk(s: Sys) {
    && s.w.workspaces == map[] && s.w.infos == map[] && s.w.clusters == map[]
    && s.releasing == {} && s.h.past == map[] && s.h.version == map[]
    && (forall k :: k in s.w.accounts ==> k.cluster == ORGS)
    && (forall k :: k in s.workers ==> Unplaced(s.workers[k]))
  }

  lemma {:induction false} AdvanceUnplaced(k: Key, a: Account, rest: seq<Sub>)
    requires WorkspaceSub !in rest
    ensures Advance(k, a, rest).Some? ==> Unplaced(Advance(k, a, rest).value)
  {
    if rest != [] {
      AdvanceUnplaced(k, a, rest[1..]);
    }
  }

  lemma CallUnplaced(ca: string, w: World, k: Key, wk: Worker)
    requires w.workspaces == map[] && w.infos == map[] && Unplaced(wk)
    ensures var (w', signal) := Call(ca, w, k, wk.instance, wk.pc);
            && w'.workspaces == map[] && w'.infos == map[]
            && (AfterCall(k, wk, signal).Some? ==> Unplaced(AfterCall(k, wk, signal).value))
  {
    hide WriteInfo, Generate, Patch, Mutate;
    AdvanceUnplaced(k, wk.instance, wk.rest);
  }

  lemma BareStep(cfg: Config, s: Sys, step: Step)
    requires BareOk(s) && Enabled(cfg, s, step) && WorkspaceSub !in cfg.pipeline
    ensures BareOk(Apply(cfg, s, step))
  {
    match step
    case Begin(k, f) => AdvanceUnplaced(k, BeginAccount(cfg, s.w.accounts[k]), cfg.pipeline);
    case Work(k) =>
      CallUnplaced(s.ca, s.w, k, s.workers[k]);
      CallAccounts(s.ca, s.w, k, s.workers[k].instance, s.workers[k].pc);
    case _ =>
  }

  lemma {:induction false} BareFrom(cfg: Config, s: Sys, steps: seq<Step>)
    requires BareOk(s) && CanRun(cfg, s, steps) && WorkspaceSub !in cfg.pipeline
    ensures BareOk(Exec(cfg, s, steps))
    decreases |steps|
  {
    if steps != [] {
      BareStep(cfg, s, steps[0]);
      BareFrom(cfg, Apply(cfg, s, steps[0]), steps[1..]);
    }
  }

  lemma BareRun(cfg: Config, types: map<string, WorkspaceType>, steps: seq<Step>)
    requires CanRun(cfg, Init(types), steps) && WorkspaceSub !in cfg.pipeline
    ensures BareOk(Exec(cfg, Init(types), steps))
  {
    BareFrom(cfg, Init(types), steps);
  }
}
