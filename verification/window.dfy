/** When an AccountInfo can go while there are accounts in its cluster. */
module Window {
  import opened Naming
  import opened Admission
  import opened Model
  import opened Program
  import opened System
  import opened Invariant
  import opened Preserve
  import opened Ranking
  import opened Progress
  import opened Emptying

  /** In the course of these steps the AccountInfo in c goes while there are accounts in c. */
  ghost predicate Loses(cfg: Config, s: Sys, steps: seq<Step>, c: ClusterId)
    requires CanRun(cfg, s, steps)
    decreases |steps|
  {
    steps != [] &&
    (|| (c in s.w.infos && c !in Apply(cfg, s, steps[0]).w.infos && !NoAccounts(s.w, c))
     || Loses(cfg, Apply(cfg, s, steps[0]), steps[1..], c))
  }

  /** The cluster is terminating, and has no accounts any more, or an AccountInfo with its finalizer that
      nobody has listed accounts for yet. */
  predicate Guarded(s: Sys, c: ClusterId) {
    && c in s.w.clusters && !Open(s.w, c)
    && (!NoAccounts(s.w, c) && c in s.w.infos ==> s.w.infos[c].finalizer && c !in s.releasing)
  }

  lemma GuardedCall(cfg: Config, s: Sys, k: Key, c: ClusterId)
    requires Inv(cfg, s) && k in s.workers && c in s.w.clusters && !Open(s.w, c)
    ensures var infos' := ApplyWorld(cfg, s, Step.Work(k)).infos;
            && (c in infos' <==> c in s.w.infos)
            && (c in s.w.infos ==> infos'[c].finalizer == s.w.infos[c].finalizer)
  {
    hide PcOk, CreateInfo, PatchOrgInfo, UpdateChildInfo;
    var wk := s.workers[k];
    if wk.pc.AiPut? {
      CallWrite(cfg, s, k);
    } else {
      CallInfos(s.ca, s.w, k, wk.instance, wk.pc);
    }
  }

  lemma GuardedStep(cfg: Config, s: Sys, step: Step, c: ClusterId)
    requires Inv(cfg, s) && Enabled(cfg, s, step) && Guarded(s, c)
    ensures Guarded(Apply(cfg, s, step), c)
    ensures c in s.w.infos && c !in ApplyWorld(cfg, s, step).infos ==> NoAccounts(s.w, c)
  {
    hide PcOk, HistoryOk, WorkspacesOk, WorkersOk, Open;
    TreeStep(cfg, s, step);
    ClosedStays(cfg, s, step, c);
    if NoAccounts(s.w, c) {
      NoneAgain(cfg, s, step, c);
    }
    if step.Work? {
      hide Call;
      GuardedCall(cfg, s, step.k, c);
    }
  }

  lemma NoneAgain(cfg: Config, s: Sys, step: Step, c: ClusterId)
    requires Inv(cfg, s) && Enabled(cfg, s, step) && !Open(s.w, c) && NoAccounts(s.w, c)
    ensures NoAccounts(ApplyWorld(cfg, s, step), c)
  {
    hide Call, Inv;
    forall k | k in ApplyWorld(cfg, s, step).accounts ensures k.cluster != c {
      if k !in s.w.accounts {
        NewAccount(cfg, s, step, k);
      }
    }
  }

  lemma {:induction false} GuardedRun(cfg: Config, s: Sys, steps: seq<Step>, c: ClusterId)
    requires Inv(cfg, s) && WorkspaceSub in cfg.pipeline && CanRun(cfg, s, steps) && Guarded(s, c)
    ensures !Loses(cfg, s, steps, c)
    decreases |steps|
  {
    if steps != [] {
      GuardedStep(cfg, s, steps[0], c);
      InvStep(cfg, s, steps[0]);
      GuardedRun(cfg, Apply(cfg, s, steps[0]), steps[1..], c);
    }
  }

  // ----- how it is lost -----

  lemma {:induction false} LosesLater(cfg: Config, s: Sys, r1: seq<Step>, r2: seq<Step>, c: ClusterId)
    requires CanRun(cfg, s, r1) && CanRun(cfg, Exec(cfg, s, r1), r2) && Loses(cfg, Exec(cfg, s, r1), r2, c)
    ensures CanRun(cfg, s, r1 + r2) && Loses(cfg, s, r1 + r2, c)
    decreases |r1|
  {
    hide Apply, Enabled;
    if r1 == [] {
      assert r1 + r2 == r2;
    } else {
      LosesLater(cfg, Apply(cfg, s, r1[0]), r1[1..], r2, c);
      assert (r1 + r2)[1..] == r1[1..] + r2;
    }
  }

  lemma First(cfg: Config, s: Sys, step: Step, rest: seq<Step>, c: ClusterId)
    requires Enabled(cfg, s, step) && CanRun(cfg, Apply(cfg, s, step), rest) && Loses(cfg, Apply(cfg, s, step), rest, c)
    ensures CanRun(cfg, s, [step] + rest) && Loses(cfg, s, [step] + rest, c)
  {
    assert ([step] + rest)[1..] == rest;
  }

  /** At once, with accounts there: without its finalizer it is deleted; with its release begun, released. */
  lemma LostAtOnce(cfg: Config, s: Sys, c: ClusterId) returns (steps: seq<Step>)
    requires c in s.w.infos && !NoAccounts(s.w, c) && (!s.w.infos[c].finalizer || c in s.releasing)
    ensures CanRun(cfg, s, steps) && Loses(cfg, s, steps, c)
  {
    steps := [if c in s.releasing then InfoRelease(c) else DeleteInfo(c)];
    assert steps[1..] == [];
    assert c !in Apply(cfg, s, steps[0]).w.infos;
  }

  /** In an open cluster without accounts: one is created, if need be between listing and release. */
  lemma LostByCreation(cfg: Config, s: Sys, c: ClusterId, kind: string) returns (steps: seq<Step>)
    requires c in s.w.infos && c != ORGS && Open(s.w, c) && NoAccounts(s.w, c)
    requires kind != ORG && kind in cfg.validator.allowList
    ensures CanRun(cfg, s, steps) && Loses(cfg, s, steps, c)
    decreases s.w.infos[c].finalizer && c !in s.releasing, !s.w.infos[c].deleting
  {
    if !s.w.infos[c].finalizer || c in s.releasing {
      var create := CreateAccount(Key(c, "a"), kind);
      var s1 := Apply(cfg, s, create);
      assert Key(c, "a") in s1.w.accounts;
      var rest := LostAtOnce(cfg, s1, c);
      First(cfg, s, create, rest, c);
      steps := [create] + rest;
    } else {
      var step := if s.w.infos[c].deleting then InfoList(c) else DeleteInfo(c);
      var rest := LostByCreation(cfg, Apply(cfg, s, step), c, kind);
      First(cfg, s, step, rest, c);
      steps := [step] + rest;
    }
  }

  /** In any open cluster: the users first delete what accounts there are. */
  lemma LostWhenOpen(cfg: Config, s: Sys, c: ClusterId, kind: string) returns (steps: seq<Step>)
    requires Live(cfg, s) && c in s.w.infos && Open(s.w, c)
    requires kind != ORG && kind in cfg.validator.allowList
    ensures CanRun(cfg, s, steps) && Loses(cfg, s, steps, c)
  {
    assert c != ORGS by { assert InfoOk(s.w, s.h, c); }
    hide Inv, Loses;
    var first := ClusterEmptied(cfg, s, c);
    var rest := LostByCreation(cfg, Exec(cfg, s, first), c, kind);
    LosesLater(cfg, s, first, rest, c);
    steps := first + rest;
  }

  /** From here some run loses the AccountInfo in c with accounts beside it. */
  ghost predicate CanLose(cfg: Config, s: Sys, c: ClusterId) {
    exists steps :: CanRun(cfg, s, steps) && Loses(cfg, s, steps, c)
  }

  /** Exactly when some run loses an AccountInfo with accounts beside it: as long as its cluster accepts new
      ones, and after that while there are accounts and it has no finalizer, or had its accounts listed
      before. Accounts of this kind can be created. */
  lemma LostExactly(cfg: Config, s: Sys, c: ClusterId, kind: string)
    requires Inv(cfg, s) && WorkspaceSub in cfg.pipeline && c in s.w.infos
    requires kind != ORG && kind in cfg.validator.allowList
    ensures CanLose(cfg, s, c) <==>
              Open(s.w, c) || (!NoAccounts(s.w, c) && (!s.w.infos[c].finalizer || c in s.releasing))
  {
    hide Loses, Apply, Enabled, CanRun, PcOk;
    if Open(s.w, c) {
      var steps := LostWhenOpen(cfg, s, c, kind);
    } else if !NoAccounts(s.w, c) && (!s.w.infos[c].finalizer || c in s.releasing) {
      var steps := LostAtOnce(cfg, s, c);
    } else {
      assert InfoOk(s.w, s.h, c);
      forall steps | CanRun(cfg, s, steps) ensures !Loses(cfg, s, steps, c) {
        GuardedRun(cfg, s, steps, c);
      }
    }
  }
}
