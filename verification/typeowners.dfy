/** Every workspace type that the operator creates has an owner, which cannot go before it. */
module TypeOwners {
  import opened Wrappers
  import opened Naming
  import opened Model
  import opened WorkspaceTypes
  import opened Program
  import opened System
  import opened Invariant
  import opened Preserve
  import opened TypeLifecycle

  /** The account at k is an organization that the type finalizer holds. */
  predicate HeldOrg(w: World, k: Key) {
    k in w.accounts && w.accounts[k].kind == "org" && TypeFinalizer in w.accounts[k].finalizers
  }

  /** The type belongs to an organization that is there and that the type finalizer holds. */
  ghost predicate Owned(w: World, name: string) {
    exists k, t :: HeldOrg(w, k) && name == RoleName(t, k.name)
  }

  /** A pass at an organization, as long as it does not finalize, finds the type finalizer on it. */
  predicate PassHeld(w: World, k: Key, wk: Worker) {
    wk.instance.kind == "org" && !Finalizing(wk.pc) ==> HeldOrg(w, k)
  }

  ghost predicate OwnersOk(s: Sys) {
    && CleanOk(s)
    && (forall name :: name in s.w.types ==> Owned(s.w, name))
    && (forall k :: k in s.workers ==> PassHeld(s.w, k, s.workers[k]))
  }

  // ----- one step -----

  /** What a step leaves of an organization that is held: all of it, unless its finalizer lets go. */
  lemma HeldStays(cfg: Config, s: Sys, step: Step, k: Key)
    requires CleanOk(s) && Enabled(cfg, s, step) && HeldOrg(s.w, k)
    requires step == Step.Work(k) ==> s.workers[k].pc != FinRelease(TypeFinalizer)
    ensures HeldOrg(ApplyWorld(cfg, s, step), k)
  {
    hide Call;
    if step.Work? {
      CallAccounts(s.ca, s.w, step.k, s.workers[step.k].instance, s.workers[step.k].pc);
    }
  }

  lemma {:induction false} AdvancePass(k: Key, a: Account, rest: seq<Sub>)
    ensures Advance(k, a, rest).Some? ==> Advance(k, a, rest).value.instance == a
  {
    if rest != [] {
      AdvancePass(k, a, rest[1..]);
    }
  }

  lemma CallPass(ca: string, w: World, k: Key, wk: Worker)
    ensures var next := AfterCall(k, wk, Call(ca, w, k, wk.instance, wk.pc).1);
            next.Some? ==> next.value.instance == wk.instance && (Finalizing(wk.pc) ==> Finalizing(next.value.pc))
  {
    hide WriteInfo, ReadLocation, Generate, Patch, Mutate;
    AdvancePass(k, wk.instance, wk.rest);
  }

  /** The lifecycle puts the finalizer on before a pass begins. */
  lemma BeginHolds(cfg: Config, s: Sys, k: Key, f: Option<Finalizer>)
    requires CleanOk(s) && Enabled(cfg, s, Begin(k, f)) && WorkspaceTypeSub in cfg.pipeline
    ensures var s' := Apply(cfg, s, Begin(k, f)); k in s'.workers ==> PassHeld(s'.w, k, s'.workers[k])
  {
    AdvancePass(k, BeginAccount(cfg, s.w.accounts[k]), cfg.pipeline);
  }

  lemma PassStaysHeld(cfg: Config, s: Sys, step: Step, k: Key)
    requires OwnersOk(s) && Enabled(cfg, s, step) && WorkspaceTypeSub in cfg.pipeline
    requires k in Apply(cfg, s, step).workers
    ensures PassHeld(Apply(cfg, s, step).w, k, Apply(cfg, s, step).workers[k])
  {
    if step.Begin? && step.k == k {
      BeginHolds(cfg, s, k, step.finalize);
    } else {
      var wk := s.workers[k];
      assert PassHeld(s.w, k, wk);
      if step == Step.Work(k) {
        CallPass(s.ca, s.w, k, wk);
      }
      if wk.instance.kind == "org" && !Finalizing(wk.pc) {
        HeldStays(cfg, s, step, k);
      }
      hide ApplyWorld;
    }
  }

  lemma TypeStaysOwned(cfg: Config, s: Sys, step: Step, name: string)
    requires OwnersOk(s) && Enabled(cfg, s, step) && AddsNoType(s, step)
    requires name in s.w.types && name in ApplyWorld(cfg, s, step).types
    ensures Owned(ApplyWorld(cfg, s, step), name)
  {
    assert step.Work? ==> Cleaned(s.w.types, step.k, s.workers[step.k]);
    var k, t :| HeldOrg(s.w, k) && name == RoleName(t, k.name);
    HeldStays(cfg, s, step, k);
    assert HeldOrg(ApplyWorld(cfg, s, step), k) && name == RoleName(t, k.name);
  }

  /** The only new types are those of the organization whose pass writes them. */
  lemma NewTypeOwned(cfg: Config, s: Sys, step: Step, name: string)
    requires OwnersOk(s) && Enabled(cfg, s, step) && AddsNoType(s, step)
    requires name !in s.w.types && name in ApplyWorld(cfg, s, step).types
    ensures Owned(ApplyWorld(cfg, s, step), name)
  {
    assert step.Work?;
    var (k, wk) := (step.k, s.workers[step.k]);
    CallAdds(s.ca, s.w, k, wk.instance, wk.pc);
    assert Cleaned(s.w.types, k, wk) && PassHeld(s.w, k, wk);
    HeldStays(cfg, s, step, k);
    assert HeldOrg(ApplyWorld(cfg, s, step), k) && name == RoleName(wk.pc.role, k.name);
  }

  lemma OwnersStep(cfg: Config, s: Sys, step: Step)
    requires OwnersOk(s) && Enabled(cfg, s, step) && AddsNoType(s, step) && WorkspaceTypeSub in cfg.pipeline
    ensures OwnersOk(Apply(cfg, s, step))
  {
    CleanStep(cfg, s, step);
    var s' := Apply(cfg, s, step);
    forall name | name in s'.w.types ensures Owned(s'.w, name) {
      if name in s.w.types {
        TypeStaysOwned(cfg, s, step, name);
      } else {
        NewTypeOwned(cfg, s, step, name);
      }
    }
    forall k | k in s'.workers ensures PassHeld(s'.w, k, s'.workers[k]) {
      PassStaysHeld(cfg, s, step, k);
    }
  }

  lemma {:induction false} OwnersRun(cfg: Config, s: Sys, steps: seq<Step>)
    requires OwnersOk(s) && CanRun(cfg, s, steps) && NoneAdded(cfg, s, steps) && WorkspaceTypeSub in cfg.pipeline
    ensures OwnersOk(Exec(cfg, s, steps))
    decreases |steps|
  {
    if steps != [] {
      OwnersStep(cfg, s, steps[0]);
      OwnersRun(cfg, Apply(cfg, s, steps[0]), steps[1..]);
    }
  }

  // ----- main results -----

  /** In every run on a platform without types of others: each type belongs to an organization that is
      there with the type finalizer on it, and so does each pass at an organization. */
  lemma TypesOwned(cfg: Config, steps: seq<Step>)
    requires WorkspaceTypeSub in cfg.pipeline && CanRun(cfg, Init(map[]), steps) && NoneAdded(cfg, Init(map[]), steps)
    ensures var s := Exec(cfg, Init(map[]), steps);
            && (forall name :: name in s.w.types ==> Owned(s.w, name))
            && (forall k :: k in s.workers && s.workers[k].instance.kind == "org" && !Finalizing(s.workers[k].pc) ==>
                  HeldOrg(s.w, k))
  {
    OwnersRun(cfg, Init(map[]), steps);
  }

  /** So no organization goes, in whatever way, with a type of its own left behind. */
  lemma NoTypeLeftBehind(cfg: Config, steps: seq<Step>, step: Step, k: Key)
    requires WorkspaceTypeSub in cfg.pipeline && CanRun(cfg, Init(map[]), steps) && NoneAdded(cfg, Init(map[]), steps)
    requires Enabled(cfg, Exec(cfg, Init(map[]), steps), step)
    requires var s := Exec(cfg, Init(map[]), steps);
             k in s.w.accounts && s.w.accounts[k].kind == "org" && k !in Apply(cfg, s, step).w.accounts
    ensures var types := Exec(cfg, Init(map[]), steps).w.types;
            k.name + "-org" !in types && k.name + "-account" !in types
  {
    OwnersRun(cfg, Init(map[]), steps);
    var s := Exec(cfg, Init(map[]), steps);
    if HeldOrg(s.w, k) {
      if step != Step.Work(k) || s.workers[k].pc != FinRelease(TypeFinalizer) {
        HeldStays(cfg, s, step, k);
        assert false;
      }
      assert Cleaned(s.w.types, k, s.workers[k]);
    }
    forall t ensures RoleName(t, k.name) !in s.w.types {
      if RoleName(t, k.name) in s.w.types {
        NoOtherOwner(s, k, t);
      }
    }
    assert RoleName(OrgRole, k.name) == k.name + "-org" && RoleName(AccountRole, k.name) == k.name + "-account" by {
      GeneratedShape(OrgRole, k.name);
      GeneratedShape(AccountRole, k.name);
    }
  }

  /** Organizations all live in root:orgs, so a type has one owner only. */
  lemma NoOtherOwner(s: Sys, k: Key, t: Role)
    requires OwnersOk(s) && k in s.w.accounts && s.w.accounts[k].kind == "org" && RoleName(t, k.name) in s.w.types
    ensures HeldOrg(s.w, k)
  {
    assert Owned(s.w, RoleName(t, k.name));
    var j, u :| HeldOrg(s.w, j) && RoleName(t, k.name) == RoleName(u, j.name);
    RoleNameInjective(t, k.name, u, j.name);
  }
}
