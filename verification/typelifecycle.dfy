/** The workspace types of an organization from the first pass to the last: processing is an
    idempotent merge that commutes between organizations, and finalizing cleans up whatever fails
    in between. */
module TypeLifecycle {
  import opened Wrappers
  import opened Naming
  import opened Model
  import opened WorkspaceTypes
  import opened Program
  import opened System
  import opened Invariant
  import opened Preserve

  type Types = map<string, WorkspaceType>

  /** The type of this role as a pass leaves it: created, or merged with what was there. */
  function Ensured(types: Types, t: Role, org: string): Types {
    var (name, desired) := (RoleName(t, org), Generate(t, org));
    types[name := if name in types then Mutate(types[name], desired) else desired]
  }

  function BothEnsured(types: Types, org: string): Types {
    Ensured(Ensured(types, OrgRole, org), AccountRole, org)
  }

  lemma EnsureRun(ca: string, w: World, k: Key, a: Account, t: Role)
    ensures var w' := w.(types := Ensured(w.types, t, k.name));
            Run(ca, w, k, a, TypeGet(t), None) ==
            if t == OrgRole then Run(ca, w', k, a, TypeGet(AccountRole), None) else (w', Done)
  {
    var (name, desired) := (RoleName(t, k.name), Generate(t, k.name));
    var pc := TypePut(t, Find(w.types, name));
    var w' := w.(types := Ensured(w.types, t, k.name));
    assert Call(ca, w, k, a, TypeGet(t)) == (w, Go(pc));
    if name in w.types {
      PatchIsMerge(w.types[name], desired);
      assert w.types[name := w.types[name]] == w.types;
    }
    assert Call(ca, w, k, a, pc) == (w', if t == OrgRole then Go(TypeGet(AccountRole)) else Ok);
  }

  /** An undisturbed pass ensures both types and touches nothing else in the store. */
  lemma ProcessEnsures(ca: string, w: World, k: Key, a: Account)
    requires a.kind == ORG
    ensures RunSub(ca, w, k, a, WorkspaceTypeSub, None) == (w.(types := BothEnsured(w.types, k.name)), Done)
  {
    EnsureRun(ca, w, k, a, OrgRole);
    EnsureRun(ca, w.(types := Ensured(w.types, OrgRole, k.name)), k, a, AccountRole);
  }

  lemma EnsuredAt(types: Types, org: string, t: Role)
    ensures var name := RoleName(t, org); var both := BothEnsured(types, org);
            && name in both && Managed(both[name], Generate(t, org))
            && both[name] == if name in types then Mutate(types[name], Generate(t, org)) else Generate(t, org)
  {
    RoleNameInjective(OrgRole, org, AccountRole, org);
    var name := RoleName(t, org);
    if name in types {
      PatchIsMerge(types[name], Generate(t, org));
    }
  }

  lemma EnsuredElsewhere(types: Types, org: string, name: string)
    requires forall t :: name != RoleName(t, org)
    ensures name in BothEnsured(types, org) <==> name in types
    ensures name in types ==> BothEnsured(types, org)[name] == types[name]
  {
  }

  /** The second pass changes nothing. */
  lemma ProcessTwice(ca: string, w: World, k: Key, a: Account)
    requires a.kind == ORG
    ensures var w1 := RunSub(ca, w, k, a, WorkspaceTypeSub, None).0;
            RunSub(ca, w1, k, a, WorkspaceTypeSub, None) == (w1, Done)
  {
    ProcessEnsures(ca, w, k, a);
    var types1 := BothEnsured(w.types, k.name);
    ProcessEnsures(ca, w.(types := types1), k, a);
    forall t ensures RoleName(t, k.name) in types1 && Ensured(types1, t, k.name) == types1 {
      EnsuredAt(w.types, k.name, t);
      PatchIsMerge(types1[RoleName(t, k.name)], Generate(t, k.name));
    }
  }

  lemma EnsuredCommutes(types: Types, org1: string, org2: string)
    requires org1 != org2
    ensures BothEnsured(BothEnsured(types, org1), org2) == BothEnsured(BothEnsured(types, org2), org1)
  {
    var (m1, m2) := (BothEnsured(types, org1), BothEnsured(types, org2));
    var (m12, m21) := (BothEnsured(m1, org2), BothEnsured(m2, org1));
    forall t1, t2 ensures RoleName(t1, org1) != RoleName(t2, org2) {
      RoleNameInjective(t1, org1, t2, org2);
    }
    assert m12.Keys == m21.Keys;
    forall name | name in m12 ensures m12[name] == m21[name] {
      if t :| name == RoleName(t, org1) {
        EnsuredAt(types, org1, t);
        EnsuredAt(m2, org1, t);
        EnsuredElsewhere(m1, org2, name);
        EnsuredElsewhere(types, org2, name);
      } else if t :| name == RoleName(t, org2) {
        EnsuredAt(types, org2, t);
        EnsuredAt(m1, org2, t);
        EnsuredElsewhere(m2, org1, name);
        EnsuredElsewhere(types, org1, name);
      } else {
        EnsuredElsewhere(types, org1, name);
        EnsuredElsewhere(types, org2, name);
        EnsuredElsewhere(m1, org2, name);
        EnsuredElsewhere(m2, org1, name);
      }
    }
  }

  /** Whichever of two organizations is processed first, the store ends the same. */
  lemma ProcessCommutes(ca: string, w: World, k1: Key, a1: Account, k2: Key, a2: Account)
    requires a1.kind == ORG && a2.kind == ORG && k1.name != k2.name
    ensures var after1 := RunSub(ca, w, k1, a1, WorkspaceTypeSub, None).0;
            var after2 := RunSub(ca, w, k2, a2, WorkspaceTypeSub, None).0;
            RunSub(ca, after1, k2, a2, WorkspaceTypeSub, None) == RunSub(ca, after2, k1, a1, WorkspaceTypeSub, None)
  {
    ProcessEnsures(ca, w, k1, a1);
    ProcessEnsures(ca, w, k2, a2);
    ProcessEnsures(ca, w.(types := BothEnsured(w.types, k1.name)), k2, a2);
    ProcessEnsures(ca, w.(types := BothEnsured(w.types, k2.name)), k1, a1);
    EnsuredCommutes(w.types, k1.name, k2.name);
  }

  // ----- cleanup -----

  /** Finalize retried: after each attempt that fails, another; the failures are anybody's choice. */
  function Retries(ca: string, w: World, k: Key, a: Account, fails: seq<Option<nat>>): (World, Result)
    decreases |fails|
  {
    if fails == [] then (w, Failed)
    else
      var (w', r) := Run(ca, w, k, a, FinTypeDelete(OrgRole), fails[0]);
      if r == Done then (w', Done) else Retries(ca, w', k, a, fails[1..])
  }

  /** Neither of the two deletions comes back with an error. */
  predicate ComesThrough(failAt: Option<nat>) {
    failAt != Some(0) && failAt != Some(1)
  }

  /** Only types of this organization went. */
  predicate OnlyOwn(types: Types, types': Types, org: string) {
    && types'.Keys <= types.Keys
    && (forall name :: name in types && name !in types' ==>
          name == RoleName(OrgRole, org) || name == RoleName(AccountRole, org))
    && (forall name :: name in types' ==> types'[name] == types[name])
  }

  lemma Attempt(ca: string, w: World, k: Key, a: Account, failAt: Option<nat>)
    ensures var (w', r) := Run(ca, w, k, a, FinTypeDelete(OrgRole), failAt);
            && OnlyOwn(w.types, w'.types, k.name) && w' == w.(types := w'.types)
            && (r == Done <==> ComesThrough(failAt))
            && (r == Done ==> w'.types == w.types - {RoleName(OrgRole, k.name), RoleName(AccountRole, k.name)})
  {
    var w1 := Call(ca, w, k, a, FinTypeDelete(OrgRole)).0;
    assert Call(ca, w, k, a, FinTypeDelete(OrgRole)).1 == Go(FinTypeDelete(AccountRole));
    if failAt != Some(0) {
      var w2 := Call(ca, w1, k, a, FinTypeDelete(AccountRole)).0;
      assert Run(ca, w1, k, a, FinTypeDelete(AccountRole), Later(failAt)) ==
             if Later(failAt) == Some(0) then (w1, Failed) else (w2, Done);
      assert w2.types == w.types - {RoleName(OrgRole, k.name), RoleName(AccountRole, k.name)};
    }
  }

  /** Cleanup under partial failure: whatever fails on the way, the attempt that says OK leaves
      neither type of the organization, and no attempt touches any other type. */
  lemma {:induction false} CleanupUnderRetries(ca: string, w: World, k: Key, a: Account, fails: seq<Option<nat>>)
    ensures var (w', r) := Retries(ca, w, k, a, fails);
            && OnlyOwn(w.types, w'.types, k.name)
            && (r == Done <==> exists i :: 0 <= i < |fails| && ComesThrough(fails[i]))
            && (r == Done ==> forall t :: RoleName(t, k.name) !in w'.types)
            && (forall org, t :: org != k.name && RoleName(t, org) in w.types ==>
                  RoleName(t, org) in w'.types && w'.types[RoleName(t, org)] == w.types[RoleName(t, org)])
    decreases |fails|
  {
    var (w', r) := Retries(ca, w, k, a, fails);
    if fails != [] {
      Attempt(ca, w, k, a, fails[0]);
      var w1 := Run(ca, w, k, a, FinTypeDelete(OrgRole), fails[0]).0;
      CleanupUnderRetries(ca, w1, k, a, fails[1..]);
      if j :| 0 <= j < |fails[1..]| && ComesThrough(fails[1..][j]) {
        assert ComesThrough(fails[j + 1]);
      }
      if i :| 0 < i < |fails| && ComesThrough(fails[i]) {
        assert ComesThrough(fails[1..][i - 1]);
      }
    }
    forall org, t | org != k.name && RoleName(t, org) in w.types
      ensures RoleName(t, org) in w'.types && w'.types[RoleName(t, org)] == w.types[RoleName(t, org)]
    {
      RoleNameInjective(t, org, OrgRole, k.name);
      RoleNameInjective(t, org, AccountRole, k.name);
    }
  }

  // ----- cleanup among others at work -----

  /** A worker that is cleaning up finds gone what it has deleted so far. */
  predicate Cleaned(types: Types, k: Key, wk: Worker) {
    && (wk.instance.kind == ORG ==> k.cluster == ORGS)
    && (wk.pc.TypeGet? || wk.pc.TypePut? || wk.pc.FinTypeDelete? || wk.pc == FinRelease(TypeFinalizer) ==>
          wk.instance.kind == ORG)
    && (wk.pc == FinTypeDelete(AccountRole) ==> RoleName(OrgRole, k.name) !in types)
    && (wk.pc == FinRelease(TypeFinalizer) ==> forall t :: RoleName(t, k.name) !in types)
  }

  /** Organizations live in root:orgs, and they alone have the type finalizer. */
  predicate OrgKeys(w: World) {
    forall k :: k in w.accounts ==>
      && (w.accounts[k].kind == ORG ==> k.cluster == ORGS)
      && (TypeFinalizer in w.accounts[k].finalizers ==> w.accounts[k].kind == ORG)
  }

  predicate CleanOk(s: Sys) {
    OrgKeys(s.w) && forall k :: k in s.workers ==> Cleaned(s.w.types, k, s.workers[k])
  }

  predicate AddsNoType(s: Sys, step: Step) {
    step.ChangeTypes? ==> step.types.Keys <= s.w.types.Keys
  }

  lemma {:induction false} AdvanceCleaned(types: Types, k: Key, a: Account, rest: seq<Sub>)
    requires a.kind == ORG ==> k.cluster == ORGS
    ensures Advance(k, a, rest).Some? ==> Cleaned(types, k, Advance(k, a, rest).value)
  {
    if rest != [] {
      AdvanceCleaned(types, k, a, rest[1..]);
    }
  }

  lemma CallAdds(ca: string, w: World, k: Key, a: Account, pc: Pc)
    ensures var types' := Call(ca, w, k, a, pc).0.types;
            if pc.TypePut? then types'.Keys <= w.types.Keys + {RoleName(pc.role, k.name)}
            else if pc.FinTypeDelete? then types' == w.types - {RoleName(pc.role, k.name)}
            else types' == w.types
  {
    hide WriteInfo, ReadLocation, Generate;
  }

  lemma CleanedCall(ca: string, w: World, k: Key, wk: Worker)
    requires Cleaned(w.types, k, wk)
    ensures var (w', signal) := Call(ca, w, k, wk.instance, wk.pc); var next := AfterCall(k, wk, signal);
            next.Some? ==> Cleaned(w'.types, k, next.value)
  {
    hide WriteInfo, ReadLocation, Generate;
    AdvanceCleaned(Call(ca, w, k, wk.instance, wk.pc).0.types, k, wk.instance, wk.rest);
  }

  /** The calls of another account's worker do not bring back a type that was deleted. */
  lemma OthersKeepClean(cfg: Config, s: Sys, j: Key, k: Key)
    requires CleanOk(s) && j in s.workers && k in s.workers && j != k
    ensures Cleaned(Call(s.ca, s.w, j, s.workers[j].instance, s.workers[j].pc).0.types, k, s.workers[k])
  {
    var (wj, wk) := (s.workers[j], s.workers[k]);
    assert Cleaned(s.w.types, j, wj) && Cleaned(s.w.types, k, wk);
    CallAdds(s.ca, s.w, j, wj.instance, wj.pc);
    if wj.pc.TypePut? {
      forall t | j.name != k.name ensures RoleName(t, k.name) != RoleName(wj.pc.role, j.name) {
        RoleNameInjective(t, k.name, wj.pc.role, j.name);
      }
    }
  }

  lemma OrgKeysStep(cfg: Config, s: Sys, step: Step)
    requires OrgKeys(s.w) && Enabled(cfg, s, step)
    ensures OrgKeys(ApplyWorld(cfg, s, step))
  {
    if step.Work? {
      CallAccounts(s.ca, s.w, step.k, s.workers[step.k].instance, s.workers[step.k].pc);
    }
  }

  lemma CleanStep(cfg: Config, s: Sys, step: Step)
    requires CleanOk(s) && Enabled(cfg, s, step) && AddsNoType(s, step)
    ensures CleanOk(Apply(cfg, s, step))
  {
    var s' := Apply(cfg, s, step);
    OrgKeysStep(cfg, s, step);
    forall k | k in s'.workers ensures Cleaned(s'.w.types, k, s'.workers[k]) {
      match step
      case Begin(j, f) =>
        AdvanceCleaned(s.w.types, j, BeginAccount(cfg, s.w.accounts[j]), cfg.pipeline);
      case Work(j) =>
        if j == k {
          CleanedCall(s.ca, s.w, k, s.workers[k]);
        } else {
          OthersKeepClean(cfg, s, j, k);
        }
      case _ =>
    }
  }

  predicate NoneAdded(cfg: Config, s: Sys, steps: seq<Step>)
    requires CanRun(cfg, s, steps)
    decreases |steps|
  {
    steps == [] || (AddsNoType(s, steps[0]) && NoneAdded(cfg, Apply(cfg, s, steps[0]), steps[1..]))
  }

  lemma {:induction false} CleanRun(cfg: Config, s: Sys, steps: seq<Step>)
    requires CleanOk(s) && CanRun(cfg, s, steps) && NoneAdded(cfg, s, steps)
    ensures CleanOk(Exec(cfg, s, steps))
    decreases |steps|
  {
    if steps != [] {
      CleanStep(cfg, s, steps[0]);
      CleanRun(cfg, Apply(cfg, s, steps[0]), steps[1..]);
    }
  }

  /** Among any number of other workers, failures and retries: as long as nobody else creates types,
      an organization is let go by the type finalizer only with both its types gone. */
  lemma ReleasedClean(cfg: Config, types: Types, steps: seq<Step>, k: Key)
    requires CanRun(cfg, Init(types), steps) && NoneAdded(cfg, Init(types), steps)
    requires var s := Exec(cfg, Init(types), steps);
             && Enabled(cfg, s, Step.Work(k)) && k in s.w.accounts && TypeFinalizer in s.w.accounts[k].finalizers
             && var accounts' := Apply(cfg, s, Step.Work(k)).w.accounts;
             k in accounts' ==> TypeFinalizer !in accounts'[k].finalizers
    ensures forall t :: RoleName(t, k.name) !in Exec(cfg, Init(types), steps).w.types
  {
    CleanRun(cfg, Init(types), steps);
    var s := Exec(cfg, Init(types), steps);
    var wk := s.workers[k];
    assert Cleaned(s.w.types, k, wk);
    CallAccounts(s.ca, s.w, k, wk.instance, wk.pc);
    assert TypeFinalizer in s.w.accounts[k].finalizers - {WorkspaceFinalizer};
  }
}
