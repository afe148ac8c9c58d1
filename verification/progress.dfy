/** Liveness: from every state the platform can reach, the operator and kcp on their own get everything
    deleted torn down, and everything inside an organization provisioned, as far as URLs allow. */
module Progress {
  import opened Wrappers
  import opened Naming
  import opened WorkspaceUrl
  import opened Model
  import opened WorkspaceTypes
  import opened Program
  import opened System
  import opened Invariant
  import opened Preserve
  import opened Ranking

  // ----- internal runs -----

  ghost predicate InternalRun(cfg: Config, s: Sys, steps: seq<Step>)
    ensures InternalRun(cfg, s, steps) ==> CanRun(cfg, s, steps)
    decreases |steps|
  {
    steps == [] ||
    (Enabled(cfg, s, steps[0]) && Internal(s.w, steps[0]) && InternalRun(cfg, Apply(cfg, s, steps[0]), steps[1..]))
  }

  /** A state that the platform can reach with the Workspace subroutine switched on. */
  ghost predicate Live(cfg: Config, s: Sys) {
    Inv(cfg, s) && WorkspaceSub in cfg.pipeline
  }

  /** The same with all subroutines switched on. */
  ghost predicate Good(cfg: Config, s: Sys) {
    Inv(cfg, s) && cfg.pipeline == STANDARD
  }

  lemma {:induction false} RunKeeps(cfg: Config, s: Sys, steps: seq<Step>)
    requires Live(cfg, s) && InternalRun(cfg, s, steps)
    ensures Live(cfg, Exec(cfg, s, steps)) && AtMost(cfg, Exec(cfg, s, steps), s)
    ensures Exec(cfg, s, steps).ca == s.ca
    ensures Exec(cfg, s, steps).w == s.w || Below(cfg, Exec(cfg, s, steps), s)
    decreases |steps|
  {
    if steps != [] {
      GoodStep(cfg, s, steps[0]);
      MeasureStep(cfg, s, steps[0]);
      RunKeeps(cfg, Apply(cfg, s, steps[0]), steps[1..]);
    }
  }

  lemma RunCons(cfg: Config, s: Sys, step: Step, rest: seq<Step>)
    requires Enabled(cfg, s, step) && Internal(s.w, step) && InternalRun(cfg, Apply(cfg, s, step), rest)
    ensures InternalRun(cfg, s, [step] + rest)
    ensures Exec(cfg, s, [step] + rest) == Exec(cfg, Apply(cfg, s, step), rest)
  {
    assert ([step] + rest)[1..] == rest;
  }

  lemma {:induction false} Chain(cfg: Config, s: Sys, r1: seq<Step>, r2: seq<Step>)
    requires InternalRun(cfg, s, r1) && InternalRun(cfg, Exec(cfg, s, r1), r2)
    ensures InternalRun(cfg, s, r1 + r2) && Exec(cfg, s, r1 + r2) == Exec(cfg, Exec(cfg, s, r1), r2)
    decreases |r1|
  {
    hide Apply, Enabled, Internal;
    if r1 == [] {
      assert r1 + r2 == r2;
    } else {
      assert r1 + r2 == [r1[0]] + (r1[1..] + r2);
      var s1 := Apply(cfg, s, r1[0]);
      assert Exec(cfg, s, r1) == Exec(cfg, s1, r1[1..]);
      Chain(cfg, s1, r1[1..], r2);
      RunCons(cfg, s, r1[0], r1[1..] + r2);
    }
  }

  /** The run lowers the measure. */
  ghost predicate Gains(cfg: Config, s: Sys, steps: seq<Step>) {
    InternalRun(cfg, s, steps) && Below(cfg, Exec(cfg, s, steps), s)
  }

  lemma OneStep(cfg: Config, s: Sys, step: Step) returns (steps: seq<Step>)
    requires Ticks(cfg, s, step) && ApplyWorld(cfg, s, step) != s.w
    ensures Gains(cfg, s, steps) && steps == [step]
  {
    steps := [step];
    MeasureStep(cfg, s, step);
    assert steps[1..] == [];
  }

  lemma Then(cfg: Config, s: Sys, r1: seq<Step>, r2: seq<Step>)
    requires Live(cfg, s) && InternalRun(cfg, s, r1) && Gains(cfg, Exec(cfg, s, r1), r2)
    ensures Gains(cfg, s, r1 + r2)
  {
    RunKeeps(cfg, s, r1);
    Chain(cfg, s, r1, r2);
  }

  // ----- passes -----

  function Size(wk: Worker): nat {
    5 * |wk.rest| + Rank(wk.pc)
  }

  lemma {:induction false} AdvanceSmaller(k: Key, a: Account, rest: seq<Sub>)
    ensures Advance(k, a, rest).Some? ==> Size(Advance(k, a, rest).value) < 5 * |rest|
  {
    if rest != [] {
      AdvanceSmaller(k, a, rest[1..]);
    }
  }

  lemma CallSmaller(ca: string, w: World, k: Key, wk: Worker)
    ensures var next := AfterCall(k, wk, Call(ca, w, k, wk.instance, wk.pc).1);
            next.Some? ==> Size(next.value) < Size(wk)
  {
    AdvanceSmaller(k, wk.instance, wk.rest);
  }

  /** The pass of this worker, if nobody interferes, comes to a call that changes the store. */
  ghost predicate WillWrite(ca: string, w: World, k: Key, wk: Worker)
    decreases Size(wk)
  {
    var (w', signal) := Call(ca, w, k, wk.instance, wk.pc);
    var next := AfterCall(k, wk, signal);
    CallSmaller(ca, w, k, wk);
    w' != w || (next.Some? && WillWrite(ca, w, k, next.value))
  }

  /** These steps are all of passes at k. */
  predicate OnlyAt(steps: seq<Step>, k: Key) {
    forall step :: step in steps ==> (step.Begin? || step.Work?) && step.k == k
  }

  lemma {:induction false} PassGains(cfg: Config, s: Sys, k: Key) returns (steps: seq<Step>)
    requires Live(cfg, s) && k in s.workers && WillWrite(s.ca, s.w, k, s.workers[k])
    ensures Gains(cfg, s, steps) && OnlyAt(steps, k)
    decreases Size(s.workers[k])
  {
    var step := Step.Work(k);
    if ApplyWorld(cfg, s, step) != s.w {
      steps := OneStep(cfg, s, step);
    } else {
      CallSmaller(s.ca, s.w, k, s.workers[k]);
      GoodStep(cfg, s, step);
      var more := PassGains(cfg, Apply(cfg, s, step), k);
      assert [step][1..] == [];
      Then(cfg, s, [step], more);
      steps := [step] + more;
    }
  }

  /** A worker that is under way gets to the end of its pass, unless it gains something first. */
  lemma {:induction false} FinishPass(cfg: Config, s: Sys, k: Key) returns (steps: seq<Step>)
    requires Live(cfg, s) && k in s.workers
    ensures InternalRun(cfg, s, steps) && OnlyAt(steps, k)
    ensures Gains(cfg, s, steps) || (Exec(cfg, s, steps).w == s.w && k !in Exec(cfg, s, steps).workers)
    decreases Size(s.workers[k])
  {
    var step := Step.Work(k);
    assert [step][1..] == [];
    var s1 := Apply(cfg, s, step);
    if s1.w != s.w {
      steps := OneStep(cfg, s, step);
    } else if k !in s1.workers {
      steps := [step];
    } else {
      CallSmaller(s.ca, s.w, k, s.workers[k]);
      GoodStep(cfg, s, step);
      var more := FinishPass(cfg, s1, k);
      Chain(cfg, s, [step], more);
      if Gains(cfg, s1, more) {
        Then(cfg, s, [step], more);
      }
      steps := [step] + more;
    }
  }

  /** A new pass at k would change the store. */
  ghost predicate PassWrites(cfg: Config, ca: string, w: World, k: Key, f: Option<Finalizer>) {
    && k in w.accounts
    && (if w.accounts[k].deleting then f.Some? && f.value in w.accounts[k].finalizers else f.None?)
    && var a := BeginAccount(cfg, w.accounts[k]);
    && (a != w.accounts[k] ||
        (BeginWorker(cfg, k, a, f).Some? && WillWrite(ca, w, k, BeginWorker(cfg, k, a, f).value)))
  }

  lemma NewPassGains(cfg: Config, s: Sys, k: Key, f: Option<Finalizer>) returns (steps: seq<Step>)
    requires Live(cfg, s) && k !in s.workers && PassWrites(cfg, s.ca, s.w, k, f)
    ensures Gains(cfg, s, steps) && OnlyAt(steps, k)
  {
    var step := Begin(k, f);
    if ApplyWorld(cfg, s, step) != s.w {
      steps := OneStep(cfg, s, step);
    } else {
      assert ApplyWorld(cfg, s, step).accounts[k] == s.w.accounts[k];
      GoodStep(cfg, s, step);
      var more := PassGains(cfg, Apply(cfg, s, step), k);
      assert [step][1..] == [];
      Then(cfg, s, [step], more);
      steps := [step] + more;
    }
  }

  lemma AccountGains(cfg: Config, s: Sys, k: Key, f: Option<Finalizer>) returns (steps: seq<Step>)
    requires Live(cfg, s) && PassWrites(cfg, s.ca, s.w, k, f)
    ensures Gains(cfg, s, steps) && OnlyAt(steps, k)
  {
    hide Inv, Apply, Enabled, Internal, PassWrites;
    if k in s.workers {
      var first := FinishPass(cfg, s, k);
      if Gains(cfg, s, first) {
        steps := first;
      } else {
        RunKeeps(cfg, s, first);
        var more := NewPassGains(cfg, Exec(cfg, s, first), k, f);
        Then(cfg, s, first, more);
        steps := first + more;
      }
    } else {
      steps := NewPassGains(cfg, s, k, f);
    }
  }

  // ----- causes -----

  /** Something that is due and will change the store: a step of kcp or of the AccountInfo reconciler,
      a pass at an account, or the release of an AccountInfo. */
  datatype Cause = Direct(step: Step) | PassAt(k: Key, finalize: Option<Finalizer>) | ReleaseOf(c: ClusterId)

  ghost predicate Due(cfg: Config, s: Sys, cause: Cause) {
    match cause
    case Direct(step) =>
      !step.Begin? && !step.Work? && !step.Fail? && !step.InfoRelease? &&
      Enabled(cfg, s, step) && Internal(s.w, step) && ApplyWorld(cfg, s, step) != s.w
    case PassAt(k, f) => PassWrites(cfg, s.ca, s.w, k, f)
    case ReleaseOf(c) => c in s.w.infos && s.w.infos[c].deleting && NoAccounts(s.w, c)
  }

  lemma ReleaseGains(cfg: Config, s: Sys, c: ClusterId) returns (steps: seq<Step>)
    requires Live(cfg, s) && c in s.w.infos && c in s.releasing
    ensures Gains(cfg, s, steps) && steps == [InfoRelease(c)]
  {
    assert c !in ApplyWorld(cfg, s, InfoRelease(c)).infos;
    steps := OneStep(cfg, s, InfoRelease(c));
  }

  /** The step is one that brings the cause about. */
  predicate Serves(step: Step, cause: Cause) {
    match cause
    case Direct(only) => step == only
    case PassAt(k, _) => (step.Begin? || step.Work?) && step.k == k
    case ReleaseOf(c) => step == InfoList(c) || step == InfoRelease(c)
  }

  /** Whatever is due can be brought about, and lowers the measure. */
  lemma DueGains(cfg: Config, s: Sys, cause: Cause) returns (steps: seq<Step>)
    requires Live(cfg, s) && Due(cfg, s, cause)
    ensures Gains(cfg, s, steps) && forall step :: step in steps ==> Serves(step, cause)
  {
    match cause
    case Direct(step) => steps := OneStep(cfg, s, step);
    case PassAt(k, f) => steps := AccountGains(cfg, s, k, f);
    case ReleaseOf(c) =>
      var list := InfoList(c);
      assert [list][1..] == [];
      GoodStep(cfg, s, list);
      var more := ReleaseGains(cfg, Apply(cfg, s, list), c);
      Then(cfg, s, [list], more);
      steps := [list] + more;
  }

  // ----- teardown -----

  /** The step is about something in cluster c or deeper. */
  predicate Within(step: Step, c: ClusterId) {
    match step
    case Begin(k, _) => c <= k.cluster
    case Work(k) => c <= k.cluster
    case DeleteAccount(k) => c <= k.cluster
    case RequestDeletion(k) => c <= k.cluster
    case RemoveWorkspace(k) => c <= k.cluster
    case InfoList(d) => c < d
    case InfoRelease(d) => c < d
    case DeleteInfo(d) => c < d
    case _ => false
  }

  ghost predicate CauseWithin(cause: Cause, c: ClusterId) {
    forall step :: Serves(step, cause) ==> Within(step, c)
  }

  lemma ReleaseWrites(ca: string, w: World, k: Key, a: Account, f: Finalizer)
    requires k in w.accounts && f in w.accounts[k].finalizers
    ensures WillWrite(ca, w, k, Worker(a, [], FinRelease(f)))
  {
    assert f !in w.accounts[k].finalizers - {f};
    assert k in Release(w, k, f).accounts ==> Release(w, k, f).accounts[k] != w.accounts[k];
  }

  lemma WorkspaceFinalizeWrites(ca: string, w: World, k: Key, a: Account)
    requires k in w.accounts && WorkspaceFinalizer in w.accounts[k].finalizers
    requires k in w.workspaces ==> !w.workspaces[k].deleting
    ensures WillWrite(ca, w, k, Worker(a, [], FinWsGet))
  {
    ReleaseWrites(ca, w, k, a, WorkspaceFinalizer);
    if k in w.workspaces {
      assert DeleteWorkspace(w, k).workspaces[k].deleting;
      assert WillWrite(ca, w, k, Worker(a, [], FinWsDelete));
    }
  }

  lemma TypeFinalizeWrites(ca: string, w: World, k: Key, a: Account)
    requires k in w.accounts && TypeFinalizer in w.accounts[k].finalizers
    ensures WillWrite(ca, w, k, Worker(a, [], FinTypeDelete(OrgRole)))
  {
    ReleaseWrites(ca, w, k, a, TypeFinalizer);
    assert WillWrite(ca, w, k, Worker(a, [], FinTypeDelete(AccountRole)));
  }

  lemma FinalizeWrites(cfg: Config, ca: string, w: World, k: Key, f: Finalizer)
    requires k in w.accounts && w.accounts[k].deleting && f in w.accounts[k].finalizers
    requires k in w.workspaces ==> !w.workspaces[k].deleting
    ensures PassWrites(cfg, ca, w, k, Some(f))
  {
    match f
    case WorkspaceFinalizer => WorkspaceFinalizeWrites(ca, w, k, w.accounts[k]);
    case TypeFinalizer => TypeFinalizeWrites(ca, w, k, w.accounts[k]);
  }

  /** A deleted account whose workspace is not itself being deleted gets further. */
  lemma AccountTeardown(cfg: Config, s: Sys, k: Key) returns (cause: Cause)
    requires Live(cfg, s) && k in s.w.accounts && s.w.accounts[k].deleting
    requires k in s.w.workspaces ==> !s.w.workspaces[k].deleting
    ensures Due(cfg, s, cause) && CauseWithin(cause, k.cluster)
  {
    assert AccountOk(s.w, k);
    var f :| f in s.w.accounts[k].finalizers;
    FinalizeWrites(cfg, s.ca, s.w, k, f);
    cause := PassAt(k, Some(f));
  }

  lemma RemoveDue(cfg: Config, s: Sys, k: Key) returns (cause: Cause)
    requires Live(cfg, s) && Enabled(cfg, s, RemoveWorkspace(k))
    ensures Due(cfg, s, cause) && CauseWithin(cause, k.cluster)
  {
    assert k !in ApplyWorld(cfg, s, RemoveWorkspace(k)).workspaces;
    cause := Direct(RemoveWorkspace(k));
  }

  lemma RequestDue(cfg: Config, s: Sys, k: Key) returns (cause: Cause)
    requires Live(cfg, s) && k in s.w.workspaces && !s.w.workspaces[k].deleting && !Open(s.w, k.cluster)
    ensures Due(cfg, s, cause) && CauseWithin(cause, k.cluster)
  {
    assert ApplyWorld(cfg, s, RequestDeletion(k)).workspaces[k].deleting;
    cause := Direct(RequestDeletion(k));
  }

  lemma DeleteAccountDue(cfg: Config, s: Sys, k: Key) returns (cause: Cause)
    requires Live(cfg, s) && k in s.w.accounts && !s.w.accounts[k].deleting && !Open(s.w, k.cluster)
    ensures Due(cfg, s, cause) && CauseWithin(cause, k.cluster)
  {
    var accounts' := ApplyWorld(cfg, s, DeleteAccount(k)).accounts;
    assert k in accounts' ==> accounts'[k].deleting;
    cause := Direct(DeleteAccount(k));
  }

  lemma DeleteInfoDue(cfg: Config, s: Sys, c: ClusterId) returns (cause: Cause)
    requires Live(cfg, s) && c in s.w.infos && !Open(s.w, c) && !s.w.infos[c].deleting
    ensures Due(cfg, s, cause) && forall d: ClusterId :: d < c ==> CauseWithin(cause, d)
  {
    var infos' := ApplyWorld(cfg, s, DeleteInfo(c)).infos;
    assert c in infos' ==> infos'[c].deleting;
    cause := Direct(DeleteInfo(c));
  }

  /** The AccountInfo of a terminating cluster without accounts goes. */
  lemma InfoTeardown(cfg: Config, s: Sys, c: ClusterId) returns (cause: Cause)
    requires Live(cfg, s) && c in s.w.infos && !Open(s.w, c) && NoAccounts(s.w, c)
    ensures Due(cfg, s, cause) && forall d: ClusterId :: d < c ==> CauseWithin(cause, d)
  {
    if !s.w.infos[c].deleting {
      cause := DeleteInfoDue(cfg, s, c);
    } else {
      cause := ReleaseOf(c);
    }
  }

  lemma PlacedAt(cfg: Config, s: Sys, k: Key)
    requires Inv(cfg, s) && k in s.w.workspaces && s.w.workspaces[k].placement.Some? && s.w.workspaces[k].deleting
    ensures var c := s.w.workspaces[k].placement.value.cluster;
            c in s.w.clusters && k.cluster < c && !Open(s.w, c)
  {
    assert WorkspaceOk(s.w, k);
    assert PlaceOk(s.w.clusters, s.w.workspaces[k].placement.value.cluster);
  }

  /** Take a deleted workspace as deep as possible: what is left in its cluster goes, or it does. */
  lemma {:induction false} WorkspaceTeardown(cfg: Config, s: Sys, k: Key, deepest: ClusterId) returns (cause: Cause)
    requires Live(cfg, s) && k in s.w.workspaces && s.w.workspaces[k].deleting
    requires forall c :: c in s.w.clusters ==> c <= deepest
    ensures Due(cfg, s, cause) && CauseWithin(cause, k.cluster)
    decreases deepest - k.cluster
  {
    var w := s.w;
    if w.workspaces[k].placement.None? {
      cause := RemoveDue(cfg, s, k);
    } else {
      PlacedAt(cfg, s, k);
      var c := w.workspaces[k].placement.value.cluster;
      if j :| j in w.workspaces && j.cluster == c {
        if w.workspaces[j].deleting {
          cause := WorkspaceTeardown(cfg, s, j, deepest);
        } else {
          cause := RequestDue(cfg, s, j);
        }
      } else if j :| j in w.accounts && j.cluster == c {
        if w.accounts[j].deleting {
          cause := AccountTeardown(cfg, s, j);
        } else {
          cause := DeleteAccountDue(cfg, s, j);
        }
      } else if c in w.infos {
        cause := InfoTeardown(cfg, s, c);
      } else {
        cause := RemoveDue(cfg, s, k);
      }
    }
  }

  lemma {:induction false} Deepest(cs: set<ClusterId>) returns (m: ClusterId)
    ensures forall c :: c in cs ==> c <= m
  {
    if cs == {} {
      m := 0;
    } else {
      var c :| c in cs;
      var n := Deepest(cs - {c});
      m := if n < c then c else n;
      assert forall c' :: c' in cs ==> c' == c || c' in cs - {c};
    }
  }

  /** Nothing is being deleted any more, but for an AccountInfo that accounts beside it hold. */
  ghost predicate TornDown(w: World) {
    && (forall k :: k in w.accounts ==> !w.accounts[k].deleting)
    && (forall k :: k in w.workspaces ==> !w.workspaces[k].deleting)
    && (forall c :: c in w.infos && w.infos[c].deleting ==> !NoAccounts(w, c))
  }

  /** While anything is being deleted, something is due. */
  lemma TeardownDue(cfg: Config, s: Sys) returns (cause: Cause)
    requires Live(cfg, s) && !TornDown(s.w)
    ensures Due(cfg, s, cause)
  {
    if k :| k in s.w.workspaces && s.w.workspaces[k].deleting {
      var m := Deepest(s.w.clusters.Keys);
      cause := WorkspaceTeardown(cfg, s, k, m);
    } else if k :| k in s.w.accounts && s.w.accounts[k].deleting {
      cause := AccountTeardown(cfg, s, k);
    } else {
      var c :| c in s.w.infos && s.w.infos[c].deleting && NoAccounts(s.w, c);
      cause := ReleaseOf(c);
    }
  }

  // ----- what a pass comes to, subroutine by subroutine -----

  const FROM_WORKSPACE := [WorkspaceSub, AccountInfoSub, WorkspaceReadySub]
  const FROM_INFO := [AccountInfoSub, WorkspaceReadySub]
  const FROM_READY := [WorkspaceReadySub]

  /** Writing a type that is missing, or in which something managed is not as it should be. */
  lemma TypePutWrites(ca: string, w: World, k: Key, a: Account, t: Role)
    requires var name := RoleName(t, k.name); name in w.types ==> !Managed(w.types[name], Generate(t, k.name))
    ensures WillWrite(ca, w, k, Worker(a, FROM_WORKSPACE, TypePut(t, Find(w.types, RoleName(t, k.name)))))
  {
    var (name, desired) := (RoleName(t, k.name), Generate(t, k.name));
    var w' := Call(ca, w, k, a, TypePut(t, Find(w.types, name))).0;
    if name in w.types {
      PatchIsMerge(w.types[name], desired);
      assert w'.types[name] != w.types[name];
    } else {
      assert name in w'.types;
    }
  }

  /** Passing over a type that is as it should be. */
  lemma TypePutPasses(ca: string, w: World, k: Key, a: Account, t: Role)
    requires var name := RoleName(t, k.name); name in w.types && Managed(w.types[name], Generate(t, k.name))
    ensures Call(ca, w, k, a, TypePut(t, Find(w.types, RoleName(t, k.name)))) ==
            (w, if t == OrgRole then Go(TypeGet(AccountRole)) else Ok)
  {
    PatchIsMerge(w.types[RoleName(t, k.name)], Generate(t, k.name));
  }

  lemma TypesWrite(ca: string, w: World, k: Key, a: Account)
    requires a.kind == ORG
    requires !BothManaged(w.types, k.name) ||
             WillWrite(ca, w, k, Worker(a, FROM_INFO, WsTypeGet(RoleName(OrgRole, k.name))))
    ensures WillWrite(ca, w, k, Worker(a, FROM_WORKSPACE, TypeGet(OrgRole)))
  {
    var (n0, n1) := (RoleName(OrgRole, k.name), RoleName(AccountRole, k.name));
    assert FROM_WORKSPACE[1..] == FROM_INFO;
    hide Mutate, Patch, Generate, Managed, BothManaged;
    if n0 in w.types && Managed(w.types[n0], Generate(OrgRole, k.name)) {
      if n1 in w.types && Managed(w.types[n1], Generate(AccountRole, k.name)) {
        BothManagedOf(w.types, k.name);
        TypePutPasses(ca, w, k, a, AccountRole);
        assert WillWrite(ca, w, k, Worker(a, FROM_WORKSPACE, TypePut(AccountRole, Find(w.types, n1))));
      } else {
        TypePutWrites(ca, w, k, a, AccountRole);
      }
      assert WillWrite(ca, w, k, Worker(a, FROM_WORKSPACE, TypeGet(AccountRole)));
      TypePutPasses(ca, w, k, a, OrgRole);
      assert WillWrite(ca, w, k, Worker(a, FROM_WORKSPACE, TypePut(OrgRole, Find(w.types, n0))));
    } else {
      TypePutWrites(ca, w, k, a, OrgRole);
    }
  }

  lemma BothManagedOf(types: map<string, WorkspaceType>, org: string)
    requires RoleName(OrgRole, org) in types && Managed(types[RoleName(OrgRole, org)], Generate(OrgRole, org))
    requires RoleName(AccountRole, org) in types &&
             Managed(types[RoleName(AccountRole, org)], Generate(AccountRole, org))
    ensures BothManaged(types, org)
  {
  }

  lemma WorkspaceWrites(ca: string, w: World, k: Key, a: Account, n: string)
    requires n in w.types && w.types[n].ready
    requires if k in w.workspaces then
               && w.workspaces[k].wsType == Some(TypeRef(n, ORGS_PATH)) && w.workspaces[k].owner == Some(a.uid)
               && WillWrite(ca, w, k, Worker(a, FROM_READY, AiWsGet))
             else Open(w, k.cluster)
    ensures WillWrite(ca, w, k, Worker(a, FROM_INFO, WsTypeGet(n)))
  {
    assert FROM_INFO[1..] == FROM_READY;
    if k in w.workspaces {
      assert WillWrite(ca, w, k, Worker(a, FROM_INFO, WsPut(n, Some(w.workspaces[k]))));
    } else {
      assert k in Call(ca, w, k, a, WsPut(n, None)).0.workspaces;
      assert WillWrite(ca, w, k, Worker(a, FROM_INFO, WsPut(n, None)));
    }
    assert WillWrite(ca, w, k, Worker(a, FROM_INFO, WsGet(n)));
  }

  lemma InfoGateWrites(ca: string, w: World, k: Key, a: Account)
    requires k.cluster in w.infos && w.infos[k.cluster].spec.organization.name != ""
    requires var n := TypeName(w.infos[k.cluster].spec.organization.name, a.kind);
             WillWrite(ca, w, k, Worker(a, FROM_INFO, WsTypeGet(n)))
    ensures WillWrite(ca, w, k, Worker(a, FROM_INFO, WsInfoGet))
  {
  }

  lemma InfoWrites(ca: string, w: World, k: Key, a: Account)
    requires k in w.workspaces && w.workspaces[k].placement.Some?
    requires w.workspaces[k].phase == Initializing || w.workspaces[k].phase == Ready
    requires var at := w.workspaces[k].placement.value; WorkspacePath(at.url).Some? && Hosted(w, at.cluster)
    requires a.kind != ORG ==> k.cluster in w.infos
    requires var c := w.workspaces[k].placement.value.cluster;
             if c in w.infos then
               || w.infos[c].spec.ca != ca
               || (a.kind != ORG && SharedOf(w.infos[c].spec) != SharedOf(w.infos[k.cluster].spec))
             else Open(w, c)
    ensures WillWrite(ca, w, k, Worker(a, FROM_READY, AiWsGet))
  {
    hide WriteInfo, Entry, WorkspacePath;
    var at := w.workspaces[k].placement.value;
    var self := Location(k.name, at.cluster, k.cluster, WorkspacePath(at.url).value, at.url, a.kind);
    var parent := if a.kind == ORG then None else Some(w.infos[k.cluster].spec);
    InfoPutWrites(ca, w, k, a, self, parent);
    assert WillWrite(ca, w, k, Worker(a, FROM_READY, AiOwnGet(self, parent)));
    if a.kind != ORG {
      assert WillWrite(ca, w, k, Worker(a, FROM_READY, AiParentGet(self)));
    }
  }

  lemma InfoPutWrites(ca: string, w: World, k: Key, a: Account, self: Location, parent: Option<InfoSpec>)
    requires var c := self.generated;
             if c in w.infos then
               w.infos[c].spec.ca != ca || (parent.Some? && SharedOf(w.infos[c].spec) != SharedOf(parent.value))
             else Open(w, c)
    ensures WillWrite(ca, w, k, Worker(a, FROM_READY, AiPut(self, parent, Find(w.infos, self.generated))))
  {
    var c := self.generated;
    var w' := Call(ca, w, k, a, AiPut(self, parent, Find(w.infos, c))).0;
    assert c in w'.infos;
    assert w'.infos[c].spec.ca == ca;
    if c in w.infos && parent.Some? {
      assert SharedOf(w'.infos[c].spec) == SharedOf(parent.value);
    }
  }

  // ----- provisioning -----

  /** Cluster c and all above it up to the organization belong to org and account accounts. */
  predicate Regular(cl: Clusters, c: ClusterId)
    decreases c
  {
    c in cl &&
    (cl[c].kind == ORG ||
     (cl[c].kind == ACCOUNT && cl[c].host.cluster < c && Regular(cl, cl[c].host.cluster)))
  }

  /** The account at k is an organization, or an account inside one. Other kinds of account have no
      generated workspace type, and accounts directly in root:orgs have no organization. */
  predicate InOrg(w: World, k: Key) {
    k in w.accounts &&
    (w.accounts[k].kind == ORG || (w.accounts[k].kind == ACCOUNT && Regular(w.clusters, k.cluster)))
  }

  predicate TypesReady(w: World, org: string) {
    forall t :: RoleName(t, org) in w.types && w.types[RoleName(t, org)].ready
  }

  /** Both types of the organization are there, as the operator wants them, and ready. */
  predicate TypesInPlace(w: World, org: string) {
    BothManaged(w.types, org) && TypesReady(w, org)
  }

  /** All there is to have: finalizers, types that are in place, a Ready workspace, and an AccountInfo
      with its finalizer and the operator's CA that shares just what the organization's shares now. */
  predicate Provisioned(cfg: Config, ca: string, w: World, k: Key) {
    && k in w.accounts && Needed(cfg, w.accounts[k]) <= w.accounts[k].finalizers
    && (w.accounts[k].kind == ORG ==> TypesInPlace(w, k.name))
    && k in w.workspaces && w.workspaces[k].placement.Some? && w.workspaces[k].phase == Ready
    && var c := w.workspaces[k].placement.value.cluster;
    && c in w.infos && w.infos[c].finalizer && w.infos[c].spec.ca == ca
    && OrgOf(w.clusters, c) in w.infos
    && SharedOf(w.infos[c].spec) == SharedOf(w.infos[OrgOf(w.clusters, c)].spec)
  }

  /** Cluster c and all above it up to the organization have URLs from which a path can be taken. */
  predicate Usable(cl: Clusters, c: ClusterId)
    decreases c
  {
    c in cl && WorkspacePath(cl[c].url).Some? &&
    (cl[c].kind == ORG || (cl[c].host.cluster < c && Usable(cl, cl[c].host.cluster)))
  }

  /** An account of an organization, with nothing but usable URLs above it. */
  predicate Reached(w: World, k: Key) {
    InOrg(w, k) && (w.accounts[k].kind == ORG || Usable(w.clusters, k.cluster))
  }

  /** And with a usable URL itself, as soon as it has one at all. */
  predicate Served(w: World, k: Key) {
    && Reached(w, k)
    && (k in w.workspaces && w.workspaces[k].placement.Some? ==>
          WorkspacePath(w.workspaces[k].placement.value.url).Some?)
  }

  /** The account at k has its finalizers and, if it is an organization, its types are ready. */
  predicate Prepared(cfg: Config, w: World, k: Key) {
    && k in w.accounts && !w.accounts[k].deleting
    && Needed(cfg, w.accounts[k]) <= w.accounts[k].finalizers
    && (w.accounts[k].kind == ORG ==> TypesInPlace(w, k.name))
  }

  /** As far as it gets with a URL that is refused: everything up to the AccountInfo. */
  predicate Blocked(cfg: Config, w: World, k: Key) {
    && Prepared(cfg, w, k) && k in w.workspaces && w.workspaces[k].placement.Some?
    && (w.workspaces[k].phase == Initializing || w.workspaces[k].phase == Ready)
  }

  predicate Fulfilled(cfg: Config, ca: string, w: World, k: Key) {
    if Served(w, k) then Provisioned(cfg, ca, w, k) else Blocked(cfg, w, k)
  }

  /** Every deletion is done, and every account of an organization that has only usable URLs is
      provisioned; one that is the first with a URL that is refused has all but its AccountInfo. */
  ghost predicate Settled(cfg: Config, ca: string, w: World) {
    TornDown(w) && forall k :: Reached(w, k) ==> Fulfilled(cfg, ca, w, k)
  }

  /** All above k is as it should be. */
  ghost predicate Supported(cfg: Config, ca: string, w: World, k: Key) {
    forall j :: Reached(w, j) && j.cluster < k.cluster ==> Fulfilled(cfg, ca, w, j)
  }

  /** What an account below an organization finds in its cluster once all above is provisioned. */
  lemma Support(cfg: Config, s: Sys, k: Key)
    requires Good(cfg, s) && Reached(s.w, k) && s.w.accounts[k].kind != ORG && Supported(cfg, s.ca, s.w, k)
    ensures var (w, cl) := (s.w, s.w.clusters);
            && k.cluster in w.infos && k.cluster in cl && OrgOf(cl, k.cluster) in w.infos
            && var org := w.infos[k.cluster].spec.organization.name;
            && org != ""
            && TypeFor(cl, k, ACCOUNT) == TypeName(org, ACCOUNT)
            && TypeName(org, ACCOUNT) in w.types && w.types[TypeName(org, ACCOUNT)].ready
            && SharedOf(w.infos[k.cluster].spec) == SharedOf(w.infos[OrgOf(cl, k.cluster)].spec)
  {
    var (w, cl) := (s.w, s.w.clusters);
    var host := cl[k.cluster].host;
    assert AccountOk(w, k);
    assert PlaceOk(cl, k.cluster);
    assert WorkspaceOk(w, host);
    assert Fulfilled(cfg, s.ca, w, host);
    OwnOrganization(w, s.h, k.cluster) by { assert InfoOk(w, s.h, k.cluster); }
    var o := OrgOf(cl, k.cluster);
    OrgSupport(cfg, s, k, o);
    assert RoleName(AccountRole, cl[o].host.name) in w.types;
  }

  lemma OrgSupport(cfg: Config, s: Sys, k: Key, o: ClusterId)
    requires Good(cfg, s) && o in s.w.infos && o in s.w.clusters && s.w.clusters[o].host.cluster == ORGS
    requires k.cluster != ORGS && Supported(cfg, s.ca, s.w, k)
    ensures TypesReady(s.w, s.w.clusters[o].host.name)
  {
    assert InfoOk(s.w, s.h, o);
    assert PlaceOk(s.w.clusters, o);
    assert WorkspaceOk(s.w, s.w.clusters[o].host);
    assert Fulfilled(cfg, s.ca, s.w, s.w.clusters[o].host);
  }

  /** A pass without new finalizers starts at the first subroutine that has something to do. */
  lemma PassStarts(cfg: Config, s: Sys, k: Key)
    requires Good(cfg, s) && k in s.w.accounts && !s.w.accounts[k].deleting
    requires Needed(cfg, s.w.accounts[k]) <= s.w.accounts[k].finalizers
    requires var a := s.w.accounts[k];
             WillWrite(s.ca, s.w, k, if a.kind == ORG then Worker(a, FROM_WORKSPACE, TypeGet(OrgRole))
                                       else Worker(a, FROM_INFO, WsInfoGet))
    ensures PassWrites(cfg, s.ca, s.w, k, None)
  {
    var a := s.w.accounts[k];
    assert a.finalizers + Needed(cfg, a) == a.finalizers;
    assert STANDARD[1..] == FROM_WORKSPACE && FROM_WORKSPACE[1..] == FROM_INFO;
    assert BeginAccount(cfg, a) == a;
    assert a.kind != ORG ==> Advance(k, a, FROM_WORKSPACE) == Some(Worker(a, FROM_INFO, WsInfoGet));
    assert Advance(k, a, STANDARD) ==
           Some(if a.kind == ORG then Worker(a, FROM_WORKSPACE, TypeGet(OrgRole)) else Worker(a, FROM_INFO, WsInfoGet));
  }

  lemma PrepareDue(cfg: Config, s: Sys, k: Key) returns (cause: Cause)
    requires Good(cfg, s) && InOrg(s.w, k) && !s.w.accounts[k].deleting && !Prepared(cfg, s.w, k)
    ensures Due(cfg, s, cause)
  {
    var (w, a) := (s.w, s.w.accounts[k]);
    if !(Needed(cfg, a) <= a.finalizers) {
      assert BeginAccount(cfg, a) != a;
      cause := PassAt(k, None);
    } else if !BothManaged(w.types, k.name) {
      TypesWrite(s.ca, w, k, a);
      PassStarts(cfg, s, k);
      cause := PassAt(k, None);
    } else {
      var t :| !w.types[RoleName(t, k.name)].ready;
      var step := TypeReady(RoleName(t, k.name));
      assert ApplyWorld(cfg, s, step).types[RoleName(t, k.name)].ready;
      cause := Direct(step);
    }
  }

  /** A pass at a prepared account gets to its Workspace, and past it to its AccountInfo. */
  lemma PassReaches(cfg: Config, s: Sys, k: Key)
    requires Good(cfg, s) && Reached(s.w, k) && Prepared(cfg, s.w, k) && Supported(cfg, s.ca, s.w, k)
    requires if k in s.w.workspaces then WillWrite(s.ca, s.w, k, Worker(s.w.accounts[k], FROM_READY, AiWsGet))
             else Open(s.w, k.cluster)
    ensures PassWrites(cfg, s.ca, s.w, k, None)
  {
    hide WillWrite, HistoryOk;
    var (w, a) := (s.w, s.w.accounts[k]);
    var n := TypeFor(w.clusters, k, a.kind);
    if a.kind == ORG {
      assert n == RoleName(OrgRole, k.name) && n in w.types;
    } else {
      Support(cfg, s, k);
    }
    if k in w.workspaces {
      assert WorkspaceOk(w, k);
    }
    WorkspaceWrites(s.ca, w, k, a, n);
    if a.kind == ORG {
      TypesWrite(s.ca, w, k, a);
    } else {
      InfoGateWrites(s.ca, w, k, a);
    }
    PassStarts(cfg, s, k);
  }

  /** The workspace of a prepared account gets further towards Ready. */
  lemma WorkspaceDue(cfg: Config, s: Sys, k: Key) returns (cause: Cause)
    requires Good(cfg, s) && Reached(s.w, k) && Prepared(cfg, s.w, k) && Supported(cfg, s.ca, s.w, k)
    requires forall j :: j in s.w.workspaces ==> !s.w.workspaces[j].deleting
    requires k !in s.w.workspaces || s.w.workspaces[k].placement.None? ||
             (s.w.workspaces[k].phase != Initializing && s.w.workspaces[k].phase != Ready)
    ensures Due(cfg, s, cause)
  {
    var w := s.w;
    if k !in w.workspaces {
      assert AccountOk(w, k);
      PassReaches(cfg, s, k);
      cause := PassAt(k, None);
    } else if w.workspaces[k].placement.None? {
      var m := Deepest(w.clusters.Keys);
      assert !IsSpace("root"[0]);
      WorkspacePathRoundTrip("https:", "root");
      var step := Schedule(k, m + 1, "https:" + "/clusters/" + "root");
      assert ApplyWorld(cfg, s, step).workspaces[k].placement.Some?;
      cause := Direct(step);
    } else {
      var step := SetPhase(k, Initializing);
      assert ApplyWorld(cfg, s, step).workspaces[k].phase == Initializing;
      cause := Direct(step);
    }
  }

  lemma RecordFinishes(cfg: Config, s: Sys, k: Key) returns (cause: Cause)
    requires Good(cfg, s) && k in s.w.workspaces && s.w.workspaces[k].placement.Some? && !s.w.workspaces[k].deleting
    requires var c := s.w.workspaces[k].placement.value.cluster;
             c in s.w.infos && Open(s.w, c) && (s.w.workspaces[k].phase == Initializing || !s.w.infos[c].finalizer)
    ensures Due(cfg, s, cause)
  {
    var c := s.w.workspaces[k].placement.value.cluster;
    if s.w.workspaces[k].phase == Initializing {
      var step := SetPhase(k, Ready);
      assert ApplyWorld(cfg, s, step).workspaces[k].phase == Ready;
      cause := Direct(step);
    } else {
      assert InfoOk(s.w, s.h, c);
      var step := InfoFinalizer(c);
      assert ApplyWorld(cfg, s, step).infos[c].finalizer;
      cause := Direct(step);
    }
  }

  /** The AccountInfo of a prepared account gets written, finished, or brought up to date. */
  lemma RecordDue(cfg: Config, s: Sys, k: Key) returns (cause: Cause)
    requires Good(cfg, s) && Served(s.w, k) && Prepared(cfg, s.w, k) && Supported(cfg, s.ca, s.w, k)
    requires forall j :: j in s.w.workspaces ==> !s.w.workspaces[j].deleting
    requires k in s.w.workspaces && s.w.workspaces[k].placement.Some?
    requires s.w.workspaces[k].phase == Initializing || s.w.workspaces[k].phase == Ready
    requires !Provisioned(cfg, s.ca, s.w, k)
    ensures Due(cfg, s, cause)
  {
    var (w, a) := (s.w, s.w.accounts[k]);
    var c := w.workspaces[k].placement.value.cluster;
    assert WorkspaceOk(w, k);
    assert PlaceOk(w.clusters, c);
    if a.kind != ORG {
      Support(cfg, s, k);
      assert OrgOf(w.clusters, c) == OrgOf(w.clusters, k.cluster);
    }
    if c !in w.infos || w.infos[c].spec.ca != s.ca ||
       (a.kind != ORG && SharedOf(w.infos[c].spec) != SharedOf(w.infos[k.cluster].spec)) {
      InfoWrites(s.ca, w, k, a);
      PassReaches(cfg, s, k);
      cause := PassAt(k, None);
    } else {
      cause := RecordFinishes(cfg, s, k);
    }
  }

  lemma {:induction false} Topmost(cfg: Config, ca: string, w: World, k: Key) returns (top: Key)
    requires Reached(w, k) && !Fulfilled(cfg, ca, w, k)
    ensures Reached(w, top) && !Fulfilled(cfg, ca, w, top) && Supported(cfg, ca, w, top)
    decreases k.cluster
  {
    if j :| Reached(w, j) && j.cluster < k.cluster && !Fulfilled(cfg, ca, w, j) {
      top := Topmost(cfg, ca, w, j);
    } else {
      top := k;
    }
  }

  /** While something is not settled, something is due. */
  lemma UnsettledDue(cfg: Config, s: Sys) returns (cause: Cause)
    requires Good(cfg, s) && !Settled(cfg, s.ca, s.w)
    ensures Due(cfg, s, cause)
  {
    var w := s.w;
    if !TornDown(w) {
      cause := TeardownDue(cfg, s);
    } else {
      var k :| Reached(w, k) && !Fulfilled(cfg, s.ca, w, k);
      k := Topmost(cfg, s.ca, w, k);
      if !Prepared(cfg, w, k) {
        cause := PrepareDue(cfg, s, k);
      } else if k in w.workspaces && w.workspaces[k].placement.Some? &&
                (w.workspaces[k].phase == Initializing || w.workspaces[k].phase == Ready) {
        cause := RecordDue(cfg, s, k);
      } else {
        cause := WorkspaceDue(cfg, s, k);
      }
    }
  }

  // ----- main results -----

  /** While anything is being deleted, the operator and kcp can bring the teardown further. */
  lemma TeardownGains(cfg: Config, s: Sys) returns (steps: seq<Step>)
    requires Live(cfg, s) && !TornDown(s.w)
    ensures Gains(cfg, s, steps)
  {
    var cause := TeardownDue(cfg, s);
    steps := DueGains(cfg, s, cause);
  }

  /** While something is not settled, the operator and kcp can lower the measure. */
  lemma UnsettledGains(cfg: Config, s: Sys) returns (steps: seq<Step>)
    requires Good(cfg, s) && !Settled(cfg, s.ca, s.w)
    ensures Gains(cfg, s, steps)
  {
    var cause := UnsettledDue(cfg, s);
    steps := DueGains(cfg, s, cause);
  }

  lemma {:induction false} Settle(cfg: Config, s: Sys) returns (steps: seq<Step>)
    requires Good(cfg, s)
    ensures InternalRun(cfg, s, steps) && Settled(cfg, Exec(cfg, s, steps).ca, Exec(cfg, s, steps).w)
    decreases TotalWork(cfg, s), TotalLag(s)
  {
    if Settled(cfg, s.ca, s.w) {
      steps := [];
    } else {
      var first := UnsettledGains(cfg, s);
      RunKeeps(cfg, s, first);
      var more := Settle(cfg, Exec(cfg, s, first));
      Chain(cfg, s, first, more);
      steps := first + more;
    }
  }

  /** Everything gets settled: from any reachable state, some run of the operator and kcp alone ends with
      every deletion done and every account in an organization provisioned, as far as URLs allow; and they
      cannot go on changing the store forever, since each change lowers a well-founded measure that no
      step of theirs raises. */
  lemma EverythingSettles(cfg: Config, types: map<string, WorkspaceType>, steps: seq<Step>) returns (more: seq<Step>)
    requires cfg.pipeline == STANDARD && CanRun(cfg, Init(types), steps)
    ensures var s := Exec(cfg, Init(types), steps);
            InternalRun(cfg, s, more) && Settled(cfg, Exec(cfg, s, more).ca, Exec(cfg, s, more).w)
  {
    InitInv(cfg, types);
    InvRun(cfg, Init(types), steps);
    more := Settle(cfg, Exec(cfg, Init(types), steps));
  }

  type States = imap<nat, Sys>
  type Steps = imap<nat, Option<Step>>

  /** An endless run of the operator and kcp alone: its states and its steps. It may pause at any time,
      so that a run which comes to an end is one that pauses for good. */
  ghost predicate Endless(cfg: Config, states: States, steps: Steps) {
    (forall i: nat :: i in states) && (forall i: nat :: i in steps) &&
    forall i: nat {:trigger Continues(cfg, states, steps, i)} :: Continues(cfg, states, steps, i)
  }

  ghost predicate Continues(cfg: Config, states: States, steps: Steps, i: nat) {
    i in states && i + 1 in states && i in steps &&
    match steps[i]
    case None => states[i + 1] == states[i]
    case Some(step) =>
      Enabled(cfg, states[i], step) && Internal(states[i].w, step) && states[i + 1] == Apply(cfg, states[i], step)
  }

  lemma {:induction false} EndlessLive(cfg: Config, states: States, steps: Steps, i: nat)
    requires Endless(cfg, states, steps) && Live(cfg, states[0])
    ensures Live(cfg, states[i]) && states[i].ca == states[0].ca
  {
    if i > 0 {
      EndlessLive(cfg, states, steps, i - 1);
      assert Continues(cfg, states, steps, i - 1);
      if steps[i - 1].Some? {
        GoodStep(cfg, states[i - 1], steps[i - 1].value);
      }
    }
  }

  lemma {:induction false} EndlessAtMost(cfg: Config, states: States, steps: Steps, i: nat, j: nat)
    requires Endless(cfg, states, steps) && Live(cfg, states[0]) && i <= j
    ensures AtMost(cfg, states[j], states[i])
    decreases j
  {
    hide Apply, Enabled, Internal, Inv, TotalWork, TotalLag;
    if i < j {
      EndlessAtMost(cfg, states, steps, i, j - 1);
      EndlessLive(cfg, states, steps, j - 1);
      assert Continues(cfg, states, steps, j - 1);
      if steps[j - 1].Some? {
        MeasureStep(cfg, states[j - 1], steps[j - 1].value);
      }
    }
  }

  ghost predicate QuietFrom(states: States, n: nat)
    requires forall i: nat :: i in states
  {
    forall j: nat :: n <= j ==> states[j].w == states[n].w
  }

  lemma ChangeAfter(states: States, n: nat, j: nat) returns (i: nat)
    requires forall i: nat :: i in states
    requires n <= j && states[j].w != states[n].w
    ensures n <= i < j && states[i + 1].w != states[i].w
  {
    i := j - 1;
    while states[i + 1].w == states[i].w
      invariant n <= i < j && states[i + 1].w != states[n].w
      decreases i
    {
      i := i - 1;
    }
  }

  lemma ChangeIsBelow(cfg: Config, states: States, steps: Steps, start: nat, i: nat)
    requires Endless(cfg, states, steps) && Live(cfg, states[0]) && start <= i
    requires states[i + 1].w != states[i].w
    ensures Below(cfg, states[i + 1], states[start])
  {
    EndlessAtMost(cfg, states, steps, start, i);
    assert Below(cfg, states[i + 1], states[i]) by {
      EndlessLive(cfg, states, steps, i);
      assert Continues(cfg, states, steps, i);
      MeasureStep(cfg, states[i], steps[i].value);
    }
  }

  /** No livelock: whatever the schedule, an endless run of the operator and kcp alone changes the
      store only finitely often; and if it rests unsettled, there still is a run that gains. */
  lemma {:induction false} EventuallyQuiet(cfg: Config, states: States, steps: Steps, start: nat) returns (n: nat)
    requires Endless(cfg, states, steps) && Live(cfg, states[0])
    ensures QuietFrom(states, n)
    ensures cfg.pipeline == STANDARD ==>
              Settled(cfg, states[n].ca, states[n].w) || exists gain :: Gains(cfg, states[n], gain)
    decreases TotalWork(cfg, states[start]), TotalLag(states[start])
  {
    hide Apply, Enabled, Internal, Inv, TotalWork, TotalLag, Settled;
    if QuietFrom(states, start) {
      n := start;
      if cfg.pipeline == STANDARD && !Settled(cfg, states[n].ca, states[n].w) {
        EndlessLive(cfg, states, steps, n);
        var gain := UnsettledGains(cfg, states[n]);
      }
    } else {
      var j: nat :| start <= j && states[j].w != states[start].w;
      var i := ChangeAfter(states, start, j);
      ChangeIsBelow(cfg, states, steps, start, i);
      n := EventuallyQuiet(cfg, states, steps, i + 1);
    }
  }
}
