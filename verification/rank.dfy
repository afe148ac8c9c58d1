/** A measure of all the work that is left, which no operator or kcp step raises and which every
    step that changes the store lowers. */
module Ranking {
  import opened Wrappers
  import opened Naming
  import opened WorkspaceUrl
  import opened Model
  import opened WorkspaceTypes
  import opened Program
  import opened System
  import opened Invariant
  import opened Preserve

  const STANDARD := [WorkspaceTypeSub, WorkspaceSub, AccountInfoSub, WorkspaceReadySub]

  function PhaseRank(p: Phase): nat {
    match p
    case Scheduling => 2
    case OtherPhase => 2
    case Initializing => 1
    case Ready => 0
  }

  /** The steps of the operator and of kcp itself: kcp places workspaces and moves them forward, makes
      types ready, and empties terminating clusters. */
  ghost predicate Internal(w: World, step: Step) {
    match step
    case Restart(_) => false
    case CreateAccount(_, _) => false
    case DeleteAccount(k) => !Open(w, k.cluster) && k in w.accounts && !w.accounts[k].deleting
    case RequestDeletion(k) => !Open(w, k.cluster)
    case Schedule(k, _, _) => k in w.workspaces && !w.workspaces[k].deleting
    case SetPhase(k, p) =>
      k in w.workspaces && !w.workspaces[k].deleting && PhaseRank(p) < PhaseRank(w.workspaces[k].phase)
    case TypeReady(n) =>
      exists k, t :: k in w.accounts && w.accounts[k].kind == ORG && n == RoleName(t, k.name)
    case DeleteInfo(c) => c in w.infos && !w.infos[c].deleting && !Open(w, c)
    case External(_, _, _) => false
    case ChangeTypes(_) => false
    case _ => true
  }

  // ----- the measure -----

  predicate Processing(s: Sys, k: Key) {
    k in s.workers && !Finalizing(s.workers[k].pc)
  }

  /** The account at k may still get a workspace. */
  predicate MayCreate(s: Sys, k: Key) {
    k in s.w.accounts && Open(s.w, k.cluster) && (s.w.accounts[k].deleting ==> Processing(s, k))
  }

  function Count(a: Account): nat {
    (if WorkspaceFinalizer in a.finalizers then 1 else 0) + (if TypeFinalizer in a.finalizers then 1 else 0)
  }

  function AccountWork(cfg: Config, s: Sys, k: Key): nat
    requires k in s.w.accounts
  {
    var a := s.w.accounts[k];
    if a.deleting then 1 + Count(a) else if Needed(cfg, a) <= a.finalizers then 4 else 5
  }

  function WorkspaceWork(s: Sys, k: Key): nat {
    var base := if MayCreate(s, k) then 6 else 0;
    if k !in s.w.workspaces then base
    else
      var ws := s.w.workspaces[k];
      if ws.deleting then base + 1
      else if ws.placement.None? then 5
      else 2 + PhaseRank(ws.phase)
  }

  /** What is to be done about the AccountInfo in c, for an operator with this CA. */
  function InfoWork(w: World, ca: string, c: ClusterId): nat {
    if c !in w.infos then (if Open(w, c) then 4 else 0)
    else
      (if w.infos[c].deleting then (if Open(w, c) then 5 else 1) else if w.infos[c].finalizer then 2 else 3) +
      (if w.infos[c].spec.ca == ca then 0 else 1)
  }

  function RecordWork(s: Sys, k: Key): nat {
    var w := s.w;
    var future :=
      if k in w.workspaces && !w.workspaces[k].deleting then (if w.workspaces[k].placement.None? then 4 else 0)
      else if MayCreate(s, k) then 4 else 0;
    future + if k in w.workspaces && w.workspaces[k].placement.Some?
             then InfoWork(w, s.ca, w.workspaces[k].placement.value.cluster) else 0
  }

  /** The labels have what the operator wants in them. */
  predicate Labelled(t: WorkspaceType, desired: WorkspaceType) {
    forall l :: l in desired.labels ==> l in t.labels && t.labels[l] == desired.labels[l]
  }

  /** How many of the things that the operator manages on a type are not as it wants them. */
  function Drift(t: WorkspaceType, desired: WorkspaceType): (n: nat)
    ensures n == 0 <==> Managed(t, desired)
  {
    (if Labelled(t, desired) then 0 else 1) +
    (if t.extend == desired.extend then 0 else 1) +
    (if t.defaultChild == desired.defaultChild then 0 else 1) +
    (if t.parents == desired.parents then 0 else 1) +
    (if t.children == desired.children then 0 else 1)
  }

  /** What the patch carries when one label is wanted: that label or nothing. */
  lemma LabelPatch(got: map<string, string>, org: string)
    ensures var mutated := got + map[LABEL := org];
            (map l | l in mutated && (l !in got || got[l] != mutated[l]) :: mutated[l]) ==
            if LABEL in got && got[LABEL] == org then map[] else map[LABEL := org]
  {
  }

  lemma PatchLabels(cur: WorkspaceType, got: WorkspaceType, t: Role, org: string)
    ensures var desired := Generate(t, org); var p := Patch(cur, got, Mutate(got, desired));
            p.labels == cur.labels || (Labelled(p, desired) && !Labelled(cur, desired))
  {
    LabelPatch(got.labels, org);
    var p := Patch(cur, got, Mutate(got, Generate(t, org)));
    if LABEL in got.labels && got.labels[LABEL] == org {
      assert p.labels == cur.labels + map[];
    } else {
      assert p.labels == cur.labels + map[LABEL := org];
    }
    assert LABEL in cur.labels && cur.labels[LABEL] == org ==> cur.labels + map[LABEL := org] == cur.labels;
  }

  lemma PatchFields(cur: WorkspaceType, got: WorkspaceType, t: Role, org: string)
    ensures var desired := Generate(t, org); var p := Patch(cur, got, Mutate(got, desired));
            && (p.extend == cur.extend || p.extend == desired.extend)
            && (p.defaultChild == cur.defaultChild || p.defaultChild == desired.defaultChild)
            && (p.parents == cur.parents || p.parents == desired.parents)
            && (p.children == cur.children || p.children == desired.children)
            && p.foreign == cur.foreign && p.ready == cur.ready
  {
  }

  /** Whatever was read before and whatever has happened since, a patch never adds drift, and takes some
      away whenever it changes the type. */
  lemma PatchLowers(cur: WorkspaceType, got: WorkspaceType, t: Role, org: string)
    ensures var p := Patch(cur, got, Mutate(got, Generate(t, org)));
            && p.ready == cur.ready
            && Drift(p, Generate(t, org)) <= Drift(cur, Generate(t, org))
            && (p != cur ==> Drift(p, Generate(t, org)) < Drift(cur, Generate(t, org)))
  {
    PatchLabels(cur, got, t, org);
    PatchFields(cur, got, t, org);
    hide Patch, Mutate, Generate, Managed;
    var (desired, p) := (Generate(t, org), Patch(cur, got, Mutate(got, Generate(t, org))));
    assert Labelled(cur, desired) && p.labels == cur.labels ==> Labelled(p, desired);
    assert Labelled(p, desired) && p.labels == cur.labels ==> Labelled(cur, desired);
  }

  function TypeWork(s: Sys, k: Key, t: Role): nat
    requires k in s.w.accounts
  {
    var name := RoleName(t, k.name);
    if s.w.accounts[k].kind != ORG then 0
    else if name in s.w.types then
      Drift(s.w.types[name], Generate(t, k.name)) + (if s.w.types[name].ready then 1 else 2)
    else if s.w.accounts[k].deleting && !Processing(s, k) then 0
    else 3
  }

  function WorkLeft(cfg: Config, s: Sys, k: Key): (n: nat)
    requires k in s.w.accounts
    ensures n > 0
  {
    AccountWork(cfg, s, k) + WorkspaceWork(s, k) + RecordWork(s, k) +
    TypeWork(s, k, OrgRole) + TypeWork(s, k, AccountRole)
  }

  /** How far the AccountInfo below k is behind its organization. */
  function Lag(s: Sys, k: Key): nat {
    var w := s.w;
    if k.cluster != ORGS && k in w.workspaces && w.workspaces[k].placement.Some? then
      var c := w.workspaces[k].placement.value.cluster;
      var last := |Past(s.h, OrgOf(w.clusters, c))|;
      if c in w.infos && c in s.h.version && s.h.version[c] < last then last - 1 - s.h.version[c] else 0
    else 0
  }

  // ----- finite sums -----

  ghost function Sum(m: map<Key, nat>): nat
    decreases |m|
  {
    if m == map[] then 0
    else
      var k :| k in m;
      assert |m - {k}| < |m| by { assert (m - {k}).Keys == m.Keys - {k}; assert |(m - {k}).Keys| < |m.Keys|; }
      m[k] + Sum(m - {k})
  }

  lemma Smaller(m: map<Key, nat>, k: Key)
    requires k in m
    ensures |m - {k}| < |m|
  {
    assert (m - {k}).Keys == m.Keys - {k};
    assert |(m - {k}).Keys| < |m.Keys|;
  }

  lemma {:induction false} SumRemove(m: map<Key, nat>, k: Key)
    requires k in m
    ensures Sum(m) == m[k] + Sum(m - {k})
    decreases |m|
  {
    var j :| j in m && Sum(m) == m[j] + Sum(m - {j});
    if j != k {
      Smaller(m, j);
      Smaller(m, k);
      SumRemove(m - {j}, k);
      SumRemove(m - {k}, j);
      assert m - {j} - {k} == m - {k} - {j};
    }
  }

  /** Fewer and smaller summands give a smaller sum. */
  lemma {:induction false} SumLess(m: map<Key, nat>, m': map<Key, nat>)
    requires m'.Keys <= m.Keys && forall k :: k in m' ==> m'[k] <= m[k]
    ensures Sum(m') <= Sum(m)
    ensures (exists k :: k in m && m[k] > 0 && (k !in m' || m'[k] < m[k])) ==> Sum(m') < Sum(m)
    decreases |m|
  {
    if m == map[] {
      assert m' == map[];
    } else {
      var k :| k in m;
      if j: Key :| j in m && m[j] > 0 && (j !in m' || m'[j] < m[j]) {
        k := j;
      }
      SumRemove(m, k);
      Smaller(m, k);
      if k in m' {
        SumRemove(m', k);
        SumLess(m - {k}, m' - {k});
      } else {
        assert m' - {k} == m';
        SumLess(m - {k}, m');
      }
    }
  }

  ghost function WorkMap(cfg: Config, s: Sys): map<Key, nat> {
    map k | k in s.w.accounts :: WorkLeft(cfg, s, k)
  }

  ghost function LagMap(s: Sys): map<Key, nat> {
    map k | k in s.w.accounts :: Lag(s, k)
  }

  ghost function TotalWork(cfg: Config, s: Sys): nat {
    Sum(WorkMap(cfg, s))
  }

  ghost function TotalLag(s: Sys): nat {
    Sum(LagMap(s))
  }

  // ----- no step adds work -----

  ghost predicate Ticks(cfg: Config, s: Sys, step: Step) {
    && Inv(cfg, s) && WorkspaceSub in cfg.pipeline
    && Enabled(cfg, s, step) && Internal(s.w, step)
  }

  lemma AccountBack(cfg: Config, s: Sys, step: Step, k: Key)
    requires Ticks(cfg, s, step) && k in ApplyWorld(cfg, s, step).accounts
    ensures var a' := ApplyWorld(cfg, s, step).accounts[k];
            && k in s.w.accounts
            && a'.kind == s.w.accounts[k].kind && a'.uid == s.w.accounts[k].uid
            && (s.w.accounts[k].deleting ==> a'.deleting && a'.finalizers <= s.w.accounts[k].finalizers)
            && (!a'.deleting ==> s.w.accounts[k].finalizers <= a'.finalizers)
  {
    if k !in s.w.accounts {
      NewAccount(cfg, s, step, k);
    } else if step.Work? {
      var wk := s.workers[step.k];
      assert WorkerOk(s.w, s.h, step.k, wk);
      CallAccounts(s.ca, s.w, step.k, wk.instance, wk.pc);
    }
  }

  lemma FinalizingStays(cfg: Config, s: Sys, k: Key)
    requires Inv(cfg, s) && k in s.workers && Finalizing(s.workers[k].pc)
    ensures var s' := Apply(cfg, s, Step.Work(k)); k in s'.workers ==> Finalizing(s'.workers[k].pc)
  {
  }

  lemma ProcessingBack(cfg: Config, s: Sys, step: Step, k: Key)
    requires Ticks(cfg, s, step) && k in ApplyWorld(cfg, s, step).accounts
    requires var s' := Apply(cfg, s, step); s'.w.accounts[k].deleting && Processing(s', k)
    ensures Processing(s, k)
  {
    AccountBack(cfg, s, step, k);
    if step == Step.Work(k) && Finalizing(s.workers[k].pc) {
      FinalizingStays(cfg, s, k);
    }
  }

  lemma MayCreateBack(cfg: Config, s: Sys, step: Step, k: Key)
    requires Ticks(cfg, s, step)
    requires MayCreate(Apply(cfg, s, step), k)
    ensures MayCreate(s, k)
  {
    var s' := Apply(cfg, s, step);
    AccountBack(cfg, s, step, k);
    assert AccountOk(s.w, k);
    if !Open(s.w, k.cluster) {
      ClosedStays(cfg, s, step, k.cluster);
    }
    if s'.w.accounts[k].deleting {
      ProcessingBack(cfg, s, step, k);
    }
  }

  lemma AccountWorkLe(cfg: Config, s: Sys, step: Step, k: Key)
    requires Ticks(cfg, s, step) && k in ApplyWorld(cfg, s, step).accounts && k in s.w.accounts
    ensures AccountWork(cfg, Apply(cfg, s, step), k) <= AccountWork(cfg, s, k)
  {
    hide Call, PcOk;
    AccountBack(cfg, s, step, k);
  }

  /** What a step makes of the workspace at k: the same, or further along; and one that it marks
      for deletion will not be created again. */
  ghost predicate Forward(s: Sys, s': Sys, k: Key)
    requires k in s.w.workspaces && k in s'.w.workspaces
  {
    var (ws, ws') := (s.w.workspaces[k], s'.w.workspaces[k]);
    || ws' == ws
    || (!ws.deleting && ws'.deleting && ws'.placement == ws.placement && !MayCreate(s', k))
    || (ws'.deleting == ws.deleting && ws'.placement.Some? && ws.placement.None? && ws'.phase == ws.phase)
    || (ws'.deleting == ws.deleting && ws'.placement == ws.placement && PhaseRank(ws'.phase) < PhaseRank(ws.phase))
  }

  lemma WorkspaceForward(cfg: Config, s: Sys, step: Step, k: Key)
    requires Ticks(cfg, s, step) && k in s.w.workspaces && k in ApplyWorld(cfg, s, step).workspaces
    ensures Forward(s, Apply(cfg, s, step), k)
  {
    hide PcOk, InfoOk, HistoryOk;
    if step.Work? {
      var wk := s.workers[step.k];
      assert WorkerOk(s.w, s.h, step.k, wk);
      CallWorkspaces(s.ca, s.w, s.h, step.k, wk.instance, wk.pc);
      if wk.pc.FinWsDelete? && step.k == k {
        CallAccounts(s.ca, s.w, k, wk.instance, wk.pc);
        FinalizingStays(cfg, s, k);
      }
    } else if step.RequestDeletion? {
      TreeStep(cfg, s, step);
      assert WorkspaceOk(s.w, k);
      if !Open(s.w, k.cluster) {
        ClosedStays(cfg, s, step, k.cluster);
      }
    }
  }

  lemma WorkspaceGone(cfg: Config, s: Sys, step: Step, k: Key)
    requires Ticks(cfg, s, step) && k in s.w.workspaces && k !in ApplyWorld(cfg, s, step).workspaces
    ensures step == RemoveWorkspace(k) && s.w.workspaces[k].deleting
  {
    if step.Work? {
      var wk := s.workers[step.k];
      assert WorkerOk(s.w, s.h, step.k, wk);
      CallWorkspaces(s.ca, s.w, s.h, step.k, wk.instance, wk.pc);
    }
  }

  lemma WorkspaceNew(cfg: Config, s: Sys, step: Step, k: Key)
    requires Ticks(cfg, s, step) && k !in s.w.workspaces && k in ApplyWorld(cfg, s, step).workspaces
    ensures var ws' := ApplyWorld(cfg, s, step).workspaces[k]; ws'.placement == None && !ws'.deleting
    ensures step == Step.Work(k) && MayCreate(s, k)
  {
    if Some(k) != Actor(step) {
      NoForeignWorkspace(cfg, s, step, k);
    }
    var wk := s.workers[k];
    assert WorkerOk(s.w, s.h, k, wk);
    CallWorkspaces(s.ca, s.w, s.h, k, wk.instance, wk.pc);
  }

  lemma WorkspaceWorkLe(cfg: Config, s: Sys, step: Step, k: Key)
    requires Ticks(cfg, s, step)
    ensures WorkspaceWork(Apply(cfg, s, step), k) <= WorkspaceWork(s, k)
  {
    var s' := Apply(cfg, s, step);
    if MayCreate(s', k) {
      MayCreateBack(cfg, s, step, k);
    }
    if k in s.w.workspaces && k in s'.w.workspaces {
      WorkspaceForward(cfg, s, step, k);
    } else if k in s.w.workspaces {
      WorkspaceGone(cfg, s, step, k);
    } else if k in s'.w.workspaces {
      WorkspaceNew(cfg, s, step, k);
    }
  }

  lemma FinalizingDeleted(cfg: Config, s: Sys, k: Key)
    requires Inv(cfg, s) && k in s.workers && Finalizing(s.workers[k].pc)
    ensures k in s.w.accounts && s.w.accounts[k].deleting
  {
    assert WorkerOk(s.w, s.h, k, s.workers[k]);
  }

  lemma TypeWorkLe(cfg: Config, s: Sys, step: Step, k: Key, t: Role)
    requires Ticks(cfg, s, step) && k in ApplyWorld(cfg, s, step).accounts && k in s.w.accounts
    ensures TypeWork(Apply(cfg, s, step), k, t) <= TypeWork(s, k, t)
  {
    AccountBack(cfg, s, step, k);
    hide Ticks, TypeWork;
    if s.w.accounts[k].kind == ORG {
      if step.Work? {
        CallTypeWorkLe(cfg, s, step.k, k, t);
      } else {
        KcpTypeWorkLe(cfg, s, step, k, t);
      }
    } else {
      NoTypeWork(s, Apply(cfg, s, step), k, t);
    }
  }

  lemma NoTypeWork(s: Sys, s': Sys, k: Key, t: Role)
    requires k in s.w.accounts && k in s'.w.accounts
    requires s.w.accounts[k].kind == s'.w.accounts[k].kind && s.w.accounts[k].kind != ORG
    ensures TypeWork(s', k, t) <= TypeWork(s, k, t)
  {
    hide RoleName, Drift;
  }

  /** Apart from the operator's calls, types only become Ready. */
  lemma KcpTypes(cfg: Config, s: Sys, step: Step, name: string)
    requires Enabled(cfg, s, step) && Internal(s.w, step) && !step.Work?
    ensures var types' := ApplyWorld(cfg, s, step).types;
            && (name in types' <==> name in s.w.types)
            && (name in s.w.types ==>
                  types'[name] == s.w.types[name] || types'[name] == s.w.types[name].(ready := true))
  {
    hide RoleName;
  }

  lemma ReadyDrift(t: WorkspaceType, desired: WorkspaceType)
    ensures Drift(t.(ready := true), desired) == Drift(t, desired)
  {
  }

  /** What the account at k gains from a type becoming Ready. */
  lemma ReadyTypeWork(s: Sys, s': Sys, k: Key, t: Role)
    requires k in s.w.accounts && k in s'.w.accounts && s.w.accounts[k].kind == s'.w.accounts[k].kind
    requires s.w.accounts[k].deleting && !Processing(s, k) ==> s'.w.accounts[k].deleting && !Processing(s', k)
    requires var (types, types', name) := (s.w.types, s'.w.types, RoleName(t, k.name));
             && (name in types' <==> name in types)
             && (name in types ==> types'[name] == types[name] || types'[name] == types[name].(ready := true))
    ensures TypeWork(s', k, t) <= TypeWork(s, k, t)
  {
    var name := RoleName(t, k.name);
    if name in s.w.types {
      ReadyDrift(s.w.types[name], Generate(t, k.name));
    }
    hide Drift, Generate, RoleName, Processing;
  }

  lemma KcpTypeWorkLe(cfg: Config, s: Sys, step: Step, k: Key, t: Role)
    requires Ticks(cfg, s, step) && !step.Work? && k in ApplyWorld(cfg, s, step).accounts && k in s.w.accounts
    ensures TypeWork(Apply(cfg, s, step), k, t) <= TypeWork(s, k, t)
  {
    hide TypeWork, Inv, RoleName;
    var s' := Apply(cfg, s, step);
    AccountBack(cfg, s, step, k);
    if s'.w.accounts[k].deleting && Processing(s', k) {
      ProcessingBack(cfg, s, step, k);
    }
    KcpTypes(cfg, s, step, RoleName(t, k.name));
    hide ApplyWorld;
    ReadyTypeWork(s, s', k, t);
  }

  lemma CallTypeWorkLe(cfg: Config, s: Sys, j: Key, k: Key, t: Role)
    requires Ticks(cfg, s, Step.Work(j)) && k in ApplyWorld(cfg, s, Step.Work(j)).accounts && k in s.w.accounts
    requires s.w.accounts[k].kind == ORG
    ensures TypeWork(Apply(cfg, s, Step.Work(j)), k, t) <= TypeWork(s, k, t)
  {
    var s' := Apply(cfg, s, Step.Work(j));
    AccountBack(cfg, s, Step.Work(j), k);
    if s'.w.accounts[k].deleting && Processing(s', k) {
      ProcessingBack(cfg, s, Step.Work(j), k);
    }
    TypesAfterCall(cfg, s, j, k, t);
    if j == k && Finalizing(s.workers[k].pc) {
      FinalizingDeleted(cfg, s, k);
      FinalizingStays(cfg, s, k);
    }
    hide ApplyWorld, ApplyWorkers, ApplyHistory, ApplyReleasing, Inv, Enabled, Internal, Drift;
    NewDrift(t, k.name);
  }

  lemma NewDrift(t: Role, org: string)
    ensures Drift(Generate(t, org), Generate(t, org)) == 0 && !Generate(t, org).ready
  {
  }

  lemma CallTypes(ca: string, w: World, k: Key, a: Account, pc: Pc)
    ensures var types' := Call(ca, w, k, a, pc).0.types;
            if pc.FinTypeDelete? then types' == w.types - {RoleName(pc.role, k.name)}
            else
              || types' == w.types
              || (pc.TypePut? && RoleName(pc.role, k.name) in types' &&
                  types' == w.types[RoleName(pc.role, k.name) := types'[RoleName(pc.role, k.name)]] &&
                  TypeWritten(w.types, types', pc.role, k.name))
  {
    hide WriteInfo, ReadLocation, Generate, Patch, Mutate, Drift;
    if pc.TypePut? && pc.gotType.Some? && RoleName(pc.role, k.name) in w.types {
      var name := RoleName(pc.role, k.name);
      PatchLowers(w.types[name], pc.gotType.value, pc.role, k.name);
      assert w.types[name := w.types[name]] == w.types;
    }
  }

  /** The type of this role was created, or patched to have less drift. */
  predicate TypeWritten(types: map<string, WorkspaceType>, types': map<string, WorkspaceType>, t: Role, org: string) {
    var (name, desired) := (RoleName(t, org), Generate(t, org));
    && name in types'
    && (if name in types then types'[name].ready == types[name].ready &&
          Drift(types'[name], desired) < Drift(types[name], desired)
        else types'[name] == desired)
  }

  /** The calls at one account leave the types of other organizations alone, and make progress
      with its own. */
  lemma TypesAfterCall(cfg: Config, s: Sys, j: Key, k: Key, t: Role)
    requires Ticks(cfg, s, Step.Work(j)) && k in s.w.accounts && s.w.accounts[k].kind == ORG
    ensures var (types, types') := (s.w.types, ApplyWorld(cfg, s, Step.Work(j)).types);
            var name := RoleName(t, k.name);
            || (name in types && name in types' && types'[name] == types[name])
            || (name !in types && name !in types')
            || (name in types' && j == k && Processing(s, k) && TypeWritten(types, types', t, k.name))
            || (name in types && name !in types' && j == k && Finalizing(s.workers[k].pc))
  {
    hide Drift, Generate, Call;
    var wk := s.workers[j];
    assert WorkerOk(s.w, s.h, j, wk);
    assert AccountOk(s.w, k) && AccountOk(s.w, j);
    CallTypes(s.ca, s.w, j, wk.instance, wk.pc);
    if wk.pc.TypePut? || wk.pc.FinTypeDelete? {
      RoleNameInjective(wk.pc.role, j.name, t, k.name);
    }
  }

  // ----- AccountInfos -----

  /** What the last call of ManageAccountInfo does: nothing, or create, or update a child's record, or
      bring the CA in an organization's up to date. */
  lemma CallWrite(cfg: Config, s: Sys, k: Key)
    requires Inv(cfg, s) && k in s.workers && s.workers[k].pc.AiPut?
    ensures var pc := s.workers[k].pc; var c := pc.self.generated;
            var infos' := ApplyWorld(cfg, s, Step.Work(k)).infos;
            || ApplyWorld(cfg, s, Step.Work(k)) == s.w
            || (c !in s.w.infos && Open(s.w, c) && c in infos' && !infos'[c].finalizer && !infos'[c].deleting &&
                infos'[c].spec.ca == s.ca &&
                infos' == s.w.infos[c := infos'[c]])
            || (c in s.w.infos && c in infos' && infos'[c].finalizer == s.w.infos[c].finalizer &&
                infos'[c].deleting == s.w.infos[c].deleting && infos'[c].spec != s.w.infos[c].spec &&
                infos'[c].spec.ca == s.ca && (pc.parent.None? ==> s.w.infos[c].spec.ca != s.ca) &&
                infos' == s.w.infos[c := infos'[c]])
  {
    var wk := s.workers[k];
    assert WorkerOk(s.w, s.h, k, wk);
  }

  lemma InfoWorkAfterCall(cfg: Config, s: Sys, k: Key, c: ClusterId)
    requires Ticks(cfg, s, Step.Work(k)) && c in s.w.clusters
    requires !Open(s.w, c) ==> !Open(ApplyWorld(cfg, s, Step.Work(k)), c)
    ensures InfoWork(ApplyWorld(cfg, s, Step.Work(k)), s.ca, c) <= InfoWork(s.w, s.ca, c)
  {
    hide Call, PcOk, HistoryOk;
    var wk := s.workers[k];
    if wk.pc.AiPut? {
      CallWrite(cfg, s, k);
    } else {
      CallInfos(s.ca, s.w, k, wk.instance, wk.pc);
    }
  }

  lemma InfoWorkLe(cfg: Config, s: Sys, step: Step, c: ClusterId)
    requires Ticks(cfg, s, step) && c in s.w.clusters
    ensures InfoWork(ApplyWorld(cfg, s, step), s.ca, c) <= InfoWork(s.w, s.ca, c)
  {
    hide Call, PcOk;
    if !Open(s.w, c) {
      ClosedStays(cfg, s, step, c);
    }
    if step.Work? {
      InfoWorkAfterCall(cfg, s, step.k, c);
    }
  }

  /** The record below k, when its workspace stays where it is. */
  lemma RecordWorkPlaced(cfg: Config, s: Sys, step: Step, k: Key)
    requires Ticks(cfg, s, step) && k in s.w.workspaces && k in ApplyWorld(cfg, s, step).workspaces
    requires ApplyWorld(cfg, s, step).workspaces[k].placement == s.w.workspaces[k].placement
    ensures RecordWork(Apply(cfg, s, step), k) <= RecordWork(s, k)
  {
    hide Call, PcOk, HistoryOk;
    var s' := Apply(cfg, s, step);
    if MayCreate(s', k) {
      MayCreateBack(cfg, s, step, k);
    }
    if s.w.workspaces[k].placement.Some? {
      var c := s.w.workspaces[k].placement.value.cluster;
      assert c in s.w.clusters by { assert WorkspaceOk(s.w, k); }
      InfoWorkLe(cfg, s, step, c);
    }
    WorkspaceForward(cfg, s, step, k);
  }

  lemma RecordWorkScheduled(cfg: Config, s: Sys, step: Step, k: Key)
    requires Ticks(cfg, s, step) && k in s.w.workspaces && step.Schedule? && step.k == k
    ensures RecordWork(Apply(cfg, s, step), k) <= RecordWork(s, k)
  {
    var s' := Apply(cfg, s, step);
    if MayCreate(s', k) {
      MayCreateBack(cfg, s, step, k);
    }
    InfosInTree(cfg, s);
  }

  lemma InfosInTree(cfg: Config, s: Sys)
    requires Inv(cfg, s)
    ensures s.w.infos.Keys <= s.w.clusters.Keys
  {
    forall c | c in s.w.infos ensures c in s.w.clusters {
      assert InfoOk(s.w, s.h, c);
    }
  }

  lemma RecordWorkGone(cfg: Config, s: Sys, step: Step, k: Key)
    requires Ticks(cfg, s, step) && k !in ApplyWorld(cfg, s, step).workspaces
    ensures RecordWork(Apply(cfg, s, step), k) <= RecordWork(s, k)
  {
    if MayCreate(Apply(cfg, s, step), k) {
      MayCreateBack(cfg, s, step, k);
    }
    if k in s.w.workspaces {
      WorkspaceGone(cfg, s, step, k);
    }
  }

  lemma RecordWorkLe(cfg: Config, s: Sys, step: Step, k: Key)
    requires Ticks(cfg, s, step)
    ensures RecordWork(Apply(cfg, s, step), k) <= RecordWork(s, k)
  {
    var w' := ApplyWorld(cfg, s, step);
    if k !in w'.workspaces {
      RecordWorkGone(cfg, s, step, k);
    } else if k !in s.w.workspaces {
      WorkspaceNew(cfg, s, step, k);
    } else {
      WorkspaceAfter(cfg, s, step, k);
      if w'.workspaces[k].placement == s.w.workspaces[k].placement {
        RecordWorkPlaced(cfg, s, step, k);
      } else {
        RecordWorkScheduled(cfg, s, step, k);
      }
    }
  }

  lemma WorkLe(cfg: Config, s: Sys, step: Step, k: Key)
    requires Ticks(cfg, s, step) && k in ApplyWorld(cfg, s, step).accounts
    ensures k in s.w.accounts && WorkLeft(cfg, Apply(cfg, s, step), k) <= WorkLeft(cfg, s, k)
  {
    AccountBack(cfg, s, step, k);
    AccountWorkLe(cfg, s, step, k);
    WorkspaceWorkLe(cfg, s, step, k);
    RecordWorkLe(cfg, s, step, k);
    TypeWorkLe(cfg, s, step, k, OrgRole);
    TypeWorkLe(cfg, s, step, k, AccountRole);
  }

  // ----- every change of the store lowers the measure -----

  /** The step updates an AccountInfo that is there with what its parent shares by now, and nothing else. */
  ghost predicate Copies(cfg: Config, s: Sys, step: Step)
    requires Enabled(cfg, s, step)
  {
    && step.Work? && s.workers[step.k].pc.AiPut? && s.workers[step.k].pc.self.generated in s.w.infos
    && s.w.infos[s.workers[step.k].pc.self.generated].spec.ca == s.ca
    && ApplyWorld(cfg, s, step) != s.w
  }

  /** Some account is gone, or has less work left. */
  ghost predicate Lowers(cfg: Config, s: Sys, s': Sys, k: Key) {
    k in s.w.accounts && (k in s'.w.accounts ==> WorkLeft(cfg, s', k) < WorkLeft(cfg, s, k))
  }

  lemma AccountLowers(cfg: Config, s: Sys, step: Step, k: Key)
    requires Ticks(cfg, s, step) && k in s.w.accounts
    requires k in ApplyWorld(cfg, s, step).accounts ==>
               AccountWork(cfg, Apply(cfg, s, step), k) < AccountWork(cfg, s, k)
    ensures Lowers(cfg, s, Apply(cfg, s, step), k)
  {
    if k in ApplyWorld(cfg, s, step).accounts {
      WorkspaceWorkLe(cfg, s, step, k);
      RecordWorkLe(cfg, s, step, k);
      TypeWorkLe(cfg, s, step, k, OrgRole);
      TypeWorkLe(cfg, s, step, k, AccountRole);
    }
  }

  lemma WorkspaceLowers(cfg: Config, s: Sys, step: Step, k: Key)
    requires Ticks(cfg, s, step) && k in s.w.accounts
    requires WorkspaceWork(Apply(cfg, s, step), k) < WorkspaceWork(s, k)
    ensures Lowers(cfg, s, Apply(cfg, s, step), k)
  {
    if k in ApplyWorld(cfg, s, step).accounts {
      AccountWorkLe(cfg, s, step, k);
      RecordWorkLe(cfg, s, step, k);
      TypeWorkLe(cfg, s, step, k, OrgRole);
      TypeWorkLe(cfg, s, step, k, AccountRole);
    }
  }

  lemma RecordLowers(cfg: Config, s: Sys, step: Step, c: ClusterId)
    requires Ticks(cfg, s, step) && c in s.w.clusters && Hosted(s.w, c) && Hosted(ApplyWorld(cfg, s, step), c)
    requires ApplyWorld(cfg, s, step).workspaces == s.w.workspaces
    requires InfoWork(ApplyWorld(cfg, s, step), s.ca, c) < InfoWork(s.w, s.ca, c)
    ensures Lowers(cfg, s, Apply(cfg, s, step), s.w.clusters[c].host)
  {
    var k := s.w.clusters[c].host;
    assert WorkspaceOk(s.w, k);
    if k in ApplyWorld(cfg, s, step).accounts {
      AccountWorkLe(cfg, s, step, k);
      WorkspaceWorkLe(cfg, s, step, k);
      if MayCreate(Apply(cfg, s, step), k) {
        MayCreateBack(cfg, s, step, k);
      }
      TypeWorkLe(cfg, s, step, k, OrgRole);
      TypeWorkLe(cfg, s, step, k, AccountRole);
    }
  }

  lemma TypeLowers(cfg: Config, s: Sys, step: Step, k: Key, t: Role)
    requires Ticks(cfg, s, step) && k in s.w.accounts
    requires k in ApplyWorld(cfg, s, step).accounts ==>
               TypeWork(Apply(cfg, s, step), k, t) < TypeWork(s, k, t)
    ensures Lowers(cfg, s, Apply(cfg, s, step), k)
  {
    if k in ApplyWorld(cfg, s, step).accounts {
      AccountWorkLe(cfg, s, step, k);
      WorkspaceWorkLe(cfg, s, step, k);
      RecordWorkLe(cfg, s, step, k);
      TypeWorkLe(cfg, s, step, k, OrgRole);
      TypeWorkLe(cfg, s, step, k, AccountRole);
    }
  }

  lemma SameAccount(m: map<Key, Account>, k: Key)
    requires k in m
    ensures m[k := m[k]] == m
  {
  }

  lemma BeginLowers(cfg: Config, s: Sys, k: Key, f: Option<Finalizer>)
    requires Ticks(cfg, s, Begin(k, f)) && ApplyWorld(cfg, s, Begin(k, f)) != s.w
    ensures Lowers(cfg, s, Apply(cfg, s, Begin(k, f)), k)
  {
    SameAccount(s.w.accounts, k);
    var a := s.w.accounts[k];
    assert Needed(cfg, a) <= a.finalizers ==> a.finalizers + Needed(cfg, a) == a.finalizers;
    AccountLowers(cfg, s, Begin(k, f), k);
  }

  lemma TypePutLowers(cfg: Config, s: Sys, k: Key)
    requires var step := Step.Work(k); Ticks(cfg, s, step) && ApplyWorld(cfg, s, step) != s.w
    requires s.workers[k].pc.TypePut?
    ensures Lowers(cfg, s, Apply(cfg, s, Step.Work(k)), k)
  {
    var wk := s.workers[k];
    assert WorkerOk(s.w, s.h, k, wk);
    CallTypes(s.ca, s.w, k, wk.instance, wk.pc);
    CallAccounts(s.ca, s.w, k, wk.instance, wk.pc);
    TypeLowers(cfg, s, Step.Work(k), k, wk.pc.role);
  }

  lemma FinTypeLowers(cfg: Config, s: Sys, k: Key)
    requires var step := Step.Work(k); Ticks(cfg, s, step) && ApplyWorld(cfg, s, step) != s.w
    requires s.workers[k].pc.FinTypeDelete?
    ensures Lowers(cfg, s, Apply(cfg, s, Step.Work(k)), k)
  {
    var wk := s.workers[k];
    assert WorkerOk(s.w, s.h, k, wk);
    assert AccountOk(s.w, k);
    var name := RoleName(wk.pc.role, k.name);
    assert name !in s.w.types ==> s.w.types - {name} == s.w.types;
    FinalizingStays(cfg, s, k);
    TypeLowers(cfg, s, Step.Work(k), k, wk.pc.role);
  }

  lemma WorkspaceCreateLowers(cfg: Config, s: Sys, k: Key)
    requires var step := Step.Work(k); Ticks(cfg, s, step) && ApplyWorld(cfg, s, step) != s.w
    requires s.workers[k].pc.WsPut?
    ensures Lowers(cfg, s, Apply(cfg, s, Step.Work(k)), k)
  {
    var wk := s.workers[k];
    var step := Step.Work(k);
    assert k in s.w.accounts by { assert WorkerOk(s.w, s.h, k, wk); }
    assert k !in s.w.workspaces && k in ApplyWorld(cfg, s, step).workspaces by {
      assert WorkerOk(s.w, s.h, k, wk);
      assert ApplyWorld(cfg, s, step).workspaces != s.w.workspaces;
      CallWorkspaces(s.ca, s.w, s.h, k, wk.instance, wk.pc);
    }
    WorkspaceNew(cfg, s, step, k);
    WorkspaceLowers(cfg, s, step, k);
  }

  lemma WorkspaceDeleteLowers(cfg: Config, s: Sys, k: Key)
    requires var step := Step.Work(k); Ticks(cfg, s, step) && ApplyWorld(cfg, s, step) != s.w
    requires s.workers[k].pc.FinWsDelete?
    ensures Lowers(cfg, s, Apply(cfg, s, Step.Work(k)), k)
  {
    var step := Step.Work(k);
    assert k in s.w.accounts by { assert WorkerOk(s.w, s.h, k, s.workers[k]); }
    WorkspaceForward(cfg, s, step, k);
    WorkspaceLowers(cfg, s, step, k);
  }

  lemma CreateLowers(cfg: Config, s: Sys, k: Key)
    requires var step := Step.Work(k); Ticks(cfg, s, step) && ApplyWorld(cfg, s, step) != s.w && !Copies(cfg, s, step)
    requires s.workers[k].pc.AiPut?
    ensures s.workers[k].pc.self.generated in s.w.clusters
    ensures Lowers(cfg, s, Apply(cfg, s, Step.Work(k)), s.w.clusters[s.workers[k].pc.self.generated].host)
  {
    var wk := s.workers[k];
    assert WorkerOk(s.w, s.h, k, wk);
    CallWrite(cfg, s, k);
    assert wk.pc.self.generated != ORGS;
    assert wk.pc.self.generated in s.w.infos ==> InfoOk(s.w, s.h, wk.pc.self.generated);
    RecordLowers(cfg, s, Step.Work(k), wk.pc.self.generated);
  }

  lemma ReleaseLowers(cfg: Config, s: Sys, k: Key)
    requires var step := Step.Work(k); Ticks(cfg, s, step) && s.workers[k].pc.FinRelease?
    ensures Lowers(cfg, s, Apply(cfg, s, Step.Work(k)), k)
  {
    var wk := s.workers[k];
    assert WorkerOk(s.w, s.h, k, wk);
    AccountLowers(cfg, s, Step.Work(k), k);
  }

  lemma CallLowers(cfg: Config, s: Sys, k: Key)
    requires var step := Step.Work(k);
             Ticks(cfg, s, step) && ApplyWorld(cfg, s, step) != s.w && !Copies(cfg, s, step)
    ensures exists j :: Lowers(cfg, s, Apply(cfg, s, Step.Work(k)), j)
  {
    var pc := s.workers[k].pc;
    if pc.TypePut? {
      TypePutLowers(cfg, s, k);
    } else if pc.FinTypeDelete? {
      FinTypeLowers(cfg, s, k);
    } else if pc.WsPut? {
      WorkspaceCreateLowers(cfg, s, k);
    } else if pc.FinWsDelete? {
      WorkspaceDeleteLowers(cfg, s, k);
    } else if pc.AiPut? {
      CreateLowers(cfg, s, k);
    } else {
      assert pc.FinRelease?;
      ReleaseLowers(cfg, s, k);
    }
  }

  lemma InfoStepLowers(cfg: Config, s: Sys, step: Step)
    requires Ticks(cfg, s, step) && ApplyWorld(cfg, s, step) != s.w
    requires step.InfoFinalizer? || step.InfoRelease? || step.DeleteInfo?
    ensures step.c in s.w.clusters && Hosted(s.w, step.c)
    ensures var w' := ApplyWorld(cfg, s, step);
            && Hosted(w', step.c) && w'.workspaces == s.w.workspaces
            && InfoWork(w', s.ca, step.c) < InfoWork(s.w, s.ca, step.c)
  {
    hide Call, WorkersOk, HistoryOk, WorkspacesOk, AccountsOk, TreeOk, OrgOf, LocationOf;
    assert InfoOk(s.w, s.h, step.c);
  }

  lemma RecordStepLowers(cfg: Config, s: Sys, step: Step)
    requires Ticks(cfg, s, step) && ApplyWorld(cfg, s, step) != s.w
    requires step.InfoFinalizer? || step.InfoRelease? || step.DeleteInfo?
    ensures step.c in s.w.clusters
    ensures Lowers(cfg, s, Apply(cfg, s, step), s.w.clusters[step.c].host)
  {
    InfoStepLowers(cfg, s, step);
    hide ApplyWorld, InfoWork, Inv, Lowers;
    RecordLowers(cfg, s, step, step.c);
  }

  lemma WorkspaceStepLowers(cfg: Config, s: Sys, step: Step)
    requires Ticks(cfg, s, step) && ApplyWorld(cfg, s, step) != s.w
    requires step.RequestDeletion? || step.Schedule? || step.SetPhase?
    ensures Lowers(cfg, s, Apply(cfg, s, step), step.k)
  {
    assert step.k in s.w.accounts by { assert WorkspaceOk(s.w, step.k); }
    WorkspaceForward(cfg, s, step, step.k);
    WorkspaceLowers(cfg, s, step, step.k);
  }

  lemma RemoveLowers(cfg: Config, s: Sys, step: Step)
    requires Ticks(cfg, s, step) && step.RemoveWorkspace?
    ensures Lowers(cfg, s, Apply(cfg, s, step), step.k)
  {
    assert step.k in s.w.accounts by { assert WorkspaceOk(s.w, step.k); }
    if MayCreate(Apply(cfg, s, step), step.k) {
      MayCreateBack(cfg, s, step, step.k);
    }
    WorkspaceLowers(cfg, s, step, step.k);
  }

  /** Whatever changes the store, other than bringing an AccountInfo up to date, takes work off
      some account. */
  lemma ChangeLowers(cfg: Config, s: Sys, step: Step)
    requires Ticks(cfg, s, step) && ApplyWorld(cfg, s, step) != s.w && !Copies(cfg, s, step)
    ensures exists j :: Lowers(cfg, s, Apply(cfg, s, step), j)
  {
    match step
    case Begin(k, f) => BeginLowers(cfg, s, k, f);
    case Work(k) => CallLowers(cfg, s, k);
    case InfoFinalizer(_) => RecordStepLowers(cfg, s, step);
    case InfoRelease(_) => RecordStepLowers(cfg, s, step);
    case DeleteInfo(_) => RecordStepLowers(cfg, s, step);
    case DeleteAccount(k) => AccountLowers(cfg, s, step, k);
    case RequestDeletion(_) => WorkspaceStepLowers(cfg, s, step);
    case Schedule(_, _, _) => WorkspaceStepLowers(cfg, s, step);
    case SetPhase(_, _) => WorkspaceStepLowers(cfg, s, step);
    case RemoveWorkspace(_) => RemoveLowers(cfg, s, step);
    case TypeReady(n) =>
      var k, t :| k in s.w.accounts && s.w.accounts[k].kind == ORG && n == RoleName(t, k.name);
      assert s.w.types[n := s.w.types[n]] == s.w.types;
      TypeLowers(cfg, s, step, k, t);
    case _ =>
  }

  // ----- staleness -----

  lemma QuietHistory(cfg: Config, s: Sys, step: Step, c: ClusterId)
    requires Ticks(cfg, s, step) && (ApplyWorld(cfg, s, step) == s.w || Copies(cfg, s, step))
    ensures var h' := Apply(cfg, s, step).h;
            && h'.past == s.h.past
            && (c in s.h.version ==> c in h'.version && s.h.version[c] <= h'.version[c])
  {
    HistoryStep(cfg, s, step);
    if step.Work? && s.workers[step.k].pc.AiPut? {
      CallWrite(cfg, s, step.k);
    }
  }

  lemma LagLe(cfg: Config, s: Sys, step: Step, k: Key)
    requires Ticks(cfg, s, step) && (ApplyWorld(cfg, s, step) == s.w || Copies(cfg, s, step))
    ensures Lag(Apply(cfg, s, step), k) <= Lag(s, k)
  {
    hide Internal, PcOk;
    var s' := Apply(cfg, s, step);
    TreeStep(cfg, s, step);
    InvStep(cfg, s, step);
    if Copies(cfg, s, step) {
      CallWrite(cfg, s, step.k);
    }
    if k in s.w.workspaces && s.w.workspaces[k].placement.Some? {
      var c := s.w.workspaces[k].placement.value.cluster;
      QuietHistory(cfg, s, step, c);
      if c in s.w.infos {
        assert InfoOk(s.w, s.h, c);
      }
    }
  }

  /** All that can differ between two good AccountInfos of one cluster is the CA and what is shared. */
  lemma SameShareSameSpec(w: World, h: History, w': World, h': History, c: ClusterId)
    requires InfoOk(w, h, c) && InfoOk(w', h', c) && w'.clusters == w.clusters
    requires w.infos[c].spec.ca == w'.infos[c].spec.ca
    requires SharedOf(w.infos[c].spec) == SharedOf(w'.infos[c].spec)
    ensures w.infos[c].spec == w'.infos[c].spec
  {
  }

  lemma OtherSpecOtherVersion(cfg: Config, s: Sys, s': Sys, c: ClusterId)
    requires Inv(cfg, s) && Inv(cfg, s') && s'.w.clusters == s.w.clusters && s'.h.past == s.h.past
    requires c in s.w.infos && c in s'.w.infos && s'.w.infos[c].spec != s.w.infos[c].spec
    requires s'.w.infos[c].spec.ca == s.w.infos[c].spec.ca
    ensures && c in s.h.version && c in s'.h.version && s.h.version[c] != s'.h.version[c]
            && s'.h.version[c] < |Past(s.h, OrgOf(s.w.clusters, c))|
  {
    assert InfoOk(s.w, s.h, c) && InfoOk(s'.w, s'.h, c);
    if SharedOf(s.w.infos[c].spec) == SharedOf(s'.w.infos[c].spec) {
      SameShareSameSpec(s.w, s.h, s'.w, s'.h, c);
    }
  }

  lemma CopyNewer(cfg: Config, s: Sys, step: Step)
    requires Ticks(cfg, s, step) && Copies(cfg, s, step)
    ensures var c := s.workers[step.k].pc.self.generated; var h' := Apply(cfg, s, step).h;
            && c in s.h.version && c in h'.version && s.h.version[c] < h'.version[c]
            && h'.version[c] < |Past(s.h, OrgOf(s.w.clusters, c))| && h'.past == s.h.past
  {
    var c := s.workers[step.k].pc.self.generated;
    CallWrite(cfg, s, step.k);
    InvStep(cfg, s, step);
    TreeStep(cfg, s, step);
    QuietHistory(cfg, s, step, c);
    OtherSpecOtherVersion(cfg, s, Apply(cfg, s, step), c);
  }

  lemma CopyLowers(cfg: Config, s: Sys, step: Step)
    requires Ticks(cfg, s, step) && Copies(cfg, s, step)
    ensures step.k in s.w.accounts && Lag(Apply(cfg, s, step), step.k) < Lag(s, step.k)
  {
    var wk := s.workers[step.k];
    var c := wk.pc.self.generated;
    CallWrite(cfg, s, step.k);
    CopyNewer(cfg, s, step);
    assert WorkerOk(s.w, s.h, step.k, wk);
    assert InfoOk(s.w, s.h, c);
    assert PlaceOk(s.w.clusters, c);
  }

  // ----- the measure -----

  lemma TypeSignal(ca: string, w: World, k: Key, a: Account, pc: Pc)
    ensures var signal := Call(ca, w, k, a, pc).1;
            && (signal.Go? && signal.pc.TypeGet? ==> pc.TypePut?)
            && (signal.Go? && signal.pc.TypePut? ==>
                  pc.TypeGet? && signal.pc == TypePut(pc.role, Find(w.types, RoleName(pc.role, k.name))))
  {
  }

  lemma GoodStep(cfg: Config, s: Sys, step: Step)
    requires Ticks(cfg, s, step)
    ensures Inv(cfg, Apply(cfg, s, step))
  {
    InvStep(cfg, s, step);
  }

  lemma TotalWorkLe(cfg: Config, s: Sys, step: Step)
    requires Ticks(cfg, s, step)
    ensures var s' := Apply(cfg, s, step);
            && WorkMap(cfg, s').Keys <= WorkMap(cfg, s).Keys
            && (forall k :: k in WorkMap(cfg, s') ==> WorkMap(cfg, s')[k] <= WorkMap(cfg, s)[k])
            && TotalWork(cfg, s') <= TotalWork(cfg, s)
  {
    var s' := Apply(cfg, s, step);
    forall k | k in s'.w.accounts ensures k in s.w.accounts && WorkMap(cfg, s')[k] <= WorkMap(cfg, s)[k] {
      WorkLe(cfg, s, step, k);
    }
    SumLess(WorkMap(cfg, s), WorkMap(cfg, s'));
  }

  lemma TotalWorkLt(cfg: Config, s: Sys, step: Step)
    requires Ticks(cfg, s, step) && ApplyWorld(cfg, s, step) != s.w && !Copies(cfg, s, step)
    ensures TotalWork(cfg, Apply(cfg, s, step)) < TotalWork(cfg, s)
  {
    hide Inv, Internal, WorkLeft;
    var s' := Apply(cfg, s, step);
    TotalWorkLe(cfg, s, step);
    ChangeLowers(cfg, s, step);
    var j :| Lowers(cfg, s, s', j);
    var (m, m') := (WorkMap(cfg, s), WorkMap(cfg, s'));
    assert j in m && m[j] > 0 && (j !in m' || m'[j] < m[j]);
    SumLess(m, m');
  }

  lemma TotalLagLe(cfg: Config, s: Sys, step: Step)
    requires Ticks(cfg, s, step) && (ApplyWorld(cfg, s, step) == s.w || Copies(cfg, s, step))
    ensures TotalLag(Apply(cfg, s, step)) <= TotalLag(s)
    ensures Copies(cfg, s, step) ==> TotalLag(Apply(cfg, s, step)) < TotalLag(s)
  {
    var s' := Apply(cfg, s, step);
    var (l, l') := (LagMap(s), LagMap(s'));
    forall k | k in s'.w.accounts ensures k in s.w.accounts && l'[k] <= l[k] {
      WorkLe(cfg, s, step, k);
      LagLe(cfg, s, step, k);
    }
    if Copies(cfg, s, step) {
      CopyLowers(cfg, s, step);
      var k := step.k;
      assert k in l && l[k] > 0 && (k !in l' || l'[k] < l[k]);
    }
    SumLess(l, l');
  }

  /** The measure of s' is below that of s. */
  ghost predicate Below(cfg: Config, s': Sys, s: Sys) {
    || TotalWork(cfg, s') < TotalWork(cfg, s)
    || (TotalWork(cfg, s') == TotalWork(cfg, s) && TotalLag(s') < TotalLag(s))
  }

  ghost predicate AtMost(cfg: Config, s': Sys, s: Sys) {
    || TotalWork(cfg, s') < TotalWork(cfg, s)
    || (TotalWork(cfg, s') == TotalWork(cfg, s) && TotalLag(s') <= TotalLag(s))
  }

  /** No step of the operator or kcp raises the measure; one that changes the store lowers it:
      it takes work off some account, or brings an AccountInfo closer to its organization. */
  lemma MeasureStep(cfg: Config, s: Sys, step: Step)
    requires Ticks(cfg, s, step)
    ensures AtMost(cfg, Apply(cfg, s, step), s)
    ensures Apply(cfg, s, step).w != s.w ==> Below(cfg, Apply(cfg, s, step), s)
  {
    TotalWorkLe(cfg, s, step);
    if ApplyWorld(cfg, s, step) == s.w || Copies(cfg, s, step) {
      TotalLagLe(cfg, s, step);
    } else {
      TotalWorkLt(cfg, s, step);
    }
  }
}
