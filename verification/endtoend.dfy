/** What a pass that ends well has achieved, with everybody else acting between its calls. */
module EndToEnd {
  import opened Wrappers
  import opened Naming
  import opened WorkspaceUrl
  import opened Model
  import opened WorkspaceTypes
  import opened Program
  import opened System
  import opened Invariant
  import opened Preserve
  import opened Ranking
  import opened Progress
  import opened Safety

  /** The AccountInfo that this step takes away, or asks to be taken away. */
  function RemovedBy(step: Step): set<ClusterId> {
    match step
    case DeleteInfo(c) => {c}
    case InfoRelease(c) => {c}
    case _ => {}
  }

  /** All AccountInfos that somebody has deleted since the last pass at k began. */
  function RemovedSince(steps: seq<Step>, k: Key): set<ClusterId> {
    if steps == [] then {}
    else
      var last := steps[|steps| - 1];
      if last.Begin? && last.k == k then {} else RemovedSince(steps[..|steps| - 1], k) + RemovedBy(last)
  }

  /** The record in c is there, or will never be needed again, or is one of these. */
  predicate Recorded(w: World, c: ClusterId, removed: set<ClusterId>) {
    c in w.infos || !Open(w, c) || c in removed
  }

  /** The record in c, if there, has this CA. */
  predicate CaRight(w: World, ca: string, c: ClusterId) {
    c in w.infos ==> w.infos[c].spec.ca == ca
  }

  predicate PlacedAs(w: World, k: Key, c: ClusterId) {
    k in w.workspaces ==> w.workspaces[k].placement.Some? && w.workspaces[k].placement.value.cluster == c
  }

  /** What is left of the pipeline at pc. */
  function Remaining(pc: Pc): seq<Sub> {
    match pc
    case TypeGet(_) => FROM_WORKSPACE
    case TypePut(_, _) => FROM_WORKSPACE
    case WsInfoGet => FROM_INFO
    case WsTypeGet(_) => FROM_INFO
    case WsGet(_) => FROM_INFO
    case WsPut(_, _) => FROM_INFO
    case AiWsGet => FROM_READY
    case AiParentGet(_) => FROM_READY
    case AiOwnGet(_, _) => FROM_READY
    case AiPut(_, _, _) => FROM_READY
    case _ => []
  }

  /** What the pass of this worker has made sure of so far. */
  predicate Achieved(w: World, ca: string, k: Key, wk: Worker, removed: set<ClusterId>) {
    && wk.rest == Remaining(wk.pc)
    && (wk.pc.AiParentGet? || wk.pc.AiOwnGet? || wk.pc.AiPut? ==> PlacedAs(w, k, wk.pc.self.generated))
    && (wk.pc.AiPut? && wk.pc.gotInfo.Some? ==> Recorded(w, wk.pc.self.generated, removed))
    && (wk.pc.ReadyGet? && k in w.workspaces ==>
          && w.workspaces[k].placement.Some? && Recorded(w, w.workspaces[k].placement.value.cluster, removed)
          && CaRight(w, ca, w.workspaces[k].placement.value.cluster))
  }

  predicate AllAchieved(s: Sys, steps: seq<Step>) {
    forall k {:trigger Achieved(s.w, s.ca, k, s.workers[k], RemovedSince(steps, k))} :: k in s.workers ==>
      Achieved(s.w, s.ca, k, s.workers[k], RemovedSince(steps, k))
  }

  /** A record that is there stays, if this step does not take it away. */
  lemma InfoStays(cfg: Config, s: Sys, step: Step, c: ClusterId)
    requires Enabled(cfg, s, step) && c in s.w.infos && c !in RemovedBy(step)
    ensures c in ApplyWorld(cfg, s, step).infos
  {
    hide Call;
    if step.Work? {
      InfosGrow(s.ca, s.w, step.k, s.workers[step.k].instance, s.workers[step.k].pc);
    }
  }

  lemma RecordedStays(cfg: Config, s: Sys, step: Step, c: ClusterId, removed: set<ClusterId>)
    requires Inv(cfg, s) && Enabled(cfg, s, step) && c in s.w.clusters && Recorded(s.w, c, removed)
    ensures Recorded(ApplyWorld(cfg, s, step), c, removed + RemovedBy(step))
  {
    hide PcOk, Patch, Mutate;
    if !Open(s.w, c) {
      ClosedStays(cfg, s, step, c);
    } else if c in s.w.infos && c !in RemovedBy(step) {
      InfoStays(cfg, s, step, c);
    }
  }

  lemma InfosGrow(ca: string, w: World, k: Key, a: Account, pc: Pc)
    ensures w.infos.Keys <= Call(ca, w, k, a, pc).0.infos.Keys
  {
    hide ReadLocation, Generate, Patch, Mutate;
  }

  /** A workspace that is placed stays placed there, or goes. */
  lemma PlacedStays(cfg: Config, s: Sys, step: Step, k: Key, c: ClusterId)
    requires Inv(cfg, s) && Enabled(cfg, s, step) && PlacedAs(s.w, k, c)
    requires Some(k) == Actor(step) ==> k in s.w.workspaces
    ensures PlacedAs(ApplyWorld(cfg, s, step), k, c)
  {
    if k in s.w.workspaces {
      WorkspaceAfter(cfg, s, step, k);
    } else {
      NoForeignWorkspace(cfg, s, step, k);
    }
  }

  lemma OthersAchieved(cfg: Config, s: Sys, step: Step, k: Key, removed: set<ClusterId>)
    requires Inv(cfg, s) && Enabled(cfg, s, step) && k in s.workers && Some(k) != Actor(step)
    requires Achieved(s.w, s.ca, k, s.workers[k], removed)
    ensures Achieved(ApplyWorld(cfg, s, step), s.ca, k, s.workers[k], removed + RemovedBy(step))
  {
    var pc := s.workers[k].pc;
    var w' := ApplyWorld(cfg, s, step);
    assert WorkerOk(s.w, s.h, k, s.workers[k]);
    if pc.AiParentGet? || pc.AiOwnGet? || pc.AiPut? {
      PlacedStays(cfg, s, step, k, pc.self.generated);
      if Recorded(s.w, pc.self.generated, removed) {
        RecordedStays(cfg, s, step, pc.self.generated, removed);
      }
    } else if pc.ReadyGet? && k in w'.workspaces {
      if k !in s.w.workspaces {
        NoForeignWorkspace(cfg, s, step, k);
      }
      assert WorkspaceOk(s.w, k);
      var c := s.w.workspaces[k].placement.value.cluster;
      PlacedStays(cfg, s, step, k, c);
      RecordedStays(cfg, s, step, c, removed);
      NoForeignWrite(cfg, s, step, c);
    }
  }

  lemma AdvanceAchieved(w: World, ca: string, k: Key, a: Account, pc: Pc, removed: set<ClusterId>)
    requires pc.TypePut? || pc.WsPut?
    ensures Advance(k, a, Remaining(pc)).Some? && Achieved(w, ca, k, Advance(k, a, Remaining(pc)).value, removed)
  {
    assert FROM_WORKSPACE[1..] == FROM_INFO && FROM_INFO[1..] == FROM_READY;
  }

  /** The CA of what a worker has read is the one that is still there. */
  predicate InfoPcFits(w: World, pc: Pc) {
    pc.AiPut? && pc.gotInfo.Some? && pc.self.generated in w.infos ==>
      w.infos[pc.self.generated].spec.ca == pc.gotInfo.value.spec.ca
  }

  /** The write of the record, when it comes back OK, has it there, with the operator's CA. */
  lemma PutRecords(ca: string, w: World, k: Key, wk: Worker, removed: set<ClusterId>)
    requires InfoPcFits(w, wk.pc) && wk.pc.AiPut? && Achieved(w, ca, k, wk, removed) &&
             Call(ca, w, k, wk.instance, wk.pc).1.Ok?
    ensures var w' := Call(ca, w, k, wk.instance, wk.pc).0;
            && Advance(k, wk.instance, wk.rest) == Some(Worker(wk.instance, [], ReadyGet))
            && Achieved(w', ca, k, Worker(wk.instance, [], ReadyGet), removed)
  {
    assert FROM_READY[1..] == [];
  }

  lemma GoAchieves(ca: string, w: World, k: Key, wk: Worker, removed: set<ClusterId>)
    requires Achieved(w, ca, k, wk, removed) && Call(ca, w, k, wk.instance, wk.pc).1.Go?
    ensures var (w', signal) := Call(ca, w, k, wk.instance, wk.pc);
            Achieved(w', ca, k, wk.(pc := signal.pc), removed)
  {
    hide WriteInfo, Generate, Patch, Mutate, WorkspacePath;
  }

  lemma OkAtTheEnd(ca: string, w: World, k: Key, wk: Worker, removed: set<ClusterId>)
    requires !wk.pc.AiPut? && !wk.pc.TypePut? && !wk.pc.WsPut? && Achieved(w, ca, k, wk, removed)
    requires Call(ca, w, k, wk.instance, wk.pc).1.Ok?
    ensures var next := AfterOk(k, wk);
            next.Some? ==> forall w' :: Achieved(w', ca, k, next.value, removed)
  {
  }

  lemma OwnAchieved(cfg: Config, s: Sys, k: Key, removed: set<ClusterId>)
    requires Inv(cfg, s) && k in s.workers && Achieved(s.w, s.ca, k, s.workers[k], removed)
    ensures var s' := Apply(cfg, s, Step.Work(k)); k in s'.workers ==> Achieved(s'.w, s'.ca, k, s'.workers[k], removed)
  {
    var wk := s.workers[k];
    var (w', signal) := Call(s.ca, s.w, k, wk.instance, wk.pc);
    if signal.Go? {
      GoAchieves(s.ca, s.w, k, wk, removed);
    } else if signal.Ok? {
      if wk.pc.AiPut? {
        assert WorkerOk(s.w, s.h, k, wk);
        PutRecords(s.ca, s.w, k, wk, removed);
      } else if wk.pc.TypePut? || wk.pc.WsPut? {
        AdvanceAchieved(w', s.ca, k, wk.instance, wk.pc, removed);
      } else {
        OkAtTheEnd(s.ca, s.w, k, wk, removed);
      }
    }
  }

  lemma BeginAchieves(cfg: Config, w: World, ca: string, k: Key, a: Account, f: Option<Finalizer>)
    requires cfg.pipeline == STANDARD
    ensures BeginWorker(cfg, k, a, f).Some? ==> Achieved(w, ca, k, BeginWorker(cfg, k, a, f).value, {})
  {
    assert STANDARD[1..] == FROM_WORKSPACE && FROM_WORKSPACE[1..] == FROM_INFO;
    var first := if a.kind == ORG then Worker(a, FROM_WORKSPACE, TypeGet(OrgRole)) else Worker(a, FROM_INFO, WsInfoGet);
    assert a.kind != ORG ==> Advance(k, a, FROM_WORKSPACE) == Some(first);
    assert Advance(k, a, STANDARD) == Some(first);
  }

  lemma AchievedStep(cfg: Config, s: Sys, init: seq<Step>, step: Step)
    requires Inv(cfg, s) && AllAchieved(s, init) && Enabled(cfg, s, step) && cfg.pipeline == STANDARD
    ensures AllAchieved(Apply(cfg, s, step), init + [step])
  {
    var s' := Apply(cfg, s, step);
    forall k | k in s'.workers ensures Achieved(s'.w, s'.ca, k, s'.workers[k], RemovedSince(init + [step], k)) {
      assert (init + [step])[..|init|] == init;
      var removed := RemovedSince(init, k);
      if Some(k) != Actor(step) {
        assert Achieved(s.w, s.ca, k, s.workers[k], removed);
        OthersAchieved(cfg, s, step, k, removed);
      } else if step.Begin? {
        BeginAchieves(cfg, s'.w, s'.ca, k, BeginAccount(cfg, s.w.accounts[k]), step.finalize);
      } else {
        assert Achieved(s.w, s.ca, k, s.workers[k], removed);
        OwnAchieved(cfg, s, k, removed);
        assert RemovedSince(init + [step], k) == removed;
      }
    }
  }

  lemma {:induction false} AchievedRun(cfg: Config, types: map<string, WorkspaceType>, steps: seq<Step>)
    requires IsRun(cfg, types, steps) && cfg.pipeline == STANDARD
    ensures AllAchieved(At(cfg, types, steps), steps)
    decreases |steps|
  {
    if steps != [] {
      var (init, last) := (steps[..|steps| - 1], steps[|steps| - 1]);
      LastStep(cfg, Init(types), steps);
      RunInv(cfg, types, init);
      AchievedRun(cfg, types, init);
      AchievedStep(cfg, At(cfg, types, init), init, last);
      assert init + [last] == steps;
    }
  }

  /** The pass at k comes to its end, all its subroutines having said OK. */
  ghost predicate Completes(cfg: Config, s: Sys, k: Key) {
    k in s.workers && s.workers[k].pc.ReadyGet? && Call(s.ca, s.w, k, s.workers[k].instance, ReadyGet).1.Ok?
  }

  /** End to end: when a pass ends well, whatever happened meanwhile, the workspace is Ready, owned by
      the account and of its organization's type; unless it is being deleted, or somebody has deleted the
      AccountInfo since the pass began, the AccountInfo is there; and if it is there it names the account,
      its parent and its organization, and has the operator's CA. */
  lemma EndToEndResult(cfg: Config, types: map<string, WorkspaceType>, steps: seq<Step>, k: Key)
    requires cfg.pipeline == STANDARD && IsRun(cfg, types, steps) && Completes(cfg, At(cfg, types, steps), k)
    ensures var w := At(cfg, types, steps).w;
            && k in w.accounts && k in w.workspaces && w.workspaces[k].placement.Some?
            && var (a, ws) := (w.accounts[k], w.workspaces[k]);
            && ws.phase == Ready && ws.owner == Some(a.uid)
            && ws.wsType == Some(TypeRef(TypeFor(w.clusters, k, a.kind), ORGS_PATH))
            && var c := ws.placement.value.cluster;
            && c in w.clusters && w.clusters[c].host == k
            && (!ws.deleting && c !in RemovedSince(steps, k) ==> c in w.infos)
            && (c in w.infos ==> Linked(w, c) && w.infos[c].spec.ca == At(cfg, types, steps).ca)
  {
    RunInv(cfg, types, steps);
    var s := At(cfg, types, steps);
    AchievedRun(cfg, types, steps);
    assert Achieved(s.w, s.ca, k, s.workers[k], RemovedSince(steps, k));
    assert WorkspaceOk(s.w, k);
    var c := s.w.workspaces[k].placement.value.cluster;
    assert PlaceOk(s.w.clusters, c);
    if c in s.w.infos {
      LinkIntegrity(cfg, types, steps, c);
    }
  }
}
