/** Every step keeps the invariant. Workers are handled by rely and guarantee: what a worker
    knows survives whatever the others may do. */
module Preserve {
  import opened Wrappers
  import opened Naming
  import opened WorkspaceUrl
  import opened Admission
  import opened Model
  import opened WorkspaceTypes
  import opened Program
  import opened System
  import opened Invariant

  lemma ScheduleTree(w: World, k: Key, c: ClusterId, url: string)
    requires TreeOk(w.clusters) && WorkspaceOk(w, k) && AccountOk(w, k)
    requires c != ORGS && forall c' :: c' in w.clusters ==> c' < c
    ensures var cl' := w.clusters[c := Place(k, url, w.accounts[k].kind)];
            TreeOk(cl') && Extends(w.clusters, cl')
  {
    var cl' := w.clusters[c := Place(k, url, w.accounts[k].kind)];
    forall c' | c' in cl' ensures PlaceOk(cl', c') {
      assert c' in w.clusters ==> PlaceOk(w.clusters, c');
    }
  }

  lemma TreeStep(cfg: Config, s: Sys, step: Step)
    requires TreeOk(s.w.clusters) && AccountsOk(s.w) && WorkspacesOk(s.w) && Enabled(cfg, s, step)
    ensures var cl' := ApplyWorld(cfg, s, step).clusters;
            TreeOk(cl') && Extends(s.w.clusters, cl') && (!step.Schedule? ==> cl' == s.w.clusters)
    ensures s.w.rv <= ApplyWorld(cfg, s, step).rv
  {
    if step.Schedule? {
      ScheduleTree(s.w, step.k, step.c, step.url);
    }
  }

  // ----- rely and guarantee -----

  /** All but what an external writer sets on an organization's record. */
  predicate SameManaged(a: InfoSpec, b: InfoSpec) {
    b == a.(fga := b.fga, oidc := b.oidc)
  }

  /** What a worker at k may rely on while others act. */
  ghost predicate Rely(w: World, h: History, w': World, h': History, k: Key) {
    && TreeOk(w.clusters) && TreeOk(w'.clusters) && Extends(w.clusters, w'.clusters)
    && (k in w.accounts ==>
          && k in w'.accounts
          && w'.accounts[k].uid == w.accounts[k].uid && w'.accounts[k].kind == w.accounts[k].kind
          && w.accounts[k].finalizers <= w'.accounts[k].finalizers
          && (w.accounts[k].deleting ==> w'.accounts[k].deleting))
    && (forall o :: Past(h, o) <= Past(h', o))
    && (forall c :: c in h.version ==> c in h'.version && h.version[c] <= h'.version[c])
    && (forall c :: c in w.clusters && w.clusters[c].host == k && k.cluster != ORGS && c in h'.version ==>
          c in h.version && h'.version[c] == h.version[c])
    && (k in h.read ==> k in h'.read && h'.read[k] == h.read[k])
    && (k !in w.workspaces ==> k !in w'.workspaces)
    && w.rv <= w'.rv
    && (forall c :: c in w'.infos ==> (c in w.infos && w'.infos[c] == w.infos[c]) || w.rv <= w'.infos[c].rv)
    && (forall c :: c in w'.infos && c in w.clusters && w.clusters[c].host == k ==>
          && c in w.infos && SameManaged(w.infos[c].spec, w'.infos[c].spec)
          && (k.cluster != ORGS ==> w'.infos[c].spec == w.infos[c].spec))
  }

  lemma TypeForStays(cl: Clusters, cl': Clusters, k: Key, kind: string)
    requires TreeOk(cl) && TreeOk(cl') && Extends(cl, cl') && (kind != ORG ==> k.cluster in cl)
    ensures TypeFor(cl', k, kind) == TypeFor(cl, k, kind)
  {
    if kind != ORG {
      OrgOfStays(cl, cl', k.cluster);
    }
  }

  lemma InfoPcFrame(w: World, h: History, w': World, h': History, k: Key, kind: string, pc: Pc)
    requires Rely(w, h, w', h', k) && AccountOk(w, k) && w.accounts[k].kind == kind
    requires (pc.AiOwnGet? || pc.AiPut?) && InfoPcOk(w, h, k, kind, pc)
    ensures InfoPcOk(w', h', k, kind, pc)
  {
    if k.cluster in w.clusters {
      OrgOfStays(w.clusters, w'.clusters, k.cluster);
    }
  }

  /** Under the rely, a worker at rest keeps all it knows. */
  lemma WorkerFrame(w: World, h: History, w': World, h': History, k: Key, wk: Worker)
    requires Rely(w, h, w', h', k) && WorkerOk(w, h, k, wk)
    requires AccountOk(w, k)
    ensures WorkerOk(w', h', k, wk)
  {
    hide InfoPcOk;
    if wk.pc.AiOwnGet? || wk.pc.AiPut? {
      InfoPcFrame(w, h, w', h', k, wk.instance.kind, wk.pc);
    } else if wk.instance.kind == ORG || k.cluster in w.clusters {
      TypeForStays(w.clusters, w'.clusters, k, wk.instance.kind);
    }
  }

  ghost function Actor(step: Step): Option<Key> {
    match step
    case Begin(k, _) => Some(k)
    case Work(k) => Some(k)
    case Fail(k) => Some(k)
    case _ => None
  }

  /** How the history may change: it only grows, and apart from the acting worker's, versions of
      accounts below an organization stay. */
  ghost predicate HistoryGrows(cl: Clusters, h: History, h': History, actor: Option<Key>) {
    && (forall o :: Past(h, o) <= Past(h', o))
    && (forall c :: c in h.version ==> c in h'.version && h.version[c] <= h'.version[c])
    && (forall c :: c in h'.version && c in cl && Some(cl[c].host) != actor && cl[c].host.cluster != ORGS ==>
          c in h.version && h'.version[c] == h.version[c])
    && (forall k :: k in h.read && Some(k) != actor ==> k in h'.read && h'.read[k] == h.read[k])
  }

  lemma LogGrows(cl: Clusters, h: History, w: World, o: ClusterId, actor: Option<Key>)
    requires HistoryOk(cl, h) && (o in cl ==> cl[o].host.cluster == ORGS)
    ensures HistoryGrows(cl, h, Log(h, w, o), actor)
  {
    if o in h.version {
      assert VersionOk(cl, h, o);
    }
  }

  lemma NoteGrows(w: World, h: History, k: Key, a: Account, pc: Pc, w': World, signal: Signal)
    requires TreeOk(w.clusters) && HistoryOk(w.clusters, h) && PcOk(w, h, k, a, pc)
    ensures HistoryGrows(w.clusters, h, Note(h, w, k, pc, w', signal), Some(k))
  {
    if pc.AiPut? && pc.parent.None? {
      assert PlaceOk(w.clusters, pc.self.generated);
      LogGrows(w.clusters, h, w', pc.self.generated, Some(k));
    }
  }

  lemma HistoryStep(cfg: Config, s: Sys, step: Step)
    requires Inv(cfg, s) && Enabled(cfg, s, step)
    ensures HistoryGrows(s.w.clusters, s.h, Apply(cfg, s, step).h, Actor(step))
  {
    match step
    case Work(k) =>
      var wk := s.workers[k];
      assert WorkerOk(s.w, s.h, k, wk);
      var (w', signal) := Call(s.ca, s.w, k, wk.instance, wk.pc);
      NoteGrows(s.w, s.h, k, wk.instance, wk.pc, w', signal);
    case External(c, fga, oidc) =>
      LogGrows(s.w.clusters, s.h, ApplyWorld(cfg, s, step), c, None);
    case _ =>
  }

  lemma AccountKept(cfg: Config, s: Sys, step: Step, k: Key)
    requires Enabled(cfg, s, step) && Some(k) != Actor(step)
    requires k in s.w.accounts && s.w.accounts[k].finalizers != {}
    ensures var accounts' := ApplyWorld(cfg, s, step).accounts;
            && k in accounts'
            && accounts'[k].uid == s.w.accounts[k].uid && accounts'[k].kind == s.w.accounts[k].kind
            && s.w.accounts[k].finalizers <= accounts'[k].finalizers
            && (s.w.accounts[k].deleting ==> accounts'[k].deleting)
  {
    if step.Work? {
      CallAccounts(s.ca, s.w, step.k, s.workers[step.k].instance, s.workers[step.k].pc);
    }
  }

  lemma NoForeignWorkspace(cfg: Config, s: Sys, step: Step, k: Key)
    requires Enabled(cfg, s, step) && Some(k) != Actor(step) && k !in s.w.workspaces
    ensures k !in ApplyWorld(cfg, s, step).workspaces
  {
    if step.Work? {
      CallOwnWorkspace(s.ca, s.w, step.k, s.workers[step.k].instance, s.workers[step.k].pc);
    }
  }

  lemma CallOwnWorkspace(ca: string, w: World, k: Key, a: Account, pc: Pc)
    ensures Call(ca, w, k, a, pc).0.workspaces.Keys <= w.workspaces.Keys + {k}
  {
  }

  lemma InfosFresh(cfg: Config, s: Sys, step: Step)
    requires Enabled(cfg, s, step)
    ensures var w' := ApplyWorld(cfg, s, step);
            forall c :: c in w'.infos ==> (c in s.w.infos && w'.infos[c] == s.w.infos[c]) || s.w.rv <= w'.infos[c].rv
  {
    if step.Work? {
      CallInfosFresh(s.ca, s.w, step.k, s.workers[step.k].instance, s.workers[step.k].pc);
    }
  }

  lemma CallInfosFresh(ca: string, w: World, k: Key, a: Account, pc: Pc)
    ensures var infos' := Call(ca, w, k, a, pc).0.infos;
            forall c :: c in infos' ==> (c in w.infos && infos'[c] == w.infos[c]) || w.rv <= infos'[c].rv
  {
  }

  /** The record below an account is written by that account's worker alone, but for the external
      fields of an organization's. */
  lemma NoForeignWrite(cfg: Config, s: Sys, step: Step, c: ClusterId)
    requires Inv(cfg, s) && Enabled(cfg, s, step) && c in s.w.clusters
    requires Some(s.w.clusters[c].host) != Actor(step)
    ensures var w' := ApplyWorld(cfg, s, step);
            c in w'.infos ==>
              && c in s.w.infos && SameManaged(s.w.infos[c].spec, w'.infos[c].spec)
              && (s.w.clusters[c].host.cluster != ORGS ==> w'.infos[c].spec == s.w.infos[c].spec)
  {
    if step.Work? {
      var wk := s.workers[step.k];
      assert WorkerOk(s.w, s.h, step.k, wk);
      CallInfos(s.ca, s.w, step.k, wk.instance, wk.pc);
    }
  }

  lemma CallInfos(ca: string, w: World, k: Key, a: Account, pc: Pc)
    ensures var infos' := Call(ca, w, k, a, pc).0.infos;
            !pc.AiPut? ==> infos' == w.infos
    ensures var infos' := Call(ca, w, k, a, pc).0.infos;
            pc.AiPut? ==> infos' - {pc.self.generated} == w.infos - {pc.self.generated}
  {
    hide CreateInfo, PatchOrgInfo, UpdateChildInfo, ReadLocation, Generate, Patch, Mutate;
  }

  lemma CallWorkspaces(ca: string, w: World, h: History, k: Key, a: Account, pc: Pc)
    requires PcOk(w, h, k, a, pc)
    ensures var wss' := Call(ca, w, k, a, pc).0.workspaces;
            || wss' == w.workspaces
            || (pc.WsPut? && k !in w.workspaces && Open(w, k.cluster) && k in wss' &&
                  wss' == w.workspaces[k := wss'[k]] &&
                wss'[k].placement == None && !wss'[k].deleting && wss'[k].phase == Scheduling)
            || (pc.FinWsDelete? && k in w.workspaces && !w.workspaces[k].deleting &&
                wss' == w.workspaces[k := w.workspaces[k].(deleting := true, rv := w.rv)])
  {
  }

  lemma Guarantee(cfg: Config, s: Sys, step: Step, k: Key)
    requires Inv(cfg, s) && Enabled(cfg, s, step) && k in s.workers && Some(k) != Actor(step)
    ensures var s' := Apply(cfg, s, step); Rely(s.w, s.h, s'.w, s'.h, k)
  {
    assert WorkerOk(s.w, s.h, k, s.workers[k]);
    TreeStep(cfg, s, step);
    HistoryStep(cfg, s, step);
    AccountKept(cfg, s, step, k);
    if k !in s.w.workspaces {
      NoForeignWorkspace(cfg, s, step, k);
    }
    InfosFresh(cfg, s, step);
    forall c | c in s.w.clusters && s.w.clusters[c].host == k
      ensures var w' := ApplyWorld(cfg, s, step);
              c in w'.infos ==>
                && c in s.w.infos && SameManaged(s.w.infos[c].spec, w'.infos[c].spec)
                && (k.cluster != ORGS ==> w'.infos[c].spec == s.w.infos[c].spec)
    {
      NoForeignWrite(cfg, s, step, c);
    }
  }

  // ----- the acting worker -----

  lemma EntryOk(w: World, h: History, k: Key, a: Account, rest: seq<Sub>)
    requires k in w.accounts && w.accounts[k].uid == a.uid && w.accounts[k].kind == a.kind
    requires WorkspaceFinalizer in w.accounts[k].finalizers
    ensures Advance(k, a, rest).Some? ==> WorkerOk(w, h, k, Advance(k, a, rest).value)
    ensures Advance(k, a, rest).Some? ==> !Finalizing(Advance(k, a, rest).value.pc)
  {
  }

  lemma BeginOk(cfg: Config, s: Sys, k: Key, f: Option<Finalizer>)
    requires Inv(cfg, s) && Enabled(cfg, s, Begin(k, f)) && WorkspaceSub in cfg.pipeline
    ensures var s' := Apply(cfg, s, Begin(k, f));
            k in s'.workers ==> WorkerOk(s'.w, s'.h, k, s'.workers[k])
  {
    var s' := Apply(cfg, s, Begin(k, f));
    if f.None? {
      EntryOk(s'.w, s'.h, k, s'.w.accounts[k], cfg.pipeline);
    }
  }

  lemma WorkspaceCallOk(ca: string, w: World, h: History, k: Key, a: Account, pc: Pc)
    requires TreeOk(w.clusters) && WorkspacesOk(w) && InfosOk(w, h) && HistoryOk(w.clusters, h)
    requires k in w.accounts && w.accounts[k].uid == a.uid && w.accounts[k].kind == a.kind
    requires PcOk(w, h, k, a, pc) && (pc.WsInfoGet? || pc.WsTypeGet? || pc.WsGet? || pc.WsPut?)
    ensures var (w', signal) := Call(ca, w, k, a, pc);
            && (signal.Go? ==> PcOk(w', h, k, a, signal.pc) && !Finalizing(signal.pc) && w' == w)
            && (pc.WsPut? && pc.gotWs.Some? ==> w' == w)
  {
    if pc.WsInfoGet? && k.cluster in w.infos {
      assert InfoOk(w, h, k.cluster);
      var o := OrgOf(w.clusters, k.cluster);
      assert PastOk(w.clusters, h, o);
    }
    if pc.WsGet? && k in w.workspaces {
      assert WorkspaceOk(w, k);
    }
  }

  /** An organization's own AccountInfo names it as the organization. */
  lemma OwnOrganization(w: World, h: History, c: ClusterId)
    requires TreeOk(w.clusters) && HistoryOk(w.clusters, h) && InfoOk(w, h, c)
    ensures w.infos[c].spec.organization == LocationOf(w.clusters, OrgOf(w.clusters, c))
  {
    assert PastOk(w.clusters, h, OrgOf(w.clusters, c));
  }

  lemma ReadLocationOk(w: World, k: Key, a: Account)
    requires WorkspacesOk(w) && k in w.accounts && w.accounts[k].kind == a.kind
    ensures var r := ReadLocation(w, k, a);
            r.Go? ==> SelfOk(w.clusters, k, a.kind, r.pc.self) &&
                      (a.kind == ORG ==> r.pc == AiOwnGet(r.pc.self, None)) &&
                      (a.kind != ORG ==> r.pc == AiParentGet(r.pc.self))
  {
    if k in w.workspaces {
      assert WorkspaceOk(w, k);
    }
  }

  lemma ReadParentOk(w: World, h: History, k: Key, a: Account, self: Location)
    requires TreeOk(w.clusters) && InfosOk(w, h) && HistoryOk(w.clusters, h) && AccountOk(w, k)
    requires a.kind != ORG && SelfOk(w.clusters, k, a.kind, self) && k.cluster in w.infos
    ensures ParentOk(w.clusters, Note(h, w, k, AiParentGet(self), w, Ok), k, self, w.infos[k.cluster].spec)
  {
    assert InfoOk(w, h, k.cluster);
    if self.generated in h.version {
      assert VersionOk(w.clusters, h, self.generated);
    }
  }

  lemma ReadOwnOk(w: World, h: History, k: Key, kind: string, self: Location, parent: Option<InfoSpec>)
    requires TreeOk(w.clusters) && InfosOk(w, h) && HistoryOk(w.clusters, h)
    requires InfoPcOk(w, h, k, kind, AiOwnGet(self, parent)) && self.generated in w.infos
    ensures GotInfoOk(w, self, parent, w.infos[self.generated])
  {
    assert InfoOk(w, h, self.generated);
    assert PlaceOk(w.clusters, self.generated);
    OwnOrganization(w, h, self.generated);
  }

  lemma InfoCallOk(ca: string, w: World, h: History, k: Key, a: Account, pc: Pc)
    requires TreeOk(w.clusters) && WorkspacesOk(w) && InfosOk(w, h) && HistoryOk(w.clusters, h)
    requires k in w.accounts && w.accounts[k].uid == a.uid && w.accounts[k].kind == a.kind && AccountOk(w, k)
    requires PcOk(w, h, k, a, pc) && (pc.AiWsGet? || pc.AiParentGet? || pc.AiOwnGet?)
    ensures var (w', signal) := CallInfo(ca, w, k, a, pc);
            w' == w && (signal.Go? ==> PcOk(w, Note(h, w, k, pc, w, signal), k, a, signal.pc) && !Finalizing(signal.pc))
  {
    match pc
    case AiWsGet => ReadLocationOk(w, k, a);
    case AiParentGet(self) =>
      if k.cluster in w.infos {
        ReadParentOk(w, h, k, a, self);
      }
    case AiOwnGet(self, parent) =>
      if self.generated in w.infos {
        ReadOwnOk(w, h, k, a.kind, self, parent);
      }
  }

  /** What a worker knows does not depend on the types, and readiness seen once stays seen. */
  lemma PcIgnoresTypes(w: World, h: History, w': World, k: Key, a: Account, pc: Pc)
    requires PcOk(w, h, k, a, pc) && w' == w.(types := w'.types)
    ensures PcOk(w', h, k, a, pc)
  {
  }

  /** After a call that goes on, the worker knows what its next call expects. */
  ghost predicate GoesOn(ca: string, w: World, h: History, k: Key, a: Account, pc: Pc) {
    var (w', signal) := Call(ca, w, k, a, pc);
    signal.Go? ==> && w' == w.(types := w'.types)
                   && PcOk(w', Note(h, w, k, pc, w', signal), k, a, signal.pc)
                   && Holds(signal.pc) == Holds(pc) && Finalizing(signal.pc) == Finalizing(pc)
  }

  lemma GoOkType(ca: string, w: World, h: History, k: Key, a: Account, pc: Pc)
    requires (pc.TypeGet? || pc.TypePut? || Finalizing(pc) || pc.ReadyGet?) && PcOk(w, h, k, a, pc)
    ensures GoesOn(ca, w, h, k, a, pc)
  {
    hide WriteInfo, ReadLocation, Generate, Patch, Mutate;
  }

  lemma GoOkInfo(ca: string, w: World, h: History, k: Key, a: Account, pc: Pc)
    requires TreeOk(w.clusters) && AccountsOk(w) && WorkspacesOk(w) && InfosOk(w, h) && HistoryOk(w.clusters, h)
    requires k in w.accounts && w.accounts[k].uid == a.uid && w.accounts[k].kind == a.kind && PcOk(w, h, k, a, pc)
    requires pc.AiWsGet? || pc.AiParentGet? || pc.AiOwnGet? || pc.AiPut?
    ensures GoesOn(ca, w, h, k, a, pc)
  {
    assert AccountOk(w, k);
    var (w', signal) := Call(ca, w, k, a, pc);
    if !pc.AiPut? {
      InfoCallOk(ca, w, h, k, a, pc);
      if signal.Go? {
        PcIgnoresTypes(w, Note(h, w, k, pc, w', signal), w', k, a, signal.pc);
      }
    }
  }

  lemma GoOk(ca: string, w: World, h: History, k: Key, a: Account, pc: Pc)
    requires TreeOk(w.clusters) && AccountsOk(w) && WorkspacesOk(w) && InfosOk(w, h) && HistoryOk(w.clusters, h)
    requires k in w.accounts && w.accounts[k].uid == a.uid && w.accounts[k].kind == a.kind && PcOk(w, h, k, a, pc)
    ensures GoesOn(ca, w, h, k, a, pc)
  {
    if pc.WsInfoGet? || pc.WsTypeGet? || pc.WsGet? || pc.WsPut? {
      WorkspaceCallOk(ca, w, h, k, a, pc);
    } else if pc.AiWsGet? || pc.AiParentGet? || pc.AiOwnGet? || pc.AiPut? {
      GoOkInfo(ca, w, h, k, a, pc);
    } else {
      GoOkType(ca, w, h, k, a, pc);
    }
  }

  /** Once a finalizer is through, the lifecycle may take it off. */
  lemma FinalizeDone(ca: string, w: World, h: History, k: Key, wk: Worker)
    requires WorkerOk(w, h, k, wk) && Finalizing(wk.pc) && !wk.pc.FinRelease?
    requires Call(ca, w, k, wk.instance, wk.pc).1.Ok?
    ensures var w' := Call(ca, w, k, wk.instance, wk.pc).0;
            AfterOk(k, wk).Some? && forall h' :: WorkerOk(w', h', k, AfterOk(k, wk).value)
  {
  }

  lemma WorkOk(cfg: Config, s: Sys, k: Key)
    requires Inv(cfg, s) && k in s.workers
    ensures var s' := Apply(cfg, s, Work(k));
            k in s'.workers ==> WorkerOk(s'.w, s'.h, k, s'.workers[k])
  {
    hide Call, PcOk, HistoryOk, InfosOk;
    var wk := s.workers[k];
    assert WorkerOk(s.w, s.h, k, wk);
    var s' := Apply(cfg, s, Work(k));
    var signal := Call(s.ca, s.w, k, wk.instance, wk.pc).1;
    if signal.Go? {
      GoOk(s.ca, s.w, s.h, k, wk.instance, wk.pc);
    } else if signal.Ok? && !Finalizing(wk.pc) {
      CallAccounts(s.ca, s.w, k, wk.instance, wk.pc);
      EntryOk(s'.w, s'.h, k, wk.instance, wk.rest);
    } else if signal.Ok? && !wk.pc.FinRelease? {
      FinalizeDone(s.ca, s.w, s.h, k, wk);
    }
  }

  lemma WorkersStep(cfg: Config, s: Sys, step: Step)
    requires Inv(cfg, s) && Enabled(cfg, s, step) && WorkspaceSub in cfg.pipeline
    ensures WorkersOk(Apply(cfg, s, step))
  {
    var s' := Apply(cfg, s, step);
    forall k | k in s'.workers ensures WorkerOk(s'.w, s'.h, k, s'.workers[k]) {
      if Some(k) == Actor(step) {
        match step
        case Begin(_, f) => BeginOk(cfg, s, k, f);
        case Work(_) => WorkOk(cfg, s, k);
      } else {
        assert s'.workers[k] == s.workers[k];
        assert WorkerOk(s.w, s.h, k, s.workers[k]);
        assert AccountOk(s.w, k);
        Guarantee(cfg, s, step, k);
        WorkerFrame(s.w, s.h, s'.w, s'.h, k, s.workers[k]);
      }
    }
  }

  // ----- the store -----

  /** A workspace changes its placement only from none; it goes only when its cluster is empty. */
  lemma WorkspaceKept(cfg: Config, s: Sys, step: Step, k: Key)
    requires Inv(cfg, s) && Enabled(cfg, s, step) && k in s.w.workspaces && s.w.workspaces[k].placement.Some?
    requires step == RemoveWorkspace(k) ==> !Empty(s.w, s.w.workspaces[k].placement.value.cluster)
    ensures var w' := ApplyWorld(cfg, s, step);
            && k in w'.workspaces && w'.workspaces[k].placement == s.w.workspaces[k].placement
            && (s.w.workspaces[k].deleting ==> w'.workspaces[k].deleting)
  {
    if step.Work? {
      var wk := s.workers[step.k];
      assert WorkerOk(s.w, s.h, step.k, wk);
      CallWorkspaces(s.ca, s.w, s.h, step.k, wk.instance, wk.pc);
    }
  }

  lemma HostedStays(cfg: Config, s: Sys, step: Step, c: ClusterId)
    requires Inv(cfg, s) && Enabled(cfg, s, step) && Hosted(s.w, c) && !Empty(s.w, c)
    ensures Hosted(ApplyWorld(cfg, s, step), c)
  {
    TreeStep(cfg, s, step);
    WorkspaceKept(cfg, s, step, s.w.clusters[c].host);
  }

  /** A workspace placed in a known cluster was so before, and was no closer to deletion. */
  lemma PlacedBefore(cfg: Config, s: Sys, step: Step, k: Key, c: ClusterId)
    requires Inv(cfg, s) && Enabled(cfg, s, step) && c in s.w.clusters
    requires var wss' := ApplyWorld(cfg, s, step).workspaces;
             k in wss' && wss'[k].placement.Some? && wss'[k].placement.value.cluster == c
    ensures && k in s.w.workspaces
            && s.w.workspaces[k].placement == ApplyWorld(cfg, s, step).workspaces[k].placement
            && (s.w.workspaces[k].deleting ==> ApplyWorld(cfg, s, step).workspaces[k].deleting)
  {
    if step.Work? {
      var wk := s.workers[step.k];
      assert WorkerOk(s.w, s.h, step.k, wk);
      CallWorkspaces(s.ca, s.w, s.h, step.k, wk.instance, wk.pc);
    }
  }

  /** A cluster that stopped taking new objects never takes any again. */
  lemma ClosedStays(cfg: Config, s: Sys, step: Step, c: ClusterId)
    requires Inv(cfg, s) && Enabled(cfg, s, step) && c in s.w.clusters && !Open(s.w, c)
    ensures !Open(ApplyWorld(cfg, s, step), c)
  {
    TreeStep(cfg, s, step);
    var w' := ApplyWorld(cfg, s, step);
    if Hosted(w', c) {
      PlacedBefore(cfg, s, step, s.w.clusters[c].host, c);
    }
  }

  /** What any step makes of an account that is there. */
  lemma AccountAfter(cfg: Config, s: Sys, step: Step, k: Key)
    requires Inv(cfg, s) && Enabled(cfg, s, step) && k in s.w.accounts
    ensures var w' := ApplyWorld(cfg, s, step);
            k in w'.accounts ==>
              && w'.accounts[k].uid == s.w.accounts[k].uid && w'.accounts[k].kind == s.w.accounts[k].kind
              && (TypeFinalizer in w'.accounts[k].finalizers ==>
                    TypeFinalizer in s.w.accounts[k].finalizers || w'.accounts[k].kind == ORG)
              && (w'.accounts[k].deleting ==> w'.accounts[k].finalizers != {})
  {
    assert AccountOk(s.w, k);
    if step.Work? {
      CallAccounts(s.ca, s.w, step.k, s.workers[step.k].instance, s.workers[step.k].pc);
    }
  }

  lemma NewAccount(cfg: Config, s: Sys, step: Step, k: Key)
    requires Inv(cfg, s) && Enabled(cfg, s, step)
    requires k !in s.w.accounts && k in ApplyWorld(cfg, s, step).accounts
    ensures step.CreateAccount? && step.k == k && ApplyWorld(cfg, s, step).accounts[k].uid == s.w.uid
  {
    if step.Work? {
      CallAccounts(s.ca, s.w, step.k, s.workers[step.k].instance, s.workers[step.k].pc);
    }
  }

  lemma CallAccounts(ca: string, w: World, k: Key, a: Account, pc: Pc)
    ensures var accounts' := Call(ca, w, k, a, pc).0.accounts;
            if pc.FinRelease? then accounts' == Release(w, k, pc.finalizer).accounts else accounts' == w.accounts
  {
  }

  lemma AccountStep(cfg: Config, s: Sys, step: Step, k: Key)
    requires Inv(cfg, s) && Enabled(cfg, s, step) && k in ApplyWorld(cfg, s, step).accounts
    ensures AccountOk(ApplyWorld(cfg, s, step), k)
  {
    var w, w' := s.w, ApplyWorld(cfg, s, step);
    if k in w.accounts {
      assert AccountOk(w, k);
      AccountAfter(cfg, s, step, k);
      if k.cluster != ORGS {
        HostedStays(cfg, s, step, k.cluster);
      }
    } else {
      NewAccount(cfg, s, step, k);
      if step.kind == ORG {
        AdmittedOrgHasName(cfg.validator, k.name);
      }
    }
  }

  lemma AccountsStep(cfg: Config, s: Sys, step: Step)
    requires Inv(cfg, s) && Enabled(cfg, s, step)
    ensures AccountsOk(ApplyWorld(cfg, s, step))
  {
    var w, w' := s.w, ApplyWorld(cfg, s, step);
    forall k | k in w'.accounts ensures AccountOk(w', k) {
      AccountStep(cfg, s, step, k);
    }
    forall k1, k2 | k1 in w'.accounts && k2 in w'.accounts && w'.accounts[k1].uid == w'.accounts[k2].uid
      ensures k1 == k2
    {
      if k1 != k2 {
        UidsDiffer(cfg, s, step, k1, k2);
      }
    }
  }

  lemma UidsDiffer(cfg: Config, s: Sys, step: Step, k1: Key, k2: Key)
    requires Inv(cfg, s) && Enabled(cfg, s, step) && k1 != k2
    requires var w' := ApplyWorld(cfg, s, step); k1 in w'.accounts && k2 in w'.accounts
    ensures var w' := ApplyWorld(cfg, s, step); w'.accounts[k1].uid != w'.accounts[k2].uid
  {
    assert k1 in s.w.accounts ==> AccountOk(s.w, k1);
    assert k2 in s.w.accounts ==> AccountOk(s.w, k2);
    if k1 in s.w.accounts {
      AccountAfter(cfg, s, step, k1);
    } else {
      NewAccount(cfg, s, step, k1);
    }
    if k2 in s.w.accounts {
      AccountAfter(cfg, s, step, k2);
    } else {
      NewAccount(cfg, s, step, k2);
    }
  }

  lemma WorkspacesStep(cfg: Config, s: Sys, step: Step)
    requires Inv(cfg, s) && Enabled(cfg, s, step)
    ensures var s' := Apply(cfg, s, step); WorkspacesOk(s'.w)
  {
    var s' := Apply(cfg, s, step);
    var w, w' := s.w, s'.w;
    TreeStep(cfg, s, step);
    HistoryStep(cfg, s, step);
    forall k | k in w'.workspaces ensures WorkspaceOk(w', k) {
      if k in w.workspaces {
        assert WorkspaceOk(w, k);
        TypeForStays(w.clusters, w'.clusters, k, w.accounts[k].kind);
        OwnerKept(cfg, s, step, k);
        WorkspaceAfter(cfg, s, step, k);
      } else {
        NewWorkspaceOk(cfg, s, step, k);
      }
    }
  }

  /** The owner of a workspace stays, and keeps its finalizer. */
  lemma OwnerKept(cfg: Config, s: Sys, step: Step, k: Key)
    requires Inv(cfg, s) && Enabled(cfg, s, step) && k in s.w.workspaces
    ensures var w' := ApplyWorld(cfg, s, step);
            && k in w'.accounts && WorkspaceFinalizer in w'.accounts[k].finalizers
            && w'.accounts[k].uid == s.w.accounts[k].uid && w'.accounts[k].kind == s.w.accounts[k].kind
  {
    assert WorkspaceOk(s.w, k);
    if Some(k) != Actor(step) {
      AccountKept(cfg, s, step, k);
    } else if step.Work? {
      var wk := s.workers[k];
      assert WorkerOk(s.w, s.h, k, wk);
      CallAccounts(s.ca, s.w, k, wk.instance, wk.pc);
      if wk.pc.FinRelease? {
        assert WorkspaceFinalizer in s.w.accounts[k].finalizers - {wk.pc.finalizer};
      }
    }
  }

  /** Type and owner of a workspace stay; it gets its placement from kcp's scheduling alone. */
  lemma WorkspaceAfter(cfg: Config, s: Sys, step: Step, k: Key)
    requires Inv(cfg, s) && Enabled(cfg, s, step) && k in s.w.workspaces
    ensures var w' := ApplyWorld(cfg, s, step);
            k in w'.workspaces ==>
              && w'.workspaces[k].wsType == s.w.workspaces[k].wsType
              && w'.workspaces[k].owner == s.w.workspaces[k].owner
              && (w'.workspaces[k].placement == s.w.workspaces[k].placement ||
                  (step.Schedule? && step.k == k && w'.workspaces[k].placement == Some(Placement(step.c, step.url))))
  {
    assert WorkspaceOk(s.w, k);
    if step.Work? {
      var wk := s.workers[step.k];
      assert WorkerOk(s.w, s.h, step.k, wk);
      CallWorkspaces(s.ca, s.w, s.h, step.k, wk.instance, wk.pc);
    }
  }

  lemma NewWorkspaceOk(cfg: Config, s: Sys, step: Step, k: Key)
    requires Inv(cfg, s) && Enabled(cfg, s, step)
    requires k !in s.w.workspaces && k in ApplyWorld(cfg, s, step).workspaces
    ensures var s' := Apply(cfg, s, step); WorkspaceOk(s'.w, k)
  {
    if Some(k) != Actor(step) {
      NoForeignWorkspace(cfg, s, step, k);
    }
    var wk := s.workers[k];
    assert WorkerOk(s.w, s.h, k, wk);
    assert AccountOk(s.w, k);
    CreatedWorkspaceOk(s.ca, s.w, s.h, k, wk.instance, wk.pc);
    HistoryStep(cfg, s, step);
  }

  lemma CreatedWorkspaceOk(ca: string, w: World, h: History, k: Key, a: Account, pc: Pc)
    requires PcOk(w, h, k, a, pc) && AccountOk(w, k) && k in w.accounts && w.accounts[k].uid == a.uid
    requires w.accounts[k].kind == a.kind && (!Finalizing(pc) ==> WorkspaceFinalizer in w.accounts[k].finalizers)
    requires ORGS !in w.clusters && k !in w.workspaces && k in Call(ca, w, k, a, pc).0.workspaces
    ensures WorkspaceOk(Call(ca, w, k, a, pc).0, k)
  {
    CallWorkspaces(ca, w, h, k, a, pc);
  }

  // ----- AccountInfos and their history -----

  /** An AccountInfo that a step leaves alone, or writes without its version changing. */
  lemma InfoFrame(w: World, h: History, w': World, h': History, c: ClusterId)
    requires TreeOk(w.clusters) && TreeOk(w'.clusters) && Extends(w.clusters, w'.clusters)
    requires InfoOk(w, h, c) && c in w'.infos && w'.infos[c].spec == w.infos[c].spec
    requires Hosted(w', c) && Past(h, OrgOf(w.clusters, c)) <= Past(h', OrgOf(w.clusters, c))
    requires c in h'.version && h'.version[c] == h.version[c]
    requires w'.infos[c].deleting ==> w'.infos[c].finalizer
    requires w'.infos[c].rv < w'.rv
    ensures InfoOk(w', h', c)
  {
    OrgOfStays(w.clusters, w'.clusters, c);
  }

  lemma HistoryKept(cl: Clusters, h: History, cl': Clusters, h': History)
    requires TreeOk(cl) && TreeOk(cl') && Extends(cl, cl') && HistoryOk(cl, h)
    requires h'.past == h.past && h'.version == h.version
    ensures HistoryOk(cl', h')
  {
    forall o | o in h'.past ensures PastOk(cl', h', o) {
      assert PastOk(cl, h, o);
    }
    forall c | c in h'.version ensures VersionOk(cl', h', c) {
      assert VersionOk(cl, h, c);
      OrgOfStays(cl, cl', c);
    }
  }

  /** Logging what an organization's record now holds keeps the history in order. */
  lemma LogOk(cl: Clusters, h: History, w: World, c: ClusterId)
    requires TreeOk(cl) && HistoryOk(cl, h) && c in cl && cl[c].host.cluster == ORGS && c in w.infos
    requires w.infos[c].spec.organization == LocationOf(cl, c)
    ensures var h' := Log(h, w, c);
            && HistoryOk(cl, h') && c in h'.version && h'.version[c] < |Past(h', c)|
            && Past(h', c)[h'.version[c]] == SharedOf(w.infos[c].spec)
  {
    var h' := Log(h, w, c);
    assert PlaceOk(cl, c);
    forall o | o in h'.past ensures PastOk(cl, h', o) {
      if o in h.past {
        assert PastOk(cl, h, o);
      }
    }
    forall c' | c' in h'.version ensures VersionOk(cl, h', c') {
      if c' in h.version {
        assert VersionOk(cl, h, c');
        assert PlaceOk(cl, c');
      }
    }
  }

  /** The write of an organization's AccountInfo: by the operator, or by the external writer. */
  lemma OrgWriteOk(cfg: Config, s: Sys, step: Step, c: ClusterId)
    requires Inv(cfg, s) && Enabled(cfg, s, step)
    requires IsOrgCluster(s.w, c) && Hosted(s.w, c)
    requires var w' := ApplyWorld(cfg, s, step);
             && c in w'.infos && w'.clusters == s.w.clusters && Hosted(w', c)
             && var spec := w'.infos[c].spec;
             && spec == OrgSpec(spec, LocationOf(s.w.clusters, c), spec.ca)
             && (w'.infos[c].deleting ==> w'.infos[c].finalizer)
             && w'.infos[c].rv < w'.rv
             && Apply(cfg, s, step).h == Log(s.h, w', c)
    requires WorkspacePath(s.w.clusters[c].url).Some?
    ensures var s' := Apply(cfg, s, step); InfoOk(s'.w, s'.h, c) && HistoryOk(s'.w.clusters, s'.h)
  {
    var s' := Apply(cfg, s, step);
    assert PlaceOk(s.w.clusters, c);
    LogOk(s.w.clusters, s.h, s'.w, c);
    assert s'.h.past == Log(s.h, s'.w, c).past && s'.h.version == Log(s.h, s'.w, c).version;
    hide ApplyWorld, ApplyHistory, Log, HistoryOk;
    HistoryKept(s.w.clusters, Log(s.h, s'.w, c), s.w.clusters, s'.h);
  }

  lemma ChildHistoryOk(w: World, h: History, k: Key, self: Location, p: InfoSpec, h': History)
    requires TreeOk(w.clusters) && HistoryOk(w.clusters, h)
    requires self.generated in w.clusters && k.cluster != ORGS
    requires SelfOk(w.clusters, k, w.clusters[self.generated].kind, self)
    requires ParentOk(w.clusters, h, k, self, p)
    requires h'.past == h.past && h'.version == h.version[self.generated := h.read[k]]
    ensures HistoryOk(w.clusters, h')
  {
    var cl, c := w.clusters, self.generated;
    assert PlaceOk(cl, c);
    forall o | o in h'.past ensures PastOk(cl, h', o) {
      assert PastOk(cl, h, o);
    }
    assert VersionOk(cl, h, k.cluster);
    forall c' | c' in h'.version ensures VersionOk(cl, h', c') {
      if c' in h.version {
        assert VersionOk(cl, h, c');
        assert PlaceOk(cl, c');
      }
    }
  }

  /** The write of any other AccountInfo: the version becomes the one that was read. */
  lemma ChildWriteOk(ca: string, w: World, h: History, k: Key, self: Location, p: InfoSpec, w': World, h': History)
    requires TreeOk(w.clusters) && k.cluster != ORGS && self.generated in w.clusters
    requires SelfOk(w.clusters, k, w.clusters[self.generated].kind, self)
    requires ParentOk(w.clusters, h, k, self, p)
    requires w'.clusters == w.clusters && h'.past == h.past && h'.version == h.version[self.generated := h.read[k]]
    requires var c := self.generated;
             && c in w'.infos && Hosted(w', c) && w'.infos[c].spec == ChildSpec(self, p, ca)
             && (w'.infos[c].deleting ==> w'.infos[c].finalizer)
             && w'.infos[c].rv < w'.rv
    ensures InfoOk(w', h', self.generated)
  {
    var cl, c := w.clusters, self.generated;
    assert PlaceOk(cl, c);
    assert OrgOf(cl, c) == OrgOf(cl, k.cluster);
  }

  /** After a successful last call of ManageAccountInfo below an organization, the record, if still
      there, is the one the worker had in mind. */
  lemma ChildPut(ca: string, w: World, h: History, k: Key, kind: string, pc: Pc)
    requires ORGS !in w.clusters && pc.AiPut? && pc.parent.Some? && InfoPcOk(w, h, k, kind, pc)
    requires var c := pc.self.generated; c in w.infos ==> InfoOk(w, h, c)
    ensures var (w', signal) := WriteInfo(ca, w, pc.self, pc.parent, pc.gotInfo); var c := pc.self.generated;
            signal.Ok? && c in w'.infos ==>
              && Hosted(w', c) && w'.infos[c].spec == ChildSpec(pc.self, pc.parent.value, ca)
              && (w'.infos[c].deleting ==> w'.infos[c].finalizer)
              && w'.infos[c].rv < w'.rv
    ensures var (w', signal) := WriteInfo(ca, w, pc.self, pc.parent, pc.gotInfo);
            !signal.Ok? ==> w' == w
  {
  }

  lemma ChildPutOk(cfg: Config, s: Sys, k: Key)
    requires Inv(cfg, s) && k in s.workers && s.workers[k].pc.AiPut? && s.workers[k].pc.parent.Some?
    ensures var s' := Apply(cfg, s, Work(k));
            && HistoryOk(s'.w.clusters, s'.h)
            && var c := s.workers[k].pc.self.generated;
               c in s'.w.infos ==> InfoOk(s'.w, s'.h, c)
  {
    var s' := Apply(cfg, s, Work(k));
    var wk := s.workers[k];
    var (self, p) := (wk.pc.self, wk.pc.parent.value);
    assert WorkerOk(s.w, s.h, k, wk);
    assert PlaceOk(s.w.clusters, self.generated);
    assert self.generated in s.w.infos ==> InfoOk(s.w, s.h, self.generated);
    ChildPut(s.ca, s.w, s.h, k, wk.instance.kind, wk.pc);
    hide WriteInfo;
    if WriteInfo(s.ca, s.w, self, wk.pc.parent, wk.pc.gotInfo).1.Ok? {
      ChildHistoryOk(s.w, s.h, k, self, p, s'.h);
      if self.generated in s'.w.infos {
        ChildWriteOk(s.ca, s.w, s.h, k, self, p, s'.w, s'.h);
      }
    } else {
      SameHistory(cfg, s, s');
    }
  }

  lemma OrgPutOk(cfg: Config, s: Sys, k: Key)
    requires Inv(cfg, s) && k in s.workers && s.workers[k].pc.AiPut? && s.workers[k].pc.parent.None?
    ensures var s' := Apply(cfg, s, Work(k));
            && HistoryOk(s'.w.clusters, s'.h)
            && var c := s.workers[k].pc.self.generated;
               c in s'.w.infos ==> InfoOk(s'.w, s'.h, c)
  {
    var s' := Apply(cfg, s, Work(k));
    var wk := s.workers[k];
    var c := wk.pc.self.generated;
    assert WorkerOk(s.w, s.h, k, wk);
    assert PlaceOk(s.w.clusters, c);
    if c in s.w.infos {
      assert InfoOk(s.w, s.h, c);
    }
    if s'.w == s.w {
      SameHistory(cfg, s, s');
    } else {
      OrgWriteOk(cfg, s, Work(k), c);
    }
  }

  /** After ManageAccountInfo's last call the record it wrote, or found right, is as it should be. */
  lemma InfoPutOk(cfg: Config, s: Sys, k: Key)
    requires Inv(cfg, s) && k in s.workers && s.workers[k].pc.AiPut?
    ensures var s' := Apply(cfg, s, Work(k));
            && HistoryOk(s'.w.clusters, s'.h)
            && var c := s.workers[k].pc.self.generated;
               c in s'.w.infos ==> InfoOk(s'.w, s'.h, c)
  {
    hide Apply;
    if s.workers[k].pc.parent.Some? {
      ChildPutOk(cfg, s, k);
    } else {
      OrgPutOk(cfg, s, k);
    }
  }

  lemma SameHistory(cfg: Config, s: Sys, s': Sys)
    requires Inv(cfg, s) && s'.w == s.w && s'.h.past == s.h.past && s'.h.version == s.h.version
    ensures HistoryOk(s'.w.clusters, s'.h) && InfosOk(s'.w, s'.h)
  {
    forall o | o in s'.h.past ensures PastOk(s'.w.clusters, s'.h, o) {
      assert PastOk(s.w.clusters, s.h, o);
    }
    forall c | c in s'.h.version ensures VersionOk(s'.w.clusters, s'.h, c) {
      assert VersionOk(s.w.clusters, s.h, c);
    }
    forall c | c in s'.w.infos ensures InfoOk(s'.w, s'.h, c) {
      assert InfoOk(s.w, s.h, c);
    }
  }

  /** The cluster whose AccountInfo or version a step writes. */
  ghost function Written(s: Sys, step: Step): Option<ClusterId> {
    match step
    case Work(k) =>
      if k in s.workers && s.workers[k].pc.AiPut? then Some(s.workers[k].pc.self.generated) else None
    case External(c, _, _) => Some(c)
    case _ => None
  }

  /** The same object as before. */
  lemma UntouchedByCall(cfg: Config, s: Sys, k: Key, c: ClusterId)
    requires Enabled(cfg, s, Step.Work(k)) && Written(s, Step.Work(k)) != Some(c)
    requires c in ApplyWorld(cfg, s, Step.Work(k)).infos
    ensures var w' := ApplyWorld(cfg, s, Step.Work(k)); c in s.w.infos && w'.infos[c] == s.w.infos[c] && s.w.rv <= w'.rv
  {
    hide Call;
    var pc := s.workers[k].pc;
    CallInfos(s.ca, s.w, k, s.workers[k].instance, pc);
    if pc.AiPut? {
      var rest: map<ClusterId, Info> := ApplyWorld(cfg, s, Step.Work(k)).infos - {pc.self.generated};
      assert c in rest && rest[c] == ApplyWorld(cfg, s, Step.Work(k)).infos[c];
    }
  }

  lemma UntouchedOtherwise(cfg: Config, s: Sys, step: Step, c: ClusterId)
    requires Enabled(cfg, s, step) && Written(s, step) != Some(c) && !step.Work?
    requires c in ApplyWorld(cfg, s, step).infos
    ensures var w' := ApplyWorld(cfg, s, step);
            && c in s.w.infos && w'.infos[c].spec == s.w.infos[c].spec && s.w.rv <= w'.rv
            && (w'.infos[c] == s.w.infos[c] || w'.infos[c].rv < w'.rv)
            && (w'.infos[c].deleting ==>
                  if s.w.infos[c].deleting then s.w.infos[c].finalizer ==> w'.infos[c].finalizer
                  else step == DeleteInfo(c) && w'.infos[c].finalizer)
  {
    hide Call, Open, Validate;
  }

  lemma Untouched(cfg: Config, s: Sys, step: Step, c: ClusterId)
    requires Inv(cfg, s) && Enabled(cfg, s, step) && Written(s, step) != Some(c)
    requires c in ApplyWorld(cfg, s, step).infos
    ensures var w' := ApplyWorld(cfg, s, step);
            && c in s.w.infos && w'.infos[c].spec == s.w.infos[c].spec && w'.infos[c].rv < w'.rv
            && (w'.infos[c].deleting ==> w'.infos[c].finalizer && (s.w.infos[c].deleting || step == DeleteInfo(c)))
  {
    assert c in s.w.infos ==> InfoOk(s.w, s.h, c);
    hide Inv, Enabled, ApplyWorld, Written;
    if step.Work? {
      UntouchedByCall(cfg, s, step.k, c);
    } else {
      UntouchedOtherwise(cfg, s, step, c);
    }
  }

  lemma VersionUntouched(cfg: Config, s: Sys, step: Step, c: ClusterId)
    requires Enabled(cfg, s, step) && Written(s, step) != Some(c) && c in s.h.version
    ensures var h' := Apply(cfg, s, step).h;
            c in h'.version && h'.version[c] == s.h.version[c]
  {
  }

  lemma UntouchedOk(cfg: Config, s: Sys, step: Step, c: ClusterId)
    requires Inv(cfg, s) && Enabled(cfg, s, step) && Written(s, step) != Some(c)
    requires c in ApplyWorld(cfg, s, step).infos
    ensures var s' := Apply(cfg, s, step); InfoOk(s'.w, s'.h, c)
  {
    var s' := Apply(cfg, s, step);
    Untouched(cfg, s, step, c);
    VersionUntouched(cfg, s, step, c) by { assert InfoOk(s.w, s.h, c); }
    assert InfoOk(s.w, s.h, c);
    TreeStep(cfg, s, step);
    HistoryStep(cfg, s, step);
    HostedStays(cfg, s, step, c);
    InfoFrame(s.w, s.h, s'.w, s'.h, c);
  }

  lemma ExternalOk(cfg: Config, s: Sys, step: Step)
    requires Inv(cfg, s) && Enabled(cfg, s, step) && step.External?
    ensures var s' := Apply(cfg, s, step); InfoOk(s'.w, s'.h, step.c) && HistoryOk(s'.w.clusters, s'.h)
  {
    assert InfoOk(s.w, s.h, step.c);
    assert PlaceOk(s.w.clusters, step.c);
    OwnOrganization(s.w, s.h, step.c);
    OrgWriteOk(cfg, s, step, step.c);
  }

  lemma InfosStep(cfg: Config, s: Sys, step: Step)
    requires Inv(cfg, s) && Enabled(cfg, s, step)
    ensures var s' := Apply(cfg, s, step); InfosOk(s'.w, s'.h)
  {
    var s' := Apply(cfg, s, step);
    forall c | c in s'.w.infos ensures InfoOk(s'.w, s'.h, c) {
      if Written(s, step) != Some(c) {
        UntouchedOk(cfg, s, step, c);
      } else if step.Work? {
        InfoPutOk(cfg, s, step.k);
      } else {
        ExternalOk(cfg, s, step);
      }
    }
  }

  lemma HistoryOkStep(cfg: Config, s: Sys, step: Step)
    requires Inv(cfg, s) && Enabled(cfg, s, step)
    ensures var s' := Apply(cfg, s, step); HistoryOk(s'.w.clusters, s'.h)
  {
    TreeStep(cfg, s, step);
    var s' := Apply(cfg, s, step);
    if step.External? {
      ExternalOk(cfg, s, step);
    } else if step.Work? && s.workers[step.k].pc.AiPut? {
      InfoPutOk(cfg, s, step.k);
    } else {
      HistoryKept(s.w.clusters, s.h, s'.w.clusters, s'.h);
    }
  }

  /** The calls of the operator leave an AccountInfo that is being deleted where it is. */
  lemma DeletingKept(cfg: Config, s: Sys, k: Key, c: ClusterId)
    requires Inv(cfg, s) && k in s.workers && c in s.w.infos && s.w.infos[c].deleting
    ensures var infos' := ApplyWorld(cfg, s, Step.Work(k)).infos; c in infos' && infos'[c].deleting
  {
    hide HistoryOk, WorkspacesOk, AccountsOk, TreeOk;
    var wk := s.workers[k];
    assert WorkerOk(s.w, s.h, k, wk);
    CallInfos(s.ca, s.w, k, wk.instance, wk.pc);
  }

  lemma ReleasingStays(cfg: Config, s: Sys, step: Step, c: ClusterId)
    requires Inv(cfg, s) && Enabled(cfg, s, step) && c in Apply(cfg, s, step).releasing
    ensures var w' := ApplyWorld(cfg, s, step); c in w'.infos && w'.infos[c].deleting
  {
    assert c in s.w.infos && s.w.infos[c].deleting && s.w.infos[c].finalizer by {
      hide ApplyWorld, ApplyWorkers, ApplyHistory;
      assert InfoOk(s.w, s.h, c);
    }
    hide Inv, Call;
    if step.Work? {
      DeletingKept(cfg, s, step.k, c);
    }
  }

  lemma ReleasingStep(cfg: Config, s: Sys, step: Step)
    requires Inv(cfg, s) && Enabled(cfg, s, step)
    ensures ReleasingOk(Apply(cfg, s, step))
  {
    hide ApplyWorld, ApplyWorkers, ApplyHistory, ApplyReleasing, Inv;
    forall c | c in Apply(cfg, s, step).releasing
      ensures c in Apply(cfg, s, step).w.infos && Apply(cfg, s, step).w.infos[c].deleting
    {
      ReleasingStays(cfg, s, step, c);
    }
  }

  /** The invariant is inductive, for any pipeline that has the Workspace subroutine. */
  lemma InvStep(cfg: Config, s: Sys, step: Step)
    requires Inv(cfg, s) && Enabled(cfg, s, step) && WorkspaceSub in cfg.pipeline
    ensures Inv(cfg, Apply(cfg, s, step))
  {
    TreeStep(cfg, s, step);
    AccountsStep(cfg, s, step);
    WorkspacesStep(cfg, s, step);
    InfosStep(cfg, s, step);
    HistoryOkStep(cfg, s, step);
    WorkersStep(cfg, s, step);
    ReleasingStep(cfg, s, step);
  }

  lemma {:induction false} InvRun(cfg: Config, s: Sys, steps: seq<Step>)
    requires Inv(cfg, s) && CanRun(cfg, s, steps) && WorkspaceSub in cfg.pipeline
    ensures Inv(cfg, Exec(cfg, s, steps))
    decreases |steps|
  {
    if steps != [] {
      InvStep(cfg, s, steps[0]);
      InvRun(cfg, Apply(cfg, s, steps[0]), steps[1..]);
    }
  }
}
