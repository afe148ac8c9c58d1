/** The operator at work: any number of workers, one per account, each between two API calls,
    with users, kcp and the external writers acting in between. */
module System {
  import opened Wrappers
  import opened Naming
  import opened Admission
  import opened Model
  import opened WorkspaceTypes
  import opened Program

  /** A pass under way: the account as it was read at the start, the subroutines still to come
      after the current one, and the next call. */
  datatype Worker = Worker(instance: Account, rest: seq<Sub>, pc: Pc)

  /** What an organization shares with its whole tree. */
  datatype Shared = Shared(organization: Location, fga: string, oidc: Option<Oidc>)

  function SharedOf(spec: InfoSpec): Shared {
    Shared(spec.organization, spec.fga, spec.oidc)
  }

  /** Bookkeeping for the statements, which no step reads: past[o] lists everything organization
      cluster o ever shared; version[c] is the entry that the AccountInfo in c last held; read[k]
      the entry that the worker at k last read from its parent. */
  datatype History = History(past: map<ClusterId, seq<Shared>>, version: map<ClusterId, nat>,
                             read: map<Key, nat>)

  /** ca is the CA that the running operator was started with; releasing holds the clusters whose
      AccountInfo is between the listing of accounts, which found none, and the removal of its
      finalizer. */
  datatype Sys = Sys(w: World, ca: string, workers: map<Key, Worker>, releasing: set<ClusterId>, h: History)

  datatype Step =
    // the operator is started again, perhaps with another CA
    | Restart(ca: string)
    // account reconciler
    | Begin(k: Key, finalize: Option<Finalizer>)
    | Work(k: Key)
    | Fail(k: Key)
    // AccountInfo reconciler
    | InfoFinalizer(c: ClusterId)
    | InfoList(c: ClusterId)
    | InfoRelease(c: ClusterId)
    // users
    | CreateAccount(k: Key, kind: string)
    | DeleteAccount(k: Key)
    | RequestDeletion(k: Key)
    // kcp
    | Schedule(k: Key, c: ClusterId, url: string)
    | SetPhase(k: Key, phase: Phase)
    | RemoveWorkspace(k: Key)
    | DeleteInfo(c: ClusterId)
    | TypeReady(name: string)
    // external writers
    | External(c: ClusterId, fga: string, oidc: Option<Oidc>)
    | ChangeTypes(types: map<string, WorkspaceType>)

  // ----- workers -----

  /** The finalizers that the lifecycle puts on an account before it processes it. */
  function Needed(cfg: Config, a: Account): set<Finalizer> {
    (if WorkspaceSub in cfg.pipeline then {WorkspaceFinalizer} else {}) +
    (if WorkspaceTypeSub in cfg.pipeline && a.kind == ORG then {TypeFinalizer} else {})
  }

  /** On to the next subroutine that has something to do. */
  function Advance(k: Key, a: Account, rest: seq<Sub>): Option<Worker> {
    if rest == [] then None
    else
      match Entry(k, a, rest[0])
      case None => Advance(k, a, rest[1..])
      case Some(pc) => Some(Worker(a, rest[1..], pc))
  }

  function AfterOk(k: Key, wk: Worker): Option<Worker> {
    match wk.pc
    case FinWsGet => Some(Worker(wk.instance, [], FinRelease(WorkspaceFinalizer)))
    case FinTypeDelete(_) => Some(Worker(wk.instance, [], FinRelease(TypeFinalizer)))
    case FinRelease(_) => None
    case _ => Advance(k, wk.instance, wk.rest)
  }

  function AfterCall(k: Key, wk: Worker, signal: Signal): Option<Worker> {
    match signal
    case Go(pc) => Some(wk.(pc := pc))
    case Ok => AfterOk(k, wk)
    case Requeue => None
    case Error => None
  }

  function SetWorker(workers: map<Key, Worker>, k: Key, wk: Option<Worker>): map<Key, Worker> {
    if wk.Some? then workers[k := wk.value] else workers - {k}
  }

  // ----- history -----

  function Past(h: History, o: ClusterId): seq<Shared> {
    if o in h.past then h.past[o] else []
  }

  /** The AccountInfo of organization cluster o was written. */
  function Log(h: History, w: World, o: ClusterId): History {
    if o !in w.infos then h
    else h.(past := h.past[o := Past(h, o) + [SharedOf(w.infos[o].spec)]],
            version := h.version[o := |Past(h, o)|])
  }

  function Note(h: History, w: World, k: Key, pc: Pc, w': World, signal: Signal): History {
    match pc
    case AiParentGet(_) =>
      if k.cluster in h.version then h.(read := h.read[k := h.version[k.cluster]]) else h
    case AiPut(self, parent, _) =>
      if parent.None? then (if w'.infos != w.infos then Log(h, w', self.generated) else h)
      else if signal.Ok? && k in h.read then h.(version := h.version[self.generated := h.read[k]])
      else h
    case _ => h
  }

  // ----- steps -----

  predicate NoAccounts(w: World, c: ClusterId) {
    forall k :: k in w.accounts ==> k.cluster != c
  }

  predicate NoWorkspaces(w: World, c: ClusterId) {
    forall k :: k in w.workspaces ==> k.cluster != c
  }

  predicate Empty(w: World, c: ClusterId) {
    NoAccounts(w, c) && NoWorkspaces(w, c) && c !in w.infos
  }

  predicate IsOrgCluster(w: World, c: ClusterId) {
    c in w.clusters && w.clusters[c].host.cluster == ORGS
  }

  predicate Enabled(cfg: Config, s: Sys, step: Step) {
    var w := s.w;
    match step
    case Restart(_) => true
    case Begin(k, f) =>
      k in w.accounts && k !in s.workers &&
      (if w.accounts[k].deleting then f.Some? && f.value in w.accounts[k].finalizers else f.None?)
    case Work(k) => k in s.workers
    case Fail(k) => k in s.workers
    case InfoFinalizer(c) => c in w.infos && !w.infos[c].deleting && !w.infos[c].finalizer
    case InfoList(c) => c in w.infos && w.infos[c].deleting && NoAccounts(w, c)
    case InfoRelease(c) => c in s.releasing
    case CreateAccount(k, kind) =>
      k !in w.accounts && Open(w, k.cluster) && Validate(cfg.validator, k.name, kind) == Allowed &&
      (kind == ORG ==> k.cluster == ORGS)
    case DeleteAccount(k) => k in w.accounts
    case RequestDeletion(k) => k in w.workspaces
    case Schedule(k, c, url) =>
      k in w.workspaces && w.workspaces[k].placement.None? && k in w.accounts && c != ORGS &&
      forall c' :: c' in w.clusters ==> c' < c
    case SetPhase(k, p) =>
      k in w.workspaces &&
      (p == Initializing || p == Ready ==> w.workspaces[k].placement.Some?) &&
      (p == Ready ==> w.workspaces[k].phase == Ready || w.workspaces[k].placement.value.cluster in w.infos)
    case RemoveWorkspace(k) =>
      k in w.workspaces && w.workspaces[k].deleting &&
      (w.workspaces[k].placement.Some? ==> Empty(w, w.workspaces[k].placement.value.cluster))
    case DeleteInfo(c) => c in w.infos
    case TypeReady(n) => n in w.types
    case External(c, fga, oidc) => c in w.infos && IsOrgCluster(w, c)
    case ChangeTypes(types) => true
  }

  function BeginAccount(cfg: Config, a: Account): Account {
    if a.deleting then a else a.(finalizers := a.finalizers + Needed(cfg, a))
  }

  function BeginWorker(cfg: Config, k: Key, a: Account, f: Option<Finalizer>): Option<Worker> {
    match f
    case None => Advance(k, a, cfg.pipeline)
    case Some(WorkspaceFinalizer) => Some(Worker(a, [], FinWsGet))
    case Some(TypeFinalizer) => Some(Worker(a, [], FinTypeDelete(OrgRole)))
  }

  function MarkAccount(w: World, k: Key): World
    requires k in w.accounts
  {
    var a := w.accounts[k];
    w.(accounts := if a.finalizers == {} then w.accounts - {k} else w.accounts[k := a.(deleting := true)])
  }

  function PutWorkspace(w: World, k: Key, ws: Workspace): World {
    w.(workspaces := w.workspaces[k := ws.(rv := w.rv)], rv := w.rv + 1)
  }

  function ApplyWorld(cfg: Config, s: Sys, step: Step): World
    requires Enabled(cfg, s, step)
  {
    var w := s.w;
    match step
    case Restart(_) => w
    case Begin(k, _) => w.(accounts := w.accounts[k := BeginAccount(cfg, w.accounts[k])])
    case Work(k) => Call(s.ca, w, k, s.workers[k].instance, s.workers[k].pc).0
    case Fail(_) => w
    case InfoFinalizer(c) => PutInfo(w, c, w.infos[c].spec, true, false)
    case InfoList(_) => w
    case InfoRelease(c) => w.(infos := w.infos - {c})
    case CreateAccount(k, kind) =>
      w.(accounts := w.accounts[k := Account(w.uid, kind, {}, false)], uid := w.uid + 1)
    case DeleteAccount(k) => MarkAccount(w, k)
    case RequestDeletion(k) => DeleteWorkspace(w, k)
    case Schedule(k, c, url) =>
      PutWorkspace(w, k, w.workspaces[k].(placement := Some(Placement(c, url))))
      .(clusters := w.clusters[c := Place(k, url, w.accounts[k].kind)])
    case SetPhase(k, p) => PutWorkspace(w, k, w.workspaces[k].(phase := p))
    case RemoveWorkspace(k) => w.(workspaces := w.workspaces - {k})
    case DeleteInfo(c) =>
      if w.infos[c].finalizer then PutInfo(w, c, w.infos[c].spec, true, true)
      else w.(infos := w.infos - {c})
    case TypeReady(n) => w.(types := w.types[n := w.types[n].(ready := true)])
    case External(c, fga, oidc) =>
      PutInfo(w, c, w.infos[c].spec.(fga := fga, oidc := oidc), w.infos[c].finalizer, w.infos[c].deleting)
    case ChangeTypes(types) => w.(types := types)
  }

  function ApplyWorkers(cfg: Config, s: Sys, step: Step): map<Key, Worker>
    requires Enabled(cfg, s, step)
  {
    match step
    case Restart(_) => map[]
    case Begin(k, f) => SetWorker(s.workers, k, BeginWorker(cfg, k, BeginAccount(cfg, s.w.accounts[k]), f))
    case Work(k) =>
      var wk := s.workers[k];
      SetWorker(s.workers, k, AfterCall(k, wk, Call(s.ca, s.w, k, wk.instance, wk.pc).1))
    case Fail(k) => s.workers - {k}
    case _ => s.workers
  }

  function ApplyHistory(cfg: Config, s: Sys, step: Step): History
    requires Enabled(cfg, s, step)
  {
    match step
    case Work(k) =>
      var wk := s.workers[k];
      var (w', signal) := Call(s.ca, s.w, k, wk.instance, wk.pc);
      Note(s.h, s.w, k, wk.pc, w', signal)
    case External(c, _, _) => Log(s.h, ApplyWorld(cfg, s, step), c)
    case _ => s.h
  }

  function ApplyReleasing(s: Sys, step: Step): set<ClusterId> {
    match step
    case Restart(_) => {}
    case InfoList(c) => s.releasing + {c}
    case InfoRelease(c) => s.releasing - {c}
    case _ => s.releasing
  }

  function Apply(cfg: Config, s: Sys, step: Step): Sys
    requires Enabled(cfg, s, step)
  {
    var w' := ApplyWorld(cfg, s, step);
    Sys(w', if step.Restart? then step.ca else s.ca, ApplyWorkers(cfg, s, step), ApplyReleasing(s, step),
        ApplyHistory(cfg, s, step))
  }

  // ----- runs -----

  predicate CanRun(cfg: Config, s: Sys, steps: seq<Step>)
    decreases |steps|
  {
    steps == [] || (Enabled(cfg, s, steps[0]) && CanRun(cfg, Apply(cfg, s, steps[0]), steps[1..]))
  }

  function Exec(cfg: Config, s: Sys, steps: seq<Step>): Sys
    requires CanRun(cfg, s, steps)
    decreases |steps|
  {
    if steps == [] then s else Exec(cfg, Apply(cfg, s, steps[0]), steps[1..])
  }

  /** An empty platform with whatever workspace types it may have, and an operator not yet given a CA. */
  function Init(types: map<string, WorkspaceType>): Sys {
    var w := World(map[], map[], map[], types, map[], 0, 0);
    Sys(w, "", map[], {}, History(map[], map[], map[]))
  }
}
