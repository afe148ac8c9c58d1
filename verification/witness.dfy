/** Runs from an empty platform, for every organization name that the webhook admits: two that lose
    an AccountInfo with an account beside it, and one that creates a workspace of a type that is gone. */
module Witness {
  import opened Wrappers
  import opened Naming
  import opened WorkspaceUrl
  import opened Admission
  import opened Model
  import opened WorkspaceTypes
  import opened Program
  import opened System
  import opened Invariant
  import opened Preserve
  import opened Ranking
  import opened Progress
  import opened Safety
  import opened Typing
  import opened Window

  // ----- building runs -----

  lemma {:induction false} Extend(cfg: Config, s: Sys, steps: seq<Step>, step: Step)
    requires CanRun(cfg, s, steps) && Enabled(cfg, Exec(cfg, s, steps), step)
    ensures CanRun(cfg, s, steps + [step]) && Exec(cfg, s, steps + [step]) == Apply(cfg, Exec(cfg, s, steps), step)
    decreases |steps|
  {
    hide Apply, Enabled;
    if steps == [] {
      assert [step][1..] == [] && [] + [step] == [step];
    } else {
      Extend(cfg, Apply(cfg, s, steps[0]), steps[1..], step);
      assert (steps + [step])[1..] == steps[1..] + [step];
    }
  }

  /** One call of the worker at k. */
  lemma Works(cfg: Config, types: map<string, WorkspaceType>, steps: seq<Step>, k: Key) returns (more: seq<Step>)
    requires IsRun(cfg, types, steps) && k in At(cfg, types, steps).workers
    ensures more == steps + [Step.Work(k)] && IsRun(cfg, types, more)
    ensures var (s, s') := (At(cfg, types, steps), At(cfg, types, more));
            var (w', signal) := Call(s.ca, s.w, k, s.workers[k].instance, s.workers[k].pc);
            && s'.w == w' && s'.ca == s.ca
            && s'.workers == SetWorker(s.workers, k, AfterCall(k, s.workers[k], signal))
  {
    more := steps + [Step.Work(k)];
    hide Call;
    Extend(cfg, Init(types), steps, Step.Work(k));
  }

  /** What is there of the organization at k while its first pass goes on. */
  ghost predicate Underway(s: Sys, k: Key, pc: Pc) {
    && k.cluster == ORGS && s.w.clusters == map[] && s.w.infos == map[]
    && s.w.accounts.Keys == {k} && s.w.accounts[k].kind == ORG && !s.w.accounts[k].deleting
    && k in s.workers && s.workers[k] == Worker(s.w.accounts[k], match pc
         case WsTypeGet(_) => FROM_INFO
         case WsGet(_) => FROM_INFO
         case WsPut(_, _) => FROM_INFO
         case TypeGet(_) => FROM_WORKSPACE
         case TypePut(_, _) => FROM_WORKSPACE
         case _ => FROM_READY, pc)
  }

  /** The first pass begins. */
  lemma Begins(cfg: Config, ca: string, name: string) returns (steps: seq<Step>)
    requires cfg.pipeline == STANDARD && Validate(cfg.validator, name, ORG) == Allowed
    ensures IsRun(cfg, map[], steps)
    ensures var s := At(cfg, map[], steps);
            && s.ca == ca && Underway(s, Key(ORGS, name), TypeGet(OrgRole))
            && s.w.workspaces == map[] && s.w.types == map[]
  {
    var k := Key(ORGS, name);
    var s1 := Apply(cfg, Init(map[]), Restart(ca));
    var s2 := Apply(cfg, s1, CreateAccount(k, ORG));
    assert STANDARD[1..] == FROM_WORKSPACE;
    steps := [Restart(ca), CreateAccount(k, ORG), Begin(k, None)];
    assert steps[1..] == [CreateAccount(k, ORG), Begin(k, None)];
    assert steps[1..][1..] == [Begin(k, None)] && [Begin(k, None)][1..] == [];
    assert CanRun(cfg, s2, [Begin(k, None)]);
    assert CanRun(cfg, s1, steps[1..]);
    var s3 := Apply(cfg, s2, Begin(k, None));
    assert Exec(cfg, s2, [Begin(k, None)]) == s3;
    assert Exec(cfg, s1, steps[1..]) == s3;
  }

  /** It creates its two types, of which the first becomes Ready, and comes to the readiness check. */
  lemma ReachesCheck(cfg: Config, ca: string, name: string) returns (steps: seq<Step>)
    requires cfg.pipeline == STANDARD && Validate(cfg.validator, name, ORG) == Allowed
    ensures IsRun(cfg, map[], steps)
    ensures var s := At(cfg, map[], steps); var k := Key(ORGS, name);
            && s.ca == ca && Underway(s, k, WsTypeGet(TypeName(name, ORG))) && s.w.workspaces == map[]
            && IsReady(s.w, TypeName(name, ORG))
  {
    var (k, n) := (Key(ORGS, name), TypeName(name, ORG));
    steps := Begins(cfg, ca, name);
    RoleNameInjective(OrgRole, name, AccountRole, name);
    assert FROM_WORKSPACE[1..] == FROM_INFO;
    hide Generate, CanRun, Exec, Apply, Enabled, Init;
    steps := Works(cfg, map[], steps, k);
    assert Underway(At(cfg, map[], steps), k, TypePut(OrgRole, None));
    steps := Works(cfg, map[], steps, k);
    assert Underway(At(cfg, map[], steps), k, TypeGet(AccountRole)) && n in At(cfg, map[], steps).w.types;
    steps := Works(cfg, map[], steps, k);
    assert Underway(At(cfg, map[], steps), k, TypePut(AccountRole, None)) && n in At(cfg, map[], steps).w.types;
    steps := Works(cfg, map[], steps, k);
    assert Underway(At(cfg, map[], steps), k, WsTypeGet(n)) && n in At(cfg, map[], steps).w.types;
    steps := BecomesReady(cfg, steps, k, n);
  }

  lemma BecomesReady(cfg: Config, steps: seq<Step>, k: Key, n: string) returns (more: seq<Step>)
    requires IsRun(cfg, map[], steps)
    requires var s := At(cfg, map[], steps);
             Underway(s, k, WsTypeGet(n)) && s.w.workspaces == map[] && n in s.w.types
    ensures IsRun(cfg, map[], more)
    ensures var (s, s') := (At(cfg, map[], steps), At(cfg, map[], more));
            s'.ca == s.ca && Underway(s', k, WsTypeGet(n)) && s'.w.workspaces == map[] && IsReady(s'.w, n)
  {
    more := steps + [TypeReady(n)];
    Extend(cfg, Init(map[]), steps, TypeReady(n));
  }

  // ----- losing readiness between check and write -----

  lemma Taken(cfg: Config, steps: seq<Step>, k: Key, n: string) returns (more: seq<Step>)
    requires IsRun(cfg, map[], steps)
    requires var s := At(cfg, map[], steps); Underway(s, k, WsGet(n)) && s.w.workspaces == map[]
    ensures more == steps + [ChangeTypes(map[])] && IsRun(cfg, map[], more)
    ensures var s' := At(cfg, map[], more); Underway(s', k, WsGet(n)) && s'.w.workspaces == map[] && s'.w.types == map[]
  {
    more := steps + [ChangeTypes(map[])];
    Extend(cfg, Init(map[]), steps, ChangeTypes(map[]));
  }

  /** The check and the write are two calls: the type may be gone at the write. */
  lemma TypeGoneAtWrite(cfg: Config, ca: string, name: string) returns (steps: seq<Step>)
    requires cfg.pipeline == STANDARD && Validate(cfg.validator, name, ORG) == Allowed
    ensures IsRun(cfg, map[], steps) && steps != [] && IsRun(cfg, map[], steps[..|steps| - 1])
    ensures var k := Key(ORGS, name);
            var (before, after) := (At(cfg, map[], steps[..|steps| - 1]).w, At(cfg, map[], steps).w);
            && k !in before.workspaces && !IsReady(before, TypeName(name, ORG))
            && k in after.workspaces && after.workspaces[k].wsType == Some(TypeRef(TypeName(name, ORG), ORGS_PATH))
  {
    var (k, n) := (Key(ORGS, name), TypeName(name, ORG));
    steps := ReachesCheck(cfg, ca, name);
    hide CanRun, Exec, Apply, Enabled, Init;
    steps := Works(cfg, map[], steps, k);
    steps := Taken(cfg, steps, k, n);
    steps := Works(cfg, map[], steps, k);
    var last := Works(cfg, map[], steps, k);
    assert last[..|last| - 1] == steps;
    steps := last;
  }

  // ----- an AccountInfo without its finalizer -----

  lemma WorkspaceCreated(cfg: Config, ca: string, name: string) returns (steps: seq<Step>)
    requires cfg.pipeline == STANDARD && Validate(cfg.validator, name, ORG) == Allowed
    ensures IsRun(cfg, map[], steps)
    ensures var s := At(cfg, map[], steps); var k := Key(ORGS, name);
            && Underway(s, k, AiWsGet) && k in s.w.workspaces
            && s.w.workspaces[k].placement == None && !s.w.workspaces[k].deleting
  {
    var (k, n) := (Key(ORGS, name), TypeName(name, ORG));
    steps := ReachesCheck(cfg, ca, name);
    assert FROM_INFO[1..] == FROM_READY;
    hide CanRun, Exec, Apply, Enabled, Init;
    steps := Works(cfg, map[], steps, k);
    assert Underway(At(cfg, map[], steps), k, WsGet(n));
    steps := Works(cfg, map[], steps, k);
    assert Underway(At(cfg, map[], steps), k, WsPut(n, None));
    steps := Works(cfg, map[], steps, k);
  }

  lemma Placed(cfg: Config, steps: seq<Step>, k: Key, url: string) returns (more: seq<Step>)
    requires IsRun(cfg, map[], steps)
    requires var s := At(cfg, map[], steps);
             && Underway(s, k, AiWsGet) && k in s.w.workspaces
             && s.w.workspaces[k].placement == None && !s.w.workspaces[k].deleting
    ensures IsRun(cfg, map[], more)
    ensures var s := At(cfg, map[], more);
            PlacedAt(s, k, url) && s.workers[k].pc == AiWsGet && s.w.infos == map[]
  {
    var schedule := steps + [Schedule(k, 1, url)];
    Extend(cfg, Init(map[]), steps, Schedule(k, 1, url));
    assert At(cfg, map[], schedule).w.workspaces[k].placement.Some?;
    more := schedule + [SetPhase(k, Initializing)];
    Extend(cfg, Init(map[]), schedule, SetPhase(k, Initializing));
  }

  ghost predicate PlacedAt(s: Sys, k: Key, url: string) {
    && k.cluster == ORGS && s.w.accounts.Keys == {k}
    && k in s.w.workspaces && s.w.workspaces[k].placement == Some(Placement(1, url))
    && s.w.workspaces[k].phase == Initializing && !s.w.workspaces[k].deleting
    && 1 in s.w.clusters && s.w.clusters[1] == Place(k, url, ORG)
    && k in s.workers && s.workers[k].instance.kind == ORG
  }

  lemma RecordWritten(cfg: Config, steps: seq<Step>, k: Key, url: string, path: string) returns (more: seq<Step>)
    requires IsRun(cfg, map[], steps) && WorkspacePath(url) == Some(path)
    requires var s := At(cfg, map[], steps); PlacedAt(s, k, url) && s.workers[k].pc == AiWsGet && s.w.infos == map[]
    ensures IsRun(cfg, map[], more)
    ensures var s := At(cfg, map[], more);
            1 in s.w.infos && !s.w.infos[1].finalizer && Open(s.w, 1) && s.w.accounts.Keys == {k}
  {
    var self := Location(k.name, 1, ORGS, path, url, ORG);
    hide CanRun, Exec, Apply, Enabled, Init, WorkspacePath;
    more := Works(cfg, map[], steps, k);
    assert PlacedAt(At(cfg, map[], more), k, url) && At(cfg, map[], more).workers[k].pc == AiOwnGet(self, None);
    more := Works(cfg, map[], more, k);
    assert PlacedAt(At(cfg, map[], more), k, url) && At(cfg, map[], more).workers[k].pc == AiPut(self, None, None);
    more := Works(cfg, map[], more, k);
  }

  lemma InfoCreated(cfg: Config, ca: string, name: string) returns (steps: seq<Step>)
    requires cfg.pipeline == STANDARD && Validate(cfg.validator, name, ORG) == Allowed
    ensures IsRun(cfg, map[], steps)
    ensures var s := At(cfg, map[], steps);
            1 in s.w.infos && !s.w.infos[1].finalizer && Open(s.w, 1) && s.w.accounts.Keys == {Key(ORGS, name)}
  {
    steps := WorkspaceCreated(cfg, ca, name);
    assert !IsSpace("root"[0]);
    WorkspacePathRoundTrip("https:", "root");
    var url := "https:" + "/clusters/" + "root";
    hide CanRun, Exec, Apply, Enabled, Init, WorkspacePath;
    steps := Placed(cfg, steps, Key(ORGS, name), url);
    steps := RecordWritten(cfg, steps, Key(ORGS, name), url, "root");
  }

  /** From the empty platform an AccountInfo can be lost with an account beside it: it is deleted before
      the AccountInfo reconciler has put its finalizer on. */
  lemma InfoLost(cfg: Config, ca: string, name: string, child: string) returns (steps: seq<Step>, more: seq<Step>)
    requires cfg.pipeline == STANDARD && Validate(cfg.validator, name, ORG) == Allowed
    requires Validate(cfg.validator, child, ACCOUNT) == Allowed
    ensures IsRun(cfg, map[], steps)
    ensures var s := At(cfg, map[], steps);
            && 1 in s.w.infos && !s.w.infos[1].finalizer && Key(1, child) in s.w.accounts
            && CanRun(cfg, s, more) && Loses(cfg, s, more, 1)
  {
    steps := InfoCreated(cfg, ca, name);
    var create := CreateAccount(Key(1, child), ACCOUNT);
    assert ORG != ACCOUNT by { assert |ORG| != |ACCOUNT|; }
    Extend(cfg, Init(map[]), steps, create);
    steps := steps + [create];
    more := LostAtOnce(cfg, At(cfg, map[], steps), 1);
  }

  /** And with its finalizer on: deleted while there are no accounts, it is released after a listing that
      misses the account created just then. */
  lemma FinalizedInfoLost(cfg: Config, ca: string, name: string) returns (steps: seq<Step>, more: seq<Step>)
    requires cfg.pipeline == STANDARD && Validate(cfg.validator, name, ORG) == Allowed &&
             ACCOUNT in cfg.validator.allowList
    ensures IsRun(cfg, map[], steps)
    ensures var s := At(cfg, map[], steps);
            && 1 in s.w.infos && s.w.infos[1].finalizer && CanRun(cfg, s, more) && Loses(cfg, s, more, 1)
  {
    steps := InfoCreated(cfg, ca, name);
    var s := At(cfg, map[], steps);
    RunInv(cfg, map[], steps);
    assert ORG != ACCOUNT by { assert |ORG| != |ACCOUNT|; }
    var step := InfoFinalizer(1);
    assert !s.w.infos[1].deleting by { assert InfoOk(s.w, s.h, 1); }
    Extend(cfg, Init(map[]), steps, step);
    steps := steps + [step];
    more := LostByCreation(cfg, At(cfg, map[], steps), 1, ACCOUNT);
  }
}
