/** Safety over whole runs: what holds in every state the platform can reach, whatever the
    schedule, the failures, the users and the external writers. */
module Safety {
  import opened Wrappers
  import opened Naming
  import opened WorkspaceUrl
  import opened Admission
  import opened Model
  import opened WorkspaceTypes
  import opened Program
  import opened System
  import opened Invariant
  import opened Preserve
  import opened Bare

  /** A run of the platform from empty. */
  ghost predicate IsRun(cfg: Config, types: map<string, WorkspaceType>, steps: seq<Step>) {
    CanRun(cfg, Init(types), steps)
  }

  ghost function At(cfg: Config, types: map<string, WorkspaceType>, steps: seq<Step>): Sys
    requires IsRun(cfg, types, steps)
  {
    Exec(cfg, Init(types), steps)
  }

  /** Every reachable state has the invariant; without the Workspace subroutine it is bare. */
  lemma RunInv(cfg: Config, types: map<string, WorkspaceType>, steps: seq<Step>)
    requires IsRun(cfg, types, steps)
    ensures if WorkspaceSub in cfg.pipeline then Inv(cfg, At(cfg, types, steps)) else BareOk(At(cfg, types, steps))
  {
    if WorkspaceSub in cfg.pipeline {
      InitInv(cfg, types);
      InvRun(cfg, Init(types), steps);
    } else {
      BareRun(cfg, types, steps);
    }
  }

  /** The prefixes of a run are runs, and the last step leads on from the one before. */
  lemma {:induction false} LastStep(cfg: Config, s: Sys, steps: seq<Step>)
    requires CanRun(cfg, s, steps) && steps != []
    ensures var (init, last) := (steps[..|steps| - 1], steps[|steps| - 1]);
            && CanRun(cfg, s, init) && Enabled(cfg, Exec(cfg, s, init), last)
            && Exec(cfg, s, steps) == Apply(cfg, Exec(cfg, s, init), last)
    decreases |steps|
  {
    if |steps| > 1 {
      LastStep(cfg, Apply(cfg, s, steps[0]), steps[1..]);
      assert steps[..|steps| - 1][1..] == steps[1..][..|steps| - 2];
    }
  }

  lemma {:induction false} Prefix(cfg: Config, s: Sys, steps: seq<Step>, n: nat)
    requires CanRun(cfg, s, steps) && n <= |steps|
    ensures CanRun(cfg, s, steps[..n])
    decreases |steps|
  {
    if n > 0 {
      Prefix(cfg, Apply(cfg, s, steps[0]), steps[1..], n - 1);
      assert steps[..n][1..] == steps[1..][..n - 1];
    }
  }

  // ----- links -----

  /** The AccountInfo in c names its own cluster, the account it stands for, the parent's location
      and the organization at the top. */
  ghost predicate Linked(w: World, c: ClusterId)
    requires c in w.infos
  {
    var (cl, spec) := (w.clusters, w.infos[c].spec);
    && c in cl && OrgOf(cl, c) in cl && cl[c].host in w.accounts
    && var k := cl[c].host;
    && spec.account.generated == c
    && spec.account.origin == k.cluster && spec.account.name == k.name
    && spec.account.kind == w.accounts[k].kind
    && WorkspacePath(spec.account.url) == Some(spec.account.path)
    && spec.organization == LocationOf(cl, OrgOf(cl, c))
    && spec.organization.kind == ORG && spec.organization.origin == ORGS
    && (spec.account.kind == ORG <==> spec.organization == spec.account)
    && (spec.account.kind == ORG <==> spec.parent == None)
    && (spec.parent.Some? ==>
          && k.cluster in cl && spec.parent.value == LocationOf(cl, k.cluster)
          && spec.parent.value.generated == spec.account.origin < c
          && OrgOf(cl, c) == OrgOf(cl, spec.account.origin))
  }

  /** Parents are older clusters, so following them ends, and it ends at the organization. */
  lemma LinkIntegrity(cfg: Config, types: map<string, WorkspaceType>, steps: seq<Step>, c: ClusterId)
    requires IsRun(cfg, types, steps) && c in At(cfg, types, steps).w.infos
    ensures Linked(At(cfg, types, steps).w, c)
  {
    RunInv(cfg, types, steps);
    if WorkspaceSub in cfg.pipeline {
      var s := At(cfg, types, steps);
      assert InfoOk(s.w, s.h, c);
      assert PlaceOk(s.w.clusters, c);
      assert WorkspaceOk(s.w, s.w.clusters[c].host);
      OwnOrganization(s.w, s.h, c);
    }
  }

  // ----- staleness -----

  /** At step n of the run, organization cluster o shared v. */
  ghost predicate SharedAt(cfg: Config, types: map<string, WorkspaceType>, steps: seq<Step>, n: nat, o: ClusterId,
                           v: Shared)
  {
    && n <= |steps| && IsRun(cfg, types, steps[..n])
    && o in At(cfg, types, steps[..n]).w.infos
    && SharedOf(At(cfg, types, steps[..n]).w.infos[o].spec) == v
  }

  /** The past of an organization lists what its AccountInfo really held. */
  lemma {:induction false} PastWasHeld(cfg: Config, types: map<string, WorkspaceType>, steps: seq<Step>, o: ClusterId,
                                       i: nat)
    requires IsRun(cfg, types, steps)
    requires i < |Past(At(cfg, types, steps).h, o)|
    ensures exists n :: SharedAt(cfg, types, steps, n, o, Past(At(cfg, types, steps).h, o)[i])
    decreases |steps|
  {
    hide Apply, Enabled, Inv;
    var s' := At(cfg, types, steps);
    if steps != [] {
      var init := steps[..|steps| - 1];
      LastStep(cfg, Init(types), steps);
      var s := At(cfg, types, init);
      RunInv(cfg, types, init);
      if WorkspaceSub !in cfg.pipeline {
        RunInv(cfg, types, steps);
        return;
      }
      PastEntry(cfg, s, steps[|steps| - 1], o, i);
      if i < |Past(s.h, o)| {
        PastWasHeld(cfg, types, init, o, i);
        var n: nat :| SharedAt(cfg, types, init, n, o, Past(s.h, o)[i]);
        assert init[..n] == steps[..n];
        assert SharedAt(cfg, types, steps, n, o, Past(s'.h, o)[i]);
      } else {
        assert steps[..|steps|] == steps;
        assert SharedAt(cfg, types, steps, |steps|, o, Past(s'.h, o)[i]);
      }
    }
  }

  /** A step adds at most what the organization's AccountInfo holds after it. */
  lemma PastEntry(cfg: Config, s: Sys, step: Step, o: ClusterId, i: nat)
    requires Inv(cfg, s) && Enabled(cfg, s, step)
    requires i < |Past(Apply(cfg, s, step).h, o)|
    ensures var s' := Apply(cfg, s, step);
            if i < |Past(s.h, o)| then Past(s'.h, o)[i] == Past(s.h, o)[i]
            else o in s'.w.infos && Past(s'.h, o)[i] == SharedOf(s'.w.infos[o].spec)
  {
    HistoryStep(cfg, s, step);
  }

  /** Untorn: organization, FGA store and OIDC of any AccountInfo were all shared by its
      organization at one and the same moment of the run. */
  lemma Untorn(cfg: Config, types: map<string, WorkspaceType>, steps: seq<Step>, c: ClusterId)
    requires IsRun(cfg, types, steps) && c in At(cfg, types, steps).w.infos
    ensures var w := At(cfg, types, steps).w;
            exists n :: SharedAt(cfg, types, steps, n, OrgOf(w.clusters, c), SharedOf(w.infos[c].spec))
  {
    RunInv(cfg, types, steps);
    if WorkspaceSub in cfg.pipeline {
      var s := At(cfg, types, steps);
      assert InfoOk(s.w, s.h, c);
      PastWasHeld(cfg, types, steps, OrgOf(s.w.clusters, c), s.h.version[c]);
    }
  }

  /** Monotone: no AccountInfo is ahead of its parent's, the organization's is the newest, and a
      step never takes a version back, not even by removing the record and writing it anew. */
  lemma Monotone(cfg: Config, types: map<string, WorkspaceType>, steps: seq<Step>, step: Step, c: ClusterId)
    requires IsRun(cfg, types, steps) && Enabled(cfg, At(cfg, types, steps), step)
    requires c in At(cfg, types, steps).w.infos
    ensures var s := At(cfg, types, steps); var s' := Apply(cfg, s, step);
            && c in s.w.clusters && c in s.h.version && c in s'.h.version
            && s.h.version[c] < |Past(s.h, OrgOf(s.w.clusters, c))| && s.h.version[c] <= s'.h.version[c]
            && var k := s.w.clusters[c].host;
            && (k.cluster == ORGS ==> s.h.version[c] == |Past(s.h, c)| - 1)
            && (k.cluster != ORGS ==> k.cluster in s.h.version && s.h.version[c] <= s.h.version[k.cluster])
            && SharedOf(s.w.infos[c].spec) == Past(s.h, OrgOf(s.w.clusters, c))[s.h.version[c]]
            && Past(s.h, OrgOf(s.w.clusters, c)) <= Past(s'.h, OrgOf(s.w.clusters, c))
  {
    RunInv(cfg, types, steps);
    if WorkspaceSub in cfg.pipeline {
      var s := At(cfg, types, steps);
      HistoryStep(cfg, s, step);
      assert InfoOk(s.w, s.h, c);
      assert VersionOk(s.w.clusters, s.h, c);
    }
  }

  // ----- lost updates -----

  /** What was right in a location when it was read is still right. */
  predicate NotUndone(cur: Location, got: Location, self: Location) {
    && (got.name == self.name ==> cur.name == self.name)
    && (got.generated == self.generated ==> cur.generated == self.generated)
    && (got.origin == self.origin ==> cur.origin == self.origin)
    && (got.path == self.path ==> cur.path == self.path)
    && (got.url == self.url ==> cur.url == self.url)
    && (got.kind == self.kind ==> cur.kind == self.kind)
  }

  /** What a patch of an organization's record does, whatever was read and whatever is there by then:
      the external fields are always those of the record at the time of the patch, and the managed
      ones are right exactly when nobody has meanwhile undone one that was right when read. */
  lemma PatchKeepsExternal(cur: InfoSpec, got: InfoSpec, self: Location, ca: string)
    ensures var p := PatchSpec(cur, got, OrgSpec(got, self, ca));
            && p.fga == cur.fga && p.oidc == cur.oidc
            && (p == OrgSpec(p, self, ca) <==>
                && NotUndone(cur.account, got.account, self)
                && NotUndone(cur.organization, got.organization, self)
                && (got.parent == None ==> cur.parent == None)
                && (got.ca == ca ==> cur.ca == ca))
  {
  }

  /** No step but an external write changes the FGA store or OIDC of an organization, and of the rest
      only the CA ever changes, to that of the running operator. */
  lemma ExternalFieldsKept(cfg: Config, s: Sys, step: Step, c: ClusterId)
    requires Inv(cfg, s) && Enabled(cfg, s, step) && IsOrgCluster(s.w, c)
    requires c in s.w.infos && c in ApplyWorld(cfg, s, step).infos
    requires !(step.External? && step.c == c)
    ensures var (spec, spec') := (s.w.infos[c].spec, ApplyWorld(cfg, s, step).infos[c].spec);
            spec' == spec || spec' == spec.(ca := s.ca)
  {
    if step.Work? {
      var wk := s.workers[step.k];
      assert WorkerOk(s.w, s.h, step.k, wk);
      CallInfos(s.ca, s.w, step.k, wk.instance, wk.pc);
      if wk.pc.AiPut? && wk.pc.self.generated == c {
        assert PlaceOk(s.w.clusters, c);
      }
    }
  }

  ghost predicate PresentThroughout(cfg: Config, s: Sys, steps: seq<Step>, c: ClusterId)
    requires CanRun(cfg, s, steps)
    decreases |steps|
  {
    c in s.w.infos && (steps != [] ==> PresentThroughout(cfg, Apply(cfg, s, steps[0]), steps[1..], c))
  }

  lemma {:induction false} FieldsKept(cfg: Config, s: Sys, steps: seq<Step>, c: ClusterId)
    requires Inv(cfg, s) && CanRun(cfg, s, steps) && WorkspaceSub in cfg.pipeline && IsOrgCluster(s.w, c)
    requires PresentThroughout(cfg, s, steps, c)
    requires forall i :: 0 <= i < |steps| ==> !(steps[i].External? && steps[i].c == c)
    ensures var s' := Exec(cfg, s, steps);
            && c in s'.w.infos && s'.w.infos[c].spec == s.w.infos[c].spec.(ca := s'.w.infos[c].spec.ca)
    decreases |steps|
  {
    if steps != [] {
      InvStep(cfg, s, steps[0]);
      TreeStep(cfg, s, steps[0]);
      ExternalFieldsKept(cfg, s, steps[0], c);
      assert forall i :: 0 <= i < |steps[1..]| ==> steps[1..][i] == steps[i + 1];
      FieldsKept(cfg, Apply(cfg, s, steps[0]), steps[1..], c);
    }
  }

  /** Between external writes, however the operator's reads and patches interleave with everything else
      and however often it is started again with another CA, what the external writer left in an
      organization's AccountInfo stays, and so do the record's own location and organization. */
  lemma NoLostUpdate(cfg: Config, types: map<string, WorkspaceType>, before: seq<Step>, steps: seq<Step>, c: ClusterId)
    requires IsRun(cfg, types, before) && CanRun(cfg, At(cfg, types, before), steps)
    requires IsOrgCluster(At(cfg, types, before).w, c) && PresentThroughout(cfg, At(cfg, types, before), steps, c)
    requires forall i :: 0 <= i < |steps| ==> !(steps[i].External? && steps[i].c == c)
    ensures var s := At(cfg, types, before); var s' := Exec(cfg, s, steps);
            && c in s'.w.infos
            && var (spec, spec') := (s.w.infos[c].spec, s'.w.infos[c].spec);
            && spec'.fga == spec.fga && spec'.oidc == spec.oidc
            && spec' == OrgSpec(spec', LocationOf(s.w.clusters, c), spec'.ca)
  {
    RunInv(cfg, types, before);
    if WorkspaceSub in cfg.pipeline {
      var s := At(cfg, types, before);
      FieldsKept(cfg, s, steps, c);
      assert InfoOk(s.w, s.h, c);
      assert PlaceOk(s.w.clusters, c);
      OwnOrganization(s.w, s.h, c);
    }
  }

  lemma OrgPut(ca: string, w: World, h: History, k: Key, wk: Worker)
    requires PcOk(w, h, k, wk.instance, wk.pc) && wk.pc.AiPut? && wk.pc.parent.None?
    requires Call(ca, w, k, wk.instance, wk.pc).1.Ok?
    ensures var w' := Call(ca, w, k, wk.instance, wk.pc).0; var c := wk.pc.self.generated;
            && w'.clusters == w.clusters && c in w.clusters && w.clusters[c].host == k
            && (c in w'.infos ==>
                  && w'.infos[c].spec == OrgSpec(w'.infos[c].spec, LocationOf(w.clusters, c), ca)
                  && (c in w.infos ==>
                        w'.infos[c].spec.fga == w.infos[c].spec.fga && w'.infos[c].spec.oidc == w.infos[c].spec.oidc))
  {
    hide LocationOf, Past;
  }

  /** When ManageAccountInfo says OK for an organization, all that the operator manages on its record
      is right, and the external fields are those that were there. */
  lemma OrgPassRight(cfg: Config, types: map<string, WorkspaceType>, steps: seq<Step>, k: Key)
    requires IsRun(cfg, types, steps) && k in At(cfg, types, steps).workers
    requires var s := At(cfg, types, steps); var wk := s.workers[k];
             wk.pc.AiPut? && wk.pc.parent.None? && Call(s.ca, s.w, k, wk.instance, wk.pc).1.Ok?
    ensures var s := At(cfg, types, steps); var w' := Apply(cfg, s, Step.Work(k)).w;
            var c := s.workers[k].pc.self.generated;
            c in w'.infos ==>
              && c in w'.clusters && w'.clusters[c].host == k
              && w'.infos[c].spec == OrgSpec(w'.infos[c].spec, LocationOf(w'.clusters, c), s.ca)
              && (c in s.w.infos ==>
                    w'.infos[c].spec.fga == s.w.infos[c].spec.fga && w'.infos[c].spec.oidc == s.w.infos[c].spec.oidc)
  {
    RunInv(cfg, types, steps);
    var s := At(cfg, types, steps);
    if WorkspaceSub in cfg.pipeline {
      assert WorkerOk(s.w, s.h, k, s.workers[k]);
      OrgPut(s.ca, s.w, s.h, k, s.workers[k]);
    }
    hide Inv, Call, Exec, CanRun;
  }

  // ----- no orphans -----

  /** All the way up to root:orgs: the hosting workspace is there, and so is its owner, which its
      finalizer keeps there. */
  ghost predicate Anchored(w: World, k: Key)
    decreases k.cluster
  {
    k.cluster == ORGS ||
    (Hosted(w, k.cluster) &&
     var host := w.clusters[k.cluster].host;
     && host.cluster < k.cluster
     && host in w.accounts && WorkspaceFinalizer in w.accounts[host].finalizers
     && w.workspaces[host].owner == Some(w.accounts[host].uid)
     && Anchored(w, host))
  }

  lemma {:induction false} InvAnchored(cfg: Config, s: Sys, k: Key)
    requires Inv(cfg, s) && k in s.w.accounts
    ensures Anchored(s.w, k)
    decreases k.cluster
  {
    assert AccountOk(s.w, k);
    if k.cluster != ORGS {
      var host := s.w.clusters[k.cluster].host;
      assert PlaceOk(s.w.clusters, k.cluster);
      assert WorkspaceOk(s.w, host);
      InvAnchored(cfg, s, host);
    }
  }

  /** No orphans: in every reachable state every account, workspace and AccountInfo hangs from an
      unbroken chain of workspaces and their owners. */
  lemma NoOrphans(cfg: Config, types: map<string, WorkspaceType>, steps: seq<Step>)
    requires IsRun(cfg, types, steps)
    ensures var w := At(cfg, types, steps).w;
            && (forall k :: k in w.accounts ==> Anchored(w, k))
            && (forall k :: k in w.workspaces ==>
                  && k in w.accounts && WorkspaceFinalizer in w.accounts[k].finalizers
                  && w.workspaces[k].owner == Some(w.accounts[k].uid))
            && (forall c :: c in w.infos ==> c in w.clusters && Hosted(w, c) && w.clusters[c].host in w.accounts)
  {
    RunInv(cfg, types, steps);
    if WorkspaceSub in cfg.pipeline {
      var s := At(cfg, types, steps);
      forall k | k in s.w.accounts ensures Anchored(s.w, k) {
        InvAnchored(cfg, s, k);
      }
      forall k | k in s.w.workspaces
        ensures && k in s.w.accounts && WorkspaceFinalizer in s.w.accounts[k].finalizers
                && s.w.workspaces[k].owner == Some(s.w.accounts[k].uid)
      {
        assert WorkspaceOk(s.w, k);
      }
      forall c | c in s.w.infos
        ensures c in s.w.clusters && Hosted(s.w, c) && s.w.clusters[c].host in s.w.accounts
      {
        assert InfoOk(s.w, s.h, c);
        assert WorkspaceOk(s.w, s.w.clusters[c].host);
      }
    }
  }

  // ----- teardown -----

  /** Step m of the run is the AccountInfo reconciler's listing for c, which finds no account; and if the
      cluster was terminating by then, there has been none since. */
  ghost predicate ListedAt(cfg: Config, types: map<string, WorkspaceType>, steps: seq<Step>, m: nat, c: ClusterId)
    requires IsRun(cfg, types, steps)
  {
    && m < |steps| && IsRun(cfg, types, steps[..m]) && steps[m] == InfoList(c)
    && var w := At(cfg, types, steps[..m]).w;
    && NoAccounts(w, c)
    && (!Open(w, c) ==> var now := At(cfg, types, steps).w; !Open(now, c) && NoAccounts(now, c))
  }

  lemma ClosedEmptyStays(cfg: Config, s: Sys, step: Step, c: ClusterId)
    requires Inv(cfg, s) && Enabled(cfg, s, step) && c in s.w.clusters && !Open(s.w, c) && NoAccounts(s.w, c)
    ensures var w' := ApplyWorld(cfg, s, step); !Open(w', c) && NoAccounts(w', c)
  {
    hide Call, PcOk;
    ClosedStays(cfg, s, step, c);
    var w' := ApplyWorld(cfg, s, step);
    forall k | k in w'.accounts ensures k.cluster != c {
      if k !in s.w.accounts {
        NewAccount(cfg, s, step, k);
      }
    }
  }

  lemma {:induction false} ReleasingListed(cfg: Config, types: map<string, WorkspaceType>, steps: seq<Step>,
                                           c: ClusterId)
    requires IsRun(cfg, types, steps) && WorkspaceSub in cfg.pipeline && c in At(cfg, types, steps).releasing
    ensures exists m :: ListedAt(cfg, types, steps, m, c)
    decreases |steps|
  {
    assert steps != [];
    var (init, last) := (steps[..|steps| - 1], steps[|steps| - 1]);
    LastStep(cfg, Init(types), steps);
    RunInv(cfg, types, init);
    var s := At(cfg, types, init);
    if last == InfoList(c) {
      assert ListedAt(cfg, types, steps, |steps| - 1, c);
    } else {
      ReleasingListed(cfg, types, init, c);
      var m: nat :| ListedAt(cfg, types, init, m, c);
      assert init[..m] == steps[..m];
      if !Open(At(cfg, types, init[..m]).w, c) {
        assert c in s.w.clusters by { assert InfoOk(s.w, s.h, c); }
        ClosedEmptyStays(cfg, s, last, c);
      }
      assert ListedAt(cfg, types, steps, m, c);
    }
  }

  /** Teardown is bottom-up, step by step: a workspace goes only when nothing is left in its cluster, an
      account only when its workspace is gone, and an AccountInfo goes in just two ways: deleted before
      the AccountInfo reconciler ever put its finalizer on, or released after a listing that found no
      account; and then there still is none, if the cluster was terminating at the listing. */
  lemma BottomUp(cfg: Config, types: map<string, WorkspaceType>, steps: seq<Step>, step: Step)
    requires IsRun(cfg, types, steps) && Enabled(cfg, At(cfg, types, steps), step)
    ensures var s := At(cfg, types, steps); var (w, w') := (s.w, Apply(cfg, s, step).w);
            && (forall k :: k in w.workspaces && k !in w'.workspaces && w.workspaces[k].placement.Some? ==>
                  Empty(w, w.workspaces[k].placement.value.cluster))
            && (forall k :: k in w.accounts && k !in w'.accounts ==> k !in w.workspaces)
            && (forall c :: c in w.infos ==>
                  (c !in w'.infos <==> step == InfoRelease(c) || (step == DeleteInfo(c) && !w.infos[c].finalizer)))
            && (forall c :: step == InfoRelease(c) ==> exists m :: ListedAt(cfg, types, steps, m, c))
  {
    RunInv(cfg, types, steps);
    if WorkspaceSub in cfg.pipeline {
      var s := At(cfg, types, steps);
      var (w, w') := (s.w, Apply(cfg, s, step).w);
      forall k | k in w.workspaces && k !in w'.workspaces && w.workspaces[k].placement.Some?
        ensures Empty(w, w.workspaces[k].placement.value.cluster)
      {
        if step != RemoveWorkspace(k) {
          WorkspaceKept(cfg, s, step, k);
        }
      }
      forall k | k in w.workspaces ensures k in w'.accounts {
        OwnerKept(cfg, s, step, k);
      }
      if step.Work? {
        CallInfos(s.ca, w, step.k, s.workers[step.k].instance, s.workers[step.k].pc);
      }
      if step.InfoRelease? {
        ReleasingListed(cfg, types, steps, step.c);
      }
    }
  }

  // ----- admission -----

  predicate NamesOk(cfg: Config, w: World) {
    forall k :: k in w.accounts && w.accounts[k].kind == ORG ==> Validate(cfg.validator, k.name, ORG) == Allowed
  }

  lemma NamesStep(cfg: Config, s: Sys, step: Step)
    requires NamesOk(cfg, s.w) && Enabled(cfg, s, step)
    ensures NamesOk(cfg, ApplyWorld(cfg, s, step))
  {
    var w' := ApplyWorld(cfg, s, step);
    forall k | k in w'.accounts && w'.accounts[k].kind == ORG ensures Validate(cfg.validator, k.name, ORG) == Allowed {
      hide Validate;
      if step.Work? {
        CallAccounts(s.ca, s.w, step.k, s.workers[step.k].instance, s.workers[step.k].pc);
      }
    }
  }

  lemma {:induction false} NamesRun(cfg: Config, s: Sys, steps: seq<Step>)
    requires NamesOk(cfg, s.w) && CanRun(cfg, s, steps)
    ensures NamesOk(cfg, Exec(cfg, s, steps).w)
    decreases |steps|
  {
    if steps != [] {
      NamesStep(cfg, s, steps[0]);
      NamesRun(cfg, Apply(cfg, s, steps[0]), steps[1..]);
    }
  }

  /** Over whole runs every stored organization has a name that the webhook admits, of three bytes at least
      in UTF-8; hence in every AccountInfo the organization's name passes the test of the Workspace
      subroutine. */
  lemma OrganizationNames(cfg: Config, types: map<string, WorkspaceType>, steps: seq<Step>)
    requires IsRun(cfg, types, steps)
    ensures var w := At(cfg, types, steps).w;
            && (forall k :: k in w.accounts && w.accounts[k].kind == ORG ==>
                  && |Encode(TrimSpace(k.name))| >= 3 && k.name !in cfg.validator.denyList
                  && (Ascii(k.name) && Trimmed(k.name) ==> |k.name| >= 3))
            && (forall c :: c in w.infos ==> w.infos[c].spec.organization.name != "")
  {
    NamesRun(cfg, Init(types), steps);
    RunInv(cfg, types, steps);
    var s := At(cfg, types, steps);
    forall k | k in s.w.accounts && s.w.accounts[k].kind == ORG
      ensures && |Encode(TrimSpace(k.name))| >= 3 && k.name !in cfg.validator.denyList
              && (Ascii(k.name) && Trimmed(k.name) ==> |k.name| >= 3)
    {
      Utf8LengthEncodes(TrimSpace(k.name));
      if Ascii(k.name) && Trimmed(k.name) {
        VerdictExactly(cfg.validator, k.name, ORG);
      }
    }
    forall c | c in s.w.infos ensures s.w.infos[c].spec.organization.name != "" {
      if WorkspaceSub in cfg.pipeline {
        assert InfoOk(s.w, s.h, c);
        OwnOrganization(s.w, s.h, c);
      }
    }
  }
}
