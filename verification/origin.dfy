/** Where FGA store and OIDC come from: from outside, and from nowhere else. */
module Origin {
  import opened Wrappers
  import opened Model
  import opened Program
  import opened System
  import opened Invariant
  import opened Preserve
  import opened Safety

  /** An external writer wrote this pair to the record of organization cluster o at step i. */
  ghost predicate WrittenFromOutside(steps: seq<Step>, i: nat, o: ClusterId, fga: string, oidc: Option<Oidc>) {
    i < |steps| && steps[i] == External(o, fga, oidc)
  }

  /** The pair is unset, or an external writer wrote it. */
  ghost predicate FromOutside(steps: seq<Step>, o: ClusterId, fga: string, oidc: Option<Oidc>) {
    (fga == "" && oidc == None) || exists i :: WrittenFromOutside(steps, i, o, fga, oidc)
  }

  lemma FromOutsideLater(steps: seq<Step>, o: ClusterId, fga: string, oidc: Option<Oidc>)
    requires steps != [] && FromOutside(steps[..|steps| - 1], o, fga, oidc)
    ensures FromOutside(steps, o, fga, oidc)
  {
    var init := steps[..|steps| - 1];
    if i: nat :| WrittenFromOutside(init, i, o, fga, oidc) {
      assert WrittenFromOutside(steps, i, o, fga, oidc);
    }
  }

  /** All that an organization ever shared. */
  ghost predicate PastFromOutside(h: History, steps: seq<Step>) {
    forall o, i :: 0 <= i < |Past(h, o)| ==> FromOutside(steps, o, Past(h, o)[i].fga, Past(h, o)[i].oidc)
  }

  /** When the operator creates the record of an organization, it leaves both unset. */
  lemma CreatedUnset(cfg: Config, s: Sys, step: Step, o: ClusterId)
    requires Inv(cfg, s) && Enabled(cfg, s, step) && IsOrgCluster(s.w, o)
    requires o !in s.w.infos && o in ApplyWorld(cfg, s, step).infos
    ensures var spec := ApplyWorld(cfg, s, step).infos[o].spec; spec.fga == "" && spec.oidc == None
  {
    assert PlaceOk(s.w.clusters, o);
    if step.Work? {
      var wk := s.workers[step.k];
      assert WorkerOk(s.w, s.h, step.k, wk);
      CallInfos(s.ca, s.w, step.k, wk.instance, wk.pc);
    }
  }

  /** What an organization shares after a step it shared before, or was written from outside in that
      step, or is unset. */
  lemma SharedStep(cfg: Config, s: Sys, step: Step, o: ClusterId)
    requires Inv(cfg, s) && Enabled(cfg, s, step) && IsOrgCluster(s.w, o) && o in ApplyWorld(cfg, s, step).infos
    ensures var spec' := ApplyWorld(cfg, s, step).infos[o].spec;
            || (spec'.fga == "" && spec'.oidc == None)
            || step == External(o, spec'.fga, spec'.oidc)
            || (o in s.w.infos && spec'.fga == s.w.infos[o].spec.fga && spec'.oidc == s.w.infos[o].spec.oidc)
  {
    if o !in s.w.infos {
      CreatedUnset(cfg, s, step, o);
    } else if !(step.External? && step.c == o) {
      ExternalFieldsKept(cfg, s, step, o);
    }
  }

  lemma PastStep(cfg: Config, types: map<string, WorkspaceType>, steps: seq<Step>, o: ClusterId, i: nat)
    requires IsRun(cfg, types, steps) && steps != [] && IsRun(cfg, types, steps[..|steps| - 1])
    requires var (s, last) := (At(cfg, types, steps[..|steps| - 1]), steps[|steps| - 1]);
             && Inv(cfg, s) && Inv(cfg, At(cfg, types, steps)) && Enabled(cfg, s, last)
             && At(cfg, types, steps) == Apply(cfg, s, last) && PastFromOutside(s.h, steps[..|steps| - 1])
    requires i < |Past(At(cfg, types, steps).h, o)|
    ensures var shared := Past(At(cfg, types, steps).h, o)[i]; FromOutside(steps, o, shared.fga, shared.oidc)
  {
    var (init, last) := (steps[..|steps| - 1], steps[|steps| - 1]);
    var (s, s') := (At(cfg, types, init), At(cfg, types, steps));
    PastEntry(cfg, s, last, o, i);
    if i < |Past(s.h, o)| {
      FromOutsideLater(steps, o, Past(s.h, o)[i].fga, Past(s.h, o)[i].oidc);
    } else {
      assert PastOk(s'.w.clusters, s'.h, o);
      OrgClusterBefore(cfg, s, last, o, i);
      SharedStep(cfg, s, last, o);
      var spec' := s'.w.infos[o].spec;
      if last == External(o, spec'.fga, spec'.oidc) {
        assert WrittenFromOutside(steps, |init|, o, spec'.fga, spec'.oidc);
      } else if o in s.w.infos && spec'.fga == s.w.infos[o].spec.fga && spec'.oidc == s.w.infos[o].spec.oidc {
        assert InfoOk(s.w, s.h, o);
        FromOutsideLater(steps, o, spec'.fga, spec'.oidc);
      }
    }
  }

  /** A step that adds to what an organization shared finds the organization's cluster there. */
  lemma OrgClusterBefore(cfg: Config, s: Sys, step: Step, o: ClusterId, i: nat)
    requires Inv(cfg, s) && Enabled(cfg, s, step) && |Past(s.h, o)| <= i < |Past(Apply(cfg, s, step).h, o)|
    ensures IsOrgCluster(s.w, o)
  {
    if step.Work? {
      var wk := s.workers[step.k];
      assert WorkerOk(s.w, s.h, step.k, wk);
      if wk.pc.AiPut? {
        assert PlaceOk(s.w.clusters, wk.pc.self.generated);
      }
    }
  }

  lemma {:induction false} RunFromOutside(cfg: Config, types: map<string, WorkspaceType>, steps: seq<Step>)
    requires IsRun(cfg, types, steps) && WorkspaceSub in cfg.pipeline
    ensures PastFromOutside(At(cfg, types, steps).h, steps)
    decreases |steps|
  {
    if steps != [] {
      var init := steps[..|steps| - 1];
      LastStep(cfg, Init(types), steps);
      RunFromOutside(cfg, types, init);
      RunInv(cfg, types, init);
      RunInv(cfg, types, steps);
      hide Apply, Enabled, Inv, Init, Exec, CanRun, FromOutside;
      forall o, i: nat | i < |Past(At(cfg, types, steps).h, o)|
        ensures var shared := Past(At(cfg, types, steps).h, o)[i]; FromOutside(steps, o, shared.fga, shared.oidc)
      {
        PastStep(cfg, types, steps, o, i);
      }
    }
  }

  /** In every reachable state FGA store and OIDC of any AccountInfo are unset, or an external writer wrote
      just this pair to the record of its organization, at some step of the run. */
  lemma ExternalOrigin(cfg: Config, types: map<string, WorkspaceType>, steps: seq<Step>, c: ClusterId)
    requires IsRun(cfg, types, steps) && c in At(cfg, types, steps).w.infos
    ensures var w := At(cfg, types, steps).w;
            FromOutside(steps, OrgOf(w.clusters, c), w.infos[c].spec.fga, w.infos[c].spec.oidc)
  {
    RunInv(cfg, types, steps);
    if WorkspaceSub in cfg.pipeline {
      var s := At(cfg, types, steps);
      RunFromOutside(cfg, types, steps);
      assert InfoOk(s.w, s.h, c);
      assert SharedOf(s.w.infos[c].spec) == Past(s.h, OrgOf(s.w.clusters, c))[s.h.version[c]];
    }
  }
}
