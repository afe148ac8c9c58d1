/** Liveness under fair scheduling: once users and external writers rest and failures end, every fair
    run gets everything provisioned, and everything deleted gone, for good. */
module Fairness {
  import opened Wrappers
  import opened Model
  import opened Program
  import opened System
  import opened Invariant
  import opened Ranking
  import opened Progress

  ghost predicate Possible(cfg: Config, states: States, step: Step, i: nat) {
    i in states && Enabled(cfg, states[i], step) && Internal(states[i].w, step)
  }

  ghost predicate PossibleAfter(cfg: Config, states: States, step: Step, n: nat) {
    exists i: nat :: n <= i && Possible(cfg, states, step, i)
  }

  ghost predicate TakenAfter(steps: Steps, step: Step, n: nat) {
    exists i: nat :: n <= i && i in steps && steps[i] == Some(step)
  }

  ghost predicate Often(cfg: Config, states: States, step: Step) {
    forall n: nat :: PossibleAfter(cfg, states, step, n)
  }

  /** What is possible again and again happens again and again, failures apart. */
  ghost predicate Fair(cfg: Config, states: States, steps: Steps) {
    forall step :: Often(cfg, states, step) && !step.Fail? ==> forall n: nat :: TakenAfter(steps, step, n)
  }

  ghost predicate NoFailure(steps: Steps, i: nat) {
    i in steps && (steps[i].Some? ==> !steps[i].value.Fail?)
  }

  ghost predicate Unchanged(states: States, n: nat, i: nat) {
    n in states && i in states && states[i].w == states[n].w && states[i].ca == states[n].ca
  }

  /** A fair endless run, from n on without failures and without a change of the store. */
  ghost predicate Resting(cfg: Config, states: States, steps: Steps, n: nat) {
    && Endless(cfg, states, steps) && Fair(cfg, states, steps)
    && (forall i: nat :: n <= i ==> NoFailure(steps, i))
    && (forall i: nat :: n <= i ==> Unchanged(states, n, i))
  }

  lemma RestsLater(cfg: Config, states: States, steps: Steps, n: nat, m: nat)
    requires Resting(cfg, states, steps, n) && n <= m
    ensures Resting(cfg, states, steps, m) && states[m].w == states[n].w && states[m].ca == states[n].ca
  {
    hide Endless, Fair, NoFailure;
    assert Unchanged(states, n, m);
    forall i: nat | m <= i ensures Unchanged(states, m, i) {
      assert Unchanged(states, n, i);
    }
  }

  /** What happens at i while the store rests. */
  lemma Next(cfg: Config, states: States, steps: Steps, n: nat, i: nat)
    requires Resting(cfg, states, steps, n) && n <= i
    ensures i in states && i + 1 in states && i in steps
    ensures states[i].w == states[n].w && states[i].ca == states[n].ca
    ensures match steps[i]
            case None => states[i + 1] == states[i]
            case Some(step) =>
              && !step.Fail? && !step.Restart? && Enabled(cfg, states[i], step)
              && states[i + 1] == Apply(cfg, states[i], step)
              && ApplyWorld(cfg, states[i], step) == states[n].w
  {
    assert NoFailure(steps, i);
    assert Unchanged(states, n, i) && Unchanged(states, n, i + 1);
    assert Continues(cfg, states, steps, i);
  }

  /** What stays possible happens. */
  lemma Taken(cfg: Config, states: States, steps: Steps, n: nat, step: Step) returns (i: nat)
    requires Fair(cfg, states, steps) && !step.Fail?
    requires forall j: nat :: n <= j ==> Possible(cfg, states, step, j)
    ensures n <= i && i in steps && steps[i] == Some(step)
  {
    forall m: nat ensures PossibleAfter(cfg, states, step, m) {
      var j := if m < n then n else m;
      assert Possible(cfg, states, step, j);
    }
    assert Often(cfg, states, step);
    assert TakenAfter(steps, step, n);
    i :| n <= i && i in steps && steps[i] == Some(step);
  }

  // ----- single steps -----

  lemma DirectStays(cfg: Config, s: Sys, s': Sys, step: Step)
    requires Due(cfg, s, Direct(step)) && s'.w == s.w
    ensures Due(cfg, s', Direct(step))
  {
    hide Internal;
  }

  lemma NoDirect(cfg: Config, states: States, steps: Steps, n: nat, step: Step)
    requires Resting(cfg, states, steps, n) && n in states
    ensures !Due(cfg, states[n], Direct(step))
  {
    if Due(cfg, states[n], Direct(step)) {
      forall j: nat | n <= j ensures Possible(cfg, states, step, j) {
        Next(cfg, states, steps, n, j);
        DirectStays(cfg, states[n], states[j], step);
      }
      var i := Taken(cfg, states, steps, n, step);
      Next(cfg, states, steps, n, i);
      DirectStays(cfg, states[n], states[i], step);
    }
  }

  // ----- passes -----

  /** Only its own calls move a worker on, as long as none fails. */
  lemma {:induction false} WorkerStays(cfg: Config, states: States, steps: Steps, n: nat, i: nat, k: Key)
    requires Resting(cfg, states, steps, n) && n <= i && n in states && k in states[n].workers
    requires forall j :: n <= j < i && j in steps ==> steps[j] != Some(Step.Work(k))
    ensures i in states && k in states[i].workers && states[i].workers[k] == states[n].workers[k]
  {
    if n < i {
      WorkerStays(cfg, states, steps, n, i - 1, k);
      Next(cfg, states, steps, n, i - 1);
    }
  }

  lemma FirstWork(cfg: Config, states: States, steps: Steps, n: nat, k: Key) returns (i: nat)
    requires Resting(cfg, states, steps, n) && n in states && k in states[n].workers
    ensures n <= i && i in states && i in steps && steps[i] == Some(Step.Work(k))
    ensures k in states[i].workers && states[i].workers[k] == states[n].workers[k]
  {
    if forall j :: n <= j && j in steps ==> steps[j] != Some(Step.Work(k)) {
      forall j: nat | n <= j ensures Possible(cfg, states, Step.Work(k), j) {
        WorkerStays(cfg, states, steps, n, j, k);
      }
      var j := Taken(cfg, states, steps, n, Step.Work(k));
      assert false;
    }
    var j :| n <= j && j in steps && steps[j] == Some(Step.Work(k));
    i := n;
    Next(cfg, states, steps, n, i);
    while steps[i] != Some(Step.Work(k))
      invariant n <= i <= j && i in steps
      invariant forall m :: n <= m < i && m in steps ==> steps[m] != Some(Step.Work(k))
      decreases j - i
    {
      i := i + 1;
      Next(cfg, states, steps, n, i);
    }
    WorkerStays(cfg, states, steps, n, i, k);
  }

  /** No worker stays forever. */
  lemma {:induction false} WorkerLeaves(cfg: Config, states: States, steps: Steps, n: nat, k: Key) returns (i: nat)
    requires Resting(cfg, states, steps, n) && n in states
    ensures n <= i && i in states && k !in states[i].workers
    decreases if k in states[n].workers then 1 + Size(states[n].workers[k]) else 0
  {
    if k !in states[n].workers {
      i := n;
    } else {
      i := FirstWork(cfg, states, steps, n, k);
      Next(cfg, states, steps, n, i);
      CallSmaller(states[i].ca, states[i].w, k, states[i].workers[k]);
      RestsLater(cfg, states, steps, n, i + 1);
      i := WorkerLeaves(cfg, states, steps, i + 1, k);
    }
  }

  /** While the store rests there is no worker whose pass would change it. */
  lemma {:induction false} NoWriter(cfg: Config, states: States, steps: Steps, n: nat, k: Key)
    requires Resting(cfg, states, steps, n) && n in states && k in states[n].workers
    ensures !WillWrite(states[n].ca, states[n].w, k, states[n].workers[k])
    decreases Size(states[n].workers[k])
  {
    var i := FirstWork(cfg, states, steps, n, k);
    Next(cfg, states, steps, n, i);
    CallSmaller(states[i].ca, states[i].w, k, states[i].workers[k]);
    if k in states[i + 1].workers {
      RestsLater(cfg, states, steps, n, i + 1);
      NoWriter(cfg, states, steps, i + 1, k);
    }
  }

  lemma NoPass(cfg: Config, states: States, steps: Steps, n: nat, k: Key, f: Option<Finalizer>)
    requires Resting(cfg, states, steps, n) && n in states
    ensures !PassWrites(cfg, states[n].ca, states[n].w, k, f)
  {
    if PassWrites(cfg, states[n].ca, states[n].w, k, f) {
      var i := PassBegins(cfg, states, steps, n, k, f);
      BeginsNoWriter(cfg, states, steps, n, i, k, f);
    }
  }

  lemma PassBegins(cfg: Config, states: States, steps: Steps, n: nat, k: Key, f: Option<Finalizer>) returns (i: nat)
    requires Resting(cfg, states, steps, n) && n in states && PassWrites(cfg, states[n].ca, states[n].w, k, f)
    ensures n <= i && i in steps && steps[i] == Some(Begin(k, f))
  {
    var begin := Begin(k, f);
    forall m: nat ensures PossibleAfter(cfg, states, begin, m) {
      var from := if m < n then n else m;
      RestsLater(cfg, states, steps, n, from);
      var j := WorkerLeaves(cfg, states, steps, from, k);
      Next(cfg, states, steps, n, j);
      assert Possible(cfg, states, begin, j);
    }
    assert Often(cfg, states, begin);
    assert TakenAfter(steps, begin, n);
    i :| n <= i && i in steps && steps[i] == Some(begin);
  }

  lemma BeginsNoWriter(cfg: Config, states: States, steps: Steps, n: nat, i: nat, k: Key, f: Option<Finalizer>)
    requires Resting(cfg, states, steps, n) && n in states
    requires n <= i && i in steps && steps[i] == Some(Begin(k, f))
    ensures !PassWrites(cfg, states[n].ca, states[n].w, k, f)
  {
    Next(cfg, states, steps, n, i);
    assert ApplyWorld(cfg, states[i], Begin(k, f)).accounts[k] == states[i].w.accounts[k];
    if k in states[i + 1].workers {
      RestsLater(cfg, states, steps, n, i + 1);
      NoWriter(cfg, states, steps, i + 1, k);
    }
  }

  // ----- the release of AccountInfos -----

  lemma {:induction false} ReleasingStays(cfg: Config, states: States, steps: Steps, n: nat, i: nat, c: ClusterId)
    requires Resting(cfg, states, steps, n) && n <= i && n in states && c in states[n].releasing &&
             c in states[n].w.infos
    ensures i in states && c in states[i].releasing
  {
    if n < i {
      ReleasingStays(cfg, states, steps, n, i - 1, c);
      Next(cfg, states, steps, n, i - 1);
    }
  }

  lemma NoReleasing(cfg: Config, states: States, steps: Steps, n: nat, c: ClusterId)
    requires Resting(cfg, states, steps, n) && n in states && c in states[n].releasing
    ensures c !in states[n].w.infos
  {
    if c in states[n].w.infos {
      forall j: nat | n <= j ensures Possible(cfg, states, InfoRelease(c), j) {
        ReleasingStays(cfg, states, steps, n, j, c);
      }
      var i := Taken(cfg, states, steps, n, InfoRelease(c));
      Next(cfg, states, steps, n, i);
    }
  }

  lemma NoRelease(cfg: Config, states: States, steps: Steps, n: nat, c: ClusterId)
    requires Resting(cfg, states, steps, n) && n in states
    ensures !Due(cfg, states[n], ReleaseOf(c))
  {
    if Due(cfg, states[n], ReleaseOf(c)) {
      forall j: nat | n <= j ensures Possible(cfg, states, InfoList(c), j) {
        Next(cfg, states, steps, n, j);
      }
      var i := Taken(cfg, states, steps, n, InfoList(c));
      Next(cfg, states, steps, n, i);
      RestsLater(cfg, states, steps, n, i + 1);
      NoReleasing(cfg, states, steps, i + 1, c);
    }
  }

  // ----- main results -----

  /** While the store rests nothing is due. */
  lemma NothingDue(cfg: Config, states: States, steps: Steps, n: nat, cause: Cause)
    requires Resting(cfg, states, steps, n) && n in states
    ensures !Due(cfg, states[n], cause)
  {
    match cause
    case Direct(step) => NoDirect(cfg, states, steps, n, step);
    case PassAt(k, f) => NoPass(cfg, states, steps, n, k, f);
    case ReleaseOf(c) => NoRelease(cfg, states, steps, n, c);
  }

  /** A fair run that rests has torn down all there was to tear down. */
  lemma RestIsTornDown(cfg: Config, states: States, steps: Steps, n: nat)
    requires Resting(cfg, states, steps, n) && n in states && Live(cfg, states[n])
    ensures TornDown(states[n].w)
  {
    if !TornDown(states[n].w) {
      var cause := TeardownDue(cfg, states[n]);
      NothingDue(cfg, states, steps, n, cause);
    }
  }

  /** With all subroutines switched on it has nothing left to do. */
  lemma RestIsSettled(cfg: Config, states: States, steps: Steps, n: nat)
    requires Resting(cfg, states, steps, n) && n in states && Good(cfg, states[n])
    ensures Settled(cfg, states[n].ca, states[n].w)
  {
    if !Settled(cfg, states[n].ca, states[n].w) {
      var cause := UnsettledDue(cfg, states[n]);
      NothingDue(cfg, states, steps, n, cause);
    }
  }

  /** Every fair run comes to rest: when from some point on only the operator and kcp act, calls stop
      failing, and what is possible again and again happens, then from some point on every deletion is
      done and the store no longer changes. */
  lemma FairRunsRest(cfg: Config, states: States, steps: Steps, start: nat) returns (n: nat)
    requires Endless(cfg, states, steps) && Fair(cfg, states, steps) && Live(cfg, states[0])
    requires forall i: nat :: start <= i ==> NoFailure(steps, i)
    ensures Resting(cfg, states, steps, n) && Live(cfg, states[n]) && TornDown(states[n].w)
  {
    hide Fair, NoFailure, Settled, TornDown, Inv;
    var quiet := EventuallyQuiet(cfg, states, steps, start);
    n := if quiet < start then start else quiet;
    EndlessLive(cfg, states, steps, n);
    forall i: nat | n <= i ensures Unchanged(states, n, i) {
      EndlessLive(cfg, states, steps, i);
      assert states[i].w == states[quiet].w && states[n].w == states[quiet].w;
    }
    RestIsTornDown(cfg, states, steps, n);
  }

  ghost predicate SettledAt(cfg: Config, states: States, i: nat) {
    i in states && Settled(cfg, states[i].ca, states[i].w)
  }

  /** And with all subroutines switched on, from some point on every account in an organization is
      provisioned, as far as URLs allow. */
  lemma FairRunsSettle(cfg: Config, states: States, steps: Steps, start: nat) returns (n: nat)
    requires Endless(cfg, states, steps) && Fair(cfg, states, steps) && Good(cfg, states[0])
    requires forall i: nat :: start <= i ==> NoFailure(steps, i)
    ensures forall i: nat :: n <= i ==> SettledAt(cfg, states, i) && Unchanged(states, n, i)
  {
    n := FairRunsRest(cfg, states, steps, start);
    RestIsSettled(cfg, states, steps, n);
    hide Settled;
    forall i: nat | n <= i ensures SettledAt(cfg, states, i) {
      assert Unchanged(states, n, i);
    }
  }
}
