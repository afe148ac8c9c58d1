/** There are fair runs, from every state: the hypotheses of the liveness theorems can be met. */
module FairRun {
  import opened Wrappers
  import opened Model
  import opened Program
  import opened System
  import opened Invariant
  import opened Ranking
  import opened Progress
  import opened Fairness
  import opened Safety

  // ----- a state from which nothing changes any more -----

  ghost predicate Still(cfg: Config, s: Sys) {
    forall steps {:trigger InternalRun(cfg, s, steps)} :: InternalRun(cfg, s, steps) ==> Exec(cfg, s, steps).w == s.w
  }

  lemma {:induction false} ReachStill(cfg: Config, s: Sys) returns (steps: seq<Step>)
    requires Live(cfg, s)
    ensures InternalRun(cfg, s, steps) && Live(cfg, Exec(cfg, s, steps)) && Still(cfg, Exec(cfg, s, steps))
    decreases TotalWork(cfg, s), TotalLag(s)
  {
    hide Inv, TotalWork, TotalLag;
    if Still(cfg, s) {
      steps := [];
    } else {
      var first :| InternalRun(cfg, s, first) && Exec(cfg, s, first).w != s.w;
      RunKeeps(cfg, s, first);
      var more := ReachStill(cfg, Exec(cfg, s, first));
      Chain(cfg, s, first, more);
      steps := first + more;
    }
  }

  lemma StillStays(cfg: Config, s: Sys, steps: seq<Step>)
    requires Live(cfg, s) && Still(cfg, s) && InternalRun(cfg, s, steps)
    ensures Live(cfg, Exec(cfg, s, steps)) && Still(cfg, Exec(cfg, s, steps)) && Exec(cfg, s, steps).w == s.w
  {
    RunKeeps(cfg, s, steps);
    var s' := Exec(cfg, s, steps);
    forall more | InternalRun(cfg, s', more) ensures Exec(cfg, s', more).w == s'.w {
      Chain(cfg, s, steps, more);
    }
  }

  lemma StillStep(cfg: Config, s: Sys, step: Step)
    requires Live(cfg, s) && Still(cfg, s) && Enabled(cfg, s, step) && Internal(s.w, step)
    ensures var s' := Apply(cfg, s, step); Live(cfg, s') && Still(cfg, s') && s'.w == s.w
  {
    hide Apply, Enabled, Internal;
    assert [step][1..] == [];
    StillStays(cfg, s, [step]);
  }

  // ----- without workers -----

  lemma {:induction false} Drain(cfg: Config, s: Sys, k: Key) returns (steps: seq<Step>)
    requires k in s.workers
    ensures InternalRun(cfg, s, steps) && Exec(cfg, s, steps).workers == s.workers - {k}
    decreases Size(s.workers[k])
  {
    var step := Step.Work(k);
    var s' := Apply(cfg, s, step);
    CallSmaller(s.ca, s.w, k, s.workers[k]);
    if k in s'.workers {
      assert s'.workers - {k} == s.workers - {k};
      var more := Drain(cfg, s', k);
      steps := [step] + more;
      assert steps[1..] == more;
    } else {
      steps := [step];
      assert steps[1..] == [];
    }
  }

  lemma {:induction false} DrainAll(cfg: Config, s: Sys) returns (steps: seq<Step>)
    ensures InternalRun(cfg, s, steps) && Exec(cfg, s, steps).workers == map[]
    decreases |s.workers|
  {
    if s.workers == map[] {
      steps := [];
    } else {
      var k :| k in s.workers;
      var first := Drain(cfg, s, k);
      assert (s.workers - {k}).Keys == s.workers.Keys - {k};
      assert |(s.workers - {k}).Keys| < |s.workers.Keys|;
      var more := DrainAll(cfg, Exec(cfg, s, first));
      Chain(cfg, s, first, more);
      steps := first + more;
    }
  }

  /** Nothing changes any more, and no pass is under way. */
  ghost predicate Idle(cfg: Config, s: Sys) {
    Live(cfg, s) && Still(cfg, s) && s.workers == map[]
  }

  lemma ReachIdle(cfg: Config, s: Sys) returns (steps: seq<Step>)
    requires Live(cfg, s)
    ensures InternalRun(cfg, s, steps) && Idle(cfg, Exec(cfg, s, steps))
  {
    var first := ReachStill(cfg, s);
    var more := DrainAll(cfg, Exec(cfg, s, first));
    StillStays(cfg, Exec(cfg, s, first), more);
    Chain(cfg, s, first, more);
    steps := first + more;
  }

  // ----- all that may still happen -----

  lemma {:induction false} Listed<T>(ts: set<T>) returns (list: seq<T>)
    ensures forall t :: t in list <==> t in ts
  {
    if ts == {} {
      list := [];
    } else {
      var t :| t in ts;
      var rest := Listed(ts - {t});
      list := [t] + rest;
      assert forall x :: x in ts <==> x == t || x in ts - {t};
    }
  }

  function Finalizes(): set<Option<Finalizer>> {
    {None, Some(WorkspaceFinalizer), Some(TypeFinalizer)}
  }

  /** The steps other than calls and failures that may ever be possible without changing this store. */
  ghost function Candidates(w: World): set<Step> {
    (set k, f | k in w.accounts && f in Finalizes() :: Begin(k, f)) +
    (set c | c in w.infos :: InfoList(c)) + (set c | c in w.clusters :: InfoRelease(c)) +
    (set n | n in w.types :: TypeReady(n)) + (set k | k in w.workspaces :: RequestDeletion(k)) + {InfoRelease(ORGS)}
  }

  lemma PossibleIsCandidate(cfg: Config, s: Sys, step: Step)
    requires Live(cfg, s) && Still(cfg, s) && Enabled(cfg, s, step) && Internal(s.w, step) && !step.Work? && !step.Fail?
    ensures step in Candidates(s.w)
  {
    StillStep(cfg, s, step);
    assert Apply(cfg, s, step).w == ApplyWorld(cfg, s, step) == s.w;
    hide Still;
    match step
    case Begin(k, f) =>
      assert f in Finalizes();
    case _ =>
  }

  // ----- taking turns -----

  /** A state and whose turn it is. */
  datatype Turn = Turn(s: Sys, pos: nat)

  /** A worker that is there goes on; else the step whose turn it is, if possible, and then the next. */
  ghost function Choice(cfg: Config, t: Turn, list: seq<Step>): (step: Option<Step>)
    requires t.pos < |list|
    ensures step.Some? ==> Enabled(cfg, t.s, step.value) && Internal(t.s.w, step.value)
    ensures step.Some? && step.value.Fail? ==> list[t.pos].Fail?
  {
    if t.s.workers != map[] then
      var k :| k in t.s.workers;
      Some(Step.Work(k))
    else if Enabled(cfg, t.s, list[t.pos]) && Internal(t.s.w, list[t.pos]) then Some(list[t.pos])
    else None
  }

  ghost function NextTurn(cfg: Config, t: Turn, list: seq<Step>): (t': Turn)
    requires t.pos < |list|
    ensures t'.pos < |list|
  {
    var step := Choice(cfg, t, list);
    Turn(if step.Some? then Apply(cfg, t.s, step.value) else t.s,
         if t.s.workers != map[] then t.pos else if t.pos + 1 < |list| then t.pos + 1 else 0)
  }

  ghost function At(cfg: Config, s: Sys, list: seq<Step>, n: nat): (t: Turn)
    requires list != []
    ensures t.pos < |list|
  {
    if n == 0 then Turn(s, 0) else NextTurn(cfg, At(cfg, s, list, n - 1), list)
  }

  /** At most one worker at a time. */
  predicate AtMostOne(s: Sys) {
    forall j, k :: j in s.workers && k in s.workers ==> j == k
  }

  lemma TurnKeeps(cfg: Config, t: Turn, list: seq<Step>)
    requires Live(cfg, t.s) && Still(cfg, t.s) && AtMostOne(t.s) && t.pos < |list|
    ensures var t' := NextTurn(cfg, t, list); Live(cfg, t'.s) && Still(cfg, t'.s) && AtMostOne(t'.s) && t'.s.w == t.s.w
  {
    var step := Choice(cfg, t, list);
    if step.Some? {
      StillStep(cfg, t.s, step.value);
      hide Still, Inv, Internal;
    }
  }

  lemma {:induction false} AlwaysStill(cfg: Config, s: Sys, list: seq<Step>, n: nat)
    requires Idle(cfg, s) && list != []
    ensures var t := At(cfg, s, list, n); Live(cfg, t.s) && Still(cfg, t.s) && AtMostOne(t.s) && t.s.w == s.w
  {
    hide NextTurn, Inv, Still;
    if n > 0 {
      AlwaysStill(cfg, s, list, n - 1);
      TurnKeeps(cfg, At(cfg, s, list, n - 1), list);
    }
  }

  /** A worker that is there is the one that goes on. */
  lemma OnlyWorker(cfg: Config, t: Turn, list: seq<Step>, k: Key)
    requires AtMostOne(t.s) && t.pos < |list| && k in t.s.workers
    ensures Choice(cfg, t, list) == Some(Step.Work(k))
    ensures NextTurn(cfg, t, list) == Turn(Apply(cfg, t.s, Step.Work(k)), t.pos)
  {
    hide Apply, Internal;
  }

  /** The calls that the worker who is there has left. */
  ghost function CallsLeft(s: Sys): (n: nat)
    ensures n == 0 <==> s.workers == map[]
  {
    if s.workers == map[] then 0
    else
      var k :| k in s.workers;
      1 + Size(s.workers[k])
  }

  lemma WorkShrinks(cfg: Config, s: Sys, k: Key)
    requires k in s.workers && AtMostOne(s)
    ensures CallsLeft(Apply(cfg, s, Step.Work(k))) < CallsLeft(s)
  {
    var s' := Apply(cfg, s, Step.Work(k));
    CallSmaller(s.ca, s.w, k, s.workers[k]);
    assert s'.workers.Keys <= {k};
    hide Call, Size;
    assert CallsLeft(s) == 1 + Size(s.workers[k]);
    if k in s'.workers {
      assert CallsLeft(s') == 1 + Size(s'.workers[k]);
    }
  }

  lemma TurnShrinks(cfg: Config, s: Sys, list: seq<Step>, n: nat)
    requires Idle(cfg, s) && list != [] && At(cfg, s, list, n).s.workers != map[]
    ensures var (t, t') := (At(cfg, s, list, n), At(cfg, s, list, n + 1));
            t'.pos == t.pos && CallsLeft(t'.s) < CallsLeft(t.s)
  {
    hide Apply, Enabled, Idle, Live, Still, CallsLeft;
    var t := At(cfg, s, list, n);
    AlwaysStill(cfg, s, list, n);
    var k :| k in t.s.workers;
    OnlyWorker(cfg, t, list, k);
    WorkShrinks(cfg, t.s, k);
  }

  /** Whoever is at work gets done, in the same turn. */
  lemma {:induction false} GetsDone(cfg: Config, s: Sys, list: seq<Step>, n: nat) returns (m: nat)
    requires Idle(cfg, s) && list != []
    ensures n <= m && At(cfg, s, list, m).s.workers == map[] && At(cfg, s, list, m).pos == At(cfg, s, list, n).pos
    decreases CallsLeft(At(cfg, s, list, n).s)
  {
    hide Idle, At, CallsLeft;
    m := n;
    if At(cfg, s, list, n).s.workers != map[] {
      TurnShrinks(cfg, s, list, n);
      m := GetsDone(cfg, s, list, n + 1);
    }
  }

  /** Every turn comes, and then nobody is at work. */
  lemma {:induction false} TurnComes(cfg: Config, s: Sys, list: seq<Step>, n: nat, x: nat) returns (m: nat)
    requires Idle(cfg, s) && x < |list|
    ensures n <= m && At(cfg, s, list, m).s.workers == map[] && At(cfg, s, list, m).pos == x
    decreases var pos := At(cfg, s, list, n).pos; if pos <= x then x - pos else x + |list| - pos
  {
    m := GetsDone(cfg, s, list, n);
    var t := At(cfg, s, list, m);
    if t.pos != x {
      assert At(cfg, s, list, m + 1).pos == if t.pos + 1 < |list| then t.pos + 1 else 0;
      hide NextTurn, Idle;
      m := TurnComes(cfg, s, list, m + 1, x);
    }
  }

  ghost predicate Chosen(cfg: Config, s: Sys, list: seq<Step>, n: nat, step: Step)
    requires list != []
  {
    Choice(cfg, At(cfg, s, list, n), list) == Some(step)
  }

  lemma {:induction false} ReleasingKept(cfg: Config, s: Sys, list: seq<Step>, i: nat, m: nat, c: ClusterId)
    requires list != [] && i <= m && c in At(cfg, s, list, i).s.releasing
    requires forall j: nat :: i <= j < m ==> !Chosen(cfg, s, list, j, InfoRelease(c))
    ensures c in At(cfg, s, list, m).s.releasing
  {
    hide NextTurn, Choice;
    if i < m {
      ReleasingKept(cfg, s, list, i, m - 1, c);
      assert !Chosen(cfg, s, list, m - 1, InfoRelease(c));
      TurnReleases(cfg, At(cfg, s, list, m - 1), list, c);
    }
  }

  lemma TurnReleases(cfg: Config, t: Turn, list: seq<Step>, c: ClusterId)
    requires t.pos < |list| && c in t.s.releasing && Choice(cfg, t, list) != Some(InfoRelease(c))
    ensures c in NextTurn(cfg, t, list).s.releasing
  {
    hide Choice, ApplyWorld, ApplyWorkers, ApplyHistory;
  }

  lemma EnabledAgain(cfg: Config, s: Sys, s': Sys, step: Step)
    requires Enabled(cfg, s, step) && s'.w == s.w && s'.workers == map[]
    requires step.Begin? || step.InfoList? || step.TypeReady? || step.RequestDeletion?
    ensures Enabled(cfg, s', step)
  {
  }

  /** The list has all the candidates and nothing else. */
  ghost predicate Lists(list: seq<Step>, w: World) {
    forall c :: c in list <==> c in Candidates(w)
  }

  lemma CandidateKinds(w: World, step: Step)
    requires step in Candidates(w)
    ensures step.Begin? || step.InfoList? || step.TypeReady? || step.RequestDeletion? || step.InfoRelease?
  {
  }

  lemma ChoiceTaken(cfg: Config, t: Turn, list: seq<Step>)
    requires t.pos < |list| && t.s.workers == map[] && Enabled(cfg, t.s, list[t.pos]) && Internal(t.s.w, list[t.pos])
    ensures Choice(cfg, t, list) == Some(list[t.pos])
  {
  }

  /** What is possible at some time is chosen at some time after. */
  lemma CandidateChosen(cfg: Config, s: Sys, list: seq<Step>, i: nat, step: Step) returns (m: nat)
    requires Idle(cfg, s) && list != [] && Lists(list, s.w) && !step.Fail?
    requires var t := At(cfg, s, list, i); Enabled(cfg, t.s, step) && Internal(t.s.w, step)
    ensures i <= m && Chosen(cfg, s, list, m, step)
  {
    hide At, Candidates, Live, Still, Internal, Apply, Choice;
    var t := At(cfg, s, list, i);
    AlwaysStill(cfg, s, list, i);
    if step.Work? {
      OnlyWorker(cfg, t, list, step.k);
      m := i;
    } else {
      PossibleIsCandidate(cfg, t.s, step);
      assert step in list;
      var x: nat :| x < |list| && list[x] == step;
      m := TurnComes(cfg, s, list, i, x);
      AlwaysStill(cfg, s, list, m);
      if step.InfoRelease? {
        m := ReleaseChosen(cfg, s, list, i, m, step.c);
      } else {
        CandidateKinds(s.w, step);
        EnabledAgain(cfg, t.s, At(cfg, s, list, m).s, step);
        ChoiceTaken(cfg, At(cfg, s, list, m), list);
      }
    }
  }

  lemma ReleaseChosen(cfg: Config, s: Sys, list: seq<Step>, i: nat, m: nat, c: ClusterId) returns (n: nat)
    requires list != [] && i <= m && c in At(cfg, s, list, i).s.releasing
    requires var t := At(cfg, s, list, m); t.s.workers == map[] && list[t.pos] == InfoRelease(c)
    ensures i <= n && Chosen(cfg, s, list, n, InfoRelease(c))
  {
    if j: nat :| i <= j < m && Chosen(cfg, s, list, j, InfoRelease(c)) {
      n := j;
    } else {
      ReleasingKept(cfg, s, list, i, m, c);
      n := m;
    }
  }

  // ----- the run -----

  ghost function StateAt(cfg: Config, s: Sys, p: seq<Step>, list: seq<Step>, n: nat): Sys
    requires CanRun(cfg, s, p) && list != []
  {
    if n <= |p| then
      Prefix(cfg, s, p, n);
      Exec(cfg, s, p[..n])
    else At(cfg, Exec(cfg, s, p), list, n - |p|).s
  }

  ghost function StepAt(cfg: Config, s: Sys, p: seq<Step>, list: seq<Step>, n: nat): Option<Step>
    requires CanRun(cfg, s, p) && list != []
  {
    if n < |p| then Some(p[n]) else Choice(cfg, At(cfg, Exec(cfg, s, p), list, n - |p|), list)
  }

  lemma {:induction false} InternalAt(cfg: Config, s: Sys, p: seq<Step>, n: nat)
    requires InternalRun(cfg, s, p) && n < |p|
    ensures CanRun(cfg, s, p[..n]) && CanRun(cfg, s, p[..n + 1])
    ensures var s' := Exec(cfg, s, p[..n]);
            Enabled(cfg, s', p[n]) && Internal(s'.w, p[n]) && Exec(cfg, s, p[..n + 1]) == Apply(cfg, s', p[n])
    decreases n
  {
    hide Apply, Enabled, Internal;
    if n == 0 {
      assert p[..1][1..] == [] && p[..1][0] == p[0];
    } else {
      InternalAt(cfg, Apply(cfg, s, p[0]), p[1..], n - 1);
      assert p[..n][1..] == p[1..][..n - 1] && p[..n + 1][1..] == p[1..][..n];
    }
  }

  lemma RunGoesOn(cfg: Config, s: Sys, p: seq<Step>, list: seq<Step>, n: nat)
    requires InternalRun(cfg, s, p) && list != []
    ensures var (t, t') := (StateAt(cfg, s, p, list, n), StateAt(cfg, s, p, list, n + 1));
            match StepAt(cfg, s, p, list, n)
            case None => t' == t
            case Some(step) => Enabled(cfg, t, step) && Internal(t.w, step) && t' == Apply(cfg, t, step)
  {
    hide Apply, Enabled, Internal, Exec;
    if n < |p| {
      InternalAt(cfg, s, p, n);
    } else {
      assert p[..|p|] == p;
      assert At(cfg, Exec(cfg, s, p), list, n - |p|).s == StateAt(cfg, s, p, list, n);
    }
  }

  lemma StartsThere(cfg: Config, s: Sys, p: seq<Step>, list: seq<Step>)
    requires CanRun(cfg, s, p) && list != []
    ensures StateAt(cfg, s, p, list, 0) == s
  {
    assert p[..0] == [];
  }

  lemma ChoiceComesThrough(cfg: Config, s: Sys, list: seq<Step>, n: nat)
    requires list != [] && Lists(list, s.w)
    ensures var step := Choice(cfg, At(cfg, s, list, n), list); step.Some? ==> !step.value.Fail?
  {
    hide Choice, At;
    assert list[At(cfg, s, list, n).pos] in Candidates(s.w);
  }

  lemma AfterPrefix(cfg: Config, s: Sys, p: seq<Step>, list: seq<Step>, i: nat)
    requires CanRun(cfg, s, p) && list != [] && |p| <= i
    ensures StateAt(cfg, s, p, list, i) == At(cfg, Exec(cfg, s, p), list, i - |p|).s
    ensures StepAt(cfg, s, p, list, i) == Choice(cfg, At(cfg, Exec(cfg, s, p), list, i - |p|), list)
  {
    hide NextTurn, Choice;
    assert p[..|p|] == p;
  }

  lemma PossibleChosen(cfg: Config, s: Sys, p: seq<Step>, list: seq<Step>, i: nat, step: Step) returns (m: nat)
    requires CanRun(cfg, s, p) && Idle(cfg, Exec(cfg, s, p)) && |p| <= i && !step.Fail?
    requires list != [] && Lists(list, Exec(cfg, s, p).w)
    requires var t := StateAt(cfg, s, p, list, i); Enabled(cfg, t, step) && Internal(t.w, step)
    ensures i <= m && StepAt(cfg, s, p, list, m) == Some(step)
  {
    hide Apply, Enabled, Internal, Idle, Lists, StateAt, StepAt, At, Choice, CanRun, Exec;
    AfterPrefix(cfg, s, p, list, i);
    var n := CandidateChosen(cfg, Exec(cfg, s, p), list, i - |p|, step);
    m := n + |p|;
    AfterPrefix(cfg, s, p, list, m);
  }

  ghost function StatesOf(cfg: Config, s: Sys, p: seq<Step>, list: seq<Step>): States
    requires CanRun(cfg, s, p) && list != []
  {
    imap n: nat :: StateAt(cfg, s, p, list, n)
  }

  ghost function StepsOf(cfg: Config, s: Sys, p: seq<Step>, list: seq<Step>): Steps
    requires CanRun(cfg, s, p) && list != []
  {
    imap n: nat :: StepAt(cfg, s, p, list, n)
  }

  lemma RunIsEndless(cfg: Config, s: Sys, p: seq<Step>, list: seq<Step>)
    requires InternalRun(cfg, s, p) && list != []
    ensures Endless(cfg, StatesOf(cfg, s, p, list), StepsOf(cfg, s, p, list))
  {
    hide Apply, Enabled, Internal, Exec, CanRun, InternalRun, StateAt, StepAt;
    forall i: nat ensures Continues(cfg, StatesOf(cfg, s, p, list), StepsOf(cfg, s, p, list), i) {
      RunGoesOn(cfg, s, p, list, i);
    }
  }

  lemma RunIsFair(cfg: Config, s: Sys, p: seq<Step>, list: seq<Step>)
    requires CanRun(cfg, s, p) && Idle(cfg, Exec(cfg, s, p)) && list != [] && Lists(list, Exec(cfg, s, p).w)
    ensures Fair(cfg, StatesOf(cfg, s, p, list), StepsOf(cfg, s, p, list))
  {
    hide Apply, Enabled, Internal, Idle, Lists, Exec, CanRun, StateAt, StepAt;
    var (states, steps) := (StatesOf(cfg, s, p, list), StepsOf(cfg, s, p, list));
    forall step, n: nat | Often(cfg, states, step) && !step.Fail? ensures TakenAfter(steps, step, n) {
      var from := if n < |p| then |p| else n;
      assert PossibleAfter(cfg, states, step, from);
      var i: nat :| from <= i && Possible(cfg, states, step, i);
      var m := PossibleChosen(cfg, s, p, list, i, step);
      assert steps[m] == Some(step);
    }
  }

  lemma RunComesThrough(cfg: Config, s: Sys, p: seq<Step>, list: seq<Step>, i: nat)
    requires CanRun(cfg, s, p) && list != [] && Lists(list, Exec(cfg, s, p).w) && |p| <= i
    ensures NoFailure(StepsOf(cfg, s, p, list), i)
  {
    hide Exec, CanRun, Lists, At, Choice;
    ChoiceComesThrough(cfg, Exec(cfg, s, p), list, i - |p|);
  }

  /** From every state there is a fair run in which calls stop failing. */
  lemma FairRunExists(cfg: Config, s: Sys) returns (states: States, steps: Steps, start: nat)
    requires Live(cfg, s)
    ensures Endless(cfg, states, steps) && Fair(cfg, states, steps) && states[0] == s
    ensures forall i: nat :: start <= i ==> NoFailure(steps, i)
  {
    hide Live, Idle, Candidates, Exec, CanRun, InternalRun, StateAt, StepAt, Endless, Fair, NoFailure;
    var p := ReachIdle(cfg, s);
    var s0 := Exec(cfg, s, p);
    var list := Listed(Candidates(s0.w));
    assert InfoRelease(ORGS) in list by { FirstCandidate(s0.w); }
    assert Lists(list, s0.w);
    hide Lists;
    states, steps, start := StatesOf(cfg, s, p, list), StepsOf(cfg, s, p, list), |p|;
    RunIsEndless(cfg, s, p, list);
    RunIsFair(cfg, s, p, list);
    forall i: nat | start <= i ensures NoFailure(steps, i) {
      RunComesThrough(cfg, s, p, list, i);
    }
    StartsThere(cfg, s, p, list);
  }

  lemma FirstCandidate(w: World)
    ensures InfoRelease(ORGS) in Candidates(w)
  {
  }
}
