/** What a run's events add up to: for every outcome of every command, for every output. */
module RunnerFacts {
  import opened Common
  import opened Runner

  /** The status a node is left with. */
  function Last(events: seq<Event>, id: string): Option<string> {
    if events == [] then None
    else
      var e := events[|events| - 1];
      if e.NodeStatus? && e.id == id then Some(e.status) else Last(events[..|events| - 1], id)
  }

  lemma {:induction false} LastConcat(a: seq<Event>, b: seq<Event>, id: string)
    ensures Last(a + b, id) == if Last(b, id).Some? then Last(b, id) else Last(a, id)
    decreases |b|
  {
    if b == [] {
      assert a + b == a;
    } else {
      assert (a + b)[..|a + b| - 1] == a + b[..|b| - 1];
      LastConcat(a, b[..|b| - 1], id);
    }
  }

  ghost predicate Only(events: seq<Event>, ids: seq<string>) {
    forall e | e in events :: e.NodeStatus? && e.id in ids
  }

  /** No node status at all. */
  ghost predicate Silent(events: seq<Event>) {
    forall e | e in events :: !e.NodeStatus?
  }

  lemma {:induction false} LastOfOthers(events: seq<Event>, id: string)
    requires forall e | e in events && e.NodeStatus? :: e.id != id
    ensures Last(events, id).None?
  {
    if events != [] {
      LastOfOthers(events[..|events| - 1], id);
    }
  }

  lemma {:induction false} LastOfSlice(ids: seq<string>, status: string, id: string)
    ensures Last(Slice(ids, status), id) == if id in ids then Some(status) else None
  {
    if ids != [] {
      var init := ids[..|ids| - 1];
      LastOfSlice(init, status, id);
      assert Slice(ids, status)[..|ids| - 1] == Slice(init, status);
      assert ids == init + [ids[|ids| - 1]];
    }
  }

  // ---------- Each phase keeps to its own nodes and settles them ----------

  ghost predicate Proper(phase: Phase, ids: seq<string>) {
    && Only(phase.events, ids)
    && forall id | id in ids :: Last(phase.events, id) == Some(Verdict(phase.ok))
  }

  lemma SettledProper(before: seq<Event>, ids: seq<string>, ok: bool)
    requires Only(before, ids)
    ensures Proper(Phase(before + Slice(ids, Verdict(ok)), ok), ids)
  {
    forall id | id in ids ensures Last(before + Slice(ids, Verdict(ok)), id) == Some(Verdict(ok)) {
      LastConcat(before, Slice(ids, Verdict(ok)), id);
      LastOfSlice(ids, Verdict(ok), id);
    }
  }

  lemma SliceProper(ids: seq<string>, ok: bool)
    ensures Proper(Phase(Slice(ids, Verdict(ok)), ok), ids)
  {
    forall id | id in ids { LastOfSlice(ids, Verdict(ok), id); }
  }

  lemma {:induction false} LineProgressOwn(line: string, ids: seq<string>, destroy: bool)
    ensures Only(LineProgress(line, ids, destroy), ids)
  {
    if ids != [] {
      LineProgressOwn(line, ids[..|ids| - 1], destroy);
    }
  }

  lemma {:induction false} ProgressOwn(lines: seq<string>, ids: seq<string>, destroy: bool)
    ensures Only(Progress(lines, ids, destroy), ids)
  {
    if lines != [] {
      ProgressOwn(lines[..|lines| - 1], ids, destroy);
      LineProgressOwn(lines[|lines| - 1], ids, destroy);
    }
  }

  lemma {:induction false} TasksOwn(lines: seq<string>, ids: seq<string>)
    ensures Only(Tasks(lines, ids), ids)
  {
    if lines != [] {
      TasksOwn(lines[..|lines| - 1], ids);
    }
  }

  lemma SourceProper(p: Plan, w: World)
    requires p.repo.present || p.source == []
    ensures Proper(SourcePhase(p, w), p.source)
  {
    SettledProper(Slice(p.source, "running"), p.source, w.cloned);
    SliceProper(p.source, true);
  }

  lemma TerraformProper(p: Plan, w: World)
    ensures Proper(TerraformPhase(p, w), p.tf)
  {
    ProgressOwn(w.apply.lines, p.tf, false);
    SettledProper(Progress(w.apply.lines, p.tf, false), p.tf, w.apply.ok);
    SliceProper(p.tf, true);
    SliceProper(p.tf, false);
  }

  lemma AnsibleProper(p: Plan, w: World)
    ensures Proper(AnsiblePhase(p, w), p.ansible)
  {
    TasksOwn(w.ansible.lines, p.ansible);
    SettledProper(Tasks(w.ansible.lines, p.ansible), p.ansible, w.ansible.ok);
    SliceProper(p.ansible, true);
    SliceProper(p.ansible, false);
  }

  lemma KubernetesProper(p: Plan, w: World)
    ensures Proper(KubernetesPhase(p, w), p.k8s)
  {
    SettledProper(Slice(p.k8s, "running"), p.k8s, w.kubectl);
    SliceProper(p.k8s, true);
  }

  lemma DestroyProper(p: Plan, w: World)
    ensures Proper(DestroyPhase(p, w), p.tf)
  {
    ProgressOwn(w.destroy.lines, p.tf, true);
    SettledProper(Progress(w.destroy.lines, p.tf, true), p.tf, w.destroy.ok);
    SliceProper(p.tf, true);
  }

  ghost predicate AllProper(phases: seq<Phase>, groups: seq<seq<string>>) {
    |phases| == |groups| && forall r | 0 <= r < |phases| :: Proper(phases[r], groups[r])
  }

  lemma PlanHasRepo(c: Canvas)
    ensures PlanOf(c).repo.present || PlanOf(c).source == []
  {
    if c.Parsed? && PlanOf(c).source != [] {
      assert PlanOf(c).source[0] in IdsOf(c.nodes, "Source");
    }
  }

  lemma FilesProper(ok: bool)
    ensures Proper(Phase([], ok), [])
  {
  }

  lemma PhaseProper(c: Canvas, w: World, r: nat)
    requires r < 5
    ensures Proper(Phases(PlanOf(c), w)[r], Groups(PlanOf(c))[r])
  {
    var p := PlanOf(c);
    if r == 0 {
      FilesProper(AllWritten(w.writes));
    } else if r == 1 {
      PlanHasRepo(c);
      SourceProper(p, w);
    } else if r == 2 {
      TerraformProper(p, w);
    } else if r == 3 {
      AnsibleProper(p, w);
    } else {
      KubernetesProper(p, w);
    }
  }

  lemma DeployProper(c: Canvas, w: World)
    ensures AllProper(Phases(PlanOf(c), w), Groups(PlanOf(c)))
  {
    forall r | 0 <= r < 5 ensures Proper(Phases(PlanOf(c), w)[r], Groups(PlanOf(c))[r]) {
      PhaseProper(c, w, r);
    }
  }

  // ---------- A sequence of phases ----------

  /** Index of the phase that fails, or the number of phases. */
  function FirstFailed(phases: seq<Phase>): (f: nat)
    ensures f <= |phases|
    ensures forall r | 0 <= r < f :: phases[r].ok
    ensures f < |phases| ==> !phases[f].ok
  {
    if phases == [] || !phases[0].ok then 0 else 1 + FirstFailed(phases[1..])
  }

  ghost predicate In(groups: seq<seq<string>>, id: string) {
    exists r | 0 <= r < |groups| :: id in groups[r]
  }

  ghost predicate Disjoint(groups: seq<seq<string>>) {
    forall q, r, id | 0 <= q < r < |groups| && id in groups[q] :: id !in groups[r]
  }

  lemma {:induction false} Untouched(phases: seq<Phase>, groups: seq<seq<string>>, ending: seq<Event>, k: nat,
                                     id: string)
    requires AllProper(phases, groups) && Silent(ending) && !In(groups, id)
    requires k <= |RunPhases(phases, ending)|
    ensures Last(RunPhases(phases, ending)[..k], id).None?
    decreases |phases|
  {
    var t := RunPhases(phases, ending);
    if phases == [] {
      LastOfOthers(t[..k], id);
    } else {
      var here := phases[0].events;
      assert id !in groups[0];
      if k <= |here| || !phases[0].ok {
        LastOfOthers(t[..k], id);
      } else {
        assert t[..k] == here + RunPhases(phases[1..], ending)[..k - |here|];
        LastOfOthers(here, id);
        TailUntouched(groups, id);
        Untouched(phases[1..], groups[1..], ending, k - |here|, id);
        LastConcat(here, RunPhases(phases[1..], ending)[..k - |here|], id);
      }
    }
  }

  lemma TailUntouched(groups: seq<seq<string>>, id: string)
    requires groups != [] && !In(groups, id)
    ensures !In(groups[1..], id)
  {
    forall r | 0 <= r < |groups[1..]| ensures id !in groups[1..][r] {
      assert groups[1..][r] == groups[r + 1];
    }
  }

  /** Groups before the q-th are completed and those after it have not been touched. */
  ghost predicate AtPhase(events: seq<Event>, groups: seq<seq<string>>, q: nat) {
    forall r, id | 0 <= r < |groups| && id in groups[r] :: PlacedAt(Last(events, id), r, q)
  }

  predicate PlacedAt(last: Option<string>, r: int, q: int) {
    (r < q ==> last == Some("completed")) && (r > q ==> last == None)
  }

  lemma NodeAt(here: Phase, rest: seq<Event>, groups: seq<seq<string>>, q: nat, r: nat, id: string)
    requires groups != [] && Proper(here, groups[0]) && here.ok && Disjoint(groups)
    requires r < |groups| && id in groups[r]
    requires if r == 0 then Last(rest, id).None? else PlacedAt(Last(rest, id), r - 1, q)
    ensures PlacedAt(Last(here.events + rest, id), r, q + 1)
  {
    LastConcat(here.events, rest, id);
    if r > 0 {
      LastOfOthers(here.events, id);
    }
  }

  lemma FirstPhaseAt(events: seq<Event>, groups: seq<seq<string>>)
    requires groups != [] && Disjoint(groups) && forall e | e in events && e.NodeStatus? :: e.id in groups[0]
    ensures AtPhase(events, groups, 0)
  {
    forall r, id | 0 < r < |groups| && id in groups[r] ensures Last(events, id) == None {
      LastOfOthers(events, id);
    }
  }

  /** At any moment of a run there is a current phase. */
  lemma {:induction false} PhaseAt(phases: seq<Phase>, groups: seq<seq<string>>, ending: seq<Event>, k: nat)
    returns (q: nat)
    requires AllProper(phases, groups) && Silent(ending) && Disjoint(groups)
    requires k <= |RunPhases(phases, ending)|
    ensures AtPhase(RunPhases(phases, ending)[..k], groups, q)
    decreases |phases|
  {
    q := 0;
    var t := RunPhases(phases, ending);
    if phases != [] {
      var here := phases[0].events;
      if k <= |here| || !phases[0].ok {
        FirstPhaseAt(t[..k], groups);
      } else {
        var m := k - |here|;
        var rest := RunPhases(phases[1..], ending)[..m];
        assert t[..k] == here + rest;
        var q' := PhaseAt(phases[1..], groups[1..], ending, m);
        q := q' + 1;
        forall r, id | 0 <= r < |groups| && id in groups[r] ensures PlacedAt(Last(t[..k], id), r, q) {
          if r == 0 {
            NotInLater(groups, id);
            Untouched(phases[1..], groups[1..], ending, m, id);
          } else {
            assert groups[1..][r - 1] == groups[r];
          }
          NodeAt(phases[0], rest, groups, q', r, id);
        }
      }
    }
  }

  lemma NotInLater(groups: seq<seq<string>>, id: string)
    requires Disjoint(groups) && groups != [] && id in groups[0]
    ensures !In(groups[1..], id)
  {
    forall r | 0 <= r < |groups[1..]| ensures id !in groups[1..][r] {
      assert groups[1..][r] == groups[r + 1];
    }
  }

  /** Where a finished run leaves the nodes of each group. */
  lemma {:induction false} GroupOutcome(phases: seq<Phase>, groups: seq<seq<string>>, ending: seq<Event>, r: nat,
                                        id: string)
    requires AllProper(phases, groups) && Silent(ending) && Disjoint(groups) && r < |groups| && id in groups[r]
    ensures Last(RunPhases(phases, ending), id) ==
            if r < FirstFailed(phases) then Some("completed")
            else if r == FirstFailed(phases) then Some("failed")
            else None
    decreases |phases|
  {
    var here, t := phases[0].events, RunPhases(phases, ending);
    if !phases[0].ok {
      LastConcat(here, [Complete("FAILED")], id);
      assert Last([Complete("FAILED")], id) == None;
      if r > 0 {
        assert id !in groups[0];
        LastOfOthers(here, id);
      }
    } else {
      var rest := RunPhases(phases[1..], ending);
      LastConcat(here, rest, id);
      if r == 0 {
        assert !In(groups[1..], id);
        Untouched(phases[1..], groups[1..], ending, |rest|, id);
        assert rest[..|rest|] == rest;
      } else {
        assert groups[1..][r - 1] == groups[r];
        GroupOutcome(phases[1..], groups[1..], ending, r - 1, id);
        LastOfOthers(here, id);
      }
    }
  }

  /** When every phase succeeds it does not matter whether phases share nodes. */
  lemma {:induction false} AllCompleted(phases: seq<Phase>, groups: seq<seq<string>>, ending: seq<Event>, id: string)
    requires AllProper(phases, groups) && Silent(ending) && FirstFailed(phases) == |phases| && In(groups, id)
    ensures Last(RunPhases(phases, ending), id) == Some("completed")
    decreases |phases|
  {
    var here, rest := phases[0].events, RunPhases(phases[1..], ending);
    LastConcat(here, rest, id);
    if In(groups[1..], id) {
      AllCompleted(phases[1..], groups[1..], ending, id);
    } else {
      Untouched(phases[1..], groups[1..], ending, |rest|, id);
      assert rest[..|rest|] == rest;
      var r :| 0 <= r < |groups| && id in groups[r];
      assert r > 0 ==> groups[1..][r - 1] == groups[r];
    }
  }

  // ---------- Completion ----------

  /** The run is completed once, as its last event. */
  ghost predicate CompletesOnce(events: seq<Event>, status: string) {
    && events != [] && events[|events| - 1] == Complete(status)
    && forall i | 0 <= i < |events| - 1 :: !events[i].Complete?
  }

  lemma CompletesAfter(before: seq<Event>, events: seq<Event>, status: string)
    requires CompletesOnce(events, status) && forall e | e in before :: !e.Complete?
    ensures CompletesOnce(before + events, status)
  {
    forall i | 0 <= i < |before + events| - 1 ensures !(before + events)[i].Complete? {
      if i < |before| {
        assert before[i] in before;
      }
    }
  }

  lemma {:induction false} PhasesComplete(phases: seq<Phase>, groups: seq<seq<string>>, ending: seq<Event>)
    requires AllProper(phases, groups) && CompletesOnce(ending, "SUCCESS")
    ensures CompletesOnce(RunPhases(phases, ending), if FirstFailed(phases) == |phases| then "SUCCESS" else "FAILED")
    decreases |phases|
  {
    if phases != [] {
      if phases[0].ok {
        PhasesComplete(phases[1..], groups[1..], ending);
        CompletesAfter(phases[0].events, RunPhases(phases[1..], ending),
                       if FirstFailed(phases) == |phases| then "SUCCESS" else "FAILED");
      } else {
        CompletesAfter(phases[0].events, [Complete("FAILED")], "FAILED");
      }
    }
  }

  predicate DeploySucceeds(p: Plan, w: World) {
    && AllWritten(w.writes)
    && (p.repo.present && p.repo.url != "" ==> w.cloned)
    && (p.hasTf && w.mainTf ==> w.init && w.apply.ok)
    && (p.hasAnsible && w.playbook ==> w.keyFound && w.ansible.ok)
    && (p.hasK8s && w.manifest ==> w.kubectl)
  }

  predicate Succeeds(action: string, p: Plan, w: World) {
    if action == "destroy" then p.hasTf && w.mainTf ==> w.destroy.ok
    else if action == "plan" then AllWritten(w.writes) && (p.hasTf && w.mainTf ==> w.init && w.plan)
    else DeploySucceeds(p, w)
  }

  predicate PhaseSucceeds(p: Plan, w: World, r: nat) {
    if r == 0 then AllWritten(w.writes)
    else if r == 1 then p.repo.present && p.repo.url != "" ==> w.cloned
    else if r == 2 then p.hasTf && w.mainTf ==> w.init && w.apply.ok
    else if r == 3 then p.hasAnsible && w.playbook ==> w.keyFound && w.ansible.ok
    else p.hasK8s && w.manifest ==> w.kubectl
  }

  lemma PhaseVerdict(p: Plan, w: World, r: nat)
    requires r < 5
    ensures Phases(p, w)[r].ok == PhaseSucceeds(p, w, r)
  {
  }

  lemma DeployFailsSomewhere(p: Plan, w: World)
    ensures FirstFailed(Phases(p, w)) == |Phases(p, w)| <==> DeploySucceeds(p, w)
  {
    forall r | 0 <= r < 5 ensures Phases(p, w)[r].ok == PhaseSucceeds(p, w, r) {
      PhaseVerdict(p, w, r);
    }
    assert DeploySucceeds(p, w) <==>
      PhaseSucceeds(p, w, 0) && PhaseSucceeds(p, w, 1) && PhaseSucceeds(p, w, 2) && PhaseSucceeds(p, w, 3)
        && PhaseSucceeds(p, w, 4);
  }

  lemma DeployCompletes(c: Canvas, w: World, autoDestroy: bool)
    ensures CompletesOnce(DeployTrace(PlanOf(c), w, autoDestroy),
                          if DeploySucceeds(PlanOf(c), w) then "SUCCESS" else "FAILED")
  {
    var p := PlanOf(c);
    var ending := Cleanup(p, w, autoDestroy) + [Complete("SUCCESS")];
    DeployProper(c, w);
    PhasesComplete(Phases(p, w), Groups(p), ending);
    DeployFailsSomewhere(p, w);
    CompletesAfter(Prelude(p), RunPhases(Phases(p, w), ending), if DeploySucceeds(p, w) then "SUCCESS" else "FAILED");
  }

  lemma DestroyCompletes(p: Plan, w: World)
    ensures CompletesOnce(DestroyTrace(p, w), if p.hasTf && w.mainTf ==> w.destroy.ok then "SUCCESS" else "FAILED")
  {
    var phase := DestroyPhase(p, w);
    DestroyProper(p, w);
    PhasesComplete([phase], [p.tf], [Complete("SUCCESS")]);
    CompletesAfter(DestroyPrelude(p), RunPhases([phase], [Complete("SUCCESS")]),
                   if phase.ok then "SUCCESS" else "FAILED");
  }

  /** Every run of every action completes exactly once, at its very end, and reports success exactly
      when every command that it had to run succeeded. */
  lemma RunCompletesOnce(c: Canvas, action: string, w: World, autoDestroy: bool)
    ensures CompletesOnce(Trace(action, PlanOf(c), w, autoDestroy),
                          if Succeeds(action, PlanOf(c), w) then "SUCCESS" else "FAILED")
  {
    var p := PlanOf(c);
    if action == "destroy" {
      DestroyCompletes(p, w);
    } else if action == "plan" {
      var status := if Succeeds(action, p, w) then "SUCCESS" else "FAILED";
      CompletesAfter(Slice(p.all, "pending"), [Complete(status)], status);
    } else {
      DeployCompletes(c, w, autoDestroy);
    }
  }

  // ---------- Deployments ----------

  ghost predicate AllAre(events: seq<Event>, ids: seq<string>, status: string) {
    forall id | id in ids :: Last(events, id) == Some(status)
  }

  lemma AfterPrelude(p: Plan, events: seq<Event>, id: string)
    ensures Last(Prelude(p) + events, id) ==
            if Last(events, id).Some? then Last(events, id)
            else if id in p.target then Some("completed")
            else if id in p.all then Some("pending")
            else None
  {
    LastConcat(Prelude(p), events, id);
    LastConcat(Slice(p.all, "pending"), Slice(p.target, "completed"), id);
    LastOfSlice(p.all, "pending", id);
    LastOfSlice(p.target, "completed", id);
  }

  lemma EndingSilent(p: Plan, w: World, autoDestroy: bool)
    ensures Silent(Cleanup(p, w, autoDestroy) + [Complete("SUCCESS")])
  {
  }

  lemma GroupsOfPlan(p: Plan, id: string)
    ensures In(Groups(p), id) <==> id in p.source || id in p.tf || id in p.ansible || id in p.k8s
  {
    var g := Groups(p);
    assert g[0] == [] && g[1] == p.source && g[2] == p.tf && g[3] == p.ansible && g[4] == p.k8s;
  }

  /** A successful deployment leaves every node that a phase or a target accounts for completed. */
  lemma SuccessLeavesAllCompleted(c: Canvas, w: World, autoDestroy: bool)
    requires DeploySucceeds(PlanOf(c), w)
    ensures var p, t := PlanOf(c), DeployTrace(PlanOf(c), w, autoDestroy);
            AllAre(t, p.source + p.tf + p.ansible + p.k8s + p.target, "completed")
  {
    var p := PlanOf(c);
    forall id | id in p.source + p.tf + p.ansible + p.k8s + p.target
      ensures Last(DeployTrace(p, w, autoDestroy), id) == Some("completed")
    {
      GroupsOfPlan(p, id);
      CompletedAfterSuccess(c, w, autoDestroy, id);
    }
  }

  lemma CompletedAfterSuccess(c: Canvas, w: World, autoDestroy: bool, id: string)
    requires DeploySucceeds(PlanOf(c), w) && (In(Groups(PlanOf(c)), id) || id in PlanOf(c).target)
    ensures Last(DeployTrace(PlanOf(c), w, autoDestroy), id) == Some("completed")
  {
    var p := PlanOf(c);
    var ending := Cleanup(p, w, autoDestroy) + [Complete("SUCCESS")];
    var run := RunPhases(Phases(p, w), ending);
    DeployProper(c, w);
    DeployFailsSomewhere(p, w);
    EndingSilent(p, w, autoDestroy);
    AfterPrelude(p, run, id);
    if In(Groups(p), id) {
      AllCompleted(Phases(p, w), Groups(p), ending, id);
    } else {
      Untouched(Phases(p, w), Groups(p), ending, |run|, id);
      assert run[..|run|] == run;
    }
  }

  /** The technologies that the run reports on. */
  predicate Staged(tech: string) {
    tech in ["Source", "Terraform", "Ansible", "Kubernetes", "Target"]
  }

  /** No id is used under two of them; using one twice under the same is harmless. */
  ghost predicate OneTechPerId(c: Canvas) {
    c.Parsed? ==>
      forall m, n | m in c.nodes && n in c.nodes && m.id == n.id && Staged(m.tech) && Staged(n.tech) :: m.tech == n.tech
  }

  function TechOf(r: nat): string {
    if r == 1 then "Source" else if r == 2 then "Terraform" else if r == 3 then "Ansible" else "Kubernetes"
  }

  lemma TechsDiffer(q: nat, r: nat)
    requires 1 <= q < 5 && 1 <= r < 5
    ensures (TechOf(q) == TechOf(r) <==> q == r) && TechOf(r) != "Target" && Staged(TechOf(r))
  {
    var a, b := TechOf(q), TechOf(r);
    assert q != r ==> |a| != |b|;
    assert b[0] == "Target"[0] ==> |b| == 9;
  }

  lemma GroupIds(c: Canvas, r: nat)
    requires c.Parsed? && 1 <= r < 5
    ensures Groups(PlanOf(c))[r] == IdsOf(c.nodes, TechOf(r))
  {
    var p, g := PlanOf(c), Groups(PlanOf(c));
    assert g[1] == p.source && g[2] == p.tf && g[3] == p.ansible && g[4] == p.k8s;
  }

  lemma GroupByTech(c: Canvas, r: nat, id: string)
    requires r < 5 && id in Groups(PlanOf(c))[r]
    ensures c.Parsed? && 1 <= r && id in IdsOf(c.nodes, TechOf(r)) && id in PlanOf(c).all
  {
    var p, g := PlanOf(c), Groups(PlanOf(c));
    assert g[0] == [] && g[1] == p.source && g[2] == p.tf && g[3] == p.ansible && g[4] == p.k8s;
  }

  lemma OneTech(c: Canvas, id: string, a: string, b: string)
    requires OneTechPerId(c) && c.Parsed? && Staged(a) && Staged(b)
    requires id in IdsOf(c.nodes, a) && id in IdsOf(c.nodes, b)
    ensures a == b
  {
    var m :| m in c.nodes && m.tech == a && m.id == id;
    var n :| n in c.nodes && n.tech == b && n.id == id;
  }

  /** The phases share no node with each other or with the targets. */
  ghost predicate Apart(p: Plan) {
    Disjoint(Groups(p)) && forall id | In(Groups(p), id) :: id !in p.target
  }

  lemma GroupsDisjoint(c: Canvas)
    requires OneTechPerId(c)
    ensures Apart(PlanOf(c))
  {
    var g := Groups(PlanOf(c));
    forall q, r, id | 0 <= q < r < |g| && id in g[q] ensures id !in g[r] {
      GroupByTech(c, q, id);
      if id in g[r] {
        GroupByTech(c, r, id);
        TechsDiffer(q, r);
        TechsDiffer(r, q);
        OneTech(c, id, TechOf(q), TechOf(r));
      }
    }
    forall id | In(g, id) ensures id !in PlanOf(c).target {
      var r :| 0 <= r < |g| && id in g[r];
      GroupByTech(c, r, id);
      TechsDiffer(r, r);
      if id in PlanOf(c).target {
        OneTech(c, id, TechOf(r), "Target");
      }
    }
  }

  lemma GroupsInAll(c: Canvas, r: nat, id: string)
    requires r < 5 && id in Groups(PlanOf(c))[r]
    ensures id in PlanOf(c).all && In(Groups(PlanOf(c)), id)
  {
    GroupByTech(c, r, id);
  }

  lemma StagedIn(c: Canvas, n: Node) returns (r: nat)
    requires c.Parsed? && n in c.nodes && Staged(n.tech) && n.tech != "Target"
    ensures 1 <= r < 5 && TechOf(r) == n.tech && n.id in Groups(PlanOf(c))[r]
  {
    r := if n.tech == "Source" then 1 else if n.tech == "Terraform" then 2 else if n.tech == "Ansible" then 3 else 4;
    GroupIds(c, r);
  }

  lemma ApartExactlyWhen(c: Canvas)
    ensures Apart(PlanOf(c)) <==> OneTechPerId(c)
  {
    if OneTechPerId(c) {
      GroupsDisjoint(c);
    } else {
      var m, n :| m in c.nodes && n in c.nodes && m.id == n.id && Staged(m.tech) && Staged(n.tech) && m.tech != n.tech;
      if m.tech == "Target" {
        var r := StagedIn(c, n);
        GroupsInAll(c, r, n.id);
      } else if n.tech == "Target" {
        var r := StagedIn(c, m);
        GroupsInAll(c, r, m.id);
      } else {
        var q := StagedIn(c, m);
        var r := StagedIn(c, n);
        assert q != r && m.id in Groups(PlanOf(c))[q] && m.id in Groups(PlanOf(c))[r];
      }
    }
  }

  /** One phase failed: its nodes are failed, those of earlier phases are completed, those of later phases
      never got past pending, and targets are completed. */
  ghost predicate Disciplined(p: Plan, w: World, autoDestroy: bool) {
    var t, f := DeployTrace(p, w, autoDestroy), FirstFailed(Phases(p, w));
    && (forall r | 0 <= r < 5 :: AllAre(t, Groups(p)[r], StatusAt(r, f)))
    && AllAre(t, p.target, "completed")
  }

  function StatusAt(r: int, f: int): string {
    if r < f then "completed" else if r == f then "failed" else "pending"
  }

  lemma FailureHasOneFailedPhase(c: Canvas, w: World, autoDestroy: bool)
    requires OneTechPerId(c) && !DeploySucceeds(PlanOf(c), w)
    ensures FirstFailed(Phases(PlanOf(c), w)) < 5 && Disciplined(PlanOf(c), w, autoDestroy)
  {
    var p := PlanOf(c);
    DeployFailsSomewhere(p, w);
    forall r, id | 0 <= r < 5 && id in Groups(p)[r]
      ensures Last(DeployTrace(p, w, autoDestroy), id) == Some(StatusAt(r, FirstFailed(Phases(p, w))))
    {
      NodeAfterFailure(c, w, autoDestroy, r, id);
    }
    forall id | id in p.target ensures Last(DeployTrace(p, w, autoDestroy), id) == Some("completed") {
      TargetStaysCompleted(c, w, autoDestroy, id);
    }
  }

  const QUIET := Command([], true)

  /** Everything is found and works, but for one phase. */
  function OnlyFails(f: nat): World {
    World(writes := [f != 0], mainTf := true, playbook := true, manifest := true, cloned := f != 1, init := f != 2,
          apply := QUIET, keyFound := f != 3, ansible := QUIET, kubectl := f != 4, mainTfLeft := true,
          destroy := QUIET, plan := true)
  }

  lemma FailsThere(c: Canvas, f: nat)
    requires f == 0 || (2 <= f < 5 && Groups(PlanOf(c))[f] != [])
    ensures !DeploySucceeds(PlanOf(c), OnlyFails(f)) && FirstFailed(Phases(PlanOf(c), OnlyFails(f))) == f
  {
    var p, w := PlanOf(c), OnlyFails(f);
    DeployFailsSomewhere(p, w);
    forall r | 0 <= r <= f ensures Phases(p, w)[r].ok == (r != f) {
      PhaseVerdict(p, w, r);
      assert w.writes[0] in w.writes;
      if r == f > 0 {
        SwitchedOn(c, f);
      }
    }
  }

  lemma SwitchedOn(c: Canvas, f: nat)
    requires 2 <= f < 5 && Groups(PlanOf(c))[f] != []
    ensures var p := PlanOf(c); if f == 2 then p.hasTf else if f == 3 then p.hasAnsible else p.hasK8s
  {
    var p := PlanOf(c);
    GroupByTech(c, f, Groups(p)[f][0]);
    assert Groups(p)[2] == p.tf && Groups(p)[3] == p.ansible && Groups(p)[4] == p.k8s;
  }

  lemma TwoStatuses(events: seq<Event>, a: seq<string>, b: seq<string>, id: string, x: string, y: string)
    requires id in a && id in b && x != y
    ensures !AllAre(events, a, x) || !AllAre(events, b, y)
  {
    assert AllAre(events, a, x) ==> Last(events, id) == Some(x);
  }

  /** A node of two phases is undisciplined when the later one fails. */
  lemma SharedPhaseFails(c: Canvas, q: nat, r: nat, id: string)
    requires q < r < 5 && id in Groups(PlanOf(c))[q] && id in Groups(PlanOf(c))[r]
    ensures var w := OnlyFails(r); !DeploySucceeds(PlanOf(c), w) && !Disciplined(PlanOf(c), w, false)
  {
    var p := PlanOf(c);
    GroupByTech(c, q, id);
    FailsThere(c, r);
    TwoStatuses(DeployTrace(p, OnlyFails(r), false), Groups(p)[q], Groups(p)[r], id, "completed", "failed");
  }

  /** A target that a phase also counts among its nodes is not pending when the files cannot be written. */
  lemma SharedTargetFails(c: Canvas, r: nat, id: string)
    requires r < 5 && id in Groups(PlanOf(c))[r] && id in PlanOf(c).target
    ensures var w := OnlyFails(0); !DeploySucceeds(PlanOf(c), w) && !Disciplined(PlanOf(c), w, false)
  {
    var p := PlanOf(c);
    GroupByTech(c, r, id);
    FailsThere(c, 0);
    TwoStatuses(DeployTrace(p, OnlyFails(0), false), Groups(p)[r], p.target, id, "pending", "completed");
  }

  ghost predicate AlwaysDisciplined(p: Plan) {
    forall w, autoDestroy | !DeploySucceeds(p, w) :: Disciplined(p, w, autoDestroy)
  }

  /** Every way of failing keeps to the discipline exactly when no id stands under two technologies: two
      nodes of one technology may share theirs. */
  lemma DisciplinedExactlyWhen(c: Canvas)
    ensures AlwaysDisciplined(PlanOf(c)) <==> OneTechPerId(c)
  {
    var p := PlanOf(c);
    ApartExactlyWhen(c);
    if OneTechPerId(c) {
      forall w, autoDestroy | !DeploySucceeds(p, w) ensures Disciplined(p, w, autoDestroy) {
        FailureHasOneFailedPhase(c, w, autoDestroy);
      }
    } else if !Disjoint(Groups(p)) {
      var q, r, id :| 0 <= q < r < 5 && id in Groups(p)[q] && id in Groups(p)[r];
      SharedPhaseFails(c, q, r, id);
    } else {
      var id :| In(Groups(p), id) && id in p.target;
      var r :| 0 <= r < 5 && id in Groups(p)[r];
      SharedTargetFails(c, r, id);
    }
  }

  lemma {:induction false} FailedGroup(phases: seq<Phase>, groups: seq<seq<string>>, ending: seq<Event>, id: string)
    requires AllProper(phases, groups) && FirstFailed(phases) < |groups| && id in groups[FirstFailed(phases)]
    ensures Last(RunPhases(phases, ending), id) == Some("failed")
    decreases |phases|
  {
    if phases[0].ok {
      FailedGroup(phases[1..], groups[1..], ending, id);
      LastConcat(phases[0].events, RunPhases(phases[1..], ending), id);
    } else {
      LastConcat(phases[0].events, [Complete("FAILED")], id);
      assert Last([Complete("FAILED")], id) == None;
    }
  }

  /** Whatever fails: a node that the failed phase shares with an earlier one ends up failed, although the
      earlier phase was completed. */
  lemma SharedNodeEndsFailed(c: Canvas, w: World, autoDestroy: bool, r: nat, id: string)
    requires r < 5 && id in Groups(PlanOf(c))[r]
    ensures var f := FirstFailed(Phases(PlanOf(c), w));
            r < f < 5 && id in Groups(PlanOf(c))[f] ==>
              Last(DeployTrace(PlanOf(c), w, autoDestroy), id) == Some("failed") && !OneTechPerId(c)
  {
    var p, f := PlanOf(c), FirstFailed(Phases(PlanOf(c), w));
    var ending := Cleanup(p, w, autoDestroy) + [Complete("SUCCESS")];
    if r < f < 5 && id in Groups(p)[f] {
      DeployProper(c, w);
      FailedGroup(Phases(p, w), Groups(p), ending, id);
      AfterPrelude(p, RunPhases(Phases(p, w), ending), id);
      ApartExactlyWhen(c);
    }
  }

  lemma NodeAfterFailure(c: Canvas, w: World, autoDestroy: bool, r: nat, id: string)
    requires OneTechPerId(c) && r < 5 && id in Groups(PlanOf(c))[r]
    ensures Last(DeployTrace(PlanOf(c), w, autoDestroy), id) == Some(StatusAt(r, FirstFailed(Phases(PlanOf(c), w))))
  {
    var p := PlanOf(c);
    var ending := Cleanup(p, w, autoDestroy) + [Complete("SUCCESS")];
    DeployProper(c, w);
    EndingSilent(p, w, autoDestroy);
    GroupsDisjoint(c);
    GroupOutcome(Phases(p, w), Groups(p), ending, r, id);
    AfterPrelude(p, RunPhases(Phases(p, w), ending), id);
    GroupsInAll(c, r, id);
  }

  lemma TargetStaysCompleted(c: Canvas, w: World, autoDestroy: bool, id: string)
    requires OneTechPerId(c) && id in PlanOf(c).target
    ensures Last(DeployTrace(PlanOf(c), w, autoDestroy), id) == Some("completed")
  {
    var p := PlanOf(c);
    var ending := Cleanup(p, w, autoDestroy) + [Complete("SUCCESS")];
    var run := RunPhases(Phases(p, w), ending);
    DeployProper(c, w);
    EndingSilent(p, w, autoDestroy);
    GroupsDisjoint(c);
    Untouched(Phases(p, w), Groups(p), ending, |run|, id);
    assert run[..|run|] == run;
    AfterPrelude(p, run, id);
  }

  /** At any moment after the prelude, phases before the current one are completed and phases after
      it are pending. */
  lemma PhasesInOrder(c: Canvas, w: World, autoDestroy: bool, k: nat) returns (q: nat)
    requires OneTechPerId(c) && |Prelude(PlanOf(c))| <= k <= |DeployTrace(PlanOf(c), w, autoDestroy)|
    ensures forall r | 0 <= r < 5 && r != q ::
              AllAre(DeployTrace(PlanOf(c), w, autoDestroy)[..k], Groups(PlanOf(c))[r],
                     if r < q then "completed" else "pending")
  {
    var p := PlanOf(c);
    var ending := Cleanup(p, w, autoDestroy) + [Complete("SUCCESS")];
    var run, m := RunPhases(Phases(p, w), ending), k - |Prelude(p)|;
    DeployProper(c, w);
    EndingSilent(p, w, autoDestroy);
    GroupsDisjoint(c);
    q := PhaseAt(Phases(p, w), Groups(p), ending, m);
    assert DeployTrace(p, w, autoDestroy)[..k] == Prelude(p) + run[..m];
    forall r, id | 0 <= r < 5 && r != q && id in Groups(p)[r]
      ensures Last(DeployTrace(p, w, autoDestroy)[..k], id) == Some(if r < q then "completed" else "pending")
    {
      AfterPrelude(p, run[..m], id);
      GroupsInAll(c, r, id);
    }
  }

  lemma {:induction false} StatusChangesIn(phases: seq<Phase>, groups: seq<seq<string>>, ending: seq<Event>, s: string)
    requires AllProper(phases, groups)
    ensures StatusChange(s) in RunPhases(phases, ending) <==>
            FirstFailed(phases) == |phases| && StatusChange(s) in ending
    decreases |phases|
  {
    if phases != [] && phases[0].ok {
      StatusChangesIn(phases[1..], groups[1..], ending, s);
    }
  }

  /** Clean-up is announced exactly when everything succeeded, it was asked for, and there is
      Terraform left to destroy; whether it works does not matter to the result. */
  lemma CleanupExactlyWhen(c: Canvas, w: World, autoDestroy: bool)
    ensures StatusChange("CLEANUP") in DeployTrace(PlanOf(c), w, autoDestroy) <==>
            DeploySucceeds(PlanOf(c), w) && autoDestroy && PlanOf(c).hasTf && w.mainTfLeft
  {
    var p := PlanOf(c);
    DeployProper(c, w);
    DeployFailsSomewhere(p, w);
    StatusChangesIn(Phases(p, w), Groups(p), Cleanup(p, w, autoDestroy) + [Complete("SUCCESS")], "CLEANUP");
    assert StatusChange("CLEANUP") !in Prelude(p);
  }

  // ---------- The Ansible cursor ----------

  lemma AfterMove(ids: seq<string>, cursor: nat, j: nat)
    requires forall a, b | 0 <= a < b < |ids| :: ids[a] != ids[b]
    requires j < |ids|
    ensures Last(MoveOn(ids, cursor), ids[j]) ==
            if j == cursor then Some("running") else if j + 1 == cursor then Some("completed") else None
  {
    var left := if 0 < cursor <= |ids| then [NodeStatus(ids[cursor - 1], "completed")] else [];
    var reached := if cursor < |ids| then [NodeStatus(ids[cursor], "running")] else [];
    LastConcat(left, reached, ids[j]);
    assert Last([], ids[j]) == None;
  }

  /** After k task lines, the nodes before the last one reached are completed, that one runs, and
      the rest have not been touched. */
  lemma {:induction false} CursorAfterTasks(lines: seq<string>, ids: seq<string>, j: nat)
    requires forall a, b | 0 <= a < b < |ids| :: ids[a] != ids[b]
    requires j < |ids|
    ensures var k := TaskCount(lines);
            Last(Tasks(lines, ids), ids[j]) ==
            if j + 1 < k then Some("completed") else if j + 1 == k then Some("running") else None
  {
    if lines != [] {
      var before := lines[..|lines| - 1];
      CursorAfterTasks(before, ids, j);
      if IsTask(lines[|lines| - 1]) {
        AfterMove(ids, TaskCount(before), j);
        LastConcat(Tasks(before, ids), MoveOn(ids, TaskCount(before)), ids[j]);
      } else {
        assert Tasks(lines, ids) == Tasks(before, ids);
      }
    }
  }

  lemma {:induction false} TasksGrow(lines: seq<string>, ids: seq<string>, i: nat)
    requires i <= |lines|
    ensures Tasks(lines[..i], ids) <= Tasks(lines, ids)
    decreases |lines|
  {
    if i == |lines| {
      assert lines[..i] == lines;
    } else {
      var init := lines[..|lines| - 1];
      assert init[..i] == lines[..i];
      TasksGrow(init, ids, i);
    }
  }

  /** The deployment has got to the Ansible command. */
  predicate AnsibleRuns(p: Plan, w: World) {
    && PhaseSucceeds(p, w, 0) && PhaseSucceeds(p, w, 1) && PhaseSucceeds(p, w, 2)
    && p.hasAnsible && w.playbook && w.keyFound
  }

  /** The events of a deployment when i lines of Ansible's output have been read. */
  function ReadSoFar(p: Plan, w: World, i: nat): seq<Event>
    requires i <= |w.ansible.lines|
  {
    Prelude(p) + (SourcePhase(p, w).events + (TerraformPhase(p, w).events + Tasks(w.ansible.lines[..i], p.ansible)))
  }

  lemma PrefixAfter(before: seq<Event>, a: seq<Event>, b: seq<Event>)
    requires a <= b
    ensures before + a <= before + b
  {
  }

  lemma ReadSoFarHappens(p: Plan, w: World, autoDestroy: bool, i: nat)
    requires AnsibleRuns(p, w) && i <= |w.ansible.lines|
    ensures ReadSoFar(p, w, i) <= DeployTrace(p, w, autoDestroy)
  {
    var ending := Cleanup(p, w, autoDestroy) + [Complete("SUCCESS")];
    var phases, tasks := Phases(p, w), Tasks(w.ansible.lines[..i], p.ansible);
    PhaseVerdict(p, w, 0);
    PhaseVerdict(p, w, 1);
    PhaseVerdict(p, w, 2);
    TasksGrow(w.ansible.lines, p.ansible, i);
    var four, three, two := phases[1..], phases[1..][1..], phases[1..][1..][1..];
    assert two[0] == AnsiblePhase(p, w) && three[0] == TerraformPhase(p, w) && four[0] == SourcePhase(p, w);
    assert tasks <= RunPhases(two, ending);
    PrefixAfter(three[0].events, tasks, RunPhases(two, ending));
    PrefixAfter(four[0].events, three[0].events + tasks, RunPhases(three, ending));
    assert RunPhases(phases, ending) == RunPhases(four, ending);
    PrefixAfter(Prelude(p), four[0].events + (three[0].events + tasks), RunPhases(phases, ending));
  }

  /** Seen from outside, while Ansible's output is being read: after k task lines, of the Ansible nodes those
      before the last one reached are completed, that one runs, and the rest are pending. */
  lemma CursorInDeployment(c: Canvas, w: World, autoDestroy: bool, i: nat, j: nat)
    requires OneTechPerId(c) && AnsibleRuns(PlanOf(c), w) && i <= |w.ansible.lines|
    requires var ids := PlanOf(c).ansible;
             j < |ids| && forall a, b | 0 <= a < b < |ids| :: ids[a] != ids[b]
    ensures ReadSoFar(PlanOf(c), w, i) <= DeployTrace(PlanOf(c), w, autoDestroy)
    ensures var k := TaskCount(w.ansible.lines[..i]);
            Last(ReadSoFar(PlanOf(c), w, i), PlanOf(c).ansible[j]) ==
            Some(if j + 1 < k then "completed" else if j + 1 == k then "running" else "pending")
  {
    var p, id := PlanOf(c), PlanOf(c).ansible[j];
    var tasks := Tasks(w.ansible.lines[..i], p.ansible);
    ReadSoFarHappens(p, w, autoDestroy, i);
    CursorAfterTasks(w.ansible.lines[..i], p.ansible, j);
    AnsibleOnly(c, w, id);
    LastConcat(TerraformPhase(p, w).events, tasks, id);
    LastConcat(SourcePhase(p, w).events, TerraformPhase(p, w).events + tasks, id);
    AfterPrelude(p, SourcePhase(p, w).events + (TerraformPhase(p, w).events + tasks), id);
  }

  lemma AnsibleOnly(c: Canvas, w: World, id: string)
    requires OneTechPerId(c) && id in PlanOf(c).ansible
    ensures Last(SourcePhase(PlanOf(c), w).events, id).None? && Last(TerraformPhase(PlanOf(c), w).events, id).None?
    ensures id in PlanOf(c).all && id !in PlanOf(c).target
  {
    var p, g := PlanOf(c), Groups(PlanOf(c));
    assert g[1] == p.source && g[2] == p.tf && g[3] == p.ansible;
    GroupsDisjoint(c);
    GroupsInAll(c, 3, id);
    PlanHasRepo(c);
    SourceProper(p, w);
    TerraformProper(p, w);
    LastOfOthers(SourcePhase(p, w).events, id);
    LastOfOthers(TerraformPhase(p, w).events, id);
  }

  // ---------- The other actions ----------

  /** A teardown settles every node, the Terraform nodes by the command's verdict, exactly when that verdict
      is good or no Terraform node is listed under another technology too. */
  lemma DestroySettlesExactlyWhen(c: Canvas, w: World)
    ensures var p, t := PlanOf(c), DestroyTrace(PlanOf(c), w);
            && AllAre(t, p.tf, Verdict(DestroyPhase(p, w).ok))
            && (AllAre(t, p.source + p.ansible + p.k8s + p.target, "completed") <==>
                DestroyPhase(p, w).ok || forall id | id in p.tf :: id !in p.source + p.ansible + p.k8s + p.target)
  {
    var p, t := PlanOf(c), DestroyTrace(PlanOf(c), w);
    forall id | id in p.tf + (p.source + p.ansible + p.k8s + p.target)
      ensures Last(t, id) == Some(if id in p.tf then Verdict(DestroyPhase(p, w).ok) else "completed")
    {
      DestroyedNode(p, w, id);
    }
    assert forall id | id in p.tf :: id in p.tf + (p.source + p.ansible + p.k8s + p.target);
    assert forall id | id in p.source + p.ansible + p.k8s + p.target ::
      id in p.tf + (p.source + p.ansible + p.k8s + p.target);
    assert Verdict(false) != "completed";
  }

  lemma DestroyedNode(p: Plan, w: World, id: string)
    requires id in p.tf || id in p.source || id in p.ansible || id in p.k8s || id in p.target
    ensures Last(DestroyTrace(p, w), id) ==
            Some(if id in p.tf then Verdict(DestroyPhase(p, w).ok) else "completed")
  {
    var phase, end := DestroyPhase(p, w), [Complete("SUCCESS")];
    DestroyProper(p, w);
    OnePhase(phase, end);
    var tail := if phase.ok then end else [Complete("FAILED")];
    LastConcat(DestroyPrelude(p), phase.events + tail, id);
    LastConcat(phase.events, tail, id);
    assert Last(tail, id) == None by { LastOfOthers(tail, id); }
    if id !in p.tf {
      LastOfOthers(phase.events, id);
      DestroyPreludeLast(p, id);
    }
  }

  lemma DestroyPreludeLast(p: Plan, id: string)
    requires id in p.source || id in p.ansible || id in p.k8s || id in p.target
    ensures Last(DestroyPrelude(p), id) == Some("completed")
  {
    var a := Prelude(p) + Slice(p.source, "completed");
    var b := a + Slice(p.ansible, "completed");
    LastConcat(b, Slice(p.k8s, "completed"), id);
    LastConcat(a, Slice(p.ansible, "completed"), id);
    LastConcat(Prelude(p), Slice(p.source, "completed"), id);
    LastOfSlice(p.k8s, "completed", id);
    LastOfSlice(p.ansible, "completed", id);
    LastOfSlice(p.source, "completed", id);
    AfterPrelude(p, [], id);
    assert Prelude(p) + [] == Prelude(p);
  }
}
