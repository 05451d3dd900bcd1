/** `RunPipeline`: the phases of a run and the statuses it reports. The goroutine that reads a
    command's output is joined before the next phase starts, so a run is one sequence of events. */
module Runner {
  import opened Common
  import opened Text

  datatype Event = NodeStatus(id: string, status: string) | StatusChange(status: string) | Complete(status: string)

  datatype Node = Node(id: string, tech: string, repoUrl: Option<string>)

  datatype Repo = Repo(present: bool, url: string)

  /** A canvas that does not parse leaves every phase switched on and no node to report about. */
  datatype Canvas = Parsed(nodes: seq<Node>) | Unparsed(repo: Repo)

  datatype Command = Command(lines: seq<string>, ok: bool)

  /** What the outside answers: file writes, files found, commands run. */
  datatype World = World(writes: seq<bool>, mainTf: bool, playbook: bool, manifest: bool,
                         cloned: bool, init: bool, apply: Command, keyFound: bool, ansible: Command,
                         kubectl: bool, mainTfLeft: bool, destroy: Command, plan: bool)

  datatype Plan = Plan(all: seq<string>, tf: seq<string>, ansible: seq<string>, k8s: seq<string>,
                       source: seq<string>, target: seq<string>,
                       hasTf: bool, hasAnsible: bool, hasK8s: bool, repo: Repo)

  // ---------- What is to be run ----------

  function IdsOf(nodes: seq<Node>, tech: string): (ids: seq<string>)
    ensures forall id | id in ids :: exists n | n in nodes :: n.tech == tech && n.id == id
    ensures forall n | n in nodes && n.tech == tech :: n.id in ids
  {
    if nodes == [] then []
    else
      var last := nodes[|nodes| - 1];
      if last.tech == tech then IdsOf(nodes[..|nodes| - 1], tech) + [last.id] else IdsOf(nodes[..|nodes| - 1], tech)
  }

  function AllIds(nodes: seq<Node>): (ids: seq<string>)
    ensures forall n | n in nodes :: n.id in ids
  {
    if nodes == [] then [] else AllIds(nodes[..|nodes| - 1]) + [nodes[|nodes| - 1].id]
  }

  /** The last source node with a URL decides. */
  function RepoOf(nodes: seq<Node>): (r: Repo)
    ensures r.present <==> exists n | n in nodes :: n.tech == "Source"
  {
    if nodes == [] then Repo(false, "")
    else
      var last, before := nodes[|nodes| - 1], RepoOf(nodes[..|nodes| - 1]);
      if last.tech != "Source" then before
      else Repo(true, if last.repoUrl.Some? then Trim(last.repoUrl.value) else before.url)
  }

  function PlanOf(c: Canvas): Plan {
    match c
    case Parsed(nodes) =>
      var tf, ansible, k8s := IdsOf(nodes, "Terraform"), IdsOf(nodes, "Ansible"), IdsOf(nodes, "Kubernetes");
      Plan(AllIds(nodes), tf, ansible, k8s, IdsOf(nodes, "Source"), IdsOf(nodes, "Target"),
           tf != [], ansible != [], k8s != [], RepoOf(nodes))
    case Unparsed(repo) => Plan([], [], [], [], [], [], true, true, true, repo)
  }

  // ---------- Events of each phase ----------

  function Slice(ids: seq<string>, status: string): (events: seq<Event>)
    ensures |events| == |ids| && forall i | 0 <= i < |ids| :: events[i] == NodeStatus(ids[i], status)
  {
    seq(|ids|, i requires 0 <= i < |ids| => NodeStatus(ids[i], status))
  }

  datatype Phase = Phase(events: seq<Event>, ok: bool)

  function Verdict(ok: bool): string {
    if ok then "completed" else "failed"
  }

  predicate Creating(line: string, id: string) {
    Contains(line, id + ": Creating") || Contains(line, id + ": Modifying") || Contains(line, id + ": Still creating")
  }

  predicate Created(line: string, id: string) {
    Contains(line, id + ": Creation complete") || Contains(line, id + ": Modifications complete")
  }

  predicate Destroying(line: string, id: string) {
    Contains(line, id + ": Destroying") || Contains(line, id + ": Still destroying")
  }

  predicate Destroyed(line: string, id: string) {
    Contains(line, id + ": Destruction complete")
  }

  function NodeProgress(line: string, id: string, destroy: bool): seq<Event> {
    if (if destroy then Destroying(line, id) else Creating(line, id)) then [NodeStatus(id, "running")]
    else if (if destroy then Destroyed(line, id) else Created(line, id)) then [NodeStatus(id, "completed")]
    else []
  }

  function LineProgress(line: string, ids: seq<string>, destroy: bool): seq<Event> {
    if ids == [] then []
    else LineProgress(line, ids[..|ids| - 1], destroy) + NodeProgress(line, ids[|ids| - 1], destroy)
  }

  function Progress(lines: seq<string>, ids: seq<string>, destroy: bool): seq<Event> {
    if lines == [] then []
    else Progress(lines[..|lines| - 1], ids, destroy) + LineProgress(lines[|lines| - 1], ids, destroy)
  }

  predicate IsTask(line: string) {
    Contains(line, "TASK [")
  }

  function TaskCount(lines: seq<string>): nat {
    if lines == [] then 0
    else if IsTask(lines[|lines| - 1]) then TaskCount(lines[..|lines| - 1]) + 1
    else TaskCount(lines[..|lines| - 1])
  }

  /** The cursor moves on: the node it leaves is done, the node it reaches runs. */
  function MoveOn(ids: seq<string>, cursor: nat): seq<Event> {
    (if 0 < cursor <= |ids| then [NodeStatus(ids[cursor - 1], "completed")] else []) +
    (if cursor < |ids| then [NodeStatus(ids[cursor], "running")] else [])
  }

  function Tasks(lines: seq<string>, ids: seq<string>): seq<Event> {
    if lines == [] then []
    else
      var before := lines[..|lines| - 1];
      Tasks(before, ids) + if IsTask(lines[|lines| - 1]) then MoveOn(ids, TaskCount(before)) else []
  }

  predicate AllWritten(writes: seq<bool>) {
    forall w | w in writes :: w
  }

  function SourcePhase(p: Plan, w: World): Phase {
    if p.repo.present && p.repo.url != "" then
      Phase(Slice(p.source, "running") + Slice(p.source, Verdict(w.cloned)), w.cloned)
    else if p.repo.present then Phase(Slice(p.source, "completed"), true)
    else Phase([], true)
  }

  function TerraformPhase(p: Plan, w: World): Phase {
    if !(p.hasTf && w.mainTf) then Phase(Slice(p.tf, "completed"), true)
    else if !w.init then Phase(Slice(p.tf, "failed"), false)
    else Phase(Progress(w.apply.lines, p.tf, false) + Slice(p.tf, Verdict(w.apply.ok)), w.apply.ok)
  }

  function AnsiblePhase(p: Plan, w: World): Phase {
    if !(p.hasAnsible && w.playbook) then Phase(Slice(p.ansible, "completed"), true)
    else if !w.keyFound then Phase(Slice(p.ansible, "failed"), false)
    else Phase(Tasks(w.ansible.lines, p.ansible) + Slice(p.ansible, Verdict(w.ansible.ok)), w.ansible.ok)
  }

  function KubernetesPhase(p: Plan, w: World): Phase {
    if !(p.hasK8s && w.manifest) then Phase(Slice(p.k8s, "completed"), true)
    else Phase(Slice(p.k8s, "running") + Slice(p.k8s, Verdict(w.kubectl)), w.kubectl)
  }

  /** Writing the files is a phase without nodes. */
  function Phases(p: Plan, w: World): seq<Phase> {
    [Phase([], AllWritten(w.writes)), SourcePhase(p, w), TerraformPhase(p, w), AnsiblePhase(p, w),
     KubernetesPhase(p, w)]
  }

  function Groups(p: Plan): seq<seq<string>> {
    [[], p.source, p.tf, p.ansible, p.k8s]
  }

  function Cleanup(p: Plan, w: World, autoDestroy: bool): seq<Event> {
    if autoDestroy && p.hasTf && w.mainTfLeft then [StatusChange("CLEANUP")] else []
  }

  function Prelude(p: Plan): seq<Event> {
    Slice(p.all, "pending") + Slice(p.target, "completed")
  }

  /** Phases run until one fails. */
  function RunPhases(phases: seq<Phase>, ending: seq<Event>): seq<Event> {
    if phases == [] then ending
    else if phases[0].ok then phases[0].events + RunPhases(phases[1..], ending)
    else phases[0].events + [Complete("FAILED")]
  }

  function DeployTrace(p: Plan, w: World, autoDestroy: bool): seq<Event> {
    Prelude(p) + RunPhases(Phases(p, w), Cleanup(p, w, autoDestroy) + [Complete("SUCCESS")])
  }

  function DestroyPhase(p: Plan, w: World): Phase {
    if !(p.hasTf && w.mainTf) then Phase(Slice(p.tf, "completed"), true)
    else Phase(Progress(w.destroy.lines, p.tf, true) + Slice(p.tf, Verdict(w.destroy.ok)), w.destroy.ok)
  }

  function DestroyPrelude(p: Plan): seq<Event> {
    Prelude(p) + Slice(p.source, "completed") + Slice(p.ansible, "completed") + Slice(p.k8s, "completed")
  }

  function DestroyTrace(p: Plan, w: World): seq<Event> {
    DestroyPrelude(p) + RunPhases([DestroyPhase(p, w)], [Complete("SUCCESS")])
  }

  function PlanTrace(p: Plan, w: World): seq<Event> {
    Slice(p.all, "pending") +
    [Complete(if AllWritten(w.writes) && (p.hasTf && w.mainTf ==> w.init && w.plan) then "SUCCESS" else "FAILED")]
  }

  function Trace(action: string, p: Plan, w: World, autoDestroy: bool): seq<Event> {
    if action == "destroy" then DestroyTrace(p, w)
    else if action == "plan" then PlanTrace(p, w)
    else DeployTrace(p, w, autoDestroy)
  }

  // ---------- The pipeline ----------

  method ReadCanvas(c: Canvas) returns (p: Plan)
    ensures p == PlanOf(c)
  {
    if c.Unparsed? {
      return Plan([], [], [], [], [], [], true, true, true, c.repo);
    }
    var nodes := c.nodes;
    p := Plan([], [], [], [], [], [], false, false, false, Repo(false, ""));
    for i := 0 to |nodes|
      invariant p == PlanOf(Parsed(nodes[..i]))
    {
      var n := nodes[i];
      assert nodes[..i + 1][..i] == nodes[..i];
      p := p.(all := p.all + [n.id]);
      if n.tech == "Terraform" {
        p := p.(hasTf := true, tf := p.tf + [n.id]);
      } else if n.tech == "Ansible" {
        p := p.(hasAnsible := true, ansible := p.ansible + [n.id]);
      } else if n.tech == "Kubernetes" {
        p := p.(hasK8s := true, k8s := p.k8s + [n.id]);
      } else if n.tech == "Source" {
        p := p.(source := p.source + [n.id],
                repo := Repo(true, if n.repoUrl.Some? then Trim(n.repoUrl.value) else p.repo.url));
      } else if n.tech == "Target" {
        p := p.(target := p.target + [n.id]);
      }
    }
    assert nodes[..|nodes|] == nodes;
  }

  lemma ProgressMore(lines: seq<string>, i: nat, ids: seq<string>, destroy: bool)
    requires i < |lines|
    ensures Progress(lines[..i + 1], ids, destroy) ==
            Progress(lines[..i], ids, destroy) + LineProgress(lines[i], ids, destroy)
  {
    assert lines[..i + 1][..i] == lines[..i];
  }

  lemma Advance(before: seq<Event>, after: seq<Event>, phases: seq<Phase>, k: nat, ending: seq<Event>, goal: seq<Event>)
    requires k < |phases| && before + RunPhases(phases[k..], ending) == goal
    requires after == before + phases[k].events + if phases[k].ok then [] else [Complete("FAILED")]
    ensures phases[k].ok ==> after + RunPhases(phases[k + 1..], ending) == goal
    ensures phases[k].ok && k + 1 == |phases| ==> after + ending == goal
    ensures !phases[k].ok ==> after == goal
  {
    assert phases[k..][1..] == phases[k + 1..];
  }

  lemma DeployStarts(before: seq<Event>, after: seq<Event>, p: Plan, w: World, autoDestroy: bool)
    requires after == before + Slice(p.all, "pending") + Slice(p.target, "completed")
    ensures after + RunPhases(Phases(p, w)[0..], Cleanup(p, w, autoDestroy) + [Complete("SUCCESS")]) ==
            before + DeployTrace(p, w, autoDestroy)
  {
    assert Phases(p, w)[0..] == Phases(p, w);
    assert after == before + Prelude(p);
  }

  lemma OnePhase(phase: Phase, ending: seq<Event>)
    ensures RunPhases([phase], ending) == phase.events + if phase.ok then ending else [Complete("FAILED")]
  {
    assert [phase][1..] == [];
  }

  class Pipeline {
    var events: seq<Event>

    constructor ()
      ensures events == []
    {
      events := [];
    }

    method Emit(e: Event)
      modifies this
      ensures events == old(events) + [e]
    {
      events := events + [e];
    }

    method EmitSlice(ids: seq<string>, status: string)
      modifies this
      ensures events == old(events) + Slice(ids, status)
    {
      for i := 0 to |ids|
        invariant events == old(events) + Slice(ids, status)[..i]
      {
        Emit(NodeStatus(ids[i], status));
      }
    }

    method WriteFiles(writes: seq<bool>) returns (ok: bool)
      modifies this
      ensures ok == AllWritten(writes)
      ensures events == old(events) + if ok then [] else [Complete("FAILED")]
    {
      for i := 0 to |writes|
        invariant events == old(events) && forall j | 0 <= j < i :: writes[j]
      {
        if !writes[i] {
          assert writes[i] in writes;
          Emit(Complete("FAILED"));
          return false;
        }
      }
      ok := true;
    }

    method FollowTerraform(lines: seq<string>, ids: seq<string>, destroy: bool)
      modifies this
      ensures events == old(events) + Progress(lines, ids, destroy)
    {
      for i := 0 to |lines|
        invariant events == old(events) + Progress(lines[..i], ids, destroy)
      {
        ProgressMore(lines, i, ids, destroy);
        FollowLine(lines[i], ids, destroy);
        Regroup(old(events), Progress(lines[..i], ids, destroy), LineProgress(lines[i], ids, destroy));
      }
      assert lines[..|lines|] == lines;
    }

    method FollowLine(line: string, ids: seq<string>, destroy: bool)
      modifies this
      ensures events == old(events) + LineProgress(line, ids, destroy)
    {
      for i := 0 to |ids|
        invariant events == old(events) + LineProgress(line, ids[..i], destroy)
      {
        assert ids[..i + 1][..i] == ids[..i];
        if if destroy then Destroying(line, ids[i]) else Creating(line, ids[i]) {
          Emit(NodeStatus(ids[i], "running"));
        } else if if destroy then Destroyed(line, ids[i]) else Created(line, ids[i]) {
          Emit(NodeStatus(ids[i], "completed"));
        }
      }
      assert ids[..|ids|] == ids;
    }

    method FollowAnsible(lines: seq<string>, ids: seq<string>)
      modifies this
      ensures events == old(events) + Tasks(lines, ids)
    {
      var cursor := 0;
      for i := 0 to |lines|
        invariant cursor == TaskCount(lines[..i])
        invariant events == old(events) + Tasks(lines[..i], ids)
      {
        assert lines[..i + 1][..i] == lines[..i];
        if IsTask(lines[i]) {
          if cursor > 0 && cursor - 1 < |ids| {
            Emit(NodeStatus(ids[cursor - 1], "completed"));
          }
          if cursor < |ids| {
            Emit(NodeStatus(ids[cursor], "running"));
          }
          cursor := cursor + 1;
        }
      }
      assert lines[..|lines|] == lines;
    }

    /** A phase that fails completes the run at once. */
    ghost predicate Ran(before: seq<Event>, phase: Phase)
      reads this
    {
      events == before + phase.events + if phase.ok then [] else [Complete("FAILED")]
    }

    /** The end of a phase that got as far as running its command. */
    method Settle(ids: seq<string>, ok: bool)
      modifies this
      ensures events == old(events) + Slice(ids, Verdict(ok)) + if ok then [] else [Complete("FAILED")]
    {
      if !ok {
        EmitSlice(ids, "failed");
        Emit(Complete("FAILED"));
        return;
      }
      EmitSlice(ids, "completed");
    }

    method Source(p: Plan, w: World) returns (ok: bool)
      modifies this
      ensures Ran(old(events), SourcePhase(p, w)) && ok == SourcePhase(p, w).ok
    {
      ok := true;
      if p.repo.present && p.repo.url != "" {
        EmitSlice(p.source, "running");
        ok := w.cloned;
        Settle(p.source, ok);
        Regroup(old(events), Slice(p.source, "running"), Slice(p.source, Verdict(ok)));
      } else if p.repo.present {
        Settle(p.source, true);
      }
    }

    method Terraform(p: Plan, w: World) returns (ok: bool)
      modifies this
      ensures Ran(old(events), TerraformPhase(p, w)) && ok == TerraformPhase(p, w).ok
    {
      ok := true;
      if p.hasTf && w.mainTf {
        if w.init {
          FollowTerraform(w.apply.lines, p.tf, false);
          ok := w.apply.ok;
          Settle(p.tf, ok);
          Regroup(old(events), Progress(w.apply.lines, p.tf, false), Slice(p.tf, Verdict(ok)));
        } else {
          ok := false;
          Settle(p.tf, false);
        }
      } else {
        Settle(p.tf, true);
      }
    }

    method Ansible(p: Plan, w: World) returns (ok: bool)
      modifies this
      ensures Ran(old(events), AnsiblePhase(p, w)) && ok == AnsiblePhase(p, w).ok
    {
      ok := true;
      if p.hasAnsible && w.playbook {
        if w.keyFound {
          FollowAnsible(w.ansible.lines, p.ansible);
          ok := w.ansible.ok;
          Settle(p.ansible, ok);
          Regroup(old(events), Tasks(w.ansible.lines, p.ansible), Slice(p.ansible, Verdict(ok)));
        } else {
          ok := false;
          Settle(p.ansible, false);
        }
      } else {
        Settle(p.ansible, true);
      }
    }

    method Kubernetes(p: Plan, w: World) returns (ok: bool)
      modifies this
      ensures Ran(old(events), KubernetesPhase(p, w)) && ok == KubernetesPhase(p, w).ok
    {
      ok := true;
      if p.hasK8s && w.manifest {
        EmitSlice(p.k8s, "running");
        ok := w.kubectl;
        Settle(p.k8s, ok);
        Regroup(old(events), Slice(p.k8s, "running"), Slice(p.k8s, Verdict(ok)));
      } else {
        Settle(p.k8s, true);
      }
    }

    method DestroyTerraform(p: Plan, w: World) returns (ok: bool)
      modifies this
      ensures Ran(old(events), DestroyPhase(p, w)) && ok == DestroyPhase(p, w).ok
    {
      ok := true;
      if p.hasTf && w.mainTf {
        FollowTerraform(w.destroy.lines, p.tf, true);
        ok := w.destroy.ok;
        Settle(p.tf, ok);
        Regroup(old(events), Progress(w.destroy.lines, p.tf, true), Slice(p.tf, Verdict(ok)));
      } else {
        Settle(p.tf, true);
      }
    }

    method Deploy(p: Plan, w: World, autoDestroy: bool)
      modifies this
      ensures events == old(events) + DeployTrace(p, w, autoDestroy)
    {
      ghost var ending := Cleanup(p, w, autoDestroy) + [Complete("SUCCESS")];
      ghost var phases, goal := Phases(p, w), old(events) + DeployTrace(p, w, autoDestroy);
      EmitSlice(p.all, "pending");
      EmitSlice(p.target, "completed");
      ghost var e0 := events;
      DeployStarts(old(events), e0, p, w, autoDestroy);
      var ok := WriteFiles(w.writes);
      ghost var e1 := events;
      Advance(e0, e1, phases, 0, ending, goal);
      if !ok { return; }
      ok := Source(p, w);
      ghost var e2 := events;
      Advance(e1, e2, phases, 1, ending, goal);
      if !ok { return; }
      ok := Terraform(p, w);
      ghost var e3 := events;
      Advance(e2, e3, phases, 2, ending, goal);
      if !ok { return; }
      ok := Ansible(p, w);
      ghost var e4 := events;
      Advance(e3, e4, phases, 3, ending, goal);
      if !ok { return; }
      ok := Kubernetes(p, w);
      Advance(e4, events, phases, 4, ending, goal);
      if !ok { return; }
      Finish(p, w, autoDestroy);
    }

    method Finish(p: Plan, w: World, autoDestroy: bool)
      modifies this
      ensures events == old(events) + (Cleanup(p, w, autoDestroy) + [Complete("SUCCESS")])
    {
      if autoDestroy && p.hasTf && w.mainTfLeft {
        Emit(StatusChange("CLEANUP"));
      }
      Emit(Complete("SUCCESS"));
    }

    method Destroy(p: Plan, w: World)
      modifies this
      ensures events == old(events) + DestroyTrace(p, w)
    {
      EmitSlice(p.all, "pending");
      EmitSlice(p.target, "completed");
      EmitSlice(p.source, "completed");
      EmitSlice(p.ansible, "completed");
      EmitSlice(p.k8s, "completed");
      ghost var before := events;
      OnePhase(DestroyPhase(p, w), [Complete("SUCCESS")]);
      assert before == old(events) + DestroyPrelude(p);
      var ok := DestroyTerraform(p, w);
      if ok {
        Emit(Complete("SUCCESS"));
      }
      assert events == before + RunPhases([DestroyPhase(p, w)], [Complete("SUCCESS")]);
      Regroup(old(events), DestroyPrelude(p), RunPhases([DestroyPhase(p, w)], [Complete("SUCCESS")]));
    }

    method DryRun(p: Plan, w: World)
      modifies this
      ensures events == old(events) + PlanTrace(p, w)
    {
      EmitSlice(p.all, "pending");
      var ok := WriteFiles(w.writes);
      if !ok { return; }
      if !(p.hasTf && w.mainTf) {
        Emit(Complete("SUCCESS"));
        return;
      }
      if !w.init {
        Emit(Complete("FAILED"));
        return;
      }
      if !w.plan {
        Emit(Complete("FAILED"));
        return;
      }
      Emit(Complete("SUCCESS"));
    }

    method RunPipeline(c: Canvas, action: string, autoDestroy: bool, w: World)
      modifies this
      ensures events == old(events) + Trace(action, PlanOf(c), w, autoDestroy)
    {
      var p := ReadCanvas(c);
      if action == "destroy" {
        Destroy(p, w);
      } else if action == "plan" {
        DryRun(p, w);
      } else {
        Deploy(p, w, autoDestroy);
      }
    }
  }
}
