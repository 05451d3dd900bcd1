/** Compiling, splitting and parsing Kubernetes manifests. */
module KubernetesFacts {
  import opened Common
  import opened Text
  import opened Terraform
  import opened Kubernetes

  // ---------- One document ----------

  /** Compiled documents have no empty value but, possibly, their name. */
  predicate Filled(c: Content) {
    match c
    case Deployment(_, image, _) => image != ""
    case Service(t, _, _) => t != ""
    case ConfigMap(key, value) => key != "" && value != ""
    case Secret(key, value) => key != "" && value != ""
  }

  lemma CompiledIsFilled(n: Node)
    requires ToDoc(n).Some?
    ensures Filled(ToDoc(n).value.content)
  {
  }

  lemma IdKind(id: string, p: string, name: string)
    requires id == p + ("." + name)
    ensures HasPrefix(id, p)
  {
  }

  function FilledNode(d: Doc): Node {
    var name := d.name;
    match d.content
    case Deployment(replicas, image, port) =>
      Imported("k8s_deployment." + name, name,
        map["deploymentName" := Word(name), "replicas" := Number(replicas), "imageName" := Word(image),
            "containerPort" := Number(port), "cpuLimit" := Word("200m"), "memoryLimit" := Word("256Mi")])
    case Service(t, port, targetPort) =>
      Imported("k8s_service." + name, name,
        map["serviceName" := Word(name), "serviceType" := Word(t), "port" := Number(port),
          "targetPort" := Number(targetPort)])
    case ConfigMap(key, value) =>
      Imported("k8s_configmap." + name, name,
        map["configMapName" := Word(name), "dataKey" := Word(key), "dataValue" := Word(value)])
    case Secret(key, value) =>
      Imported("k8s_secret." + name, name,
        map["secretName" := Word(name), "secretKey" := Word(key), "secretValue" := Word(value)])
  }

  lemma DeploymentNode(d: Doc)
    requires d.content.Deployment? && Filled(d.content) && d.name != ""
    ensures ToDoc(FilledNode(d)) == Some(d)
  {
    IdKind(FilledNode(d).id, "k8s_deployment", d.name);
  }

  lemma ServiceNode(d: Doc)
    requires d.content.Service? && Filled(d.content) && d.name != ""
    ensures ToDoc(FilledNode(d)) == Some(d)
  {
    var id := FilledNode(d).id;
    IdKind(id, "k8s_service", d.name);
    PrefixesClash(id, "k8s_service", "k8s_deployment", 4);
  }

  lemma ConfigMapNode(d: Doc)
    requires d.content.ConfigMap? && Filled(d.content) && d.name != ""
    ensures ToDoc(FilledNode(d)) == Some(d)
  {
    var id := FilledNode(d).id;
    IdKind(id, "k8s_configmap", d.name);
    PrefixesClash(id, "k8s_configmap", "k8s_deployment", 4);
    PrefixesClash(id, "k8s_configmap", "k8s_service", 4);
  }

  lemma SecretNode(d: Doc)
    requires d.content.Secret? && Filled(d.content) && d.name != ""
    ensures ToDoc(FilledNode(d)) == Some(d)
  {
    var id := FilledNode(d).id;
    IdKind(id, "k8s_secret", d.name);
    PrefixesClash(id, "k8s_secret", "k8s_deployment", 4);
    PrefixesClash(id, "k8s_secret", "k8s_service", 6);
    PrefixesClash(id, "k8s_secret", "k8s_configmap", 4);
  }

  lemma FilledNodeBack(d: Doc)
    requires Filled(d.content) && d.name != ""
    ensures ToDoc(FilledNode(d)) == Some(d)
  {
    match d.content
    case Deployment(_, _, _) => DeploymentNode(d);
    case Service(_, _, _) => ServiceNode(d);
    case ConfigMap(_, _) => ConfigMapNode(d);
    case Secret(_, _) => SecretNode(d);
  }

  function Named(d: Doc, idx: nat): Doc {
    d.(name := NodeName(KindName(d.content), TreeOf(d), idx))
  }

  lemma DeploymentTree(d: Doc)
    requires d.content.Deployment?
    ensures var spec := MapAt(TreeOf(d), "spec");
      var container := FirstMapAt(MapAt(MapAt(spec, "template"), "spec"), "containers");
      && "replicas" in spec && spec["replicas"] == Int(d.content.replicas)
      && "image" in container && container["image"] == Str(d.content.image)
      && FirstMapAt(container, "ports") == map["containerPort" := Int(d.content.port)]
  {
  }

  lemma DeploymentParamsBack(d: Doc, name: string)
    requires d.content.Deployment?
    ensures DeploymentParams(name, TreeOf(d)) == FilledNode(d.(name := name)).params
  {
    DeploymentTree(d);
  }

  lemma ServiceParamsBack(d: Doc, name: string)
    requires d.content.Service?
    ensures ServiceParams(name, TreeOf(d)) == FilledNode(d.(name := name)).params
  {
  }

  lemma KindInTree(d: Doc)
    ensures StringAt(TreeOf(d), "kind") == KindName(d.content)
  {
  }

  lemma DeploymentExtracted(d: Doc, idx: nat, pick: string, show: Yaml -> string)
    requires d.content.Deployment?
    ensures ExtractNode(TreeOf(d), idx, pick, show) == FilledNode(Named(d, idx))
  {
    KindInTree(d);
    DeploymentParamsBack(d, Named(d, idx).name);
  }

  lemma ServiceExtracted(d: Doc, idx: nat, pick: string, show: Yaml -> string)
    requires d.content.Service?
    ensures ExtractNode(TreeOf(d), idx, pick, show) == FilledNode(Named(d, idx))
  {
    KindInTree(d);
    ServiceParamsBack(d, Named(d, idx).name);
  }

  lemma DataExtracted(p: Params, m: Tree, key: string, value: string, pick: string, keyParam: string,
                      valueParam: string, show: Yaml -> string)
    requires MapAt(m, "data") == map[key := Str(value)] && PicksFirst(m, pick) && show(Str(value)) == value
    ensures DataParams(p, m, pick, keyParam, valueParam, show) == p[keyParam := Word(key)][valueParam := Word(value)]
  {
    assert key in MapAt(m, "data");
  }

  lemma ConfigMapExtracted(d: Doc, idx: nat, pick: string, show: Yaml -> string)
    requires d.content.ConfigMap? && PicksFirst(TreeOf(d), pick) && show(Str(d.content.value)) == d.content.value
    ensures ExtractNode(TreeOf(d), idx, pick, show) == FilledNode(Named(d, idx))
  {
    var p := map["configMapName" := Word(Named(d, idx).name), "dataKey" := Word("APP_ENV"),
      "dataValue" := Word("production")];
    DataExtracted(p, TreeOf(d), d.content.key, d.content.value, pick, "dataKey", "dataValue", show);
  }

  lemma SecretExtracted(d: Doc, idx: nat, pick: string, show: Yaml -> string)
    requires d.content.Secret? && PicksFirst(TreeOf(d), pick) && show(Str(d.content.value)) == d.content.value
    ensures ExtractNode(TreeOf(d), idx, pick, show) == FilledNode(Named(d, idx))
  {
    var p := map["secretName" := Word(Named(d, idx).name), "secretKey" := Word("DB_PASS"),
      "secretValue" := Word("secret123")];
    DataExtracted(p, TreeOf(d), d.content.key, d.content.value, pick, "secretKey", "secretValue", show);
  }

  lemma NameBack(d: Doc, kind: string, idx: nat)
    ensures NodeName(kind, TreeOf(d), idx) != ""
    ensures NodeName(kind, TreeOf(d), idx) == d.name <==> d.name != ""
  {
    assert MapAt(TreeOf(d), "metadata") == map["name" := Str(d.name)];
  }

  lemma Extracted(d: Doc, idx: nat, pick: string, show: Yaml -> string)
    requires PicksFirst(TreeOf(d), pick) && forall s :: show(Str(s)) == s
    ensures ExtractNode(TreeOf(d), idx, pick, show) == FilledNode(Named(d, idx))
  {
    match d.content
    case Deployment(_, _, _) => DeploymentExtracted(d, idx, pick, show);
    case Service(_, _, _) => ServiceExtracted(d, idx, pick, show);
    case ConfigMap(_, _) => ConfigMapExtracted(d, idx, pick, show);
    case Secret(_, _) => SecretExtracted(d, idx, pick, show);
  }

  /** A compiled document comes back from its tree unchanged exactly when it has a name; otherwise the
      parser makes one up. */
  lemma DocRoundTripExactlyWhen(n: Node, idx: nat, pick: string, show: Yaml -> string)
    requires ToDoc(n).Some? && PicksFirst(TreeOf(ToDoc(n).value), pick) && forall s :: show(Str(s)) == s
    ensures ToDoc(ExtractNode(TreeOf(ToDoc(n).value), idx, pick, show)) == ToDoc(n) <==> ToDoc(n).value.name != ""
  {
    var d := ToDoc(n).value;
    CompiledIsFilled(n);
    Extracted(d, idx, pick, show);
    NameBack(d, KindName(d.content), idx);
    FilledNodeBack(Named(d, idx));
  }

  // ---------- Splitting ----------

  lemma {:induction false} TrimRightPadded(s: string)
    ensures TrimRight(s + "\n") == TrimRight(s)
  {
    assert (s + "\n")[..|s + "\n"| - 1] == s;
  }

  lemma {:induction false} TrimPadded(s: string)
    ensures Trim("\n" + s) == Trim(s)
    ensures Trim(s + "\n") == Trim(s)
  {
    assert ("\n" + s)[1..] == s;
    TrimLeftPadded(s);
    TrimRightPadded(TrimLeft(s));
  }

  lemma {:induction false} TrimLeftPadded(s: string)
    ensures TrimLeft(s + "\n") == if TrimLeft(s) == "" then "" else TrimLeft(s) + "\n"
  {
    if s == "" {
      assert ("" + "\n")[1..] == "";
    } else if IsSpace(s[0]) {
      assert (s + "\n")[1..] == s[1..] + "\n";
      TrimLeftPadded(s[1..]);
    }
  }

  lemma SpannedChar(t: string, mark: string, i: nat, k: int)
    requires OccursAt(t, mark, i) && i <= k < i + |mark|
    ensures k < |t| && t[k] in mark
  {
    assert t[i..][k - i] == mark[k - i];
  }

  lemma OccursWithin(a: string, rest: string, mark: string, i: nat)
    requires OccursAt(a + rest, mark, i) && i + |mark| <= |a|
    ensures OccursAt(a, mark, i)
  {
    assert a[i..][..|mark|] == (a + rest)[i..][..|mark|];
  }

  lemma OccursAfter(b: string, mark: string, i: nat)
    requires OccursAt("\n" + b, mark, i) && i > 0
    ensures OccursAt(b, mark, i - 1)
  {
    assert b[i - 1..] == ("\n" + b)[i..];
  }

  /** No mark starts inside `a`, nor runs over its end. */
  lemma MarkComesFirst(a: string, rest: string, mark: string)
    requires mark != "" && !Contains(a, mark) && (a == "" || a[|a| - 1] !in mark)
    ensures IndexOf(a + mark + rest, mark) == |a|
  {
    var t := a + (mark + rest);
    assert t == a + mark + rest && t[|a|..] == mark + rest;
    assert OccursAt(t, mark, |a|);
    forall i: nat | i < |a| ensures !OccursAt(t, mark, i) {
      if OccursAt(t, mark, i) {
        if i + |mark| <= |a| {
          OccursWithin(a, mark + rest, mark, i);
        } else {
          SpannedChar(t, mark, i, |a| - 1);
        }
      }
    }
  }

  lemma SplitAtMark(a: string, rest: string, mark: string)
    requires mark != "" && !Contains(a, mark) && (a == "" || a[|a| - 1] !in mark)
    ensures Split(a + mark + rest, mark) == [a] + Split(rest, mark)
  {
    var t := a + mark + rest;
    MarkComesFirst(a, rest, mark);
    assert t[..|a|] == a && t[|a| + |mark|..] == rest;
  }

  /** Bodies with separators between them. */
  function Joined(bodies: seq<string>, mark: string): string {
    if bodies == [] then ""
    else if |bodies| == 1 then bodies[0]
    else Link(bodies[0], mark, Joined(bodies[1..], mark))
  }

  function Link(b: string, mark: string, more: string): string {
    b + "\n" + mark + "\n" + more
  }

  function TrimmedPieces(pieces: seq<string>): seq<string> {
    seq(|pieces|, i requires 0 <= i < |pieces| => Trim(pieces[i]))
  }

  ghost predicate NoMark(bodies: seq<string>, mark: string) {
    forall b | b in bodies :: !Contains(b, mark)
  }

  lemma PadRight(b: string, mark: string)
    requires mark != "" && '\n' !in mark && !Contains(b, mark)
    ensures !Contains(b + "\n", mark)
  {
    forall i: nat | i <= |b| + 1 ensures !OccursAt(b + "\n", mark, i) {
      if OccursAt(b + "\n", mark, i) {
        if i + |mark| <= |b| {
          OccursWithin(b, "\n", mark, i);
        } else {
          SpannedChar(b + "\n", mark, i, i + |mark| - 1);
          SpannedChar(b + "\n", mark, i, |b|);
        }
      }
    }
  }

  lemma PadLeft(b: string, mark: string)
    requires mark != "" && '\n' !in mark && !Contains(b, mark)
    ensures !Contains("\n" + b, mark)
  {
    forall i: nat | i <= |b| + 1 ensures !OccursAt("\n" + b, mark, i) {
      if OccursAt("\n" + b, mark, i) {
        if i > 0 {
          OccursAfter(b, mark, i);
        } else {
          SpannedChar("\n" + b, mark, 0, 0);
        }
      }
    }
  }

  lemma LeadPiece(lead: string, b: string, mark: string)
    requires mark != "" && '\n' !in mark && !Contains(b, mark) && lead in {"", "\n"}
    ensures !Contains(lead + b, mark) && !Contains(lead + b + "\n", mark)
    ensures Trim(lead + b) == Trim(b) && Trim(lead + b + "\n") == Trim(b)
  {
    if lead == "" {
      assert lead + b == b;
    } else {
      PadLeft(b, mark);
    }
    PadRight(lead + b, mark);
    TrimPadded(b);
    TrimPadded(lead + b);
  }

  lemma Rebracketed(lead: string, b: string, mark: string, more: string)
    ensures lead + Link(b, mark, more) == (lead + b + "\n") + mark + ("\n" + more)
  {
  }

  lemma TrimmedCons(x: string, xs: seq<string>)
    ensures TrimmedPieces([x] + xs) == [Trim(x)] + TrimmedPieces(xs)
  {
  }

  lemma LastBody(b: string, mark: string, lead: string)
    requires mark != "" && '\n' !in mark && !Contains(b, mark) && lead in {"", "\n"}
    ensures TrimmedPieces(Split(lead + b, mark)) == [Trim(b)]
  {
    LeadPiece(lead, b, mark);
    assert Split(lead + b, mark) == [lead + b];
  }

  lemma OneBodyMore(b: string, more: string, trimmed: seq<string>, mark: string, lead: string)
    requires mark != "" && '\n' !in mark && !Contains(b, mark) && lead in {"", "\n"}
    requires TrimmedPieces(Split("\n" + more, mark)) == trimmed
    ensures TrimmedPieces(Split(lead + Link(b, mark, more), mark)) == [Trim(b)] + trimmed
  {
    LeadPiece(lead, b, mark);
    Rebracketed(lead, b, mark, more);
    SplitAtMark(lead + b + "\n", "\n" + more, mark);
    TrimmedCons(lead + b + "\n", Split("\n" + more, mark));
  }

  /** Splitting a joined text gives the bodies back, up to the white space around them. */
  lemma {:induction false} SplitJoined(bodies: seq<string>, mark: string, lead: string)
    requires mark != "" && '\n' !in mark && bodies != [] && NoMark(bodies, mark) && lead in {"", "\n"}
    ensures TrimmedPieces(Split(lead + Joined(bodies, mark), mark)) == TrimmedPieces(bodies)
    decreases |bodies|
  {
    assert bodies[0] in bodies;
    TrimmedHead(bodies);
    if |bodies| == 1 {
      LastBody(bodies[0], mark, lead);
    } else {
      SplitJoined(bodies[1..], mark, "\n");
      OneBodyMore(bodies[0], Joined(bodies[1..], mark), TrimmedPieces(bodies[1..]), mark, lead);
    }
  }

  lemma TrimmedHead(xs: seq<string>)
    requires xs != []
    ensures TrimmedPieces(xs) == [Trim(xs[0])] + TrimmedPieces(xs[1..])
  {
    assert xs == [xs[0]] + xs[1..];
    TrimmedCons(xs[0], xs[1..]);
  }

  // ---------- Manifests ----------

  function Bodies(slots: seq<Option<string>>): seq<string> {
    if slots == [] then []
    else if slots[0].Some? then [slots[0].value] + Bodies(slots[1..])
    else Bodies(slots[1..])
  }

  /** The documents that a canvas compiles to, in order. */
  function DocsOf(nodes: seq<Node>): seq<Doc> {
    if nodes == [] then []
    else if nodes[0].tech == "Kubernetes" && !nodes[0].custom && ToDoc(nodes[0]).Some?
    then [ToDoc(nodes[0]).value] + DocsOf(nodes[1..])
    else DocsOf(nodes[1..])
  }

  lemma {:induction false} BodiesGrow(slots: seq<Option<string>>, last: Option<string>)
    ensures Bodies(slots + [last]) == if last.Some? then Bodies(slots) + [last.value] else Bodies(slots)
  {
    if slots == [] {
      assert [] + [last] == [last] && [last][1..] == [];
    } else {
      assert (slots + [last])[1..] == slots[1..] + [last];
      BodiesGrow(slots[1..], last);
    }
  }

  lemma {:induction false} JoinedGrows(bodies: seq<string>, b: string, mark: string)
    requires bodies != []
    ensures Joined(bodies + [b], mark) == Joined(bodies, mark) + ("\n" + mark + "\n") + b
  {
    assert (bodies + [b])[0] == bodies[0];
    if |bodies| == 1 {
      assert (bodies + [b])[1..] == [b] && Joined([b], mark) == b;
      LinkEnds(bodies[0], mark, b);
    } else {
      assert (bodies + [b])[1..] == bodies[1..] + [b];
      JoinedGrows(bodies[1..], b, mark);
      LinkMore(bodies[0], mark, Joined(bodies[1..], mark), ("\n" + mark + "\n") + b);
      Regroup(Joined(bodies[1..], mark), "\n" + mark + "\n", b);
      Regroup(Joined(bodies, mark), "\n" + mark + "\n", b);
    }
  }

  lemma LinkEnds(a: string, mark: string, b: string)
    ensures Link(a, mark, b) == a + ("\n" + mark + "\n") + b
  {
  }

  lemma LinkMore(a: string, mark: string, more: string, end: string)
    ensures Link(a, mark, more + end) == Link(a, mark, more) + end
  {
  }

  predicate StartsWithObject(slots: seq<Option<string>>) {
    slots != [] && slots[0].Some?
  }

  function Start(slots: seq<Option<string>>): string {
    if StartsWithObject(slots) || Bodies(slots) == [] then "" else "\n---\n"
  }

  lemma BodyJoined(start: string, bodies: seq<string>, b: string)
    requires bodies != []
    ensures start + Joined(bodies, MARK) + "\n---\n" + b == start + Joined(bodies + [b], MARK)
  {
    JoinedGrows(bodies, b, MARK);
    MarkLine();
    MoreText(start, Joined(bodies, MARK), "\n---\n", b);
  }

  lemma AssembledGrows(init: seq<Option<string>>, last: Option<string>)
    ensures Assembled(init + [last]) ==
            if last.None? then Assembled(init)
            else Assembled(init) + (if init != [] then "\n---\n" else "") + last.value
  {
    assert (init + [last])[..|init|] == init;
  }

  lemma StartKept(init: seq<Option<string>>, last: Option<string>)
    requires last.None? || Bodies(init) != []
    ensures Start(init + [last]) == Start(init)
  {
    BodiesGrow(init, last);
    if init != [] {
      assert (init + [last])[0] == init[0];
    }
  }

  lemma FirstBody(init: seq<Option<string>>, b: string)
    requires Bodies(init) == []
    ensures Start(init + [Some(b)]) == if init == [] then "" else "\n---\n"
    ensures Joined(Bodies(init + [Some(b)]), MARK) == b && Joined(Bodies(init), MARK) == "" && Start(init) == ""
  {
    BodiesGrow(init, Some(b));
    if init != [] {
      assert (init + [Some(b)])[0] == init[0] && init[0].None?;
    }
  }

  /** A manifest is its bodies, separated, after one more separator if the canvas starts with another node. */
  lemma {:induction false} AssembledIsJoined(slots: seq<Option<string>>)
    ensures Assembled(slots) == Start(slots) + Joined(Bodies(slots), MARK)
  {
    if slots != [] {
      var init, last := slots[..|slots| - 1], slots[|slots| - 1];
      assert slots == init + [last];
      AssembledIsJoined(init);
      AssembledGrows(init, last);
      BodiesGrow(init, last);
      if last.None? || Bodies(init) != [] {
        StartKept(init, last);
        if last.Some? {
          BodyJoined(Start(init), Bodies(init), last.value);
        }
      } else {
        FirstBody(init, last.value);
      }
    }
  }

  lemma MarkLine()
    ensures "\n" + MARK + "\n" == "\n---\n"
  {
  }

  lemma MoreText(start: string, joined: string, sep: string, b: string)
    ensures start + joined + sep + b == start + (joined + sep + b)
  {
  }

  /** Splitting a manifest gives its bodies in order, up to white space and blank pieces. */
  lemma AssembledSplits(slots: seq<Option<string>>)
    requires Bodies(slots) != [] && NoMark(Bodies(slots), MARK)
    ensures TrimmedPieces(Split(Assembled(slots), MARK)) ==
            (if StartsWithObject(slots) then [] else [""]) + TrimmedPieces(Bodies(slots))
  {
    AssembledIsJoined(slots);
    var joined := Joined(Bodies(slots), MARK);
    if StartsWithObject(slots) {
      assert "" + joined == joined;
      SplitJoined(Bodies(slots), MARK, "");
    } else {
      StartsBlank(joined);
      SplitJoined(Bodies(slots), MARK, "\n");
      TrimmedCons("\n", Split("\n" + joined, MARK));
    }
  }

  lemma StartsBlank(joined: string)
    ensures Split("\n---\n" + joined, MARK) == ["\n"] + Split("\n" + joined, MARK)
    ensures Trim("\n") == ""
  {
    assert "\n---\n" + joined == "\n" + MARK + ("\n" + joined);
    assert !Contains("\n", MARK);
    SplitAtMark("\n", "\n" + joined, MARK);
    assert "\n"[1..] == "";
  }

  // ---------- Parsing back ----------

  /** Each piece is blank or reads as the next document. */
  ghost predicate Denotes(pieces: seq<string>, docs: seq<Doc>, yaml: string -> Option<Tree>)
    decreases |pieces|
  {
    if pieces == [] then docs == []
    else if pieces[0] == "" then Denotes(pieces[1..], docs, yaml)
    else docs != [] && Reads(pieces[0], docs[0], yaml) && Denotes(pieces[1..], docs[1..], yaml)
  }

  ghost predicate Reads(text: string, d: Doc, yaml: string -> Option<Tree>) {
    yaml(text) == Some(TreeOf(d)) && d.name != "" && Filled(d.content)
  }

  lemma TreesAreObjects(d: Doc)
    ensures IsObject(TreeOf(d))
  {
  }

  lemma ParsedDoc(d: Doc, idx: nat, pick: string, show: Yaml -> string)
    requires PicksFirst(TreeOf(d), pick) && (forall s :: show(Str(s)) == s) && d.name != "" && Filled(d.content)
    ensures var n := ExtractNode(TreeOf(d), idx, pick, show);
            n.tech == "Kubernetes" && !n.custom && ToDoc(n) == Some(d)
  {
    Extracted(d, idx, pick, show);
    NameBack(d, KindName(d.content), idx);
    FilledNodeBack(d);
  }

  /** Every node is of Kubernetes and compiles to a document. */
  predicate OnlyObjects(nodes: seq<Node>) {
    forall n | n in nodes :: n.tech == "Kubernetes" && IsCompiled(n)
  }

  predicate IsCompiled(n: Node) {
    n.tech == "Kubernetes" ==> !n.custom && ToDoc(n).Some?
  }

  lemma ObjectAdded(n: Node, d: Doc, nodes: seq<Node>)
    requires n.tech == "Kubernetes" && !n.custom && ToDoc(n) == Some(d) && OnlyObjects(nodes)
    ensures DocsOf([n] + nodes) == [d] + DocsOf(nodes) && OnlyObjects([n] + nodes)
  {
    assert ([n] + nodes)[1..] == nodes;
  }

  /** One more document in front of those already read. */
  lemma DocParsed(pieces: seq<string>, idx: nat, picks: seq<string>, d: Doc, docs: seq<Doc>,
                  yaml: string -> Option<Tree>, show: Yaml -> string)
    requires PicksFor(pieces, picks, yaml) && forall s :: show(Str(s)) == s
    requires pieces != [] && Trim(pieces[0]) != "" && Reads(Trim(pieces[0]), d, yaml)
    requires var r := ParsedFrom(pieces[1..], idx + 1, picks[1..], yaml, show);
             r.Parsed? && DocsOf(r.nodes) == docs && OnlyObjects(r.nodes)
    ensures var r := ParsedFrom(pieces, idx, picks, yaml, show);
            r.Parsed? && DocsOf(r.nodes) == [d] + docs && OnlyObjects(r.nodes)
  {
    TreesAreObjects(d);
    ParsedDoc(d, idx, picks[0], show);
    ObjectAdded(ExtractNode(TreeOf(d), idx, picks[0], show), d,
                ParsedFrom(pieces[1..], idx + 1, picks[1..], yaml, show).nodes);
  }

  lemma {:induction false} DenotedParses(pieces: seq<string>, idx: nat, picks: seq<string>, docs: seq<Doc>,
                                         yaml: string -> Option<Tree>, show: Yaml -> string)
    requires PicksFor(pieces, picks, yaml) && forall s :: show(Str(s)) == s
    requires Denotes(TrimmedPieces(pieces), docs, yaml)
    ensures var r := ParsedFrom(pieces, idx, picks, yaml, show);
            r.Parsed? && DocsOf(r.nodes) == docs && OnlyObjects(r.nodes)
    decreases |pieces|
  {
    if pieces != [] {
      TrimmedHead(pieces);
      assert TrimmedPieces(pieces)[1..] == TrimmedPieces(pieces[1..]);
      if Trim(pieces[0]) == "" {
        DenotedParses(pieces[1..], idx + 1, picks[1..], docs, yaml, show);
      } else {
        DenotedParses(pieces[1..], idx + 1, picks[1..], docs[1..], yaml, show);
        DocParsed(pieces, idx, picks, docs[0], docs[1..], yaml, show);
        assert docs == [docs[0]] + docs[1..];
      }
    }
  }

  lemma {:induction false} TrimKeepsFirst(s: string)
    requires s != "" && !IsSpace(s[0])
    ensures TrimRight(s) != ""
  {
    if IsSpace(s[|s| - 1]) {
      TrimKeepsFirst(s[..|s| - 1]);
    }
  }

  lemma NotBlank(head: string, rest: string)
    requires head != "" && !IsSpace(head[0])
    ensures Trim(head + rest) != ""
  {
    TrimKeepsFirst(head + rest);
  }

  lemma RenderNotBlank(d: Doc)
    ensures Trim(Render(d)) != ""
  {
    NotBlank("apiVersion: ", AfterVersion(d));
  }

  /** The YAML reader understands the compiler's own documents, whose names are strings. */
  ghost predicate Readable(nodes: seq<Node>, yaml: string -> Option<Tree>) {
    forall n | n in nodes && n.tech == "Kubernetes" ::
      && !n.custom
      && !Contains(Body(n), MARK)
      && (ToDoc(n).Some? ==>
            yaml(Trim(Render(ToDoc(n).value))) == Some(TreeOf(ToDoc(n).value)) && ToDoc(n).value.name != "")
  }

  lemma {:induction false} BodiesDenote(nodes: seq<Node>, yaml: string -> Option<Tree>)
    requires Readable(nodes, yaml)
    ensures NoMark(Bodies(Slots(nodes)), MARK)
    ensures Denotes(TrimmedPieces(Bodies(Slots(nodes))), DocsOf(nodes), yaml)
  {
    if nodes != [] {
      assert Slots(nodes)[1..] == Slots(nodes[1..]);
      BodiesDenote(nodes[1..], yaml);
      if nodes[0].tech == "Kubernetes" {
        assert Readable([nodes[0]], yaml);
        BodyDenotes(nodes[0], Bodies(Slots(nodes[1..])), DocsOf(nodes[1..]), yaml);
      }
    }
  }

  lemma BodyDenotes(n: Node, bodies: seq<string>, docs: seq<Doc>, yaml: string -> Option<Tree>)
    requires n.tech == "Kubernetes" && Readable([n], yaml) && Denotes(TrimmedPieces(bodies), docs, yaml)
    ensures !Contains(Body(n), MARK)
    ensures Denotes(TrimmedPieces([Body(n)] + bodies), if ToDoc(n).Some? then [ToDoc(n).value] + docs else docs, yaml)
  {
    assert n in [n];
    TrimmedCons(Body(n), bodies);
    assert TrimmedPieces([Body(n)] + bodies)[1..] == TrimmedPieces(bodies);
    if ToDoc(n).Some? {
      RenderNotBlank(ToDoc(n).value);
      CompiledIsFilled(n);
      assert ([ToDoc(n).value] + docs)[1..] == docs;
    }
  }

  /** Compiling a canvas and parsing the manifest gives the same documents, in the same order, whatever
      else is on the canvas and whichever entries the parser picks. */
  lemma ManifestRoundTrip(nodes: seq<Node>, picks: seq<string>, yaml: string -> Option<Tree>, show: Yaml -> string)
    requires Readable(nodes, yaml) && forall s :: show(Str(s)) == s
    requires PicksFor(Split(Manifest(nodes), MARK), picks, yaml)
    ensures var r := ParsedFrom(Split(Manifest(nodes), MARK), 0, picks, yaml, show);
            r.Parsed? && DocsOf(r.nodes) == DocsOf(nodes) && OnlyObjects(r.nodes)
  {
    BodiesDenote(nodes, yaml);
    var slots, pieces := Slots(nodes), Split(Manifest(nodes), MARK);
    if Bodies(slots) == [] {
      AssembledIsJoined(slots);
      assert pieces == [""];
      assert TrimmedPieces(pieces)[1..] == [];
    } else {
      AssembledSplits(slots);
      if StartsWithObject(slots) {
        assert [] + TrimmedPieces(Bodies(slots)) == TrimmedPieces(Bodies(slots));
      } else {
        assert TrimmedPieces(pieces)[1..] == TrimmedPieces(Bodies(slots));
      }
    }
    DenotedParses(pieces, 0, picks, DocsOf(nodes), yaml, show);
  }

  function Rendered(docs: seq<Doc>): seq<string> {
    if docs == [] then [] else [Render(docs[0])] + Rendered(docs[1..])
  }

  lemma {:induction false} BodiesAreRendered(nodes: seq<Node>)
    requires forall n | n in nodes :: IsCompiled(n)
    ensures Bodies(Slots(nodes)) == Rendered(DocsOf(nodes))
  {
    if nodes != [] {
      assert nodes[0] in nodes;
      assert Slots(nodes)[1..] == Slots(nodes[1..]);
      BodiesAreRendered(nodes[1..]);
      if nodes[0].tech == "Kubernetes" {
        HeadRendered(nodes[0], DocsOf(nodes[1..]));
      }
    }
  }

  lemma HeadRendered(n: Node, docs: seq<Doc>)
    requires n.tech == "Kubernetes" && IsCompiled(n)
    ensures Rendered([ToDoc(n).value] + docs) == [Body(n)] + Rendered(docs)
  {
    assert ([ToDoc(n).value] + docs)[1..] == docs;
  }

  /** Compiling what was parsed from a compiled canvas gives the same text again, but for the separator
      that comes first when the canvas starts with a node of another kind. */
  lemma RecompilesToSameText(nodes: seq<Node>, picks: seq<string>, yaml: string -> Option<Tree>, show: Yaml -> string)
    requires Readable(nodes, yaml) && forall s :: show(Str(s)) == s
    requires PicksFor(Split(Manifest(nodes), MARK), picks, yaml)
    requires forall n | n in nodes :: IsCompiled(n)
    ensures var r := ParsedFrom(Split(Manifest(nodes), MARK), 0, picks, yaml, show);
            r.Parsed? && Manifest(nodes) == Start(Slots(nodes)) + Manifest(r.nodes)
  {
    ManifestRoundTrip(nodes, picks, yaml, show);
    SameBodiesSameText(nodes, ParsedFrom(Split(Manifest(nodes), MARK), 0, picks, yaml, show).nodes);
  }

  lemma SameBodiesSameText(nodes: seq<Node>, back: seq<Node>)
    requires (forall n | n in nodes :: IsCompiled(n)) && OnlyObjects(back) && DocsOf(back) == DocsOf(nodes)
    ensures Manifest(nodes) == Start(Slots(nodes)) + Manifest(back)
  {
    BodiesAreRendered(nodes);
    BodiesAreRendered(back);
    AssembledIsJoined(Slots(nodes));
    ObjectsJoined(back);
  }

  lemma ObjectsJoined(nodes: seq<Node>)
    requires OnlyObjects(nodes)
    ensures Manifest(nodes) == Joined(Bodies(Slots(nodes)), MARK)
  {
    AssembledIsJoined(Slots(nodes));
    if nodes != [] {
      assert nodes[0] in nodes && StartsWithObject(Slots(nodes));
    }
    assert "" + Joined(Bodies(Slots(nodes)), MARK) == Joined(Bodies(Slots(nodes)), MARK);
  }
}
