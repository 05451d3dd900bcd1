/** The Kubernetes part of `CompileCanvas` and its partial inverse, `ParseKubernetes`. What a document
    means is a tree; reading YAML text into that tree is a parameter. */
module Kubernetes {
  import opened Common
  import opened Text
  import opened Terraform

  const MARK := "---"

  // ---------- Documents ----------

  datatype Content =
    | Deployment(replicas: int, image: string, port: int)
    | Service(serviceType: string, port: int, targetPort: int)
    | ConfigMap(key: string, value: string)
    | Secret(key: string, value: string)

  datatype Doc = Doc(name: string, content: Content)

  function GetIntParam(p: Params, key: string, def: int): int {
    if key in p && p[key].Number? then p[key].n else def
  }

  /** The document of a node, by the prefix of its id. */
  function ToDoc(n: Node): Option<Doc> {
    var p := n.params;
    if HasPrefix(n.id, "k8s_deployment") then
      Some(Doc(GetStringParam(p, "deploymentName", n.title),
               Deployment(GetIntParam(p, "replicas", 1), GetStringParam(p, "imageName", "nginx:alpine"),
                          GetIntParam(p, "containerPort", 80))))
    else if HasPrefix(n.id, "k8s_service") then
      Some(Doc(GetStringParam(p, "serviceName", n.title),
               Service(GetStringParam(p, "serviceType", "ClusterIP"), GetIntParam(p, "port", 80),
                 GetIntParam(p, "targetPort", 80))))
    else if HasPrefix(n.id, "k8s_configmap") then
      Some(Doc(GetStringParam(p, "configMapName", n.title),
               ConfigMap(GetStringParam(p, "dataKey", "APP_ENV"), GetStringParam(p, "dataValue", "production"))))
    else if HasPrefix(n.id, "k8s_secret") then
      Some(Doc(GetStringParam(p, "secretName", n.title),
               Secret(GetStringParam(p, "secretKey", "DB_PASS"), GetStringParam(p, "secretValue", "secret123"))))
    else None
  }

  function Decimal(n: int): string {
    if n < 0 then "-" + Itoa(-n) else Itoa(n)
  }

  function KindName(c: Content): string {
    match c
    case Deployment(_, _, _) => "Deployment"
    case Service(_, _, _) => "Service"
    case ConfigMap(_, _) => "ConfigMap"
    case Secret(_, _) => "Secret"
  }

  function Details(d: Doc): string {
    match d.content
    case Deployment(replicas, image, port) =>
      "spec:\n  replicas: " + Decimal(replicas) + "\n  selector:\n    matchLabels:\n      app: " + d.name +
      "\n  template:\n    metadata:\n      labels:\n        app: " + d.name +
      "\n    spec:\n      containers:\n      - name: app\n        image: " + image +
      "\n        ports:\n        - containerPort: " + Decimal(port) + "\n"
    case Service(t, port, targetPort) =>
      "spec:\n  type: " + t + "\n  ports:\n  - port: " + Decimal(port) +
      "\n    targetPort: " + Decimal(targetPort) + "\n  selector:\n    app: " + d.name + "\n"
    case ConfigMap(key, value) => "data:\n  " + key + ": \"" + value + "\"\n"
    case Secret(key, value) => "type: Opaque\ndata:\n  " + key + ": \"" + value + "\"\n"
  }

  function AfterVersion(d: Doc): string {
    (if d.content.Deployment? then "apps/v1" else "v1") +
    "\nkind: " + KindName(d.content) + "\nmetadata:\n  name: " + d.name + "\n" + Details(d)
  }

  function Render(d: Doc): string {
    "apiVersion: " + AfterVersion(d)
  }

  function Body(n: Node): string {
    if n.custom then n.rawCode
    else
      var d := ToDoc(n);
      if d.Some? then Render(d.value) else ""
  }

  /** The text that a node contributes, if it is a Kubernetes node. */
  function Slot(n: Node): Option<string> {
    if n.tech == "Kubernetes" then Some(Body(n)) else None
  }

  function Slots(nodes: seq<Node>): seq<Option<string>> {
    seq(|nodes|, i requires 0 <= i < |nodes| => Slot(nodes[i]))
  }

  /** Every text but one that comes first on the canvas is preceded by a separator. */
  function Assembled(slots: seq<Option<string>>): string {
    if slots == [] then ""
    else
      var last, before := slots[|slots| - 1], Assembled(slots[..|slots| - 1]);
      if last.None? then before else before + (if |slots| > 1 then "\n---\n" else "") + last.value
  }

  function Manifest(nodes: seq<Node>): string {
    Assembled(Slots(nodes))
  }

  lemma OneSlotMore(slots: seq<Option<string>>, i: nat)
    requires i < |slots|
    ensures Assembled(slots[..i + 1]) ==
            if slots[i].None? then Assembled(slots[..i])
            else Assembled(slots[..i]) + (if i > 0 then "\n---\n" else "") + slots[i].value
  {
    assert slots[..i + 1][..i] == slots[..i];
  }

  method CompileManifest(nodes: seq<Node>) returns (text: string)
    ensures text == Manifest(nodes)
  {
    text := "";
    ghost var slots := Slots(nodes);
    for i := 0 to |nodes|
      invariant text == Assembled(slots[..i])
    {
      OneSlotMore(slots, i);
      if nodes[i].tech != "Kubernetes" {
        continue;
      }
      if i > 0 {
        text := text + "\n---\n";
      }
      var body := CompileBody(nodes[i]);
      text := text + body;
    }
    assert slots[..|nodes|] == slots;
  }

  method CompileBody(n: Node) returns (text: string)
    ensures text == Body(n)
  {
    if n.custom {
      return n.rawCode;
    }
    var d := ToDoc(n);
    text := if d.Some? then Render(d.value) else "";
  }

  // ---------- Trees ----------

  datatype Yaml =
    | Str(s: string)
    | Int(n: int)
    | List(items: seq<Yaml>)
    | Map(entries: map<string, Yaml>)
    | Scalar(text: string)

  type Tree = map<string, Yaml>

  /** What the text of a document says. */
  function TreeOf(d: Doc): Tree {
    var name := d.name;
    match d.content
    case Deployment(replicas, image, port) =>
      map["apiVersion" := Str("apps/v1"), "kind" := Str("Deployment"), "metadata" := Map(map["name" := Str(name)]),
          "spec" := Map(map["replicas" := Int(replicas),
            "selector" := Map(map["matchLabels" := Map(map["app" := Str(name)])]),
            "template" := Map(map["metadata" := Map(map["labels" := Map(map["app" := Str(name)])]),
              "spec" := Map(map["containers" := List([Map(map["name" := Str("app"), "image" := Str(image),
                "ports" := List([Map(map["containerPort" := Int(port)])])])])])])])]
    case Service(t, port, targetPort) =>
      map["apiVersion" := Str("v1"), "kind" := Str("Service"), "metadata" := Map(map["name" := Str(name)]),
          "spec" := Map(map["type" := Str(t), "selector" := Map(map["app" := Str(name)]),
            "ports" := List([Map(map["port" := Int(port), "targetPort" := Int(targetPort)])])])]
    case ConfigMap(key, value) =>
      map["apiVersion" := Str("v1"), "kind" := Str("ConfigMap"), "metadata" := Map(map["name" := Str(name)]),
          "data" := Map(map[key := Str(value)])]
    case Secret(key, value) =>
      map["apiVersion" := Str("v1"), "kind" := Str("Secret"), "metadata" := Map(map["name" := Str(name)]),
          "type" := Str("Opaque"), "data" := Map(map[key := Str(value)])]
  }

  function StringAt(m: Tree, key: string): string {
    if key in m && m[key].Str? then m[key].s else ""
  }

  function MapAt(m: Tree, key: string): Tree {
    if key in m && m[key].Map? then m[key].entries else map[]
  }

  /** The first item of a list, if it is a map. */
  function FirstMapAt(m: Tree, key: string): Tree {
    if key in m && m[key].List? && |m[key].items| > 0 && m[key].items[0].Map? then m[key].items[0].entries else map[]
  }

  /** `pick` is the entry that ranging over `data` yields first. */
  predicate PicksFirst(m: Tree, pick: string) {
    MapAt(m, "data") != map[] ==> pick in MapAt(m, "data")
  }

  function WithString(p: Params, key: string, m: Tree, from: string): Params {
    if from in m && m[from].Str? then p[key := Word(m[from].s)] else p
  }

  function WithInt(p: Params, key: string, m: Tree, from: string): Params {
    if from in m && m[from].Int? then p[key := Number(m[from].n)] else p
  }

  function DeploymentParams(name: string, m: Tree): Params {
    var spec := MapAt(m, "spec");
    var container := FirstMapAt(MapAt(MapAt(spec, "template"), "spec"), "containers");
    var p := map["deploymentName" := Word(name), "replicas" := Number(1), "imageName" := Word("nginx:alpine"),
                 "containerPort" := Number(80), "cpuLimit" := Word("200m"), "memoryLimit" := Word("256Mi")];
    WithInt(WithString(WithInt(p, "replicas", spec, "replicas"), "imageName", container, "image"),
            "containerPort", FirstMapAt(container, "ports"), "containerPort")
  }

  function ServiceParams(name: string, m: Tree): Params {
    var spec := MapAt(m, "spec");
    var port := FirstMapAt(spec, "ports");
    var p := map["serviceName" := Word(name), "serviceType" := Word("ClusterIP"), "port" := Number(80),
      "targetPort" := Number(80)];
    WithInt(WithInt(WithString(p, "serviceType", spec, "type"), "port", port, "port"), "targetPort", port, "targetPort")
  }

  /** `show` is how a value is printed. */
  function DataParams(p: Params, m: Tree, pick: string, keyParam: string, valueParam: string,
                      show: Yaml -> string): Params
  {
    var data := MapAt(m, "data");
    if pick in data then p[keyParam := Word(pick)][valueParam := Word(show(data[pick]))] else p
  }

  function NodeName(kind: string, m: Tree, idx: nat): string {
    var name := StringAt(MapAt(m, "metadata"), "name");
    if name == "" then "k8s-" + Lower(kind) + "-" + Itoa(idx) else name
  }

  function Imported(id: string, name: string, params: Params): Node {
    Node(id, "Kubernetes", name, params, false, "", "")
  }

  function ExtractNode(m: Tree, idx: nat, pick: string, show: Yaml -> string): Node {
    var kind := StringAt(m, "kind");
    var name := NodeName(kind, m, idx);
    if kind == "Deployment" then Imported("k8s_deployment." + name, name, DeploymentParams(name, m))
    else if kind == "Service" then Imported("k8s_service." + name, name, ServiceParams(name, m))
    else if kind == "ConfigMap" then
      Imported("k8s_configmap." + name, name,
        DataParams(map["configMapName" := Word(name), "dataKey" := Word("APP_ENV"), "dataValue" := Word("production")],
                   m, pick, "dataKey", "dataValue", show))
    else if kind == "Secret" then
      Imported("k8s_secret." + name, name,
        DataParams(map["secretName" := Word(name), "secretKey" := Word("DB_PASS"), "secretValue" := Word("secret123")],
                   m, pick, "secretKey", "secretValue", show))
    else if kind == "Ingress" then
      Imported("k8s_ingress." + name, name,
        map["ingressName" := Word(name), "host" := Word("app.local"), "path" := Word("/"),
            "serviceName" := Word("app-service"), "servicePort" := Number(80)])
    else if kind == "PersistentVolumeClaim" then
      Imported("k8s_pvc." + name, name,
        map["pvcName" := Word(name), "storageSize" := Word("10Gi"), "storageClass" := Word("standard")])
    else Imported("k8s_" + Lower(kind) + "." + name, name, map[])
  }

  predicate IsObject(m: Tree) {
    StringAt(m, "kind") != "" && StringAt(m, "apiVersion") != ""
  }

  // ---------- Parsing ----------

  datatype Result = Parsed(nodes: seq<Node>) | Malformed(document: nat)

  /** The pieces from `idx` on; `yaml` answers None for text that is no document. */
  function ParsedFrom(pieces: seq<string>, idx: nat, picks: seq<string>, yaml: string -> Option<Tree>,
                      show: Yaml -> string): Result
    requires |picks| == |pieces|
    decreases |pieces|
  {
    if pieces == [] then Parsed([])
    else
      var doc := Trim(pieces[0]);
      var rest := ParsedFrom(pieces[1..], idx + 1, picks[1..], yaml, show);
      if doc == "" then rest
      else
        match yaml(doc)
        case None => Malformed(idx)
        case Some(m) =>
          if !IsObject(m) then rest else Prepend([ExtractNode(m, idx, picks[0], show)], rest)
  }

  ghost predicate PicksFor(pieces: seq<string>, picks: seq<string>, yaml: string -> Option<Tree>) {
    && |picks| == |pieces|
    && forall i | 0 <= i < |pieces| && yaml(Trim(pieces[i])).Some? :: PicksFirst(yaml(Trim(pieces[i])).value, picks[i])
  }

  method FirstKey(m: Tree) returns (pick: string)
    ensures PicksFirst(m, pick)
  {
    var data := MapAt(m, "data");
    pick := "";
    if data != map[] {
      assert data.Keys != {};
      pick :| pick in data;
    }
  }

  /** The key the map iteration happens to give first, for each piece. */
  method PickKeys(pieces: seq<string>, yaml: string -> Option<Tree>) returns (picks: seq<string>)
    ensures PicksFor(pieces, picks, yaml)
  {
    picks := [];
    for i := 0 to |pieces|
      invariant PicksFor(pieces[..i], picks, yaml)
    {
      var m := yaml(Trim(pieces[i]));
      var pick := FirstKey(if m.Some? then m.value else map[]);
      picks := picks + [pick];
    }
    assert pieces[..|pieces|] == pieces;
  }

  method ParseKubernetes(text: string, yaml: string -> Option<Tree>, show: Yaml -> string)
    returns (r: Result, picks: seq<string>)
    ensures PicksFor(Split(text, MARK), picks, yaml)
    ensures r == ParsedFrom(Split(text, MARK), 0, picks, yaml, show)
  {
    var pieces := Split(text, MARK);
    picks := PickKeys(pieces, yaml);
    var nodes: seq<Node> := [];
    assert pieces[0..] == pieces && picks[0..] == picks;
    for i := 0 to |pieces|
      invariant ParsedFrom(pieces, 0, picks, yaml, show)
             == Prepend(nodes, ParsedFrom(pieces[i..], i, picks[i..], yaml, show))
    {
      OnePieceLess(pieces, picks, i);
      var doc := Trim(pieces[i]);
      if doc == "" {
        continue;
      }
      var m := yaml(doc);
      if m.None? {
        return Malformed(i), picks;
      }
      if !IsObject(m.value) {
        continue;
      }
      var n := ExtractNode(m.value, i, picks[i], show);
      PrependOne(nodes, n, ParsedFrom(pieces[i + 1..], i + 1, picks[i + 1..], yaml, show));
      nodes := nodes + [n];
    }
    r := Parsed(nodes);
  }

  lemma OnePieceLess(pieces: seq<string>, picks: seq<string>, i: nat)
    requires i < |pieces| == |picks|
    ensures pieces[i..][1..] == pieces[i + 1..] && picks[i..][1..] == picks[i + 1..]
  {
  }

  /** What has been collected, followed by the result for the rest. */
  function Prepend(nodes: seq<Node>, r: Result): Result {
    if r.Parsed? then Parsed(nodes + r.nodes) else r
  }

  lemma PrependOne(nodes: seq<Node>, n: Node, r: Result)
    ensures Prepend(nodes, Prepend([n], r)) == Prepend(nodes + [n], r)
  {
    assert r.Parsed? ==> nodes + ([n] + r.nodes) == nodes + [n] + r.nodes;
  }
}
