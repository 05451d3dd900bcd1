/** The Terraform part of `CompileCanvas`, with its output as blocks that declare an address and
    refer to others. */
module Terraform {
  import opened Common
  import opened Text

  datatype Param = Word(s: string) | Number(n: int) | Other
  type Params = map<string, Param>

  datatype Node = Node(id: string, tech: string, title: string, params: Params, custom: bool,
                       rawCode: string, environment: string)
  datatype Edge = Edge(source: string, target: string)

  datatype Address = Resource(kind: string, name: string) | Data(kind: string, name: string) | Variable(name: string)

  /** `RawCode` is the text written for a custom node: its raw code with its parameters filled in. */
  datatype Block =
    | Declaration(address: Address, refs: seq<Address>)
    | Output(name: string, refs: seq<Address>)
    | RawCode(node: Node)
  {
    function Refs(): seq<Address> {
      if RawCode? then [] else refs
    }
  }

  /** The blocks of main.tf, variables.tf and outputs.tf. */
  datatype Files = Files(main: seq<Block>, variables: seq<Block>, outputs: seq<Block>)

  function GetStringParam(p: Params, key: string, def: string): (r: string)
    ensures r == "" ==> def == ""
    ensures key !in p ==> r == def
  {
    if key in p && p[key].Word? && p[key].s != "" then p[key].s else def
  }

  // ---------- Node kinds and names ----------

  datatype Kind = Instance | SecurityGroup | Bucket | Database | Vpc | Subnet | Unknown

  function Prefix(k: Kind): string
    requires !k.Unknown?
  {
    match k
    case Instance => "aws_instance"
    case SecurityGroup => "aws_security_group"
    case Bucket => "aws_s3_bucket"
    case Database => "aws_db_instance"
    case Vpc => "aws_vpc"
    case Subnet => "aws_subnet"
  }

  /** The branch an id takes: prefixes are tried in the order of the source. */
  function KindOf(id: string): Kind {
    if HasPrefix(id, "aws_instance") then Instance
    else if HasPrefix(id, "aws_security_group") then SecurityGroup
    else if HasPrefix(id, "aws_s3_bucket") then Bucket
    else if HasPrefix(id, "aws_db_instance") then Database
    else if HasPrefix(id, "aws_vpc") then Vpc
    else if HasPrefix(id, "aws_subnet") then Subnet
    else Unknown
  }

  lemma PrefixesClash(s: string, p: string, q: string, i: nat)
    requires i < |p| && i < |q| && p[i] != q[i]
    ensures !(HasPrefix(s, p) && HasPrefix(s, q))
  {
    assert HasPrefix(s, p) ==> s[i] == p[i];
    assert HasPrefix(s, q) ==> s[i] == q[i];
  }

  lemma KindByPrefix(id: string, k: Kind)
    requires !k.Unknown?
    ensures HasPrefix(id, Prefix(k)) <==> KindOf(id) == k
  {
    var instance, group, bucket, database, vpc, subnet :=
      "aws_instance", "aws_security_group", "aws_s3_bucket", "aws_db_instance", "aws_vpc", "aws_subnet";
    PrefixesClash(id, instance, group, 4);
    PrefixesClash(id, instance, bucket, 4);
    PrefixesClash(id, instance, database, 4);
    PrefixesClash(id, instance, vpc, 4);
    PrefixesClash(id, instance, subnet, 4);
    PrefixesClash(id, group, bucket, 5);
    PrefixesClash(id, group, database, 4);
    PrefixesClash(id, group, vpc, 4);
    PrefixesClash(id, group, subnet, 5);
    PrefixesClash(id, bucket, database, 4);
    PrefixesClash(id, bucket, vpc, 4);
    PrefixesClash(id, bucket, subnet, 5);
    PrefixesClash(id, database, vpc, 4);
    PrefixesClash(id, database, subnet, 4);
    PrefixesClash(id, vpc, subnet, 4);
  }

  function InstanceName(n: Node): string {
    GetStringParam(n.params, "instanceName", n.title)
  }

  function GroupName(n: Node): string {
    GetStringParam(n.params, "sgName", "web_sg")
  }

  function BucketName(n: Node): string {
    GetStringParam(n.params, "bucketName", n.title)
  }

  function DatabaseName(n: Node): string {
    GetStringParam(n.params, "dbName", n.title)
  }

  function VpcName(n: Node): string {
    GetStringParam(n.params, "vpcName", n.title)
  }

  function SubnetName(n: Node): string {
    GetStringParam(n.params, "subnetName", n.title)
  }

  // ---------- Targets ----------

  predicate IsAwsTarget(n: Node) { HasPrefix(n.id, "aws_target") }
  predicate IsGcpTarget(n: Node) { HasPrefix(n.id, "gcp_target") }
  predicate IsAzureTarget(n: Node) { HasPrefix(n.id, "azure_target") }

  predicate IsTarget(n: Node) {
    HasSuffix(n.tech, "Target") || IsAwsTarget(n) || IsGcpTarget(n) || IsAzureTarget(n)
  }

  const DEFAULT_TARGET := Node("aws_target_default", "Target", "", map[], false, "", "localstack")

  function TargetNodes(nodes: seq<Node>): (r: seq<Node>)
  {
    if nodes == [] then []
    else if IsTarget(nodes[0]) then [nodes[0]] + TargetNodes(nodes[1..])
    else TargetNodes(nodes[1..])
  }

  function Targets(nodes: seq<Node>): seq<Node> {
    var ts := TargetNodes(nodes);
    if ts == [] then [DEFAULT_TARGET] else ts
  }

  /** Environment of the first AWS target, "localstack" when there is none or it is left empty. */
  function AwsEnvironment(targets: seq<Node>): string {
    if targets == [] then "localstack"
    else if IsAwsTarget(targets[0]) then
      if targets[0].environment != "" then targets[0].environment else "localstack"
    else AwsEnvironment(targets[1..])
  }

  datatype Clouds = Clouds(aws: bool, gcp: bool, azure: bool, awsLocal: bool, awsEnv: string)

  function CloudsOf(nodes: seq<Node>): Clouds {
    var ts := Targets(nodes);
    Clouds(
      aws := exists t | t in ts :: IsAwsTarget(t),
      gcp := exists t | t in ts :: IsGcpTarget(t),
      azure := exists t | t in ts :: IsAzureTarget(t),
      awsLocal := exists t | t in ts :: IsAwsTarget(t) && t.environment == "localstack",
      awsEnv := AwsEnvironment(ts))
  }

  // ---------- Searches ----------

  function FirstOfKind(nodes: seq<Node>, k: Kind): (r: Option<Node>)
    ensures r.Some? ==> r.value in nodes && KindOf(r.value.id) == k
    ensures r.None? <==> forall n | n in nodes :: KindOf(n.id) != k
  {
    if nodes == [] then None
    else if KindOf(nodes[0].id) == k then Some(nodes[0])
    else FirstOfKind(nodes[1..], k)
  }

  function NodeById(nodes: seq<Node>, id: string): (r: Option<Node>)
    ensures r.Some? ==> r.value in nodes && r.value.id == id
  {
    if nodes == [] then None
    else if nodes[0].id == id then Some(nodes[0])
    else NodeById(nodes[1..], id)
  }

  /** The VPC at the other end of the first edge that comes from one. */
  function VpcByEdge(nodes: seq<Node>, edges: seq<Edge>, id: string): (r: Option<Node>)
    ensures r.Some? ==> r.value in nodes && KindOf(r.value.id) == Vpc
  {
    if edges == [] then None
    else if edges[0].target == id && KindOf(edges[0].source) == Vpc then NodeById(nodes, edges[0].source)
    else VpcByEdge(nodes, edges[1..], id)
  }

  function VpcFor(nodes: seq<Node>, edges: seq<Edge>, id: string): (r: Option<Node>)
    ensures r.Some? ==> r.value in nodes && KindOf(r.value.id) == Vpc
    ensures r.None? <==> forall n | n in nodes :: KindOf(n.id) != Vpc
  {
    var byEdge := VpcByEdge(nodes, edges, id);
    if byEdge.Some? then byEdge else FirstOfKind(nodes, Vpc)
  }

  // ---------- Blocks of one node ----------

  const AUTO := "whiparc_auto_subnet"

  function AutoSubnet(vpc: string): seq<Block> {
    [ Declaration(Resource("aws_subnet", AUTO), [Resource("aws_vpc", vpc)]),
      Declaration(Resource("aws_route_table_association", AUTO + "_assoc"),
                  [Resource("aws_subnet", AUTO), Resource("aws_route_table", vpc + "_rt")]) ]
  }

  /** Blocks emitted before the instance, and the references of its subnet line. */
  function SubnetLine(n: Node, nodes: seq<Node>, awsEnv: string): (seq<Block>, seq<Address>) {
    if GetStringParam(n.params, "subnetId", "") != "" then ([], [])
    else
      match FirstOfKind(nodes, Subnet)
      case Some(s) => ([], [Resource("aws_subnet", SubnetName(s))])
      case None =>
        match FirstOfKind(nodes, Vpc)
        case Some(v) => (AutoSubnet(VpcName(v)), [Resource("aws_subnet", AUTO)])
        case None => ([], if awsEnv == "localstack" then [Data("aws_subnets", "default")] else [])
  }

  function GroupLine(nodes: seq<Node>): seq<Address> {
    match FirstOfKind(nodes, SecurityGroup)
    case Some(g) => [Resource("aws_security_group", GroupName(g))]
    case None => []
  }

  function AwsInstance(n: Node, nodes: seq<Node>, awsEnv: string): seq<Block> {
    var (auto, subnet) := SubnetLine(n, nodes, awsEnv);
    auto + [Declaration(Resource("aws_instance", InstanceName(n)), subnet + GroupLine(nodes))]
  }

  function GcpInstance(): seq<Block> {
    [ Declaration(Resource("google_compute_network", "vpc_network"), []),
      Declaration(Resource("google_compute_subnetwork", "subnet"),
                  [Variable("gcp_region"), Resource("google_compute_network", "vpc_network")]),
      Declaration(Resource("google_compute_instance", "vm_instance"),
                  [Variable("gcp_zone"), Resource("google_compute_subnetwork", "subnet"),
                   Variable("gcp_ssh_pub_key")]) ]
  }

  function AzureInstance(): seq<Block> {
    var rg := Resource("azurerm_resource_group", "rg");
    [ Declaration(rg, []),
      Declaration(Resource("azurerm_virtual_network", "vnet"), [rg]),
      Declaration(Resource("azurerm_subnet", "subnet"), [rg, Resource("azurerm_virtual_network", "vnet")]),
      Declaration(Resource("azurerm_public_ip", "pip"), [rg]),
      Declaration(Resource("azurerm_network_interface", "nic"),
                  [rg, Resource("azurerm_subnet", "subnet"), Resource("azurerm_public_ip", "pip")]),
      Declaration(Resource("azurerm_linux_virtual_machine", "vm"),
                  [rg, Resource("azurerm_network_interface", "nic"), Variable("azure_ssh_pub_key")]) ]
  }

  function VpcBlocks(name: string): seq<Block> {
    [ Declaration(Resource("aws_vpc", name), []),
      Declaration(Resource("aws_internet_gateway", name + "_igw"), [Resource("aws_vpc", name)]),
      Declaration(Resource("aws_route_table", name + "_rt"),
                  [Resource("aws_vpc", name), Resource("aws_internet_gateway", name + "_igw")]) ]
  }

  function GroupBlocks(n: Node, nodes: seq<Node>, edges: seq<Edge>): seq<Block> {
    match VpcFor(nodes, edges, n.id)
    case Some(v) => [Declaration(Resource("aws_security_group", GroupName(n)), [Resource("aws_vpc", VpcName(v))])]
    case None => [Declaration(Resource("aws_security_group", GroupName(n)), [])]
  }

  function SubnetBlocks(n: Node, nodes: seq<Node>, edges: seq<Edge>): seq<Block> {
    var name := SubnetName(n);
    match VpcFor(nodes, edges, n.id)
    case Some(v) =>
      [Declaration(Resource("aws_subnet", name), [Resource("aws_vpc", VpcName(v))])] +
      if VpcName(v) != "" then
        [Declaration(Resource("aws_route_table_association", name + "_assoc"),
                     [Resource("aws_subnet", name), Resource("aws_route_table", VpcName(v) + "_rt")])]
      else []
    case None => [Declaration(Resource("aws_subnet", name), [Data("aws_vpc", "default")])]
  }

  function InstanceBlocks(n: Node, nodes: seq<Node>, c: Clouds): seq<Block> {
    (if c.aws then AwsInstance(n, nodes, c.awsEnv) else []) +
    (if c.gcp then GcpInstance() else []) +
    (if c.azure then AzureInstance() else [])
  }

  function NodeBlocks(n: Node, nodes: seq<Node>, edges: seq<Edge>, c: Clouds): seq<Block> {
    if n.tech != "Terraform" then []
    else if n.custom then [RawCode(n)]
    else
      match KindOf(n.id)
      case Instance => InstanceBlocks(n, nodes, c)
      case SecurityGroup => if c.aws then GroupBlocks(n, nodes, edges) else []
      case Bucket => if c.aws then [Declaration(Resource("aws_s3_bucket", BucketName(n)), [])] else []
      case Database => if c.aws then [Declaration(Resource("aws_db_instance", DatabaseName(n)), [])] else []
      case Vpc => if c.aws then VpcBlocks(VpcName(n)) else []
      case Subnet => if c.aws then SubnetBlocks(n, nodes, edges) else []
      case Unknown => []
  }

  function InstanceOutputs(n: Node, c: Clouds): seq<Block> {
    (if c.aws then [Output(InstanceName(n) + "_public_ip", [Resource("aws_instance", InstanceName(n))])] else []) +
    (if c.gcp then [Output("gcp_instance_public_ip", [Resource("google_compute_instance", "vm_instance")])] else []) +
    (if c.azure then [Output("azure_instance_public_ip", [Resource("azurerm_public_ip", "pip")])] else [])
  }

  function NodeOutputs(n: Node, c: Clouds): seq<Block> {
    if n.tech != "Terraform" || n.custom then []
    else
      match KindOf(n.id)
      case Instance => InstanceOutputs(n, c)
      case Bucket =>
        if c.aws then [Output(BucketName(n) + "_bucket_arn", [Resource("aws_s3_bucket", BucketName(n))])] else []
      case Database =>
        if c.aws then [Output(DatabaseName(n) + "_endpoint", [Resource("aws_db_instance", DatabaseName(n))])] else []
      case _ => []
  }

  // ---------- The whole canvas ----------

  function DefaultNetwork(c: Clouds): seq<Block> {
    if c.aws && c.awsLocal then
      [Declaration(Data("aws_vpc", "default"), []),
       Declaration(Data("aws_subnets", "default"), [Data("aws_vpc", "default")])]
    else []
  }

  function GcpVariables(): seq<Block> {
    [Declaration(Variable("gcp_project_id"), []), Declaration(Variable("gcp_region"), []),
     Declaration(Variable("gcp_zone"), []), Declaration(Variable("gcp_ssh_pub_key"), [])]
  }

  function Variables(c: Clouds): seq<Block> {
    (if c.aws then [Declaration(Variable("aws_region"), [])] else []) +
    (if c.gcp then GcpVariables() else []) +
    (if c.azure then [Declaration(Variable("azure_ssh_pub_key"), [])] else [])
  }

  function Resources(done: seq<Node>, nodes: seq<Node>, edges: seq<Edge>, c: Clouds): seq<Block> {
    if done == [] then []
    else Resources(done[..|done| - 1], nodes, edges, c) + NodeBlocks(done[|done| - 1], nodes, edges, c)
  }

  function Outputs(done: seq<Node>, c: Clouds): seq<Block> {
    if done == [] then [] else Outputs(done[..|done| - 1], c) + NodeOutputs(done[|done| - 1], c)
  }

  predicate HasTerraform(nodes: seq<Node>) {
    exists n | n in nodes :: n.tech == "Terraform"
  }

  function Compiled(nodes: seq<Node>, edges: seq<Edge>): Files {
    var c := CloudsOf(nodes);
    if HasTerraform(nodes)
    then Files(DefaultNetwork(c) + Resources(nodes, nodes, edges, c), Variables(c), Outputs(nodes, c))
    else Files([], [], [])
  }

  // ---------- The compiler ----------

  method FindFirst(nodes: seq<Node>, k: Kind) returns (r: Option<Node>)
    requires !k.Unknown?
    ensures r == FirstOfKind(nodes, k)
  {
    r := None;
    for i := 0 to |nodes|
      invariant r == None && FirstOfKind(nodes[i..], k) == FirstOfKind(nodes, k)
    {
      KindByPrefix(nodes[i].id, k);
      if HasPrefix(nodes[i].id, Prefix(k)) {
        return Some(nodes[i]);
      }
      assert nodes[i..][1..] == nodes[i + 1..];
    }
  }

  method FindVpc(nodes: seq<Node>, edges: seq<Edge>, id: string) returns (r: Option<Node>)
    ensures r == VpcFor(nodes, edges, id)
  {
    r := None;
    var k, searching := 0, true;
    while k < |edges| && searching
      invariant 0 <= k <= |edges|
      invariant if searching then r == None && VpcByEdge(nodes, edges[k..], id) == VpcByEdge(nodes, edges, id)
                else r == VpcByEdge(nodes, edges, id)
      decreases |edges| - k, searching
    {
      var e := edges[k];
      assert edges[k..][1..] == edges[k + 1..];
      KindByPrefix(e.source, Vpc);
      if e.target == id && HasPrefix(e.source, Prefix(Vpc)) {
        r := FindNode(nodes, e.source);
        searching := false;
      } else {
        k := k + 1;
      }
    }
    if r == None {
      r := FindFirst(nodes, Vpc);
    }
  }

  method FindNode(nodes: seq<Node>, id: string) returns (r: Option<Node>)
    ensures r == NodeById(nodes, id)
  {
    r := None;
    for k := 0 to |nodes|
      invariant r == None && NodeById(nodes[k..], id) == NodeById(nodes, id)
    {
      if nodes[k].id == id {
        return Some(nodes[k]);
      }
      assert nodes[k..][1..] == nodes[k + 1..];
    }
  }

  method CollectTargets(nodes: seq<Node>) returns (targets: seq<Node>)
    ensures targets == Targets(nodes)
  {
    targets := [];
    for k := 0 to |nodes|
      invariant targets + TargetNodes(nodes[k..]) == TargetNodes(nodes)
    {
      assert nodes[k..][1..] == nodes[k + 1..];
      if IsTarget(nodes[k]) {
        targets := targets + [nodes[k]];
      }
    }
    if |targets| == 0 {
      targets := targets + [DEFAULT_TARGET];
    }
  }

  method DetectProviders(targets: seq<Node>) returns (aws: bool, gcp: bool, azure: bool)
    ensures aws == exists t | t in targets :: IsAwsTarget(t)
    ensures gcp == exists t | t in targets :: IsGcpTarget(t)
    ensures azure == exists t | t in targets :: IsAzureTarget(t)
  {
    aws, gcp, azure := false, false, false;
    for k := 0 to |targets|
      invariant aws == exists i | 0 <= i < k :: IsAwsTarget(targets[i])
      invariant gcp == exists i | 0 <= i < k :: IsGcpTarget(targets[i])
      invariant azure == exists i | 0 <= i < k :: IsAzureTarget(targets[i])
    {
      PrefixesClash(targets[k].id, "aws_target", "gcp_target", 0);
      PrefixesClash(targets[k].id, "aws_target", "azure_target", 1);
      PrefixesClash(targets[k].id, "gcp_target", "azure_target", 0);
      if IsAwsTarget(targets[k]) {
        aws := true;
      } else if IsGcpTarget(targets[k]) {
        gcp := true;
      } else if IsAzureTarget(targets[k]) {
        azure := true;
      }
    }
  }

  method AwsTargetLocal(targets: seq<Node>) returns (local: bool)
    ensures local == exists t | t in targets :: IsAwsTarget(t) && t.environment == "localstack"
  {
    local := false;
    for k := 0 to |targets|
      invariant !local
      invariant forall i | 0 <= i < k :: !(IsAwsTarget(targets[i]) && targets[i].environment == "localstack")
    {
      if IsAwsTarget(targets[k]) && targets[k].environment == "localstack" {
        return true;
      }
    }
  }

  method FirstAwsEnvironment(targets: seq<Node>) returns (env: string)
    ensures env == AwsEnvironment(targets)
  {
    for k := 0 to |targets|
      invariant AwsEnvironment(targets[k..]) == AwsEnvironment(targets)
    {
      if IsAwsTarget(targets[k]) {
        return if targets[k].environment != "" then targets[k].environment else "localstack";
      }
      assert targets[k..][1..] == targets[k + 1..];
    }
    env := "localstack";
  }

  method SelectClouds(nodes: seq<Node>) returns (c: Clouds)
    ensures c == CloudsOf(nodes)
  {
    var targets := CollectTargets(nodes);
    var aws, gcp, azure := DetectProviders(targets);
    var awsLocal := AwsTargetLocal(targets);
    var awsEnv := FirstAwsEnvironment(targets);
    c := Clouds(aws, gcp, azure, awsLocal, awsEnv);
  }

  method CompileAwsInstance(n: Node, nodes: seq<Node>, awsEnv: string) returns (blocks: seq<Block>)
    ensures blocks == AwsInstance(n, nodes, awsEnv)
  {
    blocks := [];
    var subnetRefs: seq<Address> := [];
    if GetStringParam(n.params, "subnetId", "") == "" {
      var subnet := FindFirst(nodes, Subnet);
      if subnet.Some? {
        subnetRefs := [Resource("aws_subnet", SubnetName(subnet.value))];
      } else {
        var vpc := FindFirst(nodes, Vpc);
        if vpc.Some? {
          blocks := AutoSubnet(VpcName(vpc.value));
          subnetRefs := [Resource("aws_subnet", AUTO)];
        } else if awsEnv == "localstack" {
          subnetRefs := [Data("aws_subnets", "default")];
        }
      }
    }
    var group := FindFirst(nodes, SecurityGroup);
    var groupRefs := if group.Some? then [Resource("aws_security_group", GroupName(group.value))] else [];
    blocks := blocks + [Declaration(Resource("aws_instance", InstanceName(n)), subnetRefs + groupRefs)];
  }

  method CompileNode(n: Node, nodes: seq<Node>, edges: seq<Edge>, c: Clouds)
    returns (blocks: seq<Block>, outputs: seq<Block>)
    ensures blocks == NodeBlocks(n, nodes, edges, c) && outputs == NodeOutputs(n, c)
  {
    blocks, outputs := [], [];
    if n.tech != "Terraform" {
      return;
    }
    if n.custom {
      return [RawCode(n)], [];
    }
    var kind := KindOf(n.id);
    if kind == Instance {
      if c.aws {
        blocks := CompileAwsInstance(n, nodes, c.awsEnv);
      }
      blocks := blocks + (if c.gcp then GcpInstance() else []) + (if c.azure then AzureInstance() else []);
      outputs := InstanceOutputs(n, c);
    } else if kind == SecurityGroup && c.aws {
      var vpc := FindVpc(nodes, edges, n.id);
      var refs := if vpc.Some? then [Resource("aws_vpc", VpcName(vpc.value))] else [];
      blocks := [Declaration(Resource("aws_security_group", GroupName(n)), refs)];
    } else if kind == Bucket && c.aws {
      blocks := [Declaration(Resource("aws_s3_bucket", BucketName(n)), [])];
      outputs := [Output(BucketName(n) + "_bucket_arn", [Resource("aws_s3_bucket", BucketName(n))])];
    } else if kind == Database && c.aws {
      blocks := [Declaration(Resource("aws_db_instance", DatabaseName(n)), [])];
      outputs := [Output(DatabaseName(n) + "_endpoint", [Resource("aws_db_instance", DatabaseName(n))])];
    } else if kind == Vpc && c.aws {
      blocks := VpcBlocks(VpcName(n));
    } else if kind == Subnet && c.aws {
      var vpc := FindVpc(nodes, edges, n.id);
      var vpcRef, vpcNameForRt := Data("aws_vpc", "default"), "";
      if vpc.Some? {
        vpcRef := Resource("aws_vpc", VpcName(vpc.value));
        vpcNameForRt := VpcName(vpc.value);
      }
      blocks := [Declaration(Resource("aws_subnet", SubnetName(n)), [vpcRef])];
      if vpcNameForRt != "" {
        blocks := blocks + [Declaration(Resource("aws_route_table_association", SubnetName(n) + "_assoc"),
          [Resource("aws_subnet", SubnetName(n)), Resource("aws_route_table", vpcNameForRt + "_rt")])];
      }
    }
  }

  method CompileCanvas(nodes: seq<Node>, edges: seq<Edge>) returns (files: Files)
    ensures files == Compiled(nodes, edges)
  {
    var hasTerraform := false;
    for k := 0 to |nodes|
      invariant hasTerraform == exists n | n in nodes[..k] :: n.tech == "Terraform"
    {
      assert nodes[..k + 1] == nodes[..k] + [nodes[k]];
      if nodes[k].tech == "Terraform" {
        hasTerraform := true;
      }
    }
    assert nodes[..|nodes|] == nodes;
    if !hasTerraform {
      return Files([], [], []);
    }
    var c := SelectClouds(nodes);
    var resources, outputs := [], [];
    for k := 0 to |nodes|
      invariant resources == Resources(nodes[..k], nodes, edges, c)
      invariant outputs == Outputs(nodes[..k], c)
    {
      assert nodes[..k + 1][..k] == nodes[..k];
      var blocks, outs := CompileNode(nodes[k], nodes, edges, c);
      resources := resources + blocks;
      outputs := outputs + outs;
    }
    files := Files(DefaultNetwork(c) + resources, Variables(c), outputs);
  }
}
