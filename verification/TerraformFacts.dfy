/** When every reference the compiler writes into the Terraform files names a block that they declare. */
module TerraformFacts {
  import opened Common
  import opened Terraform

  ghost function Addresses(blocks: seq<Block>): set<Address> {
    set b | b in blocks && b.Declaration? :: b.address
  }

  /** `raw` gives the addresses that the text of a custom node declares. */
  ghost function RawAddresses(blocks: seq<Block>, raw: Node -> set<Address>): set<Address> {
    set b, a | b in blocks && b.RawCode? && a in raw(b.node) :: a
  }

  /** Every reference made by these blocks is in `known`. */
  ghost predicate Covered(blocks: seq<Block>, known: set<Address>) {
    forall b | b in blocks :: forall a | a in b.Refs() :: a in known
  }

  /** What the three files declare. */
  ghost function Known(f: Files, raw: Node -> set<Address>): set<Address> {
    Addresses(f.main) + Addresses(f.variables) + RawAddresses(f.main, raw)
  }

  ghost predicate Closed(f: Files, raw: Node -> set<Address>) {
    var known := Known(f, raw);
    Covered(f.main, known) && Covered(f.variables, known) && Covered(f.outputs, known)
  }

  // ---------- The condition a caller can check ----------

  /** A node the compiler turns into blocks of its own. */
  ghost predicate Emitted(n: Node) {
    n.tech == "Terraform" && !n.custom
  }

  /** The text of some custom node declares the address. */
  ghost predicate RawDeclares(nodes: seq<Node>, raw: Node -> set<Address>, a: Address) {
    exists n | n in nodes :: n.tech == "Terraform" && n.custom && a in raw(n)
  }

  /** What a node's blocks need that they do not declare themselves: a VPC, the route table of a VPC, a
      subnet, a security group, or a data block of the account's default network. */
  datatype Wanted =
    | AVpc(name: string)
    | ATable(name: string)
    | ASubnet(name: string)
    | AGroup(name: string)
    | ADefault(kind: string)

  function AddressOf(w: Wanted): Address {
    match w
    case AVpc(name) => Resource("aws_vpc", name)
    case ATable(name) => Resource("aws_route_table", name + "_rt")
    case ASubnet(name) => Resource("aws_subnet", name)
    case AGroup(name) => Resource("aws_security_group", name)
    case ADefault(kind) => Data(kind, "default")
  }

  ghost predicate Owns(n: Node, w: Wanted) {
    match w
    case AVpc(name) => KindOf(n.id) == Vpc && VpcName(n) == name
    case ATable(name) => KindOf(n.id) == Vpc && VpcName(n) == name
    case ASubnet(name) => KindOf(n.id) == Subnet && SubnetName(n) == name
    case AGroup(name) => KindOf(n.id) == SecurityGroup && GroupName(n) == name
    case ADefault(_) => false
  }

  /** Some emitted node of the right kind carries the name. */
  ghost predicate Emits(nodes: seq<Node>, w: Wanted) {
    exists n | n in nodes :: Emitted(n) && Owns(n, w)
  }

  /** The canvas provides it: by an emitted node, by the data blocks that go with an AWS target saying
      "localstack" explicitly, or in the text of a custom node. */
  ghost predicate Offers(nodes: seq<Node>, c: Clouds, raw: Node -> set<Address>, w: Wanted) {
    Emits(nodes, w) || (w.ADefault? && c.awsLocal) || RawDeclares(nodes, raw, AddressOf(w))
  }

  /** An emitted instance with no subnet of its own. */
  ghost predicate Bare(n: Node) {
    Emitted(n) && KindOf(n.id) == Instance && GetStringParam(n.params, "subnetId", "") == ""
  }

  /** A bare instance takes the first subnet, or makes one in the first VPC, or leans on the account's
      default subnets if the environment is local. */
  function BareWants(nodes: seq<Node>, awsEnv: string): seq<Wanted> {
    match FirstOfKind(nodes, Subnet)
    case Some(s) => [ASubnet(SubnetName(s))]
    case None =>
      match FirstOfKind(nodes, Vpc)
      case Some(v) => [AVpc(VpcName(v)), ATable(VpcName(v))]
      case None => if awsEnv == "localstack" then [ADefault("aws_subnets")] else []
  }

  function FirstGroupWanted(nodes: seq<Node>): seq<Wanted> {
    match FirstOfKind(nodes, SecurityGroup)
    case Some(g) => [AGroup(GroupName(g))]
    case None => []
  }

  function GroupWants(vpc: Option<Node>): seq<Wanted> {
    if vpc.Some? then [AVpc(VpcName(vpc.value))] else []
  }

  function SubnetWants(vpc: Option<Node>): seq<Wanted> {
    if vpc.None? then [ADefault("aws_vpc")]
    else [AVpc(VpcName(vpc.value))] + if VpcName(vpc.value) != "" then [ATable(VpcName(vpc.value))] else []
  }

  ghost function Wants(n: Node, nodes: seq<Node>, edges: seq<Edge>, c: Clouds): seq<Wanted> {
    if !c.aws || !Emitted(n) then []
    else
      match KindOf(n.id)
      case Instance => (if Bare(n) then BareWants(nodes, c.awsEnv) else []) + FirstGroupWanted(nodes)
      case SecurityGroup => GroupWants(VpcFor(nodes, edges, n.id))
      case Subnet => SubnetWants(VpcFor(nodes, edges, n.id))
      case _ => []
  }

  /** The canvas provides whatever its searches find. */
  ghost predicate AllServed(nodes: seq<Node>, edges: seq<Edge>, c: Clouds, raw: Node -> set<Address>) {
    forall n, w | n in nodes && w in Wants(n, nodes, edges, c) :: Offers(nodes, c, raw, w)
  }

  // ---------- Blocks and the nodes they come from ----------

  lemma {:induction false} ResourcesHold(done: seq<Node>, nodes: seq<Node>, edges: seq<Edge>, c: Clouds, n: Node,
                                         b: Block)
    requires n in done && b in NodeBlocks(n, nodes, edges, c)
    ensures b in Resources(done, nodes, edges, c)
    decreases |done|
  {
    if n != done[|done| - 1] {
      ResourcesHold(done[..|done| - 1], nodes, edges, c, n, b);
    }
  }

  lemma {:induction false} ResourceOrigin(done: seq<Node>, nodes: seq<Node>, edges: seq<Edge>, c: Clouds, b: Block)
    requires b in Resources(done, nodes, edges, c)
    ensures exists n | n in done :: b in NodeBlocks(n, nodes, edges, c)
    decreases |done|
  {
    var last := done[|done| - 1];
    if b in NodeBlocks(last, nodes, edges, c) {
      assert last in done;
    } else {
      ResourceOrigin(done[..|done| - 1], nodes, edges, c, b);
    }
  }

  lemma {:induction false} OutputOrigin(done: seq<Node>, c: Clouds, b: Block)
    requires b in Outputs(done, c)
    ensures exists n | n in done :: b in NodeOutputs(n, c)
    decreases |done|
  {
    var last := done[|done| - 1];
    if b in NodeOutputs(last, c) {
      assert last in done;
    } else {
      OutputOrigin(done[..|done| - 1], c, b);
    }
  }

  ghost predicate Declared(blocks: seq<Block>, known: set<Address>) {
    forall b | b in blocks && b.Declaration? :: b.address in known
  }

  lemma DeclaredParts(a: seq<Block>, b: seq<Block>, known: set<Address>)
    requires Declared(a + b, known)
    ensures Declared(a, known) && Declared(b, known)
  {
    forall x | x in a || x in b ensures x in a + b {
    }
  }

  /** The addresses declared by a node's own blocks are all known. */
  ghost predicate Holds(known: set<Address>, n: Node, nodes: seq<Node>, edges: seq<Edge>, c: Clouds) {
    Declared(NodeBlocks(n, nodes, edges, c), known)
  }

  ghost predicate Gathers(known: set<Address>, nodes: seq<Node>, edges: seq<Edge>, c: Clouds,
                          raw: Node -> set<Address>) {
    && (forall n | n in nodes :: Holds(known, n, nodes, edges, c))
    && Addresses(Variables(c)) <= known
    && Addresses(DefaultNetwork(c)) <= known
    && forall a | RawDeclares(nodes, raw, a) :: a in known
  }

  lemma RawIsInMain(nodes: seq<Node>, edges: seq<Edge>, c: Clouds, raw: Node -> set<Address>, a: Address)
    ensures RawDeclares(nodes, raw, a) <==>
            a in RawAddresses(DefaultNetwork(c) + Resources(nodes, nodes, edges, c), raw)
  {
    var main := DefaultNetwork(c) + Resources(nodes, nodes, edges, c);
    if RawDeclares(nodes, raw, a) {
      var n :| n in nodes && n.tech == "Terraform" && n.custom && a in raw(n);
      ResourcesHold(nodes, nodes, edges, c, n, RawCode(n));
      assert RawCode(n) in main;
    }
    if a in RawAddresses(main, raw) {
      var b :| b in main && b.RawCode? && a in raw(b.node);
      ResourceOrigin(nodes, nodes, edges, c, b);
      var n :| n in nodes && b in NodeBlocks(n, nodes, edges, c);
      RawIsCustom(n, nodes, edges, c, b);
    }
  }

  ghost predicate NoRaw(blocks: seq<Block>) {
    forall b | b in blocks :: !b.RawCode?
  }

  lemma NoRawConcat(a: seq<Block>, b: seq<Block>)
    requires NoRaw(a) && NoRaw(b)
    ensures NoRaw(a + b)
  {
  }

  lemma NoRawInInstance(n: Node, nodes: seq<Node>, c: Clouds)
    ensures NoRaw(InstanceBlocks(n, nodes, c))
  {
    var (auto, subnet) := SubnetLine(n, nodes, c.awsEnv);
    assert NoRaw(auto);
    NoRawConcat(auto, [Declaration(Resource("aws_instance", InstanceName(n)), subnet + GroupLine(nodes))]);
    var aws := if c.aws then AwsInstance(n, nodes, c.awsEnv) else [];
    var gcp := if c.gcp then GcpInstance() else [];
    var azure := if c.azure then AzureInstance() else [];
    assert NoRaw(gcp) && NoRaw(azure);
    NoRawConcat(aws, gcp);
    NoRawConcat(aws + gcp, azure);
  }

  lemma NoRawWhenEmitted(n: Node, nodes: seq<Node>, edges: seq<Edge>, c: Clouds)
    requires Emitted(n)
    ensures NoRaw(NodeBlocks(n, nodes, edges, c))
  {
    if KindOf(n.id) == Instance {
      NoRawInInstance(n, nodes, c);
    } else {
      assert NoRaw(SubnetBlocks(n, nodes, edges)) && NoRaw(GroupBlocks(n, nodes, edges));
      assert NoRaw(VpcBlocks(VpcName(n)));
    }
  }

  lemma RawIsCustom(n: Node, nodes: seq<Node>, edges: seq<Edge>, c: Clouds, b: Block)
    requires b in NodeBlocks(n, nodes, edges, c) && b.RawCode?
    ensures b.node == n && n.tech == "Terraform" && n.custom
  {
    if Emitted(n) {
      NoRawWhenEmitted(n, nodes, edges, c);
    }
  }

  ghost function KnownOf(nodes: seq<Node>, edges: seq<Edge>, c: Clouds, raw: Node -> set<Address>): set<Address> {
    var main := DefaultNetwork(c) + Resources(nodes, nodes, edges, c);
    Addresses(main) + Addresses(Variables(c)) + RawAddresses(main, raw)
  }

  lemma CompiledGathers(nodes: seq<Node>, edges: seq<Edge>, c: Clouds, raw: Node -> set<Address>)
    ensures Gathers(KnownOf(nodes, edges, c, raw), nodes, edges, c, raw)
  {
    forall n, b | n in nodes && b in NodeBlocks(n, nodes, edges, c)
      ensures b in Resources(nodes, nodes, edges, c)
    {
      ResourcesHold(nodes, nodes, edges, c, n, b);
    }
    forall a | RawDeclares(nodes, raw, a) ensures a in KnownOf(nodes, edges, c, raw) {
      RawIsInMain(nodes, edges, c, raw, a);
    }
  }

  // ---------- What each kind of node declares ----------

  lemma Ends(blocks: seq<Block>, known: set<Address>)
    requires blocks != [] && Declared(blocks, known)
    ensures blocks[0].Declaration? ==> blocks[0].address in known
    ensures blocks[|blocks| - 1].Declaration? ==> blocks[|blocks| - 1].address in known
  {
    assert blocks[0] in blocks && blocks[|blocks| - 1] in blocks;
  }

  lemma OwnedIsKnown(n: Node, nodes: seq<Node>, edges: seq<Edge>, c: Clouds, w: Wanted, known: set<Address>)
    requires c.aws && Emitted(n) && Owns(n, w) && Holds(known, n, nodes, edges, c)
    ensures AddressOf(w) in known
  {
    match w
    case AVpc(_) => Ends(VpcBlocks(VpcName(n)), known);
    case ATable(_) => Ends(VpcBlocks(VpcName(n)), known);
    case ASubnet(_) => Ends(SubnetBlocks(n, nodes, edges), known);
    case AGroup(_) => Ends(GroupBlocks(n, nodes, edges), known);
  }

  lemma OfferedIsKnown(nodes: seq<Node>, edges: seq<Edge>, c: Clouds, raw: Node -> set<Address>, w: Wanted,
                       known: set<Address>)
    requires c.aws && Gathers(known, nodes, edges, c, raw) && Offers(nodes, c, raw, w)
    requires w.ADefault? ==> w.kind in {"aws_vpc", "aws_subnets"}
    ensures AddressOf(w) in known
  {
    if Emits(nodes, w) {
      var n :| n in nodes && Emitted(n) && Owns(n, w);
      OwnedIsKnown(n, nodes, edges, c, w, known);
    } else if w.ADefault? && c.awsLocal {
      DefaultKnown(c, known);
    }
  }

  // ---------- Blocks that need only themselves and variables ----------

  lemma GcpSelfContained(known: set<Address>)
    requires Declared(GcpInstance(), known)
    requires Variable("gcp_region") in known && Variable("gcp_zone") in known && Variable("gcp_ssh_pub_key") in known
    ensures Covered(GcpInstance(), known)
    ensures Resource("google_compute_instance", "vm_instance") in known
  {
    var blocks := GcpInstance();
    assert blocks[0] in blocks && blocks[1] in blocks && blocks[2] in blocks;
  }

  lemma AzureDeclares(known: set<Address>)
    requires Declared(AzureInstance(), known)
    ensures {Resource("azurerm_resource_group", "rg"), Resource("azurerm_virtual_network", "vnet"),
             Resource("azurerm_subnet", "subnet"), Resource("azurerm_public_ip", "pip"),
             Resource("azurerm_network_interface", "nic")} <= known
  {
    var blocks := AzureInstance();
    assert blocks[0] in blocks && blocks[1] in blocks && blocks[2] in blocks && blocks[3] in blocks
           && blocks[4] in blocks;
  }

  lemma AzureSelfContained(known: set<Address>)
    requires Declared(AzureInstance(), known)
    requires Variable("azure_ssh_pub_key") in known
    ensures Covered(AzureInstance(), known)
    ensures Resource("azurerm_public_ip", "pip") in known
  {
    AzureDeclares(known);
    var blocks := AzureInstance();
    forall b | b in blocks ensures forall a | a in b.Refs() :: a in known {
      var i :| 0 <= i < 6 && b == blocks[i];
    }
  }

  lemma VariablesKnown(c: Clouds, known: set<Address>)
    requires Addresses(Variables(c)) <= known
    ensures c.gcp ==>
              Variable("gcp_region") in known && Variable("gcp_zone") in known && Variable("gcp_ssh_pub_key") in known
    ensures c.azure ==> Variable("azure_ssh_pub_key") in known
  {
    var vars := Variables(c);
    if c.gcp {
      assert Declaration(Variable("gcp_region"), []) in vars;
      assert Declaration(Variable("gcp_zone"), []) in vars;
      assert Declaration(Variable("gcp_ssh_pub_key"), []) in vars;
    }
    if c.azure {
      assert Declaration(Variable("azure_ssh_pub_key"), []) in vars;
    }
  }

  lemma DefaultKnown(c: Clouds, known: set<Address>)
    requires Addresses(DefaultNetwork(c)) <= known && c.aws && c.awsLocal
    ensures Data("aws_vpc", "default") in known && Data("aws_subnets", "default") in known
  {
    var blocks := DefaultNetwork(c);
    assert blocks[0] in blocks && blocks[1] in blocks;
  }

  // ---------- If every node is served, everything is declared ----------

  ghost predicate AllIn(wanted: seq<Wanted>, known: set<Address>) {
    forall w | w in wanted :: AddressOf(w) in known
  }

  lemma CoveredConcat(a: seq<Block>, b: seq<Block>, known: set<Address>)
    requires Covered(a, known) && Covered(b, known)
    ensures Covered(a + b, known)
  {
  }

  lemma OneCovered(address: Address, refs: seq<Address>, known: set<Address>)
    requires forall a | a in refs :: a in known
    ensures Covered([Declaration(address, refs)], known)
  {
  }

  lemma AutoSubnetCovered(vpc: string, known: set<Address>)
    requires Resource("aws_vpc", vpc) in known && Resource("aws_route_table", vpc + "_rt") in known
    requires Resource("aws_subnet", AUTO) in known
    ensures Covered(AutoSubnet(vpc), known)
  {
    var blocks := AutoSubnet(vpc);
    forall b | b in blocks ensures forall a | a in b.Refs() :: a in known {
      assert b == blocks[0] || b == blocks[1];
    }
  }

  /** A bare instance makes its own subnet. */
  ghost predicate MakesSubnet(nodes: seq<Node>) {
    FirstOfKind(nodes, Subnet).None? && FirstOfKind(nodes, Vpc).Some?
  }

  lemma SubnetLineCovered(n: Node, nodes: seq<Node>, awsEnv: string, known: set<Address>)
    requires Bare(n) && AllIn(BareWants(nodes, awsEnv), known)
    requires MakesSubnet(nodes) ==> Resource("aws_subnet", AUTO) in known
    ensures forall a | a in SubnetLine(n, nodes, awsEnv).1 :: a in known
    ensures Covered(SubnetLine(n, nodes, awsEnv).0, known)
  {
    var s, v := FirstOfKind(nodes, Subnet), FirstOfKind(nodes, Vpc);
    if s.Some? {
      assert ASubnet(SubnetName(s.value)) in BareWants(nodes, awsEnv);
      assert SubnetLine(n, nodes, awsEnv) == ([], [Resource("aws_subnet", SubnetName(s.value))]);
    } else if v.Some? {
      var name := VpcName(v.value);
      assert AVpc(name) in BareWants(nodes, awsEnv) && ATable(name) in BareWants(nodes, awsEnv);
      assert SubnetLine(n, nodes, awsEnv) == (AutoSubnet(name), [Resource("aws_subnet", AUTO)]);
      AutoSubnetCovered(name, known);
    } else if awsEnv == "localstack" {
      assert ADefault("aws_subnets") in BareWants(nodes, awsEnv);
    }
  }

  lemma AwsInstanceParts(n: Node, nodes: seq<Node>, awsEnv: string, known: set<Address>)
    requires Declared(AwsInstance(n, nodes, awsEnv), known)
    ensures Declared(SubnetLine(n, nodes, awsEnv).0, known) && Resource("aws_instance", InstanceName(n)) in known
  {
    var (auto, subnet) := SubnetLine(n, nodes, awsEnv);
    DeclaredParts(auto, [Declaration(Resource("aws_instance", InstanceName(n)), subnet + GroupLine(nodes))], known);
    Ends(AwsInstance(n, nodes, awsEnv), known);
  }

  /** The first block emitted for an instance that makes its own subnet is that subnet. */
  lemma AutoSubnetDeclared(n: Node, nodes: seq<Node>, awsEnv: string, known: set<Address>)
    requires Bare(n) && MakesSubnet(nodes) && Declared(SubnetLine(n, nodes, awsEnv).0, known)
    ensures Resource("aws_subnet", AUTO) in known
  {
    var auto := AutoSubnet(VpcName(FirstOfKind(nodes, Vpc).value));
    assert SubnetLine(n, nodes, awsEnv).0 == auto;
    Ends(auto, known);
  }

  lemma GroupLineCovered(nodes: seq<Node>, known: set<Address>)
    requires AllIn(FirstGroupWanted(nodes), known)
    ensures forall a | a in GroupLine(nodes) :: a in known
  {
    if FirstOfKind(nodes, SecurityGroup).Some? {
      assert AGroup(GroupName(FirstOfKind(nodes, SecurityGroup).value)) in FirstGroupWanted(nodes);
    }
  }

  lemma AwsInstanceCovered(n: Node, nodes: seq<Node>, awsEnv: string, known: set<Address>)
    requires Emitted(n) && KindOf(n.id) == Instance
    requires (Bare(n) ==> AllIn(BareWants(nodes, awsEnv), known)) && AllIn(FirstGroupWanted(nodes), known)
    requires Declared(AwsInstance(n, nodes, awsEnv), known)
    ensures Covered(AwsInstance(n, nodes, awsEnv), known)
    ensures Resource("aws_instance", InstanceName(n)) in known
  {
    AwsInstanceParts(n, nodes, awsEnv, known);
    GroupLineCovered(nodes, known);
    if Bare(n) {
      if MakesSubnet(nodes) {
        AutoSubnetDeclared(n, nodes, awsEnv, known);
      }
      SubnetLineCovered(n, nodes, awsEnv, known);
    }
    var (auto, subnet) := SubnetLine(n, nodes, awsEnv);
    OneCovered(Resource("aws_instance", InstanceName(n)), subnet + GroupLine(nodes), known);
    CoveredConcat(auto, [Declaration(Resource("aws_instance", InstanceName(n)), subnet + GroupLine(nodes))], known);
  }

  lemma InstanceCovered(n: Node, nodes: seq<Node>, edges: seq<Edge>, c: Clouds, known: set<Address>)
    requires Emitted(n) && KindOf(n.id) == Instance && AllIn(Wants(n, nodes, edges, c), known)
    requires Addresses(Variables(c)) <= known
    requires Declared(InstanceBlocks(n, nodes, c), known)
    ensures Covered(InstanceBlocks(n, nodes, c), known) && Covered(InstanceOutputs(n, c), known)
  {
    VariablesKnown(c, known);
    var aws := if c.aws then AwsInstance(n, nodes, c.awsEnv) else [];
    var gcp := if c.gcp then GcpInstance() else [];
    var azure := if c.azure then AzureInstance() else [];
    assert InstanceBlocks(n, nodes, c) == aws + gcp + azure;
    DeclaredParts(aws + gcp, azure, known);
    DeclaredParts(aws, gcp, known);
    if c.aws {
      WantsSplit(n, nodes, edges, c, known);
      AwsInstanceCovered(n, nodes, c.awsEnv, known);
    }
    if c.gcp {
      GcpSelfContained(known);
    }
    if c.azure {
      AzureSelfContained(known);
    }
    CoveredConcat(aws, gcp, known);
    CoveredConcat(aws + gcp, azure, known);
    InstanceOutputsCovered(n, c, known);
  }

  lemma WantsSplit(n: Node, nodes: seq<Node>, edges: seq<Edge>, c: Clouds, known: set<Address>)
    requires c.aws && Emitted(n) && KindOf(n.id) == Instance && AllIn(Wants(n, nodes, edges, c), known)
    ensures (Bare(n) ==> AllIn(BareWants(nodes, c.awsEnv), known)) && AllIn(FirstGroupWanted(nodes), known)
  {
    var subnet := if Bare(n) then BareWants(nodes, c.awsEnv) else [];
    forall w | w in subnet || w in FirstGroupWanted(nodes) ensures w in Wants(n, nodes, edges, c) {
    }
  }

  lemma InstanceOutputsCovered(n: Node, c: Clouds, known: set<Address>)
    requires c.aws ==> Resource("aws_instance", InstanceName(n)) in known
    requires c.gcp ==> Resource("google_compute_instance", "vm_instance") in known
    requires c.azure ==> Resource("azurerm_public_ip", "pip") in known
    ensures Covered(InstanceOutputs(n, c), known)
  {
  }

  lemma GroupCovered(n: Node, nodes: seq<Node>, edges: seq<Edge>, known: set<Address>)
    requires AllIn(GroupWants(VpcFor(nodes, edges, n.id)), known)
    ensures Covered(GroupBlocks(n, nodes, edges), known)
  {
    var v := VpcFor(nodes, edges, n.id);
    if v.Some? {
      assert AVpc(VpcName(v.value)) in GroupWants(v);
    }
  }

  lemma VpcCovered(name: string, known: set<Address>)
    requires Declared(VpcBlocks(name), known)
    ensures Covered(VpcBlocks(name), known)
  {
    var blocks := VpcBlocks(name);
    assert blocks[0] in blocks && blocks[1] in blocks;
  }

  lemma SubnetCovered(n: Node, nodes: seq<Node>, edges: seq<Edge>, known: set<Address>)
    requires AllIn(SubnetWants(VpcFor(nodes, edges, n.id)), known)
    requires Declared(SubnetBlocks(n, nodes, edges), known)
    ensures Covered(SubnetBlocks(n, nodes, edges), known)
  {
    Ends(SubnetBlocks(n, nodes, edges), known);
    var v := VpcFor(nodes, edges, n.id);
    if v.None? {
      assert ADefault("aws_vpc") in SubnetWants(v);
    } else {
      assert AVpc(VpcName(v.value)) in SubnetWants(v);
      assert VpcName(v.value) != "" ==> ATable(VpcName(v.value)) in SubnetWants(v);
    }
  }

  lemma NodeCovered(n: Node, nodes: seq<Node>, edges: seq<Edge>, c: Clouds, known: set<Address>)
    requires AllIn(Wants(n, nodes, edges, c), known)
    requires Addresses(Variables(c)) <= known && Holds(known, n, nodes, edges, c)
    ensures Covered(NodeBlocks(n, nodes, edges, c), known) && Covered(NodeOutputs(n, c), known)
  {
    if Emitted(n) {
      match KindOf(n.id)
      case Instance => InstanceCovered(n, nodes, edges, c, known);
      case SecurityGroup => if c.aws { GroupCovered(n, nodes, edges, known); }
      case Vpc => if c.aws { VpcCovered(VpcName(n), known); }
      case Subnet => if c.aws { SubnetCovered(n, nodes, edges, known); }
      case Bucket =>
      case Database =>
      case Unknown =>
    }
  }

  lemma WantedKinds(n: Node, nodes: seq<Node>, edges: seq<Edge>, c: Clouds, w: Wanted)
    requires w in Wants(n, nodes, edges, c)
    ensures c.aws && (w.ADefault? ==> w.kind in {"aws_vpc", "aws_subnets"})
    ensures w.ASubnet? ==> FirstOfKind(nodes, Subnet).Some?
  {
  }

  lemma ServedIsKnown(n: Node, nodes: seq<Node>, edges: seq<Edge>, c: Clouds, raw: Node -> set<Address>,
                      known: set<Address>)
    requires AllServed(nodes, edges, c, raw) && Gathers(known, nodes, edges, c, raw) && n in nodes
    ensures AllIn(Wants(n, nodes, edges, c), known)
  {
    forall w | w in Wants(n, nodes, edges, c) ensures AddressOf(w) in known {
      WantedKinds(n, nodes, edges, c, w);
      OfferedIsKnown(nodes, edges, c, raw, w, known);
    }
  }

  lemma ClosedWhenServed(nodes: seq<Node>, edges: seq<Edge>, raw: Node -> set<Address>)
    requires AllServed(nodes, edges, CloudsOf(nodes), raw)
    ensures Closed(Compiled(nodes, edges), raw)
  {
    var c := CloudsOf(nodes);
    CompiledGathers(nodes, edges, c, raw);
    AllCovered(nodes, edges, c, raw, KnownOf(nodes, edges, c, raw));
  }

  lemma AllCovered(nodes: seq<Node>, edges: seq<Edge>, c: Clouds, raw: Node -> set<Address>, known: set<Address>)
    requires AllServed(nodes, edges, c, raw) && Gathers(known, nodes, edges, c, raw)
    ensures Covered(DefaultNetwork(c) + Resources(nodes, nodes, edges, c), known)
    ensures Covered(Variables(c), known) && Covered(Outputs(nodes, c), known)
  {
    DefaultsCovered(c, known);
    VariablesCovered(c, known);
    forall n | n in nodes
      ensures Covered(NodeBlocks(n, nodes, edges, c), known) && Covered(NodeOutputs(n, c), known)
    {
      ServedIsKnown(n, nodes, edges, c, raw, known);
      NodeCovered(n, nodes, edges, c, known);
    }
    FromNodes(nodes, edges, c, known);
    CoveredConcat(DefaultNetwork(c), Resources(nodes, nodes, edges, c), known);
  }

  lemma GcpVariablesCovered(known: set<Address>)
    ensures Covered(GcpVariables(), known)
  {
    forall b | b in GcpVariables() ensures b.Refs() == [] {
    }
  }

  lemma VariablesCovered(c: Clouds, known: set<Address>)
    ensures Covered(Variables(c), known)
  {
    var aws := if c.aws then [Declaration(Variable("aws_region"), [])] else [];
    var gcp := if c.gcp then GcpVariables() else [];
    var azure := if c.azure then [Declaration(Variable("azure_ssh_pub_key"), [])] else [];
    GcpVariablesCovered(known);
    CoveredConcat(aws, gcp, known);
    CoveredConcat(aws + gcp, azure, known);
  }

  lemma DefaultsCovered(c: Clouds, known: set<Address>)
    requires Addresses(DefaultNetwork(c)) <= known
    ensures Covered(DefaultNetwork(c), known)
  {
    if c.aws && c.awsLocal {
      DefaultKnown(c, known);
    }
  }

  lemma FromNodes(nodes: seq<Node>, edges: seq<Edge>, c: Clouds, known: set<Address>)
    requires forall n | n in nodes ::
             Covered(NodeBlocks(n, nodes, edges, c), known) && Covered(NodeOutputs(n, c), known)
    ensures Covered(Resources(nodes, nodes, edges, c), known) && Covered(Outputs(nodes, c), known)
  {
    forall b | b in Resources(nodes, nodes, edges, c) ensures forall a | a in b.Refs() :: a in known {
      ResourceOrigin(nodes, nodes, edges, c, b);
    }
    forall b | b in Outputs(nodes, c) ensures forall a | a in b.Refs() :: a in known {
      OutputOrigin(nodes, c, b);
    }
  }

  // ---------- If one is not, something dangles ----------

  ghost predicate OnlyResources(blocks: seq<Block>) {
    forall b | b in blocks && b.Declaration? :: b.address.Resource?
  }

  lemma OnlyResourcesConcat(a: seq<Block>, b: seq<Block>)
    requires OnlyResources(a) && OnlyResources(b)
    ensures OnlyResources(a + b)
  {
  }

  lemma AwsInstanceDeclaresResources(n: Node, nodes: seq<Node>, awsEnv: string)
    ensures OnlyResources(AwsInstance(n, nodes, awsEnv))
  {
    var (auto, subnet) := SubnetLine(n, nodes, awsEnv);
    assert OnlyResources(auto);
    OnlyResourcesConcat(auto, [Declaration(Resource("aws_instance", InstanceName(n)), subnet + GroupLine(nodes))]);
  }

  lemma InstanceDeclaresResources(n: Node, nodes: seq<Node>, c: Clouds)
    ensures OnlyResources(InstanceBlocks(n, nodes, c))
  {
    AwsInstanceDeclaresResources(n, nodes, c.awsEnv);
    var aws := if c.aws then AwsInstance(n, nodes, c.awsEnv) else [];
    var gcp := if c.gcp then GcpInstance() else [];
    var azure := if c.azure then AzureInstance() else [];
    assert OnlyResources(gcp) && OnlyResources(azure);
    OnlyResourcesConcat(aws, gcp);
    OnlyResourcesConcat(aws + gcp, azure);
  }

  lemma NodeDeclaresResources(n: Node, nodes: seq<Node>, edges: seq<Edge>, c: Clouds)
    ensures OnlyResources(NodeBlocks(n, nodes, edges, c))
  {
    if Emitted(n) && KindOf(n.id) == Instance {
      InstanceDeclaresResources(n, nodes, c);
    } else {
      assert OnlyResources(SubnetBlocks(n, nodes, edges));
      assert OnlyResources(GroupBlocks(n, nodes, edges));
    }
  }

  lemma ResourcesOnly(nodes: seq<Node>, edges: seq<Edge>, c: Clouds)
    ensures OnlyResources(Resources(nodes, nodes, edges, c))
  {
    forall b | b in Resources(nodes, nodes, edges, c) ensures b.Declaration? ==> b.address.Resource? {
      ResourceOrigin(nodes, nodes, edges, c, b);
      var n :| n in nodes && b in NodeBlocks(n, nodes, edges, c);
      NodeDeclaresResources(n, nodes, edges, c);
    }
  }

  lemma VariablesDeclareVariables(c: Clouds)
    ensures forall b | b in Variables(c) && b.Declaration? :: b.address.Variable?
  {
    assert forall b | b in GcpVariables() :: b.Declaration? ==> b.address.Variable?;
  }

  ghost predicate Undeclared(blocks: seq<Block>, a: Address) {
    forall b | b in blocks && b.Declaration? :: b.address != a
  }

  lemma NoDefaultNetwork(nodes: seq<Node>, edges: seq<Edge>, c: Clouds, a: Address)
    requires !c.awsLocal && a.Data?
    ensures Undeclared(DefaultNetwork(c) + Resources(nodes, nodes, edges, c), a) && Undeclared(Variables(c), a)
  {
    ResourcesOnly(nodes, edges, c);
    VariablesDeclareVariables(c);
    assert DefaultNetwork(c) + Resources(nodes, nodes, edges, c) == Resources(nodes, nodes, edges, c);
  }

  /** No block declares a resource of this kind. */
  ghost predicate Without(blocks: seq<Block>, kind: string) {
    forall b | b in blocks && b.Declaration? && b.address.Resource? :: b.address.kind != kind
  }

  lemma WithoutConcat(a: seq<Block>, b: seq<Block>, kind: string)
    requires Without(a, kind) && Without(b, kind)
    ensures Without(a + b, kind)
  {
  }

  /** The kind of resource, unless it is a data block. */
  function ResourceKind(w: Wanted): string {
    match w
    case AVpc(_) => "aws_vpc"
    case ATable(_) => "aws_route_table"
    case ASubnet(_) => "aws_subnet"
    case AGroup(_) => "aws_security_group"
    case ADefault(_) => ""
  }

  function OwnerOf(w: Wanted): Kind {
    match w
    case AVpc(_) => Vpc
    case ATable(_) => Vpc
    case ASubnet(_) => Subnet
    case AGroup(_) => SecurityGroup
    case ADefault(_) => Unknown
  }

  lemma AwsInstanceWithout(n: Node, nodes: seq<Node>, awsEnv: string, w: Wanted)
    requires !w.ADefault? && (w.ASubnet? ==> FirstOfKind(nodes, Subnet).Some?)
    ensures Without(AwsInstance(n, nodes, awsEnv), ResourceKind(w))
  {
    var (auto, subnet) := SubnetLine(n, nodes, awsEnv);
    assert Without(auto, ResourceKind(w));
    WithoutConcat(auto, [Declaration(Resource("aws_instance", InstanceName(n)), subnet + GroupLine(nodes))],
                  ResourceKind(w));
  }

  lemma OtherCloudsWithout(w: Wanted)
    requires !w.ADefault?
    ensures Without(GcpInstance(), ResourceKind(w)) && Without(AzureInstance(), ResourceKind(w))
  {
  }

  lemma InstanceWithout(n: Node, nodes: seq<Node>, c: Clouds, w: Wanted)
    requires !w.ADefault? && (w.ASubnet? ==> FirstOfKind(nodes, Subnet).Some?)
    ensures Without(InstanceBlocks(n, nodes, c), ResourceKind(w))
  {
    var aws := if c.aws then AwsInstance(n, nodes, c.awsEnv) else [];
    var gcp := if c.gcp then GcpInstance() else [];
    var azure := if c.azure then AzureInstance() else [];
    AwsInstanceWithout(n, nodes, c.awsEnv, w);
    OtherCloudsWithout(w);
    WithoutConcat(aws, gcp, ResourceKind(w));
    WithoutConcat(aws + gcp, azure, ResourceKind(w));
  }

  lemma NetworkBlocksWithout(n: Node, nodes: seq<Node>, edges: seq<Edge>, w: Wanted)
    requires !w.ADefault?
    ensures !w.AGroup? ==> Without(GroupBlocks(n, nodes, edges), ResourceKind(w))
    ensures !w.AVpc? && !w.ATable? ==> Without(VpcBlocks(VpcName(n)), ResourceKind(w))
    ensures !w.ASubnet? ==> Without(SubnetBlocks(n, nodes, edges), ResourceKind(w))
  {
  }

  /** Only nodes of the owning kind declare such resources, unless an instance makes its own subnet. */
  lemma OthersWithout(n: Node, nodes: seq<Node>, edges: seq<Edge>, c: Clouds, w: Wanted)
    requires !w.ADefault? && (w.ASubnet? ==> FirstOfKind(nodes, Subnet).Some?)
    requires !(Emitted(n) && KindOf(n.id) == OwnerOf(w))
    ensures Without(NodeBlocks(n, nodes, edges, c), ResourceKind(w))
  {
    if Emitted(n) {
      NetworkBlocksWithout(n, nodes, edges, w);
      if KindOf(n.id) == Instance {
        InstanceWithout(n, nodes, c, w);
      }
    }
  }

  lemma GroupOwnName(n: Node, nodes: seq<Node>, edges: seq<Edge>, name: string)
    requires GroupName(n) != name
    ensures Undeclared(GroupBlocks(n, nodes, edges), Resource("aws_security_group", name))
  {
  }

  lemma VpcOwnName(own: string, name: string)
    requires own != name
    ensures Undeclared(VpcBlocks(own), Resource("aws_vpc", name))
    ensures Undeclared(VpcBlocks(own), Resource("aws_route_table", name + "_rt"))
  {
    assert (own + "_rt")[..|own|] == own && (name + "_rt")[..|name|] == name;
  }

  lemma SubnetOwnName(n: Node, nodes: seq<Node>, edges: seq<Edge>, name: string)
    requires SubnetName(n) != name
    ensures Undeclared(SubnetBlocks(n, nodes, edges), Resource("aws_subnet", name))
  {
  }

  lemma OwnNameOnly(n: Node, nodes: seq<Node>, edges: seq<Edge>, c: Clouds, w: Wanted)
    requires Emitted(n) && !w.ADefault? && KindOf(n.id) == OwnerOf(w) && !Owns(n, w)
    ensures Undeclared(NodeBlocks(n, nodes, edges, c), AddressOf(w))
  {
    match w
    case AVpc(name) => VpcOwnName(VpcName(n), name);
    case ATable(name) => VpcOwnName(VpcName(n), name);
    case ASubnet(name) => SubnetOwnName(n, nodes, edges, name);
    case AGroup(name) => GroupOwnName(n, nodes, edges, name);
  }

  /** Blocks the compiler writes declare it only for an emitted node of that kind and name. */
  lemma NotEmittedNotDeclared(nodes: seq<Node>, edges: seq<Edge>, c: Clouds, w: Wanted)
    requires !w.ADefault? && (w.ASubnet? ==> FirstOfKind(nodes, Subnet).Some?) && !Emits(nodes, w)
    ensures Undeclared(Resources(nodes, nodes, edges, c), AddressOf(w))
  {
    forall b | b in Resources(nodes, nodes, edges, c) ensures b.Declaration? ==> b.address != AddressOf(w) {
      ResourceOrigin(nodes, nodes, edges, c, b);
      var n :| n in nodes && b in NodeBlocks(n, nodes, edges, c);
      if Emitted(n) && KindOf(n.id) == OwnerOf(w) {
        OwnNameOnly(n, nodes, edges, c, w);
      } else {
        OthersWithout(n, nodes, edges, c, w);
      }
    }
  }

  lemma NotInOtherFiles(nodes: seq<Node>, edges: seq<Edge>, c: Clouds, a: Address)
    requires a.Resource? && Undeclared(Resources(nodes, nodes, edges, c), a)
    ensures Undeclared(DefaultNetwork(c) + Resources(nodes, nodes, edges, c), a) && Undeclared(Variables(c), a)
  {
    VariablesDeclareVariables(c);
    assert Undeclared(DefaultNetwork(c), a);
  }

  lemma NotOfferedNotKnown(nodes: seq<Node>, edges: seq<Edge>, c: Clouds, raw: Node -> set<Address>, w: Wanted)
    requires !Offers(nodes, c, raw, w) && (w.ASubnet? ==> FirstOfKind(nodes, Subnet).Some?)
    ensures AddressOf(w) !in KnownOf(nodes, edges, c, raw)
  {
    RawIsInMain(nodes, edges, c, raw, AddressOf(w));
    if w.ADefault? {
      NoDefaultNetwork(nodes, edges, c, AddressOf(w));
    } else {
      NotEmittedNotDeclared(nodes, edges, c, w);
      NotInOtherFiles(nodes, edges, c, AddressOf(w));
    }
  }

  lemma GroupRefers(n: Node, nodes: seq<Node>, edges: seq<Edge>, c: Clouds, w: Wanted) returns (b: Block)
    requires Emitted(n) && KindOf(n.id) == SecurityGroup && c.aws && w in GroupWants(VpcFor(nodes, edges, n.id))
    ensures b in NodeBlocks(n, nodes, edges, c) && AddressOf(w) in b.Refs()
  {
    b := Declaration(Resource("aws_security_group", GroupName(n)), [AddressOf(w)]);
    assert NodeBlocks(n, nodes, edges, c) == [b];
  }

  lemma SubnetRefers(n: Node, nodes: seq<Node>, edges: seq<Edge>, c: Clouds, w: Wanted) returns (b: Block)
    requires Emitted(n) && KindOf(n.id) == Subnet && c.aws && w in SubnetWants(VpcFor(nodes, edges, n.id))
    ensures b in NodeBlocks(n, nodes, edges, c) && AddressOf(w) in b.Refs()
  {
    var blocks := SubnetBlocks(n, nodes, edges);
    b := blocks[if w.ATable? then 1 else 0];
    assert NodeBlocks(n, nodes, edges, c) == blocks;
    assert AddressOf(w) == b.Refs()[if w.ATable? then 1 else 0];
  }

  lemma AwsIsEmitted(n: Node, nodes: seq<Node>, edges: seq<Edge>, c: Clouds, b: Block)
    requires Emitted(n) && KindOf(n.id) == Instance && c.aws && b in AwsInstance(n, nodes, c.awsEnv)
    ensures b in NodeBlocks(n, nodes, edges, c)
  {
    assert NodeBlocks(n, nodes, edges, c) == InstanceBlocks(n, nodes, c);
  }

  /** The instance's own block, and what comes before it. */
  lemma InstanceRefs(n: Node, nodes: seq<Node>, awsEnv: string, a: Address) returns (b: Block)
    requires a in SubnetLine(n, nodes, awsEnv).1 || a in GroupLine(nodes)
    ensures b in AwsInstance(n, nodes, awsEnv) && a in b.Refs()
  {
    var (auto, subnet) := SubnetLine(n, nodes, awsEnv);
    b := Declaration(Resource("aws_instance", InstanceName(n)), subnet + GroupLine(nodes));
    assert (auto + [b])[|auto|] == b;
  }

  /** A subnet the instance makes refers to the VPC, and its association to the VPC's route table. */
  lemma MadeSubnetRefers(n: Node, nodes: seq<Node>, awsEnv: string, w: Wanted) returns (b: Block)
    requires Bare(n) && MakesSubnet(nodes) && w in BareWants(nodes, awsEnv)
    ensures b in AwsInstance(n, nodes, awsEnv) && AddressOf(w) in b.Refs()
  {
    var auto := AutoSubnet(VpcName(FirstOfKind(nodes, Vpc).value));
    var i := if w.ATable? then 1 else 0;
    b := auto[i];
    assert SubnetLine(n, nodes, awsEnv).0 == auto && AwsInstance(n, nodes, awsEnv)[i] == b;
    assert AddressOf(w) == b.Refs()[i];
  }

  lemma BareRefers(n: Node, nodes: seq<Node>, awsEnv: string, w: Wanted) returns (b: Block)
    requires Bare(n) && w in BareWants(nodes, awsEnv)
    ensures b in AwsInstance(n, nodes, awsEnv) && AddressOf(w) in b.Refs()
  {
    if MakesSubnet(nodes) {
      b := MadeSubnetRefers(n, nodes, awsEnv, w);
    } else {
      assert SubnetLine(n, nodes, awsEnv) == ([], [AddressOf(w)]);
      b := InstanceRefs(n, nodes, awsEnv, AddressOf(w));
    }
  }

  lemma InstanceRefers(n: Node, nodes: seq<Node>, edges: seq<Edge>, c: Clouds, w: Wanted) returns (b: Block)
    requires Emitted(n) && KindOf(n.id) == Instance && w in Wants(n, nodes, edges, c)
    ensures b in NodeBlocks(n, nodes, edges, c) && AddressOf(w) in b.Refs()
  {
    if w in FirstGroupWanted(nodes) {
      assert GroupLine(nodes) == [AddressOf(w)];
      b := InstanceRefs(n, nodes, c.awsEnv, AddressOf(w));
    } else {
      b := BareRefers(n, nodes, c.awsEnv, w);
    }
    AwsIsEmitted(n, nodes, edges, c, b);
  }

  /** Whatever a node wants, one of its blocks refers to. */
  lemma WantedIsReferred(n: Node, nodes: seq<Node>, edges: seq<Edge>, c: Clouds, w: Wanted) returns (b: Block)
    requires w in Wants(n, nodes, edges, c)
    ensures b in NodeBlocks(n, nodes, edges, c) && AddressOf(w) in b.Refs()
  {
    match KindOf(n.id) {
      case Instance => b := InstanceRefers(n, nodes, edges, c, w);
      case SecurityGroup => b := GroupRefers(n, nodes, edges, c, w);
      case Subnet => b := SubnetRefers(n, nodes, edges, c, w);
    }
  }

  lemma DanglesWhenNotServed(nodes: seq<Node>, edges: seq<Edge>, raw: Node -> set<Address>, n: Node, w: Wanted)
    requires n in nodes && w in Wants(n, nodes, edges, CloudsOf(nodes)) && !Offers(nodes, CloudsOf(nodes), raw, w)
    ensures !Closed(Compiled(nodes, edges), raw)
  {
    var c := CloudsOf(nodes);
    WantedKinds(n, nodes, edges, c, w);
    var b := WantedIsReferred(n, nodes, edges, c, w);
    ResourcesHold(nodes, nodes, edges, c, n, b);
    NotOfferedNotKnown(nodes, edges, c, raw, w);
    assert b in Compiled(nodes, edges).main;
  }

  /** On every canvas, and whatever the text of its custom nodes declares: the references the compiler
      writes are all to declared blocks exactly when the canvas provides whatever its searches find. */
  lemma ClosedExactlyWhenServed(nodes: seq<Node>, edges: seq<Edge>, raw: Node -> set<Address>)
    ensures Closed(Compiled(nodes, edges), raw) <==> AllServed(nodes, edges, CloudsOf(nodes), raw)
  {
    var c := CloudsOf(nodes);
    if AllServed(nodes, edges, c, raw) {
      ClosedWhenServed(nodes, edges, raw);
    } else {
      var n, w :| n in nodes && w in Wants(n, nodes, edges, c) && !Offers(nodes, c, raw, w);
      DanglesWhenNotServed(nodes, edges, raw, n, w);
    }
  }

  // ---------- Canvases whose network nodes are all emitted ----------

  /** Network nodes that a search may find are ones the compiler also emits. */
  ghost predicate NetworkNodesEmitted(nodes: seq<Node>) {
    forall n | n in nodes && KindOf(n.id) in {SecurityGroup, Vpc, Subnet} :: Emitted(n)
  }

  ghost predicate HasKind(nodes: seq<Node>, k: Kind) {
    exists n | n in nodes :: KindOf(n.id) == k
  }

  ghost predicate HasBare(nodes: seq<Node>) {
    exists n | n in nodes :: Bare(n)
  }

  /** Without a VPC, subnets lean on the account's default VPC, and instances without one on its subnets. */
  ghost predicate NetworkFound(nodes: seq<Node>, c: Clouds, raw: Node -> set<Address>) {
    || !c.aws
    || HasKind(nodes, Vpc)
    || if HasKind(nodes, Subnet) then Offers(nodes, c, raw, ADefault("aws_vpc"))
       else c.awsEnv == "localstack" && HasBare(nodes) ==> Offers(nodes, c, raw, ADefault("aws_subnets"))
  }

  lemma WantedIsEmitted(nodes: seq<Node>, edges: seq<Edge>, c: Clouds, n: Node, w: Wanted)
    requires NetworkNodesEmitted(nodes) && n in nodes && w in Wants(n, nodes, edges, c) && !w.ADefault?
    ensures Emits(nodes, w)
  {
    match w
    case AVpc(_) => FoundVpcEmitted(nodes, edges, c, n, w);
    case ATable(_) => FoundVpcEmitted(nodes, edges, c, n, w);
    case ASubnet(_) => assert Owns(FirstOfKind(nodes, Subnet).value, w);
    case AGroup(_) => assert Owns(FirstOfKind(nodes, SecurityGroup).value, w);
  }

  lemma FoundVpcEmitted(nodes: seq<Node>, edges: seq<Edge>, c: Clouds, n: Node, w: Wanted)
    requires NetworkNodesEmitted(nodes) && w in Wants(n, nodes, edges, c) && (w.AVpc? || w.ATable?)
    ensures Emits(nodes, w)
  {
    var v := if KindOf(n.id) == Instance then FirstOfKind(nodes, Vpc) else VpcFor(nodes, edges, n.id);
    assert Owns(v.value, w);
  }

  lemma ServedWhenNetworkFound(nodes: seq<Node>, edges: seq<Edge>, c: Clouds, raw: Node -> set<Address>,
                               n: Node, w: Wanted)
    requires NetworkNodesEmitted(nodes) && NetworkFound(nodes, c, raw)
    requires n in nodes && w in Wants(n, nodes, edges, c)
    ensures Offers(nodes, c, raw, w)
  {
    if w.ADefault? {
      assert KindOf(n.id) == Subnet ==> HasKind(nodes, Subnet);
      assert Bare(n) ==> HasBare(nodes);
    } else {
      WantedIsEmitted(nodes, edges, c, n, w);
    }
  }

  lemma NetworkFoundWhenServed(nodes: seq<Node>, edges: seq<Edge>, c: Clouds, raw: Node -> set<Address>)
    requires NetworkNodesEmitted(nodes) && AllServed(nodes, edges, c, raw)
    ensures NetworkFound(nodes, c, raw)
  {
    if c.aws && !HasKind(nodes, Vpc) {
      if HasKind(nodes, Subnet) {
        var n :| n in nodes && KindOf(n.id) == Subnet;
        assert ADefault("aws_vpc") in Wants(n, nodes, edges, c);
      } else if HasBare(nodes) && c.awsEnv == "localstack" {
        var n :| n in nodes && Bare(n);
        assert BareWants(nodes, c.awsEnv) == [ADefault("aws_subnets")];
        assert ADefault("aws_subnets") in Wants(n, nodes, edges, c);
      }
    }
  }

  lemma ClosedWhenNetworkFound(nodes: seq<Node>, edges: seq<Edge>, raw: Node -> set<Address>)
    requires NetworkNodesEmitted(nodes) && NetworkFound(nodes, CloudsOf(nodes), raw)
    ensures Closed(Compiled(nodes, edges), raw)
  {
    var c := CloudsOf(nodes);
    forall n, w | n in nodes && w in Wants(n, nodes, edges, c) ensures Offers(nodes, c, raw, w) {
      ServedWhenNetworkFound(nodes, edges, c, raw, n, w);
    }
    ClosedWhenServed(nodes, edges, raw);
  }

  lemma DanglesWhenNetworkMissing(nodes: seq<Node>, edges: seq<Edge>, raw: Node -> set<Address>)
    requires NetworkNodesEmitted(nodes) && !NetworkFound(nodes, CloudsOf(nodes), raw)
    ensures !Closed(Compiled(nodes, edges), raw)
  {
    if AllServed(nodes, edges, CloudsOf(nodes), raw) {
      NetworkFoundWhenServed(nodes, edges, CloudsOf(nodes), raw);
    }
    ClosedExactlyWhenServed(nodes, edges, raw);
  }

  /** On a canvas whose network nodes are plain Terraform nodes, the files are closed under reference
      exactly when the network is found. */
  lemma ClosedExactlyWhen(nodes: seq<Node>, edges: seq<Edge>, raw: Node -> set<Address>)
    requires NetworkNodesEmitted(nodes)
    ensures Closed(Compiled(nodes, edges), raw) <==> NetworkFound(nodes, CloudsOf(nodes), raw)
  {
    if NetworkFound(nodes, CloudsOf(nodes), raw) {
      ClosedWhenNetworkFound(nodes, edges, raw);
    } else {
      DanglesWhenNetworkMissing(nodes, edges, raw);
    }
  }

  // ---------- Network nodes that are found but not emitted ----------

  /** An instance's search finds a custom subnet node: unless an emitted subnet shares its name, or some
      custom text declares that subnet, the reference dangles. */
  lemma CustomSubnetDangles(nodes: seq<Node>, edges: seq<Edge>, raw: Node -> set<Address>, n: Node, s: Node)
    requires CloudsOf(nodes).aws && n in nodes && Bare(n) && FirstOfKind(nodes, Subnet) == Some(s)
    requires !Offers(nodes, CloudsOf(nodes), raw, ASubnet(SubnetName(s)))
    ensures !Closed(Compiled(nodes, edges), raw)
  {
    var w := ASubnet(SubnetName(s));
    assert BareWants(nodes, CloudsOf(nodes).awsEnv) == [w];
    DanglesWhenNotServed(nodes, edges, raw, n, w);
  }

  lemma PairSearches(n: Node, s: Node, c: Clouds)
    requires Bare(n) && s.custom && KindOf(s.id) == Subnet && c.aws
    ensures Wants(n, [n, s], [], c) == [ASubnet(SubnetName(s))] && Wants(s, [n, s], [], c) == []
  {
    assert [n, s][1..] == [s];
    assert FirstOfKind([n, s], Subnet) == Some(s) && FirstOfKind([n, s], SecurityGroup) == None;
  }

  lemma PairOffers(n: Node, s: Node, c: Clouds, raw: Node -> set<Address>)
    requires Bare(n) && s.tech == "Terraform" && s.custom
    ensures Offers([n, s], c, raw, ASubnet(SubnetName(s))) <==> Resource("aws_subnet", SubnetName(s)) in raw(s)
  {
    assert s in [n, s];
  }

  /** On the smallest such canvas it depends on the custom text alone. */
  lemma CustomSubnetAnswers(n: Node, s: Node, raw: Node -> set<Address>)
    requires Bare(n) && s.tech == "Terraform" && s.custom && KindOf(s.id) == Subnet && CloudsOf([n, s]).aws
    ensures Closed(Compiled([n, s], []), raw) <==> Resource("aws_subnet", SubnetName(s)) in raw(s)
  {
    var nodes, c := [n, s], CloudsOf([n, s]);
    ClosedExactlyWhenServed(nodes, [], raw);
    PairSearches(n, s, c);
    PairOffers(n, s, c, raw);
    assert n in nodes && ASubnet(SubnetName(s)) in Wants(n, nodes, [], c);
  }

  /** The same for the first security group of the canvas. */
  lemma CustomGroupDangles(nodes: seq<Node>, edges: seq<Edge>, raw: Node -> set<Address>, n: Node, g: Node)
    requires CloudsOf(nodes).aws && n in nodes && Emitted(n) && KindOf(n.id) == Instance
    requires FirstOfKind(nodes, SecurityGroup) == Some(g)
    requires !Offers(nodes, CloudsOf(nodes), raw, AGroup(GroupName(g)))
    ensures !Closed(Compiled(nodes, edges), raw)
  {
    var w := AGroup(GroupName(g));
    assert FirstGroupWanted(nodes) == [w];
    DanglesWhenNotServed(nodes, edges, raw, n, w);
  }

  /** The same for the VPC that a subnet or a security group finds, by edge or first on the canvas. */
  lemma CustomVpcDangles(nodes: seq<Node>, edges: seq<Edge>, raw: Node -> set<Address>, n: Node, v: Node)
    requires CloudsOf(nodes).aws && n in nodes && Emitted(n) && KindOf(n.id) in {Subnet, SecurityGroup}
    requires VpcFor(nodes, edges, n.id) == Some(v) && !Offers(nodes, CloudsOf(nodes), raw, AVpc(VpcName(v)))
    ensures !Closed(Compiled(nodes, edges), raw)
  {
    DanglesWhenNotServed(nodes, edges, raw, n, AVpc(VpcName(v)));
  }

  /** A custom VPC whose text declares the VPC alone still leaves its subnets' associations dangling:
      they refer to a route table named after it. */
  lemma CustomVpcTableDangles(nodes: seq<Node>, edges: seq<Edge>, raw: Node -> set<Address>, n: Node, v: Node)
    requires CloudsOf(nodes).aws && n in nodes && Emitted(n) && KindOf(n.id) == Subnet
    requires VpcFor(nodes, edges, n.id) == Some(v) && VpcName(v) != ""
    requires !Offers(nodes, CloudsOf(nodes), raw, ATable(VpcName(v)))
    ensures !Closed(Compiled(nodes, edges), raw)
  {
    DanglesWhenNotServed(nodes, edges, raw, n, ATable(VpcName(v)));
  }
}
