/** The parsers of the infrastructure-as-code visualiser
 *  (`src/apps/iac-visualizer.ts`): the node-type tables, the Terraform reader
 *  (resource blocks, their properties and their references to other
 *  resources), the Kubernetes reader (documents, kinds and the implied
 *  Service and Ingress links), the format detector and the entry point. The
 *  regular-expression engine is not modelled: each reader takes what its
 *  patterns match, in match order; the format detector's patterns are
 *  stated on the text itself. */
module IacVisualizer {
  import opened Wrappers
  import opened Text

  datatype NodeType = Aws | K8s | Network | Storage | Compute | Service | Ingress | ConfigMap | Secret | Pvc

  datatype Format = Terraform | Kubernetes | UnknownFormat

  /** A property value: the Terraform readers keep strings, the replica
   *  count of a Kubernetes document is a number. */
  datatype Value = Str(s: string) | Num(n: nat)

  /** The entries of a properties object in insertion order; assigning an
   *  existing key replaces the value in its place. */
  type Props = seq<(string, Value)>

  /** `IaCNode` without the layout fields. */
  datatype Node = Node(id: string, kind: NodeType, name: string, resourceType: string,
                       properties: Props, connections: seq<string>)

  datatype Parsed = Parsed(nodes: seq<Node>, format: Format, errors: seq<string>)

  // ---------------------------------------------------------------------------
  // getNodeType and getK8sNodeType

  const TerraformTypes: map<string, NodeType> := map[
    "aws_instance" := Compute, "aws_ec2_instance" := Compute, "aws_lambda_function" := Compute,
    "aws_ecs_service" := Compute, "aws_ecs_cluster" := Compute,
    "aws_s3_bucket" := Storage, "aws_ebs_volume" := Storage, "aws_rds_instance" := Storage,
    "aws_dynamodb_table" := Storage,
    "aws_vpc" := Network, "aws_subnet" := Network, "aws_security_group" := Network,
    "aws_internet_gateway" := Network, "aws_nat_gateway" := Network, "aws_route_table" := Network,
    "aws_lb" := Network, "aws_alb" := Network, "aws_elb" := Network,
    "google_compute_instance" := Compute, "google_storage_bucket" := Storage,
    "google_compute_network" := Network,
    "azurerm_virtual_machine" := Compute, "azurerm_storage_account" := Storage,
    "azurerm_virtual_network" := Network]

  const KubernetesKinds: map<string, NodeType> := map[
    "Deployment" := Compute, "Pod" := Compute, "ReplicaSet" := Compute, "StatefulSet" := Compute,
    "DaemonSet" := Compute, "Job" := Compute, "CronJob" := Compute,
    "Service" := Service, "Ingress" := Ingress,
    "ConfigMap" := ConfigMap, "Secret" := Secret,
    "PersistentVolumeClaim" := Pvc, "PersistentVolume" := Storage,
    "Namespace" := Network, "NetworkPolicy" := Network]

  function GetNodeType(resourceType: string): NodeType
  {
    if resourceType in TerraformTypes then TerraformTypes[resourceType] else Aws
  }

  function GetK8sNodeType(kind: string): NodeType
  {
    if kind in KubernetesKinds then KubernetesKinds[kind] else K8s
  }

  /** The Terraform table only yields compute, storage and network, so a
   *  node is "aws" exactly when its type is not in the table, whichever
   *  provider it comes from. */
  lemma NodeTypeDefault(resourceType: string)
    ensures GetNodeType(resourceType) in {Compute, Storage, Network, Aws}
    ensures GetNodeType(resourceType) == Aws <==> resourceType !in TerraformTypes
  {
  }

  /** The Kubernetes table never yields "k8s" or "aws", so a node is "k8s"
   *  exactly when its kind is not in the table; only a Service is a
   *  service and only an Ingress an ingress. */
  lemma K8sNodeTypeDefault(kind: string)
    ensures GetK8sNodeType(kind) != Aws
    ensures GetK8sNodeType(kind) == K8s <==> kind !in KubernetesKinds
    ensures GetK8sNodeType(kind) == Service <==> kind == "Service"
    ensures GetK8sNodeType(kind) == Ingress <==> kind == "Ingress"
  {
  }

  // ---------------------------------------------------------------------------
  // Properties objects

  function GetProp(ps: Props, k: string): Option<Value>
  {
    if ps == [] then None
    else if ps[0].0 == k then Some(ps[0].1)
    else GetProp(ps[1..], k)
  }

  /** `props[k] = v`. */
  function PutProp(ps: Props, k: string, v: Value): (r: Props)
    ensures |r| == |ps| || |r| == |ps| + 1
  {
    if ps == [] then [(k, v)]
    else if ps[0].0 == k then [(k, v)] + ps[1..]
    else [ps[0]] + PutProp(ps[1..], k, v)
  }

  /** After `props[k] = v`, `k` reads `v` and every other key is unchanged. */
  lemma {:induction false} GetPutProp(ps: Props, k: string, v: Value, k': string)
    ensures GetProp(PutProp(ps, k, v), k') == if k' == k then Some(v) else GetProp(ps, k')
  {
    if ps != [] && ps[0].0 != k {
      GetPutProp(ps[1..], k, v, k');
    }
  }

  /** The assignments of a `while (match = re.exec(body))` loop, in order. */
  function PutAll(ps: Props, pairs: seq<(string, string)>): Props
  {
    if pairs == [] then ps
    else
      var last := pairs[|pairs| - 1];
      PutProp(PutAll(ps, pairs[..|pairs| - 1]), last.0, Str(last.1))
  }

  /** The value of the last pair with key `k`. */
  function LastFor(pairs: seq<(string, string)>, k: string): Option<string>
  {
    if pairs == [] then None
    else if pairs[|pairs| - 1].0 == k then Some(pairs[|pairs| - 1].1)
    else LastFor(pairs[..|pairs| - 1], k)
  }

  /** The last assignment to a key wins; keys never assigned keep their
   *  value. */
  lemma {:induction false} GetPutAll(ps: Props, pairs: seq<(string, string)>, k: string)
    ensures GetProp(PutAll(ps, pairs), k) ==
      match LastFor(pairs, k) case Some(v) => Some(Str(v)) case None => GetProp(ps, k)
  {
    if pairs != [] {
      var init, last := pairs[..|pairs| - 1], pairs[|pairs| - 1];
      GetPutAll(ps, init, k);
      GetPutProp(PutAll(ps, init), last.0, Str(last.1), k);
    }
  }

  /** `parseProperties`: first every `key = "value"` match, then every
   *  `key = a.b…` reference match. */
  function Properties(quoted: seq<(string, string)>, refs: seq<(string, string)>): Props
  {
    PutAll(PutAll([], quoted), refs)
  }

  method ParseProperties(quoted: seq<(string, string)>, refs: seq<(string, string)>) returns (props: Props)
    ensures props == Properties(quoted, refs)
  {
    props := [];
    var i := 0;
    while i < |quoted|
      invariant 0 <= i <= |quoted|
      invariant props == PutAll([], quoted[..i])
    {
      assert quoted[..i + 1][..i] == quoted[..i];
      props := PutProp(props, quoted[i].0, Str(quoted[i].1));
      i := i + 1;
    }
    assert quoted[..i] == quoted;
    i := 0;
    while i < |refs|
      invariant 0 <= i <= |refs|
      invariant props == PutAll(PutAll([], quoted), refs[..i])
    {
      assert refs[..i + 1][..i] == refs[..i];
      props := PutProp(props, refs[i].0, Str(refs[i].1));
      i := i + 1;
    }
    assert refs[..i] == refs;
  }

  /** A reference assignment overrides a quoted one for the same key. */
  lemma ReferencesOverride(quoted: seq<(string, string)>, refs: seq<(string, string)>, k: string)
    ensures GetProp(Properties(quoted, refs), k) ==
      if LastFor(refs, k).Some? then Some(Str(LastFor(refs, k).value))
      else if LastFor(quoted, k).Some? then Some(Str(LastFor(quoted, k).value))
      else None
  {
    GetPutAll(PutAll([], quoted), refs, k);
    GetPutAll([], quoted, k);
  }

  // ---------------------------------------------------------------------------
  // findConnections

  datatype Provider = AwsProvider | GoogleProvider | AzurermProvider

  function ProviderPrefix(p: Provider): string
  {
    match p
    case AwsProvider => "aws_"
    case GoogleProvider => "google_"
    case AzurermProvider => "azurerm_"
  }

  /** A match of the reference pattern: a provider prefix, the rest of the
   *  resource type and the resource name. Neither part holds a ".", so
   *  `match[0].split('.')[0]` is the type. */
  datatype RefMatch = RefMatch(provider: Provider, rest: string, name: string)

  function FullRef(m: RefMatch): string
  {
    ProviderPrefix(m.provider) + m.rest + "." + m.name
  }

  /** The references of a block, each once, in order of first appearance. */
  function Dedup(ms: seq<RefMatch>): (r: seq<string>)
  {
    if ms == [] then []
    else
      var r := Dedup(ms[..|ms| - 1]);
      var ref := FullRef(ms[|ms| - 1]);
      if ref in r then r else r + [ref]
  }

  /** `findConnections`. */
  method FindConnections(ms: seq<RefMatch>) returns (connections: seq<string>)
    ensures connections == Dedup(ms)
  {
    connections := [];
    var i := 0;
    while i < |ms|
      invariant 0 <= i <= |ms|
      invariant connections == Dedup(ms[..i])
    {
      assert ms[..i + 1][..i] == ms[..i];
      var fullRef := ProviderPrefix(ms[i].provider) + ms[i].rest + "." + ms[i].name;
      if fullRef !in connections {
        connections := connections + [fullRef];
      }
      i := i + 1;
    }
    assert ms[..i] == ms;
  }

  predicate Distinct(r: seq<string>)
  {
    forall i, j :: 0 <= i < j < |r| ==> r[i] != r[j]
  }

  /** The connection list holds no reference twice. */
  lemma {:induction false} DedupDistinct(ms: seq<RefMatch>)
    ensures Distinct(Dedup(ms))
  {
    if ms != [] {
      var r := Dedup(ms[..|ms| - 1]);
      DedupDistinct(ms[..|ms| - 1]);
      var ref := FullRef(ms[|ms| - 1]);
      if ref !in r {
        var r' := r + [ref];
        assert Dedup(ms) == r';
        forall i, j | 0 <= i < j < |r'|
          ensures r'[i] != r'[j]
        {
          assert r'[i] == r[i] && r[i] in r;
          if j < |r| {
            assert r'[j] == r[j];
          }
        }
      } else {
        assert Dedup(ms) == r;
      }
    }
  }

  /** The connection list holds exactly the matched references. */
  lemma {:induction false} DedupMembers(ms: seq<RefMatch>, x: string)
    ensures x in Dedup(ms) <==> exists k :: 0 <= k < |ms| && FullRef(ms[k]) == x
  {
    if ms != [] {
      var init := ms[..|ms| - 1];
      DedupMembers(init, x);
      if exists k :: 0 <= k < |ms| && FullRef(ms[k]) == x {
        var k :| 0 <= k < |ms| && FullRef(ms[k]) == x;
        if k < |init| {
          assert FullRef(init[k]) == x;
        }
      }
      if exists k :: 0 <= k < |init| && FullRef(init[k]) == x {
        var k :| 0 <= k < |init| && FullRef(init[k]) == x;
        assert FullRef(ms[k]) == x;
      }
    }
  }

  /** A matched reference starts with its provider's prefix. */
  lemma FullRefPrefix(m: RefMatch)
    ensures StartsWith(FullRef(m), ProviderPrefix(m.provider))
  {
    assert FullRef(m)[..|ProviderPrefix(m.provider)|] == ProviderPrefix(m.provider);
  }

  /** Every connection is "type.name" with an aws_, google_ or azurerm_
   *  type. */
  lemma DedupProviders(ms: seq<RefMatch>, x: string)
    requires x in Dedup(ms)
    ensures StartsWith(x, "aws_") || StartsWith(x, "google_") || StartsWith(x, "azurerm_")
  {
    DedupMembers(ms, x);
    var k :| 0 <= k < |ms| && FullRef(ms[k]) == x;
    var m := ms[k];
    FullRefPrefix(m);
    assert StartsWith(x, ProviderPrefix(m.provider));
  }

  /** Later matches never reorder earlier ones: the connections of a prefix
   *  of the matches are a prefix of the connections. */
  lemma {:induction false} DedupFirstSeenOrder(ms: seq<RefMatch>, n: nat)
    requires n <= |ms|
    ensures Dedup(ms[..n]) <= Dedup(ms)
    decreases |ms| - n
  {
    if n < |ms| {
      DedupFirstSeenOrder(ms, n + 1);
      assert ms[..n + 1][..n] == ms[..n];
    } else {
      assert ms[..n] == ms;
    }
  }

  // ---------------------------------------------------------------------------
  // parseTerraform

  /** A match of the resource-block pattern with what the property and
   *  reference patterns find in its body. */
  datatype Block = Block(resourceType: string, name: string,
                         quoted: seq<(string, string)>, refs: seq<(string, string)>, conns: seq<RefMatch>)

  const NoTerraform: string := "No valid Terraform resources found."
  const NoKubernetes: string := "No valid Kubernetes resources found."

  function TerraformNode(b: Block): Node
  {
    Node(b.resourceType + "." + b.name, GetNodeType(b.resourceType), b.name, b.resourceType,
         Properties(b.quoted, b.refs), Dedup(b.conns))
  }

  function TerraformNodes(bs: seq<Block>): (r: seq<Node>)
    ensures |r| == |bs|
    ensures forall i :: 0 <= i < |bs| ==> r[i] == TerraformNode(bs[i])
  {
    if bs == [] then [] else TerraformNodes(bs[..|bs| - 1]) + [TerraformNode(bs[|bs| - 1])]
  }

  /** `code.trim().length > 0`. */
  predicate NotBlank(code: string)
  {
    Trim(code) != ""
  }

  function TerraformParsed(code: string, bs: seq<Block>): Parsed
  {
    var nodes := TerraformNodes(bs);
    Parsed(nodes, Terraform, if nodes == [] && NotBlank(code) then [NoTerraform] else [])
  }

  /** `parseTerraform`. */
  method ParseTerraform(code: string, bs: seq<Block>) returns (p: Parsed)
    ensures p == TerraformParsed(code, bs)
  {
    var nodes: seq<Node> := [];
    var i := 0;
    while i < |bs|
      invariant 0 <= i <= |bs|
      invariant nodes == TerraformNodes(bs[..i])
    {
      assert bs[..i + 1][..i] == bs[..i];
      var b := bs[i];
      var props := ParseProperties(b.quoted, b.refs);
      var conns := FindConnections(b.conns);
      nodes := nodes + [Node(b.resourceType + "." + b.name, GetNodeType(b.resourceType), b.name, b.resourceType, props, conns)];
      i := i + 1;
    }
    assert bs[..i] == bs;
    p := Parsed(nodes, Terraform, if nodes == [] && Trim(code) != "" then [NoTerraform] else []);
  }

  /** Each resource block becomes one node "type.name", in order, and the
   *  error is reported exactly when there is no block in a non-blank text. */
  lemma TerraformShape(code: string, bs: seq<Block>)
    ensures var p := TerraformParsed(code, bs);
      |p.nodes| == |bs|
      && (forall i :: 0 <= i < |bs| ==>
            (p.nodes[i].id == bs[i].resourceType + "." + bs[i].name
             && p.nodes[i].kind == GetNodeType(bs[i].resourceType)))
      && (p.errors != [] <==> bs == [] && NotBlank(code))
  {
  }

  // ---------------------------------------------------------------------------
  // parseKubernetes

  /** A non-blank document between "---" lines, with what its `kind:`,
   *  `name:`, `replicas:` and `namespace:` patterns capture (the first
   *  occurrence of each); `replicas` holds the captured digits' value. */
  datatype Doc = Doc(kind: Option<string>, name: Option<string>, replicas: Option<nat>, namespace: Option<string>)

  function DocProps(d: Doc): Props
  {
    (if d.namespace.Some? then [("namespace", Str(d.namespace.value))] else [])
    + (if d.replicas.Some? then [("replicas", Num(d.replicas.value))] else [])
  }

  /** The nodes of the documents with both a kind and a name, before the
   *  links are added. */
  function K8sNodes(docs: seq<Doc>): (r: seq<Node>)
    ensures |r| <= |docs|
    ensures forall i :: 0 <= i < |r| ==> r[i].connections == []
  {
    if docs == [] then []
    else
      var d := docs[|docs| - 1];
      K8sNodes(docs[..|docs| - 1])
      + if d.kind.Some? && d.name.Some? then
          [Node(d.kind.value + "/" + d.name.value, GetK8sNodeType(d.kind.value), d.name.value,
                d.kind.value, DocProps(d), [])]
        else []
  }

  /** `nodes.find(n => n.resourceType === kind)`. */
  function FindKind(nodes: seq<Node>, kind: string): (r: Option<Node>)
    ensures r.Some? ==> r.value in nodes && r.value.resourceType == kind
    ensures r.None? ==> forall i :: 0 <= i < |nodes| ==> nodes[i].resourceType != kind
  {
    if nodes == [] then None
    else if nodes[0].resourceType == kind then Some(nodes[0])
    else FindKind(nodes[1..], kind)
  }

  /** The links the second pass gives a node: a Service gets the first
   *  Deployment, an Ingress the first Service. */
  function ImpliedLinks(nodes: seq<Node>, n: Node): seq<string>
  {
    var dep, svc := FindKind(nodes, "Deployment"), FindKind(nodes, "Service");
    (if n.resourceType == "Service" && dep.Some? then [dep.value.id] else [])
    + (if n.resourceType == "Ingress" && svc.Some? then [svc.value.id] else [])
  }

  function Linked(nodes: seq<Node>): (r: seq<Node>)
    ensures |r| == |nodes|
  {
    seq(|nodes|, i requires 0 <= i < |nodes| =>
      nodes[i].(connections := nodes[i].connections + ImpliedLinks(nodes, nodes[i])))
  }

  function K8sParsed(code: string, docs: seq<Doc>): Parsed
  {
    var nodes := Linked(K8sNodes(docs));
    Parsed(nodes, Kubernetes, if nodes == [] && NotBlank(code) then [NoKubernetes] else [])
  }

  /** Ids, kinds and the first node of a kind are untouched by adding
   *  connections. */
  lemma {:induction false} FindKindIgnoresLinks(nodes: seq<Node>, nodes': seq<Node>, kind: string)
    requires |nodes| == |nodes'|
    requires forall i :: 0 <= i < |nodes| ==> nodes'[i] == nodes[i].(connections := nodes'[i].connections)
    ensures FindKind(nodes', kind).None? <==> FindKind(nodes, kind).None?
    ensures FindKind(nodes, kind).Some? ==> FindKind(nodes', kind).value.id == FindKind(nodes, kind).value.id
  {
    if nodes != [] {
      FindKindIgnoresLinks(nodes[1..], nodes'[1..], kind);
    }
  }

  /** The implied links read only ids and kinds. */
  lemma ImpliedLinksIgnoreLinks(nodes: seq<Node>, nodes': seq<Node>, n: Node)
    requires |nodes| == |nodes'|
    requires forall i :: 0 <= i < |nodes| ==> nodes'[i] == nodes[i].(connections := nodes'[i].connections)
    ensures ImpliedLinks(nodes', n) == ImpliedLinks(nodes, n)
  {
    FindKindIgnoresLinks(nodes, nodes', "Deployment");
    FindKindIgnoresLinks(nodes, nodes', "Service");
  }

  /** The `nodes.forEach` pass that pushes the implied links. */
  method AddK8sConnections(nodes: seq<Node>) returns (r: seq<Node>)
    ensures r == Linked(nodes)
  {
    r := nodes;
    var i := 0;
    while i < |r|
      invariant 0 <= i <= |r| == |nodes|
      invariant forall j :: 0 <= j < i ==> r[j] == Linked(nodes)[j]
      invariant forall j :: i <= j < |r| ==> r[j] == nodes[j]
    {
      ImpliedLinksIgnoreLinks(nodes, r, r[i]);
      var node := r[i];
      var conns := node.connections;
      if node.resourceType == "Service" {
        var deployment := FindKind(r, "Deployment");
        if deployment.Some? {
          conns := conns + [deployment.value.id];
        }
      }
      if node.resourceType == "Ingress" {
        var service := FindKind(r, "Service");
        if service.Some? {
          conns := conns + [service.value.id];
        }
      }
      assert conns == node.connections + ImpliedLinks(r, node);
      r := r[i := node.(connections := conns)];
      i := i + 1;
    }
  }

  /** `parseKubernetes`. */
  method ParseKubernetes(code: string, docs: seq<Doc>) returns (p: Parsed)
    ensures p == K8sParsed(code, docs)
  {
    var nodes: seq<Node> := [];
    var i := 0;
    while i < |docs|
      invariant 0 <= i <= |docs|
      invariant nodes == K8sNodes(docs[..i])
    {
      assert docs[..i + 1][..i] == docs[..i];
      var d := docs[i];
      if d.kind.Some? && d.name.Some? {
        nodes := nodes + [Node(d.kind.value + "/" + d.name.value, GetK8sNodeType(d.kind.value), d.name.value,
                               d.kind.value, DocProps(d), [])];
      }
      i := i + 1;
    }
    assert docs[..i] == docs;
    nodes := AddK8sConnections(nodes);
    p := Parsed(nodes, Kubernetes, if nodes == [] && Trim(code) != "" then [NoKubernetes] else []);
  }

  /** A document yields a node "Kind/name" exactly when both its kind and
   *  its name were found. */
  lemma {:induction false} K8sNodePerDoc(docs: seq<Doc>)
    ensures |K8sNodes(docs)| == |Both(docs)|
    ensures forall i :: 0 <= i < |K8sNodes(docs)| ==>
      K8sNodes(docs)[i].id == Both(docs)[i].kind.value + "/" + Both(docs)[i].name.value
  {
    if docs != [] {
      K8sNodePerDoc(docs[..|docs| - 1]);
    }
  }

  /** The documents that have both a kind and a name. */
  function Both(docs: seq<Doc>): (r: seq<Doc>)
    ensures forall i :: 0 <= i < |r| ==> r[i].kind.Some? && r[i].name.Some?
  {
    if docs == [] then []
    else
      var d := docs[|docs| - 1];
      Both(docs[..|docs| - 1]) + if d.kind.Some? && d.name.Some? then [d] else []
  }

  /** Every Service is linked to the first Deployment and every Ingress to
   *  the first Service, when there is one; nothing else gets a link. */
  lemma ImpliedLinksShape(nodes: seq<Node>, i: int)
    requires 0 <= i < |nodes| && forall j :: 0 <= j < |nodes| ==> nodes[j].connections == []
    ensures var n, dep, svc := Linked(nodes)[i], FindKind(nodes, "Deployment"), FindKind(nodes, "Service");
      n.id == nodes[i].id
      && (n.resourceType == "Service" ==> n.connections == if dep.Some? then [dep.value.id] else [])
      && (n.resourceType == "Ingress" ==> n.connections == if svc.Some? then [svc.value.id] else [])
      && (n.resourceType != "Service" && n.resourceType != "Ingress" ==> n.connections == [])
  {
  }

  // ---------------------------------------------------------------------------
  // detectFormat and parseIaC

  /** `/kw\s+"/`: the keyword, white space, then a double quote. */
  predicate KeywordQuote(code: string, kw: string)
  {
    exists i, j | 0 <= i < |code| && 0 <= j < |code| :: QuoteAt(code, kw, i, j)
  }

  /** `kw` at `i`, a double quote at `j`, white space strictly between. */
  predicate QuoteAt(code: string, kw: string, i: int, j: int)
  {
    0 <= i && i + |kw| < j < |code| && code[i..i + |kw|] == kw && code[j] == '"'
    && forall k :: i + |kw| <= k < j ==> IsSpace(code[k])
  }

  function One(b: bool): nat
  {
    if b then 1 else 0
  }

  function TerraformScore(code: string): nat
  {
    One(KeywordQuote(code, "resource")) + One(KeywordQuote(code, "provider"))
    + One(KeywordQuote(code, "variable")) + One(KeywordQuote(code, "data"))
  }

  function KubernetesScore(code: string): nat
  {
    One(Contains(code, "apiVersion:")) + One(Contains(code, "kind:"))
    + One(Contains(code, "metadata:")) + One(Contains(code, "spec:"))
  }

  /** `detectFormat`: the side with strictly more matching patterns. */
  function DetectFormat(code: string): (f: Format)
    ensures f == UnknownFormat <==> TerraformScore(code) == KubernetesScore(code)
    ensures f == Terraform <==> TerraformScore(code) > KubernetesScore(code)
  {
    var tf, k8s := TerraformScore(code), KubernetesScore(code);
    if tf > k8s then Terraform else if k8s > tf then Kubernetes else UnknownFormat
  }

  const UnknownFormatError: string := "Could not detect format."

  /** The text with what the readers' patterns find in it. */
  datatype Source = Source(code: string, blocks: seq<Block>, docs: seq<Doc>)

  /** `parseIaC`. */
  method ParseIaC(src: Source) returns (p: Parsed)
    ensures p.format == DetectFormat(src.code)
    ensures p.format == Terraform ==> p == TerraformParsed(src.code, src.blocks)
    ensures p.format == Kubernetes ==> p == K8sParsed(src.code, src.docs)
    ensures p.format == UnknownFormat ==> p.nodes == [] && |p.errors| == 1
  {
    var format := DetectFormat(src.code);
    if format == Terraform {
      p := ParseTerraform(src.code, src.blocks);
    } else if format == Kubernetes {
      p := ParseKubernetes(src.code, src.docs);
    } else {
      p := Parsed([], UnknownFormat, [UnknownFormatError]);
    }
  }

  /** A text with none of the eight patterns, such as an empty one, has a
   *  tie at zero and is not recognised. */
  lemma NoPatternIsUnknown(code: string)
    requires !KeywordQuote(code, "resource") && !KeywordQuote(code, "provider")
    requires !KeywordQuote(code, "variable") && !KeywordQuote(code, "data")
    requires !Contains(code, "apiVersion:") && !Contains(code, "kind:")
    requires !Contains(code, "metadata:") && !Contains(code, "spec:")
    ensures DetectFormat(code) == UnknownFormat
  {
  }

  /** A manifest with all four Kubernetes keys and no Terraform keyword is
   *  read as Kubernetes. */
  lemma ManifestIsKubernetes(code: string)
    requires !KeywordQuote(code, "resource") && !KeywordQuote(code, "provider")
    requires !KeywordQuote(code, "variable") && !KeywordQuote(code, "data")
    requires Contains(code, "apiVersion:") && Contains(code, "kind:")
    ensures DetectFormat(code) == Kubernetes
  {
  }
}
