/** The static descriptor table that drives the whole run, the format
    strings that turn an extracted attribute tuple into a Terraform address
    and a provider ID, and the extraction of that tuple from a listed item. */
module Descriptors {
  import opened Options

  /** A keyword argument value of a listing call: the page-size limits are
      numbers, continuation tokens are strings. */
  datatype Param = Num(n: int) | Str(s: string)

  type Kwargs = map<string, Param>

  /** One listed object as the AWS API returns it, restricted to its
      string-valued attributes. */
  type Item = map<string, string>

  /** One replacement field or literal run of a Python format string:
      `{resource_type}`, `{obj[i]}`, or plain text. */
  datatype Piece = Lit(text: string) | ResourceType | Obj(index: nat)

  type Template = seq<Piece>

  datatype Descriptor = Descriptor(
    objectType: string,        // prefix of the local config files that enable this kind
    clientName: string,
    methodName: string,
    methodKwargs: Kwargs,      // parameters of the first listing call
    responseToken: string,     // response field carrying the continuation token
    tokenKwarg: string,        // request parameter the token is sent back in
    objectKey: string,         // response field holding the page's items
    attributeList: seq<string>,
    addressFmt: Template,
    providerIdFmt: Template,
    awsResource: string)       // Terraform resource type

  /** `str(v)` of an extracted value: a missing attribute prints as "None". */
  function Show(v: Option<string>): string {
    match v
    case Some(s) => s
    case None => "None"
  }

  /** A template can be formatted without a KeyError or IndexError: it uses
      `{resource_type}` only when that argument is supplied and indexes only
      within the tuple. */
  predicate Fits(t: Template, hasResourceType: bool, width: nat) {
    forall i :: 0 <= i < |t| ==>
      (t[i].ResourceType? ==> hasResourceType) && (t[i].Obj? ==> t[i].index < width)
  }

  /** `t.format(resource_type=..., obj=obj)`. A literal is copied,
      `{resource_type}` is replaced by the keyword argument and `{obj[i]}` by
      `str(obj[i])`; RenderAppend gives how the fields of a longer template
      combine. */
  function Render(t: Template, resourceType: Option<string>, obj: seq<Option<string>>): (r: string)
    requires Fits(t, resourceType.Some?, |obj|)
    ensures t == [] ==> r == ""
    ensures |t| == 1 && t[0].Lit? ==> r == t[0].text
    ensures |t| == 1 && t[0].ResourceType? ==> r == resourceType.value
    ensures |t| == 1 && t[0].Obj? ==> r == Show(obj[t[0].index])
  {
    if t == [] then ""
    else
      var head := match t[0]
        case Lit(s) => s
        case ResourceType => resourceType.value
        case Obj(i) => Show(obj[i]);
      head + Render(t[1..], resourceType, obj)
  }

  /** Formatting distributes over concatenation of templates. */
  lemma {:induction false} RenderAppend(t: Template, u: Template, resourceType: Option<string>, obj: seq<Option<string>>)
    requires Fits(t, resourceType.Some?, |obj|) && Fits(u, resourceType.Some?, |obj|)
    ensures Fits(t + u, resourceType.Some?, |obj|)
    ensures Render(t + u, resourceType, obj) == Render(t, resourceType, obj) + Render(u, resourceType, obj)
  {
    if t == [] {
      assert t + u == u;
    } else {
      assert (t + u)[0] == t[0] && (t + u)[1..] == t[1..] + u;
      RenderAppend(t[1..], u, resourceType, obj);
    }
  }

  /** The address template may use the resource type, the provider-ID
      template may not (it is formatted with `obj` alone); both index only
      within the attribute tuple. */
  predicate WellFormed(d: Descriptor) {
    && Fits(d.addressFmt, true, |d.attributeList|)
    && Fits(d.providerIdFmt, false, |d.attributeList|)
  }

  /** `"{resource_type}.{obj[0]}"` */
  const TypeDotFirst: Template := [ResourceType, Lit("."), Obj(0)]

  /** The Terraform resource address of one extracted tuple; with the
      registry's template it is the resource type, a dot and the first
      attribute. */
  function Address(d: Descriptor, obj: seq<Option<string>>): (a: string)
    requires WellFormed(d) && |obj| == |d.attributeList|
    ensures d.addressFmt == TypeDotFirst ==> 0 < |obj| && a == d.awsResource + "." + Show(obj[0])
  {
    var rt := Some(d.awsResource);
    if d.addressFmt == TypeDotFirst then
      assert d.addressFmt[2].index < |obj|;
      assert TypeDotFirst == [ResourceType] + [Lit(".")] + [Obj(0)];
      RenderAppend([ResourceType], [Lit(".")], rt, obj);
      RenderAppend([ResourceType] + [Lit(".")], [Obj(0)], rt, obj);
      Render(d.addressFmt, rt, obj)
    else Render(d.addressFmt, rt, obj)
  }

  /** The provider-specific import ID of one extracted tuple; a template
      that is a single `{obj[i]}` gives attribute i. */
  function ProviderId(d: Descriptor, obj: seq<Option<string>>): (id: string)
    requires WellFormed(d) && |obj| == |d.attributeList|
    ensures |d.providerIdFmt| == 1 && d.providerIdFmt[0].Obj? ==> id == Show(obj[d.providerIdFmt[0].index])
  {
    Render(d.providerIdFmt, None, obj)
  }

  /** `[item.get(attr) for attr in attrs]`: one positional value per
      attribute name, None where the item lacks it. */
  function Extract(attrs: seq<string>, item: Item): (obj: seq<Option<string>>)
    ensures |obj| == |attrs|
    ensures forall i :: 0 <= i < |attrs| ==> (obj[i].Some? <==> attrs[i] in item)
    ensures forall i :: 0 <= i < |attrs| && attrs[i] in item ==> obj[i] == Some(item[attrs[i]])
  {
    if attrs == [] then []
    else [Get(item, attrs[0])] + Extract(attrs[1..], item)
  }

  /** Two items that agree on the listed attributes extract to the same
      tuple: nothing else of an item reaches the import. */
  lemma ExtractOnlyReadsAttributes(attrs: seq<string>, a: Item, b: Item)
    requires forall i :: 0 <= i < |attrs| ==> Get(a, attrs[i]) == Get(b, attrs[i])
    ensures Extract(attrs, a) == Extract(attrs, b)
  {
  }

  const Sfn := Descriptor(
    "sfn", "stepfunctions", "list_state_machines", map["maxResults" := Num(100)],
    "nextToken", "nextToken", "stateMachines", ["name", "stateMachineArn"],
    TypeDotFirst, [Obj(1)], "aws_sfn_state_machine")

  const Crawler := Descriptor(
    "crawler", "glue", "get_crawlers", map["MaxResults" := Num(100)],
    "NextToken", "NextToken", "Crawlers", ["Name"],
    TypeDotFirst, [Obj(0)], "aws_glue_crawler")

  const Lambda := Descriptor(
    "lambda", "lambda", "list_functions", map[],
    "NextMarker", "Marker", "Functions", ["FunctionName"],
    TypeDotFirst, [Obj(0)], "aws_lambda_function")

  const Dms := Descriptor(
    "dms", "dms", "describe_replication_tasks", map[],
    "Marker", "Marker", "ReplicationTasks", ["ReplicationTaskIdentifier"],
    TypeDotFirst, [Obj(0)], "aws_dms_replication_task")

  /** The registry, in the order the run processes it. */
  const ConfigList: seq<Descriptor> := [Sfn, Crawler, Lambda, Dms]

  /** Every registry entry can be formatted, and no two entries share a
      kind, so each kind is reconciled at most once per run. */
  lemma RegistryWellFormed()
    ensures forall i :: 0 <= i < |ConfigList| ==> WellFormed(ConfigList[i])
    ensures forall i, j :: 0 <= i < j < |ConfigList| ==> ConfigList[i].objectType != ConfigList[j].objectType
  {
  }

  /** For every registry entry the address is `<resource type>.<first
      attribute>`; the provider ID is the state machine ARN for `sfn` and
      the first attribute for every other kind. */
  lemma RegistryFormats(i: nat, obj: seq<Option<string>>)
    requires i < |ConfigList| && |obj| == |ConfigList[i].attributeList|
    ensures WellFormed(ConfigList[i])
    ensures Address(ConfigList[i], obj) == ConfigList[i].awsResource + "." + Show(obj[0])
    ensures ProviderId(ConfigList[i], obj) == Show(obj[if ConfigList[i].objectType == "sfn" then 1 else 0])
  {
    RegistryWellFormed();
  }

  /** A crawler listed as {"Name": "my-crawler"} is imported as
      `aws_glue_crawler.my-crawler` with ID `my-crawler`. */
  lemma CrawlerExample()
    ensures Address(Crawler, Extract(Crawler.attributeList, map["Name" := "my-crawler"])) == "aws_glue_crawler.my-crawler"
    ensures ProviderId(Crawler, Extract(Crawler.attributeList, map["Name" := "my-crawler"])) == "my-crawler"
  {
    var obj := Extract(Crawler.attributeList, map["Name" := "my-crawler"]);
    RegistryFormats(1, obj);
  }

  /** A state machine is addressed by its name and imported by its ARN. */
  lemma StateMachineExample(name: string, arn: string)
    ensures Address(Sfn, Extract(Sfn.attributeList, map["name" := name, "stateMachineArn" := arn])) == "aws_sfn_state_machine." + name
    ensures ProviderId(Sfn, Extract(Sfn.attributeList, map["name" := name, "stateMachineArn" := arn])) == arn
  {
    var obj := Extract(Sfn.attributeList, map["name" := name, "stateMachineArn" := arn]);
    RegistryFormats(0, obj);
  }
}
