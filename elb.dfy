/**
  The rules of the classic ELB task that do not depend on how the cloud is reached: the
  records the ELB task and the ELB API exchange, listener translation, validation of a first
  creation, the alias and name lookups over the pages of a listing, the subnet delta of an
  update, the state discovered from an existing ELB, and the Terraform references.
*/
module Elb {
  import opened Wrappers
  import opened Sorting
  import opened Strconv

  // ------------------------------------------------------------------ records

  /** A `*Subnet` or `*SecurityGroup` the ELB task points at: the ELB task's name and the cloud ID. */
  datatype ResourceRef = ResourceRef(name: Option<string>, id: Option<string>)

  /** The ordering key of `OrderSubnetsById` and `OrderSecurityGroupsById`. */
  function RefId(r: ResourceRef): string
  {
    r.id.GetOr("")
  }

  /** `ClassicLoadBalancerListener`, keyed in the ELB task by the decimal load-balancer port. */
  datatype Listener = Listener(instancePort: Int32, sslCertificateId: string)

  /** `elbtypes.Listener`. */
  datatype AwsListener = AwsListener(
    loadBalancerPort: Int32,
    instancePort: Option<Int32>,
    protocol: Option<string>,
    instanceProtocol: Option<string>,
    sslCertificateId: Option<string>)

  datatype HealthCheck = HealthCheck(
    target: Option<string>,
    healthyThreshold: Option<Int32>,
    unhealthyThreshold: Option<Int32>,
    interval: Option<Int32>,
    timeout: Option<Int32>)

  datatype AccessLog = AccessLog(
    emitInterval: Option<Int32>,
    enabled: Option<bool>,
    s3BucketName: Option<string>,
    s3BucketPrefix: Option<string>)

  datatype ConnectionDraining = ConnectionDraining(enabled: Option<bool>, timeout: Option<Int32>)

  datatype ConnectionSettings = ConnectionSettings(idleTimeout: Option<Int32>)

  datatype CrossZoneLoadBalancing = CrossZoneLoadBalancing(enabled: Option<bool>)

  /** The fields of a `ClassicLoadBalancer` task, as one value. */
  datatype LoadBalancer = LoadBalancer(
    name: Option<string>,
    lifecycle: string,
    loadBalancerName: Option<string>,
    dnsName: Option<string>,
    hostedZoneId: Option<string>,
    subnets: seq<ResourceRef>,
    securityGroups: seq<ResourceRef>,
    listeners: map<string, Listener>,
    scheme: Option<string>,
    healthCheck: Option<HealthCheck>,
    accessLog: Option<AccessLog>,
    connectionDraining: Option<ConnectionDraining>,
    connectionSettings: Option<ConnectionSettings>,
    crossZoneLoadBalancing: Option<CrossZoneLoadBalancing>,
    sslCertificateId: string,
    tags: map<string, string>,
    shared: Option<bool>,
    wellKnownServices: seq<string>)

  /** `elbtypes.LoadBalancerDescription`, the fields the ELB task reads. */
  datatype LbDescription = LbDescription(
    loadBalancerName: Option<string>,
    dnsName: Option<string>,
    canonicalHostedZoneNameId: Option<string>,
    scheme: Option<string>,
    subnets: seq<string>,
    securityGroups: seq<string>,
    listeners: seq<AwsListener>)

  datatype AwsAccessLog = AwsAccessLog(
    enabled: bool,
    emitInterval: Option<Int32>,
    s3BucketName: Option<string>,
    s3BucketPrefix: Option<string>)

  datatype AwsConnectionDraining = AwsConnectionDraining(enabled: bool, timeout: Option<Int32>)

  /** `elbtypes.LoadBalancerAttributes`. */
  datatype LbAttributes = LbAttributes(
    accessLog: AwsAccessLog,
    connectionDraining: AwsConnectionDraining,
    idleTimeout: Option<Int32>,
    crossZoneEnabled: bool)

  /** `elbtypes.Tag`. */
  datatype Tag = Tag(key: Option<string>, value: Option<string>)

  /** `route53types.AliasTarget`. */
  datatype AliasTarget = AliasTarget(dnsName: Option<string>, hostedZoneId: Option<string>)

  /** The errors the ELB task returns. */
  datatype Error =
      /** An error answered by the cloud API, with its error code. */
    | ApiFailure(code: string)
      /** `fmt.Errorf("<context>: %w", cause)`: the cause stays reachable through unwrapping. */
    | Wrapped(context: string, cause: Error)
      /** `fmt.Errorf("<context>: %v", cause)`: only the cause's text survives. */
    | Described(context: string, cause: Error)
      /** `fi.RequiredField(field)`. */
    | RequiredField(field: string)
      /** More than one ELB matched: "Found multiple ELBs with <what> %q". */
    | AmbiguousMatch(what: string, value: string)
      /** "error parsing load balancer listener port: %q". */
    | PortParse(port: string)
      /** "DNSName not set on AliasTarget". */
    | AliasDnsNameMissing
      /** "Unable to find newly created ELB %q". */
    | NotFoundAfterCreate(name: string)
      /** A nil pointer dereference: Go panics. */
    | NilDereference(what: string)

  // ------------------------------------------------------------------ small string helpers

  predicate HasPrefix(s: string, prefix: string)
  {
    |prefix| <= |s| && s[..|prefix|] == prefix
  }

  predicate HasSuffix(s: string, suffix: string)
  {
    |suffix| <= |s| && s[|s| - |suffix|..] == suffix
  }

  /** `strings.TrimSuffix`: removes one occurrence of `suffix` at the end, if there is one. */
  function TrimSuffix(s: string, suffix: string): (r: string)
    ensures r + (if HasSuffix(s, suffix) then suffix else []) == s
  {
    if HasSuffix(s, suffix) then s[..|s| - |suffix|] else s
  }

  // ------------------------------------------------------------------ shared gate and validation

  /** `ShouldCreate`: a shared load balancer is owned elsewhere and never created. */
  predicate ShouldCreate(e: LoadBalancer)
  {
    !e.shared.GetOr(false)
  }

  /**
    `CheckChanges`: nothing to check when the ELB exists; for a first creation, the first
    missing required field, in a fixed order.
  */
  function CheckChanges(a: Option<LoadBalancer>, e: LoadBalancer): (r: Option<Error>)
    ensures a.Some? ==> r.None?
    ensures r.Some? ==> r.value.RequiredField?
  {
    if a.Some? then None
    else if e.name.GetOr("") == "" then Some(RequiredField("Name"))
    else if !e.shared.GetOr(false) && |e.securityGroups| == 0 then Some(RequiredField("SecurityGroups"))
    else if !e.shared.GetOr(false) && |e.subnets| == 0 then Some(RequiredField("Subnets"))
    else if e.accessLog.Some? && e.accessLog.value.enabled.None? then Some(RequiredField("Acceslog.Enabled"))
    else if e.accessLog.Some? && e.accessLog.value.enabled == Some(true) && e.accessLog.value.s3BucketName.None? then
      Some(RequiredField("Acceslog.S3Bucket"))
    else if e.connectionDraining.Some? && e.connectionDraining.value.enabled.None? then
      Some(RequiredField("ConnectionDraining.Enabled"))
    else if e.crossZoneLoadBalancing.Some? && e.crossZoneLoadBalancing.value.enabled.None? then
      Some(RequiredField("CrossZoneLoadBalancing.Enabled"))
    else None
  }

  /** Every rule a first creation breaks, each named by the field it requires, in rule order. */
  function Violations(e: LoadBalancer): seq<string>
  {
    var owned := !e.shared.GetOr(false);
    (if e.name.GetOr("") == "" then ["Name"] else [])
    + (if owned && |e.securityGroups| == 0 then ["SecurityGroups"] else [])
    + (if owned && |e.subnets| == 0 then ["Subnets"] else [])
    + (match e.accessLog
       case None => []
       case Some(al) =>
         if al.enabled.None? then ["Acceslog.Enabled"]
         else if al.enabled.value && al.s3BucketName.None? then ["Acceslog.S3Bucket"]
         else [])
    + (if e.connectionDraining.Some? && e.connectionDraining.value.enabled.None? then ["ConnectionDraining.Enabled"] else [])
    + (if e.crossZoneLoadBalancing.Some? && e.crossZoneLoadBalancing.value.enabled.None?
       then ["CrossZoneLoadBalancing.Enabled"] else [])
  }

  /**
    A first creation passes exactly when it breaks no rule, and otherwise fails naming the
    first rule broken.
  */
  lemma CheckChangesFirstViolation(e: LoadBalancer)
    ensures CheckChanges(None, e) == if Violations(e) == [] then None else Some(RequiredField(Violations(e)[0]))
  {
  }

  // ------------------------------------------------------------------ listeners

  /** `mapToAWS`: a certificate makes the listener SSL on both sides, otherwise TCP on both. */
  function MapToAws(l: Listener, loadBalancerPort: Int32): (r: AwsListener)
    ensures r.loadBalancerPort == loadBalancerPort && r.instancePort == Some(l.instancePort)
    ensures r.protocol == r.instanceProtocol
    ensures r.protocol == Some(if l.sslCertificateId != "" then "SSL" else "TCP")
    ensures r.sslCertificateId.Some? <==> l.sslCertificateId != ""
  {
    if l.sslCertificateId != "" then
      AwsListener(loadBalancerPort, Some(l.instancePort), Some("SSL"), Some("SSL"), Some(l.sslCertificateId))
    else
      AwsListener(loadBalancerPort, Some(l.instancePort), Some("TCP"), Some("TCP"), None)
  }

  /** How `Find` reads a listener of a description back into the ELB task's form. */
  function ListenerOf(l: AwsListener): Listener
  {
    Listener(l.instancePort.GetOr(0), l.sslCertificateId.GetOr(""))
  }

  /** A listener sent to the cloud reads back as the same listener. */
  lemma ListenerRoundTrip(l: Listener, port: Int32)
    ensures ListenerOf(MapToAws(l, port)) == l
    ensures MapToAws(l, port).loadBalancerPort == port
  {
  }

  /** `terraformLoadBalancerListener`. */
  datatype TerraformListener = TerraformListener(
    instancePort: Int32,
    instanceProtocol: string,
    lbPort: Int32,
    lbProtocol: string,
    sslCertificateId: Option<string>)

  /** The listener `RenderTerraform` writes for a load-balancer port. */
  function TerraformListenerOf(l: Listener, lbPort: Int32): TerraformListener
  {
    if l.sslCertificateId != "" then
      TerraformListener(l.instancePort, "SSL", lbPort, "SSL", Some(l.sslCertificateId))
    else
      TerraformListener(l.instancePort, "TCP", lbPort, "TCP", None)
  }

  /**
    Both renderers translate a listener the same way: for every key that parses as a 32-bit
    port, the Terraform listener carries the ports, protocols and certificate of the API one.
  */
  lemma ListenerPathsAgree(l: Listener, key: string)
    requires ParseInt(key, 32).Some?
    ensures ParseInt(key, 64) == ParseInt(key, 32)
    ensures var aws := MapToAws(l, TruncateToInt32(ParseInt(key, 32).value));
            var tf := TerraformListenerOf(l, TruncateToInt32(ParseInt(key, 64).value));
            aws.loadBalancerPort == tf.lbPort && aws.instancePort == Some(tf.instancePort)
            && aws.protocol == Some(tf.lbProtocol) && aws.instanceProtocol == Some(tf.instanceProtocol)
            && aws.sslCertificateId == tf.sslCertificateId
  {
  }

  /**
    The listeners of a request, translated in the map iteration order `order`: each key is
    parsed as a `bitSize`-bit decimal port, cast to `int32` and handed with its listener to
    `translate`; the first key that does not parse stops the translation with an error.
  */
  function TranslatePorts<T>(order: seq<string>, m: map<string, Listener>, bitSize: nat,
                             translate: (Listener, Int32) -> T): Result<seq<T>, Error>
    requires bitSize == 32 || bitSize == 64
  {
    if order == [] then Ok([])
    else
      var k := order[|order| - 1];
      match TranslatePorts(order[..|order| - 1], m, bitSize, translate)
      case Err(e) => Err(e)
      case Ok(ls) =>
        if k !in m then Ok(ls)
        else match ParseInt(k, bitSize)
          case None => Err(PortParse(k))
          case Some(p) => Ok(ls + [translate(m[k], TruncateToInt32(p))])
  }

  /**
    When every key is a port, the translation holds one listener per key, the i-th
    translated from the i-th key; otherwise it fails on a key that is not a port.
  */
  lemma {:induction false} TranslatePortsSpec<T>(order: seq<string>, m: map<string, Listener>, bitSize: nat,
                                                 translate: (Listener, Int32) -> T)
    requires bitSize == 32 || bitSize == 64
    requires forall k :: k in order ==> k in m
    ensures TranslatePorts(order, m, bitSize, translate).Ok? <==> forall k :: k in order ==> ParseInt(k, bitSize).Some?
    ensures TranslatePorts(order, m, bitSize, translate).Ok? ==>
              |TranslatePorts(order, m, bitSize, translate).value| == |order|
              && forall i :: 0 <= i < |order| ==>
                   TranslatePorts(order, m, bitSize, translate).value[i]
                   == translate(m[order[i]], TruncateToInt32(ParseInt(order[i], bitSize).value))
    ensures TranslatePorts(order, m, bitSize, translate).Err? ==>
              exists k :: k in order && ParseInt(k, bitSize).None?
                          && TranslatePorts(order, m, bitSize, translate).error == PortParse(k)
  {
    if order != [] {
      var init := order[..|order| - 1];
      var k := order[|order| - 1];
      assert order == init + [k];
      assert forall j :: j in init ==> j in order;
      TranslatePortsSpec(init, m, bitSize, translate);
      var r := TranslatePorts(order, m, bitSize, translate);
      if TranslatePorts(init, m, bitSize, translate).Ok? && ParseInt(k, bitSize).Some? {
        var ls := TranslatePorts(init, m, bitSize, translate).value;
        assert r == Ok(ls + [translate(m[k], TruncateToInt32(ParseInt(k, bitSize).value))]);
      }
    }
  }

  /** Keys visited after the translation has failed change nothing. */
  /** Translating one more key present in the map after a successful prefix. */
  lemma TranslatePortsSnoc<T>(init: seq<string>, k: string, m: map<string, Listener>, bitSize: nat,
                              translate: (Listener, Int32) -> T)
    requires bitSize == 32 || bitSize == 64
    requires k in m && TranslatePorts(init, m, bitSize, translate).Ok?
    ensures ParseInt(k, bitSize).None? ==> TranslatePorts(init + [k], m, bitSize, translate) == Err(PortParse(k))
    ensures ParseInt(k, bitSize).Some? ==>
              TranslatePorts(init + [k], m, bitSize, translate)
              == Ok(TranslatePorts(init, m, bitSize, translate).value
                    + [translate(m[k], TruncateToInt32(ParseInt(k, bitSize).value))])
  {
    assert (init + [k])[..|init + [k]| - 1] == init;
  }

  lemma {:induction false} TranslatePortsErrorStays<T>(order: seq<string>, more: seq<string>, m: map<string, Listener>,
                                                       bitSize: nat, translate: (Listener, Int32) -> T)
    requires bitSize == 32 || bitSize == 64
    requires TranslatePorts(order, m, bitSize, translate).Err?
    ensures TranslatePorts(order + more, m, bitSize, translate) == TranslatePorts(order, m, bitSize, translate)
  {
    if more != [] {
      var init := more[..|more| - 1];
      TranslatePortsErrorStays(order, init, m, bitSize, translate);
      assert (order + more)[..|order + more| - 1] == order + init;
    } else {
      assert order + more == order;
    }
  }

  // ------------------------------------------------------------------ listings and lookups

  /** One page of `DescribeLoadBalancers`, or the error fetching it. */
  type Page = Result<seq<LbDescription>, Error>

  /** The descriptions of `ds` the filter keeps, in order. */
  function Filter(ds: seq<LbDescription>, keep: LbDescription -> bool): (r: seq<LbDescription>)
    ensures forall d :: d in r <==> d in ds && keep(d)
  {
    if ds == [] then []
    else Filter(ds[..|ds| - 1], keep) + (if keep(ds[|ds| - 1]) then [ds[|ds| - 1]] else [])
  }

  /** A description appears on one of the pages that were fetched. */
  predicate OnSomePage(d: LbDescription, pages: seq<Page>)
  {
    exists p :: 0 <= p < |pages| && pages[p].Ok? && d in pages[p].value
  }

  /**
    `describeLoadBalancers`: the descriptions the filter keeps, page by page; the first page
    that cannot be fetched makes the listing fail, its error wrapped.
  */
  function Listing(pages: seq<Page>, keep: LbDescription -> bool): (r: Result<seq<LbDescription>, Error>)
    ensures r.Ok? <==> forall p :: 0 <= p < |pages| ==> pages[p].Ok?
    ensures r.Ok? ==> forall d :: d in r.value <==> keep(d) && OnSomePage(d, pages)
    ensures r.Err? ==> r.error.Wrapped? && r.error.context == "error listing ELBs"
  {
    if pages == [] then Ok([])
    else
      var init := pages[..|pages| - 1];
      var last := pages[|pages| - 1];
      match Listing(init, keep)
      case Err(e) => Err(e)
      case Ok(found) =>
        match last
        case Err(e) => Err(Wrapped("error listing ELBs", e))
        case Ok(ds) =>
          var r := found + Filter(ds, keep);
          assert forall d :: OnSomePage(d, pages) <==> OnSomePage(d, init) || d in ds by {
            forall d ensures OnSomePage(d, pages) <==> OnSomePage(d, init) || d in ds {
              if OnSomePage(d, pages) {
                var p :| 0 <= p < |pages| && pages[p].Ok? && d in pages[p].value;
                if p < |init| {
                  assert init[p] == pages[p];
                }
              }
              if OnSomePage(d, init) {
                var p :| 0 <= p < |init| && init[p].Ok? && d in init[p].value;
                assert pages[p] == init[p];
              }
              if d in ds {
                assert pages[|pages| - 1] == last;
              }
            }
          }
          Ok(r)
  }

  /** Once a prefix of the pages fails, the whole listing fails the same way. */
  lemma {:induction false} ListingPrefixError(pages: seq<Page>, j: nat, keep: LbDescription -> bool)
    requires j <= |pages| && Listing(pages[..j], keep).Err?
    ensures Listing(pages, keep) == Listing(pages[..j], keep)
  {
    if j < |pages| {
      var init := pages[..|pages| - 1];
      assert init[..j] == pages[..j];
      ListingPrefixError(init, j, keep);
    } else {
      assert pages[..j] == pages;
    }
  }

  /** `errors.As` for an API error: the code of the API error found by unwrapping `%w` links. */
  function ApiCode(e: Error): Option<string>
  {
    match e
    case ApiFailure(code) => Some(code)
    case Wrapped(_, cause) => ApiCode(cause)
    case _ => None
  }

  /** A Go type assertion `err.(awserr.Error)`: it sees only the outermost error and never unwraps. */
  function AssertedApiCode(e: Error): Option<string>
  {
    if e.ApiFailure? then Some(e.code) else None
  }

  /** The "0 / 1 / many" rule: no match is absent, one match is returned, more is an error. */
  function LookupOutcome(found: seq<LbDescription>, ambiguous: Error): (r: Result<Option<LbDescription>, Error>)
    ensures r == Ok(None) <==> |found| == 0
    ensures r.Ok? && r.value.Some? <==> |found| == 1
    ensures r.Ok? && r.value.Some? ==> r.value.value == found[0]
    ensures r.Err? <==> |found| > 1
  {
    if |found| == 0 then Ok(None)
    else if |found| != 1 then Err(ambiguous)
    else Ok(Some(found[0]))
  }

  /** The filter of `findLoadBalancerByLoadBalancerName`. */
  function NamedFilter(name: string): LbDescription -> bool
  {
    (d: LbDescription) => d.loadBalancerName.GetOr("") == name
  }

  /**
    `findLoadBalancerByLoadBalancerName` as written: the "LoadBalancerNotFound" test is a type
    assertion on the error `describeLoadBalancers` has already wrapped.
  */
  function FindByNameAsWritten(pages: seq<Page>, name: string): Result<Option<LbDescription>, Error>
  {
    match Listing(pages, NamedFilter(name))
    case Err(e) =>
      if AssertedApiCode(e) == Some("LoadBalancerNotFound") then Ok(None) else Err(Described("error listing ELBs", e))
    case Ok(found) => LookupOutcome(found, AmbiguousMatch("name", name))
  }

  /** `findLoadBalancerByLoadBalancerName`, recognising "LoadBalancerNotFound" through the wrapping. */
  function FindByName(pages: seq<Page>, name: string): Result<Option<LbDescription>, Error>
  {
    match Listing(pages, NamedFilter(name))
    case Err(e) =>
      if ApiCode(e) == Some("LoadBalancerNotFound") then Ok(None) else Err(Described("error listing ELBs", e))
    case Ok(found) => LookupOutcome(found, AmbiguousMatch("name", name))
  }

  /**
    The lookup by name: an ELB is returned only when it carries the name and no other
    listed ELB does; none is absent; two or more are an error.
  */
  lemma FindByNameOutcome(pages: seq<Page>, name: string)
    requires forall p :: 0 <= p < |pages| ==> pages[p].Ok?
    ensures var found := Listing(pages, NamedFilter(name)).value;
            FindByName(pages, name) == LookupOutcome(found, AmbiguousMatch("name", name))
            && (forall d :: d in found <==> d.loadBalancerName.GetOr("") == name && OnSomePage(d, pages))
  {
  }

  /** A "LoadBalancerNotFound" answer means the ELB is absent. */
  lemma FindByNameNotFound(pages: seq<Page>, name: string)
    requires |pages| > 0 && pages[0] == Err(ApiFailure("LoadBalancerNotFound"))
    ensures FindByName(pages, name) == Ok(None)
  {
    var r := Listing(pages, NamedFilter(name));
    ListingFirstError(pages, NamedFilter(name));
  }

  /** The first page that fails is the one whose error the listing reports. */
  lemma {:induction false} ListingFirstError(pages: seq<Page>, keep: LbDescription -> bool)
    requires |pages| > 0 && pages[0].Err?
    ensures Listing(pages, keep) == Err(Wrapped("error listing ELBs", pages[0].error))
  {
    if |pages| > 1 {
      var init := pages[..|pages| - 1];
      assert init[0] == pages[0];
      ListingFirstError(init, keep);
    }
  }

  /** As written, no listing error is ever taken for an absent ELB. */
  lemma FindByNameAsWrittenNeverAbsentOnError(pages: seq<Page>, name: string)
    requires Listing(pages, NamedFilter(name)).Err?
    ensures FindByNameAsWritten(pages, name).Err?
  {
  }

  /**
    The code as written and the corrected lookup differ exactly when the listing fails with
    "LoadBalancerNotFound"; on every other listing they give the same outcome.
  */
  lemma FindByNameAsWrittenDiffers(pages: seq<Page>, name: string)
    ensures FindByNameAsWritten(pages, name) != FindByName(pages, name)
            <==> Listing(pages, NamedFilter(name)).Err?
                 && ApiCode(Listing(pages, NamedFilter(name)).error) == Some("LoadBalancerNotFound")
  {
  }

  /** The input that shows it: a "LoadBalancerNotFound" answer becomes an error instead of "absent". */
  lemma FindByNameAsWrittenExample()
    ensures FindByNameAsWritten([Err(ApiFailure("LoadBalancerNotFound"))], "api")
            == Err(Described("error listing ELBs", Wrapped("error listing ELBs", ApiFailure("LoadBalancerNotFound"))))
    ensures FindByName([Err(ApiFailure("LoadBalancerNotFound"))], "api") == Ok(None)
  {
    ListingFirstError([Err(ApiFailure("LoadBalancerNotFound"))], NamedFilter("api"));
  }

  /**
    The alias test of `findLoadBalancerByAlias`: same hosted zone, and the ELB's DNS name,
    without one trailing dot, equals the alias's, or does with `dualstack.` in front.
  */
  predicate AliasMatches(alias: AliasTarget, lb: LbDescription)
  {
    var matchDnsName := TrimSuffix(alias.dnsName.GetOr(""), ".");
    var lbDnsName := TrimSuffix(lb.dnsName.GetOr(""), ".");
    alias.hostedZoneId.GetOr("") == lb.canonicalHostedZoneNameId.GetOr("")
    && (lbDnsName == matchDnsName || "dualstack." + lbDnsName == matchDnsName)
  }

  /** The filter of `findLoadBalancerByAlias`. */
  function AliasFilter(alias: AliasTarget): LbDescription -> bool
  {
    (d: LbDescription) => AliasMatches(alias, d)
  }

  /** `findLoadBalancerByAlias`. */
  function FindByAlias(pages: seq<Page>, alias: AliasTarget): Result<Option<LbDescription>, Error>
  {
    var dnsName := alias.dnsName.GetOr("");
    if TrimSuffix(dnsName, ".") == "" then Err(AliasDnsNameMissing)
    else
      match Listing(pages, AliasFilter(alias))
      case Err(e) => Err(Described("error listing ELBs", e))
      case Ok(found) => LookupOutcome(found, AmbiguousMatch("DNSName", dnsName))
  }

  /**
    An ELB is found through an alias that names its own DNS name, plain or with
    `dualstack.` in front, with or without a trailing dot, in its own hosted zone.
  */
  lemma AliasMatchesOwnName(lb: LbDescription, dualstack: bool, trailingDot: bool)
    requires TrimSuffix(lb.dnsName.GetOr(""), ".") != ""
    requires !HasSuffix(TrimSuffix(lb.dnsName.GetOr(""), "."), ".")
    ensures var name := (if dualstack then "dualstack." else "") + TrimSuffix(lb.dnsName.GetOr(""), ".")
                        + (if trailingDot then "." else "");
            AliasMatches(AliasTarget(Some(name), lb.canonicalHostedZoneNameId), lb)
  {
    var base := (if dualstack then "dualstack." else "") + TrimSuffix(lb.dnsName.GetOr(""), ".");
    var name := base + (if trailingDot then "." else "");
    if trailingDot {
      assert HasSuffix(name, ".");
      assert name[..|name| - 1] == base;
    } else {
      assert name == base;
      var t := TrimSuffix(lb.dnsName.GetOr(""), ".");
      assert base[|base| - 1..] == t[|t| - 1..];
    }
  }

  /**
    The alias lookup: an alias without a DNS name is an error whatever is listed; otherwise a
    failed listing is reported, and a good one follows the "0 / 1 / many" rule over exactly
    the listed ELBs that match the alias.
  */
  lemma FindByAliasOutcome(pages: seq<Page>, alias: AliasTarget)
    ensures TrimSuffix(alias.dnsName.GetOr(""), ".") == "" ==> FindByAlias(pages, alias) == Err(AliasDnsNameMissing)
    ensures TrimSuffix(alias.dnsName.GetOr(""), ".") != "" && Listing(pages, AliasFilter(alias)).Err? ==>
              FindByAlias(pages, alias) == Err(Described("error listing ELBs", Listing(pages, AliasFilter(alias)).error))
    ensures TrimSuffix(alias.dnsName.GetOr(""), ".") != "" && Listing(pages, AliasFilter(alias)).Ok? ==>
              var found := Listing(pages, AliasFilter(alias)).value;
              FindByAlias(pages, alias) == LookupOutcome(found, AmbiguousMatch("DNSName", alias.dnsName.GetOr("")))
              && (forall d :: d in found <==> AliasMatches(alias, d) && OnSomePage(d, pages))
    ensures FindByAlias(pages, alias).Ok? && FindByAlias(pages, alias).value.Some? ==>
              AliasMatches(alias, FindByAlias(pages, alias).value.value)
              && OnSomePage(FindByAlias(pages, alias).value.value, pages)
  {
    if TrimSuffix(alias.dnsName.GetOr(""), ".") != "" {
      var r := Listing(pages, AliasFilter(alias));
      if r.Ok? && |r.value| == 1 {
        assert r.value[0] in r.value;
      }
    }
  }

  // ------------------------------------------------------------------ subnet delta

  /**
    `slice.GetUniqueStrings(main, other)`, read as: the strings of `other` that are not in
    `main`, each once, in order of first appearance.
  */
  function UniqueNotIn(main: seq<string>, other: seq<string>): (r: seq<string>)
    ensures forall x :: x in r <==> x in other && x !in main
    ensures forall i, j :: 0 <= i < j < |r| ==> r[i] != r[j]
    decreases |other|
  {
    if other == [] then []
    else
      var rest := UniqueNotIn(main + [other[0]], other[1..]);
      assert other[0] !in rest;
      (if other[0] in main then [] else [other[0]]) + rest
  }

  /** The IDs of a list of references, in order (`fi.ValueOf(s.ID)` for each). */
  function Ids(refs: seq<ResourceRef>): (r: seq<string>)
    ensures |r| == |refs| && forall i :: 0 <= i < |refs| ==> r[i] == RefId(refs[i])
  {
    if refs == [] then [] else Ids(refs[..|refs| - 1]) + [RefId(refs[|refs| - 1])]
  }

  /** The subnets to detach on an update: those attached now but no longer wanted. */
  function SubnetsToDetach(expected: seq<ResourceRef>, actual: seq<ResourceRef>): seq<string>
  {
    UniqueNotIn(Ids(expected), Ids(actual))
  }

  /** The subnets to attach on an update: those wanted but not attached now. */
  function SubnetsToAttach(expected: seq<ResourceRef>, actual: seq<ResourceRef>): seq<string>
  {
    UniqueNotIn(Ids(actual), Ids(expected))
  }

  /**
    The subnet delta: detach exactly the actual IDs not expected, attach exactly the expected
    IDs not present; the two never share an ID and an ID on both sides is never touched.
  */
  lemma SubnetDelta(expected: seq<ResourceRef>, actual: seq<ResourceRef>)
    ensures forall x :: x in SubnetsToDetach(expected, actual) <==> x in Ids(actual) && x !in Ids(expected)
    ensures forall x :: x in SubnetsToAttach(expected, actual) <==> x in Ids(expected) && x !in Ids(actual)
    ensures forall x :: x in Ids(expected) && x in Ids(actual) ==>
              x !in SubnetsToDetach(expected, actual) && x !in SubnetsToAttach(expected, actual)
    ensures forall x :: !(x in SubnetsToDetach(expected, actual) && x in SubnetsToAttach(expected, actual))
  {
  }

  /** Moving from subnets a, b to b, c detaches a and attaches c, and leaves b alone. */
  lemma SubnetDeltaExample()
    ensures var a := ResourceRef(None, Some("subnet-a"));
            var b := ResourceRef(None, Some("subnet-b"));
            var c := ResourceRef(None, Some("subnet-c"));
            SubnetsToDetach([b, c], [a, b]) == ["subnet-a"] && SubnetsToAttach([b, c], [a, b]) == ["subnet-c"]
  {
    var a := ResourceRef(None, Some("subnet-a"));
    var b := ResourceRef(None, Some("subnet-b"));
    var c := ResourceRef(None, Some("subnet-c"));
    ExampleIds(a, b);
    ExampleIds(b, c);
    ExampleDetach();
    ExampleAttach();
  }

  lemma ExampleIds(x: ResourceRef, y: ResourceRef)
    ensures Ids([x, y]) == [RefId(x), RefId(y)]
  {
    assert [x, y][..1] == [x];
  }

  lemma ExampleDetach()
    ensures UniqueNotIn(["subnet-b", "subnet-c"], ["subnet-a", "subnet-b"]) == ["subnet-a"]
  {
    assert "subnet-a" != "subnet-b" && "subnet-a" != "subnet-c";
    assert UniqueNotIn(["subnet-b", "subnet-c", "subnet-a"], ["subnet-b"]) == [];
  }

  lemma ExampleAttach()
    ensures UniqueNotIn(["subnet-a", "subnet-b"], ["subnet-b", "subnet-c"]) == ["subnet-c"]
  {
    assert "subnet-c" != "subnet-a" && "subnet-c" != "subnet-b";
    assert UniqueNotIn(["subnet-a", "subnet-b", "subnet-b"], ["subnet-c"]) == ["subnet-c"];
  }


  // ------------------------------------------------------------------ discovery

  const CloudFormationPrefix := "aws:cloudformation:"

  /** The tag map `Find` builds: later tags overwrite earlier ones, CloudFormation's own tags are skipped. */
  function TagsFrom(tags: seq<Tag>): (m: map<string, string>)
    ensures forall k :: k in m <==> !HasPrefix(k, CloudFormationPrefix)
                                    && exists i :: 0 <= i < |tags| && tags[i].key.GetOr("") == k
  {
    if tags == [] then map[]
    else
      var init := tags[..|tags| - 1];
      var t := tags[|tags| - 1];
      var m := TagsFrom(init);
      assert forall i :: 0 <= i < |init| ==> init[i] == tags[i];
      if HasPrefix(t.key.GetOr(""), CloudFormationPrefix) then m else m[t.key.GetOr("") := t.value.GetOr("")]
  }

  /** A kept key maps to the value of the last tag carrying it. */
  lemma {:induction false} TagsFromLastWins(tags: seq<Tag>, i: nat)
    requires i < |tags| && !HasPrefix(tags[i].key.GetOr(""), CloudFormationPrefix)
    requires forall j :: i < j < |tags| ==> tags[j].key.GetOr("") != tags[i].key.GetOr("")
    ensures TagsFrom(tags)[tags[i].key.GetOr("")] == tags[i].value.GetOr("")
  {
    if i < |tags| - 1 {
      var init := tags[..|tags| - 1];
      assert init[i] == tags[i];
      TagsFromLastWins(init, i);
    }
  }

  /** The tags read for an ELB from the `DescribeELBTags` answer; a name with no entry has no tags. */
  function TagsOf(tagMap: map<string, seq<Tag>>, lbName: string): map<string, string>
  {
    TagsFrom(if lbName in tagMap then tagMap[lbName] else [])
  }

  /**
    The tags `Find` reads, as written: under the desired task's `LoadBalancerName`, whose nil
    is dereferenced; `None` stands for that panic.
  */
  function FoundTagsAsWritten(e: LoadBalancer, tagMap: map<string, seq<Tag>>): Option<map<string, string>>
  {
    if e.loadBalancerName.None? then None else Some(TagsOf(tagMap, e.loadBalancerName.value))
  }

  /** The tags of the ELB that was found, read under that ELB's own name, the name they were asked for. */
  function FoundTags(lb: LbDescription, tagMap: map<string, seq<Tag>>): (m: map<string, string>)
    ensures var tags := if lb.loadBalancerName.GetOr("") in tagMap then tagMap[lb.loadBalancerName.GetOr("")] else [];
            forall k :: k in m <==> !HasPrefix(k, CloudFormationPrefix)
                                    && exists i :: 0 <= i < |tags| && tags[i].key.GetOr("") == k
  {
    TagsOf(tagMap, lb.loadBalancerName.GetOr(""))
  }

  /**
    The code as written reads the right tags only when the desired record carries the found
    ELB's name; that is the case the corrected reading keeps for every found ELB.
  */
  lemma FoundTagsAsWrittenAgrees(e: LoadBalancer, lb: LbDescription, tagMap: map<string, seq<Tag>>)
    requires e.loadBalancerName.Some? && e.loadBalancerName == lb.loadBalancerName
    ensures FoundTagsAsWritten(e, tagMap) == Some(FoundTags(lb, tagMap))
  {
  }

  /**
    The input that shows it: the ELB task still names the ELB "desired" while the ELB found under
    the Name tag is "actual"; its tag is read under the wrong key and lost, and without a
    `LoadBalancerName` the read panics.
  */
  lemma FoundTagsAsWrittenExample()
    ensures var lb := LbDescription(Some("actual"), None, None, None, [], [], []);
            var tagMap := map["actual" := [Tag(Some("Owner"), Some("team"))]];
            var e := LoadBalancer(Some("api"), "", Some("desired"), None, None, [], [], map[], None, None, None,
                                  None, None, None, "", map[], None, []);
            FoundTagsAsWritten(e, tagMap) == Some(map[])
            && FoundTags(lb, tagMap) == map["Owner" := "team"]
            && FoundTagsAsWritten(e.(loadBalancerName := None), tagMap).None?
  {
    var tags := [Tag(Some("Owner"), Some("team"))];
    assert !HasPrefix("Owner", CloudFormationPrefix);
    assert TagsFrom(tags) == TagsFrom([])["Owner" := "team"] by {
      assert tags[..0] == [];
    }
  }

  /** The references `Find` builds from the IDs of a description, one per ID, in order. */
  function RefsOf(ids: seq<string>): (r: seq<ResourceRef>)
    ensures |r| == |ids| && forall i :: 0 <= i < |ids| ==> r[i] == ResourceRef(None, Some(ids[i]))
  {
    if ids == [] then [] else RefsOf(ids[..|ids| - 1]) + [ResourceRef(None, Some(ids[|ids| - 1]))]
  }

  /** The listener map `Find` builds: keyed by the decimal load-balancer port, later listeners overwrite earlier ones. */
  function ListenersFrom(ls: seq<AwsListener>): (m: map<string, Listener>)
    ensures forall k :: k in m <==> exists i :: 0 <= i < |ls| && FormatInt(ls[i].loadBalancerPort) == k
  {
    if ls == [] then map[]
    else
      var init := ls[..|ls| - 1];
      var l := ls[|ls| - 1];
      assert forall i :: 0 <= i < |init| ==> init[i] == ls[i];
      ListenersFrom(init)[FormatInt(l.loadBalancerPort) := ListenerOf(l)]
  }

  /** Every key `Find` writes parses back, as both renderers parse it, to the port of a listener. */
  lemma ListenerKeysParse(ls: seq<AwsListener>, k: string)
    requires k in ListenersFrom(ls)
    ensures exists i :: 0 <= i < |ls| && ParseInt(k, 32) == Some(ls[i].loadBalancerPort as int)
  {
    var i :| 0 <= i < |ls| && FormatInt(ls[i].loadBalancerPort) == k;
    FormatIntRoundTrip(ls[i].loadBalancerPort, 32);
  }

  /** `subnetSlicesEqualIgnoreOrder`: the same subnet IDs, in any order. */
  predicate SameSubnets(a: seq<ResourceRef>, b: seq<ResourceRef>)
  {
    multiset(Ids(a)) == multiset(Ids(b))
  }

  /** `Normalize`: subnets and security groups stably sorted by ID. */
  function Normalized(x: LoadBalancer): (r: LoadBalancer)
    ensures SortedBy(r.subnets, RefId) && multiset(r.subnets) == multiset(x.subnets)
    ensures SortedBy(r.securityGroups, RefId) && multiset(r.securityGroups) == multiset(x.securityGroups)
    ensures r == x.(subnets := r.subnets, securityGroups := r.securityGroups)
  {
    StableSortSorted(x.subnets, RefId);
    StableSortSorted(x.securityGroups, RefId);
    x.(subnets := StableSortBy(x.subnets, RefId), securityGroups := StableSortBy(x.securityGroups, RefId))
  }

  /** Normalizing twice is normalizing once. */
  lemma NormalizedIdempotent(x: LoadBalancer)
    ensures Normalized(Normalized(x)) == Normalized(x)
  {
    StableSortIdempotent(x.subnets, RefId);
    StableSortIdempotent(x.securityGroups, RefId);
  }

  /** Normalizing keeps subnets and security groups with the same ID in their relative order. */
  lemma NormalizedStable(x: LoadBalancer, id: string)
    ensures WithKey(Normalized(x).subnets, RefId, id) == WithKey(x.subnets, RefId, id)
    ensures WithKey(Normalized(x).securityGroups, RefId, id) == WithKey(x.securityGroups, RefId, id)
  {
    StableSortKeepsTies(x.subnets, RefId, id);
    StableSortKeepsTies(x.securityGroups, RefId, id);
  }

  /** The attribute records `Find` builds from `elbtypes.LoadBalancerAttributes`. */
  function AccessLogOf(a: LbAttributes): AccessLog
  {
    AccessLog(a.accessLog.emitInterval, Some(a.accessLog.enabled), a.accessLog.s3BucketName, a.accessLog.s3BucketPrefix)
  }

  function ConnectionDrainingOf(a: LbAttributes): ConnectionDraining
  {
    ConnectionDraining(if a.connectionDraining.enabled then Some(true) else None, a.connectionDraining.timeout)
  }

  /**
    The actual state `Find` assembles for the ELB `lb` found under the desired task `e`'s Name
    tag, given its tags, health check and attributes, before it is normalized.
  */
  function Assembled(e: LoadBalancer, lb: LbDescription, tags: map<string, string>,
                     healthCheck: Option<HealthCheck>, attrs: Option<LbAttributes>): LoadBalancer
  {
    var subnets := RefsOf(lb.subnets);
    LoadBalancer(
      name := e.name,
      lifecycle := e.lifecycle,
      loadBalancerName := lb.loadBalancerName,
      dnsName := lb.dnsName,
      hostedZoneId := lb.canonicalHostedZoneNameId,
      subnets := if SameSubnets(subnets, e.subnets) then e.subnets else subnets,
      securityGroups := RefsOf(lb.securityGroups),
      listeners := ListenersFrom(lb.listeners),
      scheme := lb.scheme,
      healthCheck := healthCheck,
      accessLog := if attrs.Some? then Some(AccessLogOf(attrs.value)) else None,
      connectionDraining := if attrs.Some? then Some(ConnectionDrainingOf(attrs.value)) else None,
      connectionSettings := if attrs.Some? then Some(ConnectionSettings(attrs.value.idleTimeout)) else None,
      crossZoneLoadBalancing :=
        if attrs.Some? then Some(CrossZoneLoadBalancing(Some(attrs.value.crossZoneEnabled))) else None,
      sslCertificateId := "",
      tags := tags,
      shared := None,
      wellKnownServices := e.wellKnownServices)
  }

  /** The actual state `Find` returns: the assembled state, normalized. */
  function Discovered(e: LoadBalancer, lb: LbDescription, tags: map<string, string>,
                      healthCheck: Option<HealthCheck>, attrs: Option<LbAttributes>): LoadBalancer
  {
    Normalized(Assembled(e, lb, tags, healthCheck, attrs))
  }

  /** The identity `Find` copies onto the desired task from the actual one. */
  function Backfilled(e: LoadBalancer, actual: LoadBalancer): LoadBalancer
  {
    var name := if e.loadBalancerName.None? then actual.loadBalancerName else e.loadBalancerName;
    e.(dnsName := if e.dnsName.None? then actual.dnsName else e.dnsName,
       hostedZoneId := if e.hostedZoneId.None? then actual.hostedZoneId else e.hostedZoneId,
       loadBalancerName := if name.GetOr("") != actual.loadBalancerName.GetOr("") then actual.loadBalancerName else name)
  }

  /**
    The backfill: DNS name and hosted zone are filled only where unset; the load balancer
    name always ends up the actual one (up to a nil actual name read as the empty string);
    nothing else changes.
  */
  lemma BackfillSpec(e: LoadBalancer, actual: LoadBalancer)
    ensures var b := Backfilled(e, actual);
            b.dnsName == (if e.dnsName.Some? then e.dnsName else actual.dnsName)
            && b.hostedZoneId == (if e.hostedZoneId.Some? then e.hostedZoneId else actual.hostedZoneId)
            && b.loadBalancerName.GetOr("") == actual.loadBalancerName.GetOr("")
            && (b.loadBalancerName == actual.loadBalancerName
                || (b.loadBalancerName == Some("") && actual.loadBalancerName.None?))
            && b == e.(dnsName := b.dnsName, hostedZoneId := b.hostedZoneId, loadBalancerName := b.loadBalancerName)
  {
  }

  /**
    What discovery reports is already in canonical order, drops CloudFormation's tags, and
    keys every listener by a port both renderers can parse.
  */
  lemma DiscoveredSpec(e: LoadBalancer, lb: LbDescription, tagMap: map<string, seq<Tag>>,
                       healthCheck: Option<HealthCheck>, attrs: Option<LbAttributes>)
    ensures var actual := Discovered(e, lb, FoundTags(lb, tagMap), healthCheck, attrs);
            SortedBy(actual.subnets, RefId) && SortedBy(actual.securityGroups, RefId)
            && Normalized(actual) == actual
            && (forall k :: k in actual.tags ==> !HasPrefix(k, CloudFormationPrefix))
            && (forall k :: k in actual.listeners ==> ParseInt(k, 32).Some?)
            && actual.loadBalancerName == lb.loadBalancerName
  {
    var actual := Discovered(e, lb, FoundTags(lb, tagMap), healthCheck, attrs);
    forall k | k in actual.listeners ensures ParseInt(k, 32).Some? {
      ListenerKeysParse(lb.listeners, k);
    }
    StableSortOfSorted(actual.subnets, RefId);
    StableSortOfSorted(actual.securityGroups, RefId);
  }

  /**
    What `Find` returns, given the answers of the cloud calls it makes: the lookup by Name
    tag, `DescribeELBTags`, `findHealthCheck` and `findELBAttributes`. The first failing call
    ends it with that call's error; no ELB under the tag is "absent".
  */
  function FindOutcome(e: LoadBalancer, byNameTag: Result<Option<LbDescription>, Error>,
                       tagMap: Result<map<string, seq<Tag>>, Error>,
                       healthCheck: Result<Option<HealthCheck>, Error>,
                       attrs: Result<Option<LbAttributes>, Error>): Result<Option<LoadBalancer>, Error>
  {
    match byNameTag
    case Err(err) => Err(err)
    case Ok(None) => Ok(None)
    case Ok(Some(lb)) =>
      if lb.loadBalancerName.None? then Err(NilDereference("LoadBalancerName"))
      else if tagMap.Err? then Err(tagMap.error)
      else if healthCheck.Err? then Err(healthCheck.error)
      else if attrs.Err? then Err(attrs.error)
      else Ok(Some(Discovered(e, lb, FoundTags(lb, tagMap.value), healthCheck.value, attrs.value)))
  }

  /**
    The desired task after a successful `Find`: backfilled from the actual state; when the
    actual subnets were replaced by the desired slice, normalizing the actual state sorted
    that shared slice, so the desired subnets come out sorted too.
  */
  function DesiredAfterFind(e: LoadBalancer, lb: LbDescription, actual: LoadBalancer): LoadBalancer
  {
    var subnets := if SameSubnets(RefsOf(lb.subnets), e.subnets) then StableSortBy(e.subnets, RefId) else e.subnets;
    Backfilled(e.(subnets := subnets), actual)
  }

  /** The desired task after `Find`, computed in the order `Find` changes it. */
  lemma DesiredAfterFindSteps(e: LoadBalancer, lb: LbDescription, assembled: LoadBalancer)
    requires SameSubnets(RefsOf(lb.subnets), e.subnets) ==> assembled.subnets == e.subnets
    ensures var b := Backfilled(e, assembled);
            DesiredAfterFind(e, lb, Normalized(assembled))
            == if SameSubnets(RefsOf(lb.subnets), e.subnets) then b.(subnets := Normalized(assembled).subnets) else b
  {
  }

  // ------------------------------------------------------------------ references and ordering

  /**
    A `terraformWriter.Literal` of the load balancer: a known string value, or a reference
    `<kind>.<name>.<property>` to an attribute of a resource in the same configuration.
  */
  datatype Link = StringValue(s: string) | Property(kind: string, resource: string, property: string)

  /** The text of a reference. */
  function ReferenceText(l: Link): string
    requires l.Property?
  {
    l.kind + "." + l.resource + "." + l.property
  }

  /**
    `TerraformLink`: the name of a shared ELB as a string value, else a reference to the
    `aws_elb` resource's property, `id` by default. `None` stands for the fatal exit on a
    shared ELB without a name, or the panic on an owned one without a Name.
  */
  function TerraformLink(e: LoadBalancer, params: seq<string>): (r: Option<Link>)
    ensures e.shared.GetOr(false) ==> (r.Some? <==> e.loadBalancerName.Some?)
    ensures e.shared.GetOr(false) && r.Some? ==> r.value == StringValue(e.loadBalancerName.value)
    ensures !e.shared.GetOr(false) ==> (r.Some? <==> e.name.Some?)
    ensures !e.shared.GetOr(false) && r.Some? ==>
              r.value.Property? && ReferenceText(r.value)
              == "aws_elb." + e.name.value + "." + (if |params| > 0 then params[0] else "id")
  {
    if e.shared.GetOr(false) then
      if e.loadBalancerName.None? then None else Some(StringValue(e.loadBalancerName.value))
    else if e.name.None? then None
    else Some(Property("aws_elb", e.name.value, if |params| > 0 then params[0] else "id"))
  }

  /** `OrderLoadBalancersByName.Less`. */
  predicate LessByName(a: LoadBalancer, b: LoadBalancer)
  {
    Less(a.name.GetOr(""), b.name.GetOr(""))
  }

  /** The comparator is a strict weak order, as `sort.Sort` needs. */
  lemma LessByNameStrictWeakOrder(a: LoadBalancer, b: LoadBalancer, c: LoadBalancer)
    ensures !LessByName(a, a)
    ensures LessByName(a, b) ==> !LessByName(b, a)
    ensures LessByName(a, b) && LessByName(b, c) ==> LessByName(a, c)
    ensures !LessByName(a, b) && !LessByName(b, a) && !LessByName(b, c) && !LessByName(c, b) ==>
              !LessByName(a, c) && !LessByName(c, a)
  {
    var x, y, z := a.name.GetOr(""), b.name.GetOr(""), c.name.GetOr("");
    LessIrreflexive(x);
    LessAsymmetric(x, y);
    LessTransitive(x, y, z);
    LessTotal(x, y);
    LessTotal(y, z);
  }
}
