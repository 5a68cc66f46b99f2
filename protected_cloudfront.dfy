/** `ProtectedCloudfrontStack`: a WAF-protected CloudFront distribution in front of an
    HTTP origin. Every request CloudFront forwards carries a "secret" header whose
    value only this stack knows, so that the origin's load balancer can reject traffic
    that bypasses CloudFront. The resources are modelled as plain records of the
    settings the stack chooses; what the deployment engine later does with them is not. */
module ProtectedCloudfront {
  import PyStr
  import opened Wrappers

  /** `ProtectedCloudfrontStack.SECRET_HEADER_NAME`. */
  const SecretHeaderName: string := "X-Secret-CF-ALB-Header"

  /** The key of `env_context` that names the environment. */
  const EnvNameKey: string := "env_name"

  /** The region of the WAF stack and of the certificate (CloudFront's region). */
  const UsEast1: string := "us-east-1"

  /** Path pattern of the cache-friendly static-asset behaviour. */
  const AssetsPathPattern: string := "/assets/*"

  /** Days after which the access-log bucket expires objects: six months of 31 days. */
  const LogExpirationDays: nat := 31 * 6

  /** Countries the distribution serves: the UK, Jersey and Guernsey. */
  const GeoAllowlist: seq<string> := ["GB", "JE", "GG"]

  /** Name of the output that publishes the secret header value. */
  const SecretHeaderOutputId: string := "SecretHeaderArn"

  /** WAF stack parameters. The switches share the prefix `Activate`. */
  const ActivatePrefix: string := "Activate"
  const ActivateAwsManagedRules: string := ActivatePrefix + "AWSManagedRulesParam"
  const ActivateSqlInjection: string := ActivatePrefix + "SqlInjectionProtectionParam"
  const ActivateCrossSiteScripting: string := ActivatePrefix + "CrossSiteScriptingProtectionParam"
  const ActivateHttpFlood: string := ActivatePrefix + "HttpFloodProtectionParam"
  const ActivateScannersProbes: string := ActivatePrefix + "ScannersProbesProtectionParam"
  const ActivateReputationLists: string := ActivatePrefix + "ReputationListsProtectionParam"
  const ActivateBadBot: string := ActivatePrefix + "BadBotProtectionParam"
  const AppAccessLogBucket: string := "AppAccessLogBucket"

  /** A setting's value: a string known now, or an attribute of a construct that is
      only resolved at deployment time (a generated bucket name, a distribution id,
      an output of another stack). */
  datatype Value = Literal(text: string) | Token(construct: string, attribute: string)

  /** The key error `env_context['env_name']` raises when the key is missing. */
  datatype LookupError = KeyError(key: string)

  /** A Route 53 hosted zone, passed in by the caller. */
  datatype HostedZone = HostedZone(zoneName: string)

  datatype RemovalPolicy = Destroy | Retain | Snapshot
  datatype LifecycleRule = LifecycleRule(enabled: bool, expirationDays: nat)
  datatype Bucket = Bucket(
    id: string,
    bucketName: Value,
    removalPolicy: RemovalPolicy,
    lifecycleRules: seq<LifecycleRule>)

  datatype WafStack = WafStack(id: string, logRequests: bool, params: map<string, Value>, region: string)

  datatype Certificate = DnsValidatedCertificate(
    id: string,
    domainName: string,
    region: string,
    hostedZone: HostedZone)

  datatype HttpOrigin = HttpOrigin(domainName: string, customHeaders: map<string, string>)

  datatype CookieBehavior = NoCookies | AllCookies
  datatype QueryStringBehavior = NoQueryStrings | AllQueryStrings
  datatype OriginRequestPolicy =
    | AllViewer
    | CustomOriginRequestPolicy(
        id: string,
        comment: string,
        headerAllowList: seq<string>,
        cookieBehavior: CookieBehavior,
        queryStringBehavior: QueryStringBehavior)

  datatype CachePolicy = CachingDisabled | CachingOptimized
  datatype AllowedMethods = AllowAll | AllowGetHead | AllowGetHeadOptions
  datatype CachedMethods = CacheGetHead | CacheGetHeadOptions
  datatype ViewerProtocolPolicy = RedirectToHttps | HttpsOnly | AllowAllProtocols

  datatype Behavior = Behavior(
    origin: HttpOrigin,
    compress: bool,
    allowedMethods: AllowedMethods,
    cachedMethods: CachedMethods,
    cachePolicy: CachePolicy,
    originRequestPolicy: OriginRequestPolicy,
    viewerProtocolPolicy: ViewerProtocolPolicy)

  datatype GeoRestriction = Allowlist(locations: seq<string>) | Denylist(locations: seq<string>)

  datatype CfnOutput = CfnOutput(id: string, value: Value)

  /** `f"{env_name}-{stack_name}"`. */
  function SecretHeaderFor(envName: string, stackName: string): (header: string)
    ensures |header| == |envName| + 1 + |stackName|
    ensures header[..|envName|] == envName
    ensures header[|envName|] == '-'
    ensures header[|envName| + 1..] == stackName
  {
    envName + "-" + stackName
  }

  /** `{SECRET_HEADER_NAME: secret_header}`. */
  function SecretHeaderMap(header: string): (headers: map<string, string>)
    ensures headers.Keys == {SecretHeaderName}
    ensures headers[SecretHeaderName] == header
  {
    map[SecretHeaderName := header]
  }

  /** `domain.split('.')[0]`: the DNS record name under the hosted zone. */
  function DomainPrefix(domain: string): (prefix: string)
    ensures |prefix| <= |domain| && prefix == domain[..|prefix|]
    ensures '.' !in prefix
    ensures |prefix| < |domain| ==> domain[|prefix|] == '.'
    ensures '.' !in domain ==> prefix == domain
  {
    PyStr.FirstSegment(domain, '.')
  }

  lemma DomainPrefixIsFirstLabel(domain: string)
    ensures DomainPrefix(domain) == PyStr.Split(domain, '.')[0]
  {
    PyStr.FirstSegmentIsSplitHead(domain, '.');
  }

  lemma DomainPrefixExample()
    ensures DomainPrefix("app.example.com") == "app"
  {
    var domain := "app.example.com";
    var prefix := DomainPrefix(domain);
    assert domain[3] == '.' && '.' !in domain[..3];
    assert prefix == domain[..3];
  }

  /** The access-log bucket: a generated name, destroyed with the stack, objects
      expired after six months. */
  function AccessLogsBucket(): (bucket: Bucket)
    ensures bucket.bucketName.Token?
    ensures bucket.removalPolicy == Destroy
    ensures bucket.lifecycleRules == [LifecycleRule(true, 186)]
  {
    Bucket("CloudfrontLogBucket", Token("CloudfrontLogBucket", "BucketName"), Destroy,
      [LifecycleRule(true, LogExpirationDays)])
  }

  /** Whether a WAF parameter switches a protection on or off. */
  predicate IsActivateFlag(name: string)
  {
    |name| >= |ActivatePrefix| && name[..|ActivatePrefix|] == ActivatePrefix
  }

  /** The parameters of the WAF automations template. */
  function WafParams(logBucketName: Value): (params: map<string, Value>)
    ensures params.Keys == {
      ActivateAwsManagedRules, ActivateSqlInjection, ActivateCrossSiteScripting,
      ActivateHttpFlood, ActivateScannersProbes, ActivateReputationLists,
      ActivateBadBot, AppAccessLogBucket}
    ensures params[AppAccessLogBucket] == logBucketName
  {
    map[
      ActivateAwsManagedRules := Literal("True"),
      ActivateSqlInjection := Literal("True"),
      ActivateCrossSiteScripting := Literal("True"),
      ActivateHttpFlood := Literal("True"),
      ActivateScannersProbes := Literal("True"),
      ActivateReputationLists := Literal("True"),
      ActivateBadBot := Literal("False"),
      AppAccessLogBucket := logBucketName]
  }

  /** Every protection the template offers is switched on except bad-bot protection;
      the one parameter that is not a switch names the access-log bucket. */
  lemma WafParamsSwitches(logBucketName: Value)
    ensures var params := WafParams(logBucketName);
      forall name :: name in params && IsActivateFlag(name) ==>
        params[name] == Literal(if name == ActivateBadBot then "False" else "True")
    ensures var params := WafParams(logBucketName);
      forall name :: name in params && !IsActivateFlag(name) ==>
        name == AppAccessLogBucket && params[name] == logBucketName
  {
    var params := WafParams(logBucketName);
    forall name | name in params
      ensures IsActivateFlag(name) ==>
        params[name] == Literal(if name == ActivateBadBot then "False" else "True")
      ensures !IsActivateFlag(name) ==> name == AppAccessLogBucket && params[name] == logBucketName
    {
      if name == AppAccessLogBucket {
        assert name[1] == 'p' != ActivatePrefix[1];
      } else {
        var rest := name[|ActivatePrefix|..];
        assert name == ActivatePrefix + rest;
        assert (ActivatePrefix + rest)[..|ActivatePrefix|] == ActivatePrefix;
      }
    }
  }

  /** The WAF stack, in us-east-1, logging its access to the log bucket. */
  function WafStackFor(logBucket: Bucket): (waf: WafStack)
    ensures waf.region == UsEast1 && !waf.logRequests
    ensures AppAccessLogBucket in waf.params && waf.params[AppAccessLogBucket] == logBucket.bucketName
    ensures ActivateBadBot in waf.params && waf.params[ActivateBadBot] == Literal("False")
    ensures waf.params == WafParams(logBucket.bucketName)
  {
    WafStack("WafStack", false, WafParams(logBucket.bucketName), UsEast1)
  }

  /** The origin request policy of the static-asset path: forward the Host header only. */
  function AssetsOriginRequestPolicy(): (policy: OriginRequestPolicy)
    ensures policy.CustomOriginRequestPolicy?
    ensures policy.headerAllowList == ["Host"]
    ensures policy.cookieBehavior == NoCookies && policy.queryStringBehavior == NoQueryStrings
  {
    CustomOriginRequestPolicy("StaticAssetsOriginRequestPolicy", "Forward the Host header for assets",
      ["Host"], NoCookies, NoQueryStrings)
  }

  /** The default behaviour: dynamic content, nothing cached, every viewer header forwarded. */
  function DefaultBehavior(origin: HttpOrigin): (behavior: Behavior)
    ensures behavior.origin == origin && behavior.compress
    ensures behavior.cachePolicy == CachingDisabled && behavior.originRequestPolicy == AllViewer
    ensures behavior.allowedMethods == AllowAll && behavior.cachedMethods == CacheGetHead
    ensures behavior.viewerProtocolPolicy == RedirectToHttps
  {
    Behavior(origin, true, AllowAll, CacheGetHead, CachingDisabled, AllViewer, RedirectToHttps)
  }

  /** The static-asset behaviour: static content, cached, only GET and HEAD. */
  function AssetsBehavior(origin: HttpOrigin, policy: OriginRequestPolicy): (behavior: Behavior)
    ensures behavior.origin == origin && behavior.compress
    ensures behavior.cachePolicy == CachingOptimized && behavior.originRequestPolicy == policy
    ensures behavior.allowedMethods == AllowGetHead && behavior.cachedMethods == CacheGetHead
    ensures behavior.viewerProtocolPolicy == RedirectToHttps
  {
    Behavior(origin, true, AllowGetHead, CacheGetHead, CachingOptimized, policy, RedirectToHttps)
  }

  /** The two behaviours share the origin and redirect HTTP to HTTPS; they differ in
      cache policy, origin request policy and allowed methods, never swapped. */
  lemma BehaviorsDiffer(origin: HttpOrigin)
    ensures var dflt, assets := DefaultBehavior(origin), AssetsBehavior(origin, AssetsOriginRequestPolicy());
      && dflt.origin == assets.origin == origin
      && dflt.viewerProtocolPolicy == assets.viewerProtocolPolicy == RedirectToHttps
      && dflt.compress && assets.compress
      && dflt.cachedMethods == assets.cachedMethods == CacheGetHead
      && dflt.cachePolicy == CachingDisabled && assets.cachePolicy == CachingOptimized
      && dflt.originRequestPolicy == AllViewer
      && assets.originRequestPolicy.CustomOriginRequestPolicy?
      && assets.originRequestPolicy.headerAllowList == ["Host"]
      && dflt.allowedMethods == AllowAll && assets.allowedMethods == AllowGetHead
  {
  }

  lemma GeoAllowlistExact()
    ensures (set c | c in GeoAllowlist) == {"GB", "JE", "GG"}
    ensures forall i, j :: 0 <= i < j < |GeoAllowlist| ==> GeoAllowlist[i] != GeoAllowlist[j]
  {
  }

  /** `cloudfront.Distribution`: its settings are fixed when it is created; behaviours
      for further path patterns are added afterwards with `AddBehavior`. */
  class Distribution {
    const id: string
    const domainNames: seq<string>
    const enableLogging: bool
    const logBucket: Bucket
    const certificate: Certificate
    const webAclId: Value
    const comment: string
    const geoRestriction: GeoRestriction
    const defaultBehavior: Behavior
    var additionalBehaviors: seq<(string, Behavior)>

    constructor (id: string, domainNames: seq<string>, enableLogging: bool, logBucket: Bucket,
                 certificate: Certificate, webAclId: Value, comment: string,
                 geoRestriction: GeoRestriction, defaultBehavior: Behavior)
      ensures this.id == id && this.domainNames == domainNames
      ensures this.enableLogging == enableLogging && this.logBucket == logBucket
      ensures this.certificate == certificate && this.webAclId == webAclId
      ensures this.comment == comment && this.geoRestriction == geoRestriction
      ensures this.defaultBehavior == defaultBehavior
      ensures additionalBehaviors == []
    {
      this.id := id;
      this.domainNames := domainNames;
      this.enableLogging := enableLogging;
      this.logBucket := logBucket;
      this.certificate := certificate;
      this.webAclId := webAclId;
      this.comment := comment;
      this.geoRestriction := geoRestriction;
      this.defaultBehavior := defaultBehavior;
      additionalBehaviors := [];
    }

    /** `add_behavior(path_pattern, origin, **options)`. */
    method AddBehavior(pathPattern: string, behavior: Behavior)
      modifies this
      ensures additionalBehaviors == old(additionalBehaviors) + [(pathPattern, behavior)]
    {
      additionalBehaviors := additionalBehaviors + [(pathPattern, behavior)];
    }

    /** `distribution_id`, resolved at deployment. */
    function DistributionId(): (v: Value)
      ensures v.Token? && v.construct == id && v.attribute == "DistributionId"
    {
      Token(id, "DistributionId")
    }

    /** `distribution_domain_name`, resolved at deployment. */
    function DistributionDomainName(): (v: Value)
      ensures v.Token? && v.construct == id && v.attribute == "DomainName"
      ensures v != DistributionId()
    {
      Token(id, "DomainName")
    }
  }

  /** `r53.ARecord` aliasing a name in the zone to a distribution. */
  datatype ARecord = ARecord(id: string, zone: HostedZone, recordName: string, target: Distribution)

  class ProtectedCloudfrontStack {
    const stackName: string
    const context: map<string, string>
    const envName: string
    const secretHeader: string
    /** `_cdn` */
    const cdnDistribution: Distribution
    // The other constructs the stack adds to its construct tree.
    const accessLogsBucket: Bucket
    const waf: WafStack
    const certificate: Certificate
    const assetsOriginRequestPolicy: OriginRequestPolicy
    const outputs: seq<CfnOutput>
    const dnsRecord: ARecord

    /** What construction establishes and the accessors rely on: the secret header is
        derived from the environment and stack names and is the one the origin sends
        and the output publishes. */
    ghost predicate Valid()
      reads this
    {
      && EnvNameKey in context
      && envName == context[EnvNameKey]
      && secretHeader == SecretHeaderFor(envName, stackName)
      && cdnDistribution.defaultBehavior.origin.customHeaders == SecretHeaderMap(secretHeader)
      && CfnOutput(SecretHeaderOutputId, Literal(secretHeader)) in outputs
    }

    /** `ProtectedCloudfrontStack(scope, construct_id, hosted_zone, domain,
        origin_domain, env_context)`, when `env_context` has an `env_name`. */
    constructor (stackName: string, hostedZone: HostedZone, domain: string, originDomain: string,
                 envContext: map<string, string>)
      requires EnvNameKey in envContext
      ensures Valid()
      ensures this.stackName == stackName && context == envContext
      ensures envName == envContext[EnvNameKey]
      ensures secretHeader == envName + "-" + stackName
      ensures accessLogsBucket == AccessLogsBucket()
      ensures waf == WafStackFor(accessLogsBucket)
      ensures certificate == DnsValidatedCertificate("CloudfrontCertificate", domain, UsEast1, hostedZone)
      ensures assetsOriginRequestPolicy == AssetsOriginRequestPolicy()
      ensures fresh(cdnDistribution)
      ensures cdnDistribution.domainNames == [domain]
      ensures cdnDistribution.enableLogging && cdnDistribution.logBucket == accessLogsBucket
      ensures cdnDistribution.certificate == certificate
      ensures cdnDistribution.webAclId == Token("Outputs", "WAFWebACLArn")
      ensures cdnDistribution.comment == "CDN for " + stackName
      ensures cdnDistribution.geoRestriction == Allowlist(GeoAllowlist)
      ensures cdnDistribution.defaultBehavior
        == DefaultBehavior(HttpOrigin(originDomain, SecretHeaderMap(secretHeader)))
      ensures cdnDistribution.additionalBehaviors == [(AssetsPathPattern,
        AssetsBehavior(HttpOrigin(originDomain, SecretHeaderMap(secretHeader)), assetsOriginRequestPolicy))]
      ensures outputs == [
        CfnOutput("CloudfrontDistributionId", cdnDistribution.DistributionId()),
        CfnOutput("CloudfrontDistributionDomain", cdnDistribution.DistributionDomainName()),
        CfnOutput(SecretHeaderOutputId, Literal(secretHeader))]
      ensures dnsRecord == ARecord("CloudfrontDNS", hostedZone, DomainPrefix(domain), cdnDistribution)
    {
      this.stackName := stackName;
      context := envContext;
      var name := envContext[EnvNameKey];
      envName := name;
      var logs := AccessLogsBucket();
      accessLogsBucket := logs;
      waf := WafStackFor(logs);
      var header := SecretHeaderFor(name, stackName);
      secretHeader := header;
      var cert := DnsValidatedCertificate("CloudfrontCertificate", domain, UsEast1, hostedZone);
      certificate := cert;
      var httpOrigin := HttpOrigin(originDomain, SecretHeaderMap(header));
      var assetsPolicy := AssetsOriginRequestPolicy();
      assetsOriginRequestPolicy := assetsPolicy;
      var cdn := new Distribution("CdnDistribution", [domain], true, logs, cert,
        Token("Outputs", "WAFWebACLArn"), "CDN for " + stackName,
        Allowlist(GeoAllowlist), DefaultBehavior(httpOrigin));
      cdn.AddBehavior(AssetsPathPattern, AssetsBehavior(httpOrigin, assetsPolicy));
      cdnDistribution := cdn;
      outputs := [
        CfnOutput("CloudfrontDistributionId", cdn.DistributionId()),
        CfnOutput("CloudfrontDistributionDomain", cdn.DistributionDomainName()),
        CfnOutput(SecretHeaderOutputId, Literal(header))];
      dnsRecord := ARecord("CloudfrontDNS", hostedZone, DomainPrefix(domain), cdn);
    }

    /** Construction with the `env_context['env_name']` lookup's failure made explicit:
        a missing key raises `KeyError` after the stack itself is registered in its
        scope but before any of the stack's resources is created. */
    static method Create(stackName: string, hostedZone: HostedZone, domain: string,
                         originDomain: string, envContext: map<string, string>)
      returns (r: Result<ProtectedCloudfrontStack, LookupError>)
      ensures EnvNameKey !in envContext <==> r.Failure?
      ensures r.Failure? ==> r.error == KeyError(EnvNameKey)
      ensures r.Success? ==> fresh(r.value) && r.value.Valid()
      ensures r.Success? ==> r.value.stackName == stackName && r.value.context == envContext
      ensures r.Success? ==> r.value.secretHeader == envContext[EnvNameKey] + "-" + stackName
      ensures r.Success? ==> r.value.dnsRecord.recordName == DomainPrefix(domain)
    {
      if EnvNameKey !in envContext {
        r := Failure(KeyError(EnvNameKey));
      } else {
        var stack := new ProtectedCloudfrontStack(stackName, hostedZone, domain, originDomain, envContext);
        r := Success(stack);
      }
    }

    /** `cdn()`: the distribution, whose origin sends the secret header. */
    function Cdn(): (cdn: Distribution)
      reads this
      requires Valid()
      ensures cdn == cdnDistribution
      ensures cdn.defaultBehavior.origin.customHeaders == SecretHeaderMap(secretHeader)
    {
      cdnDistribution
    }

    /** `secretHeaderValue()`: `"{env_name}-{stack_name}"`, the value the origin
        receives and the `SecretHeaderArn` output publishes. */
    function SecretHeaderValue(): (header: string)
      reads this
      requires Valid()
      ensures header == SecretHeaderFor(envName, stackName)
      ensures header == cdnDistribution.defaultBehavior.origin.customHeaders[SecretHeaderName]
      ensures CfnOutput(SecretHeaderOutputId, Literal(header)) in outputs
    {
      secretHeader
    }

    /** `secretHeader()`: the one-entry header map, for configuring further origins. */
    function SecretHeader(): (headers: map<string, string>)
      reads this
      requires Valid()
      ensures headers.Keys == {SecretHeaderName}
      ensures headers[SecretHeaderName] == SecretHeaderValue()
      ensures headers == cdnDistribution.defaultBehavior.origin.customHeaders
    {
      map[SecretHeaderName := secretHeader]
    }
  }
}
