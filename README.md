# cdk-constructs: ExternalSecret facade and ProtectedCloudfront stack, in Dafny

This project models the two pieces of logic in the `cdk-constructs` repository.

- **The `ExternalSecret` facade** (`module ExternalSecrets`). It lowers an
  `ExternalSecretSource` into the spec of an `external-secrets.io/v1beta1`
  `ExternalSecret`. The spec has a `secretStoreRef` of kind `SecretStore`, the
  refresh interval (default `"1h"`), the target secret name, and one `data` entry
  per mapping. Each entry asks the provider for the mapping's key of the source
  secret. It stores the value under the mapping's value, or under the last
  `.`-separated segment of the key when the value is empty. The facade is pure, so
  the model is datatypes and functions. The `secret_mappings` dict is a sequence of
  `(key, value)` pairs in the dict's iteration order.
- **The `ProtectedCloudfrontStack`** (`module ProtectedCloudfront`). This stack puts
  a WAF-protected CloudFront distribution in front of an HTTP origin. The secret
  header value is `"{env_name}-{stack_name}"`. CloudFront sends it to the origin
  under `X-Secret-CF-ALB-Header`, and the stack publishes it as an output. The
  pure derivations are functions: the secret header and its map, the DNS record
  name, the WAF parameters, the log bucket and the two behaviours. The stack is a
  class whose constructor assigns its fields step by step. The distribution is a
  class too, because `add_behavior` adds a behaviour to it after it is created.
- **Python's `str.split`** (`module PyStr`). The facade and the stack both use it:
  `str(k).split(".")[-1]` and `domain.split('.')[0]`. `Split` models `split` with a
  one-character separator. `FirstSegment` and `LastSegment` are the two pieces the
  constructs take. Lemmas tie each one to `Split`, and prove that `Split` and
  `Join` are inverse to each other.

Values that exist only at deployment time are `Value.Token(construct, attribute)`.
These are the generated bucket name, the distribution id and domain name, and the
WAF web ACL ARN read through `RemoteOutputs`.

## Model

| member | source | states |
|---|---|---|
| `PyStr.Split` | ca_cdk_constructs/eks/external_secrets/external_secret.py:100 | `str.split` with a one-character separator never returns an empty list, and no piece contains the separator |
| `PyStr.JoinSplit` | ca_cdk_constructs/eks/external_secrets/external_secret.py:100 | splitting loses nothing: joining the pieces with the separator gives back the string |
| `PyStr.SplitJoin` | cdk_constructs/protected_cloudfront.py:115 | splitting a join of separator-free pieces gives back exactly those pieces |
| `PyStr.LastSegment` | ca_cdk_constructs/eks/external_secrets/external_secret.py:100 | `s.split(sep)[-1]` is the suffix of `s` that has no separator and is either all of `s` or preceded by a separator |
| `PyStr.LastSegmentIsSplitLast` | ca_cdk_constructs/eks/external_secrets/external_secret.py:100 | `LastSegment` is the last element of `Split` |
| `PyStr.FirstSegment` | cdk_constructs/protected_cloudfront.py:115 | `s.split(sep)[0]` is the prefix of `s` that has no separator and is either all of `s` or followed by a separator |
| `PyStr.FirstSegmentIsSplitHead` | cdk_constructs/protected_cloudfront.py:115 | `FirstSegment` is the first element of `Split` |
| `PyStr.SplitWithoutSeparator` | ca_cdk_constructs/eks/external_secrets/external_secret.py:100 | a string without the separator splits into just itself |
| `PyStr.SegmentsWithoutSeparator` | ca_cdk_constructs/eks/external_secrets/external_secret.py:99-101 | without a separator, the first and last segments are the whole string |
| `ExternalSecrets.NewSource` | ca_cdk_constructs/eks/external_secrets/external_secret.py:34-37 | a source built without a refresh interval gets `"1h"`, and the other fields are kept as given |
| `ExternalSecrets.SecretKey` | ca_cdk_constructs/eks/external_secrets/external_secret.py:99-101 | a non-empty target key is taken verbatim; an empty one falls back to the dot-free suffix of the provider key after its last dot, which is the whole key when it has no dot |
| `ExternalSecrets.ExternalSecret.K8sSecretName` | ca_cdk_constructs/eks/external_secrets/external_secret.py:108-110 | the read-only property returns the name the emitted resource targets; `NewExternalSecret` establishes that it equals the source's `k8s_secret_name` |
| `ExternalSecrets.DataEntry` | ca_cdk_constructs/eks/external_secrets/external_secret.py:93-102 | one `data` element: `remoteRef` is `(source_secret, k)`; the secret key is a non-empty `v` verbatim, otherwise the dot-free suffix of `k` after its last dot, which is all of `k` when it has no dot |
| `ExternalSecrets.Data` | ca_cdk_constructs/eks/external_secrets/external_secret.py:92-104 | one entry per mapping, in iteration order; entry `i` reads property `k_i` of the source secret into `SecretKey(k_i, v_i)` |
| `ExternalSecrets.NewExternalSecret` | ca_cdk_constructs/eks/external_secrets/external_secret.py:70-110 | store ref is `(store_name, "SecretStore")`; refresh interval copied; `target.name`, the source's `k8s_secret_name` and the `k8s_secret_name` property agree; `data` has one entry per mapping, each pointing at `source_secret` and its key |
| `ExternalSecrets.DataAppend` | ca_cdk_constructs/eks/external_secrets/external_secret.py:92-104 | the comprehension distributes over concatenation, so entries keep the mappings' order |
| `ExternalSecrets.DataEntryFor` | ca_cdk_constructs/eks/external_secrets/external_secret.py:95-100 | for each mapping `k: v`, the entry's `remoteRef` is `(source_secret, k)` with a dotted `k` unchanged, and its secret key is `v` or `k.split(".")[-1]` |
| `ExternalSecrets.SecretKeyFallbackIsSplitLast` | ca_cdk_constructs/eks/external_secrets/external_secret.py:100 | the fallback key is exactly the last element of `k.split(".")` |
| `ExternalSecrets.DistinctProperties` | ca_cdk_constructs/eks/external_secrets/external_secret.py:97-103 | distinct dict keys give entries that ask for distinct provider properties |
| `ExternalSecrets.ExplicitSecretKeys` | ca_cdk_constructs/eks/external_secrets/external_secret.py:99 | when every mapping names its target, the secret keys are exactly the mapping values, in order |
| `ExternalSecrets.NestedKeyExample` | ca_cdk_constructs/eks/external_secrets/external_secret.py:99-101 | `KEY.SUBKEY` with no target becomes `SUBKEY`; an undotted key stays itself; an explicit target wins |
| `ExternalSecrets.MappingExample` | ca_cdk_constructs/eks/external_secrets/external_secret.py:81-104 | `{"K.S": "", "K2": "T2"}` gives entries `(K.S → S)` and `(K2 → T2)` from the same source secret, refreshed every `1h` |
| `ProtectedCloudfront.SecretHeaderFor` | cdk_constructs/protected_cloudfront.py:61 | the header value is the env name, a `-`, then the stack name |
| `ProtectedCloudfront.SecretHeaderMap` | cdk_constructs/protected_cloudfront.py:130-131 | a one-entry map whose only key is `X-Secret-CF-ALB-Header`, holding the given value |
| `ProtectedCloudfront.DomainPrefix` | cdk_constructs/protected_cloudfront.py:115 | the record name is the dot-free prefix of `domain` before its first dot, or the whole domain if it has no dot |
| `ProtectedCloudfront.DomainPrefixIsFirstLabel` | cdk_constructs/protected_cloudfront.py:115 | the record name is `domain.split('.')[0]` |
| `ProtectedCloudfront.DomainPrefixExample` | cdk_constructs/protected_cloudfront.py:115-120 | `app.example.com` gets the record name `app` |
| `ProtectedCloudfront.AccessLogsBucket` | cdk_constructs/protected_cloudfront.py:30-35 | the log bucket has a generated name, is destroyed with the stack, and expires objects after 186 days |
| `ProtectedCloudfront.WafParams` | cdk_constructs/protected_cloudfront.py:42-51 | exactly the eight template parameters; `AppAccessLogBucket` is the log bucket's name |
| `ProtectedCloudfront.WafParamsSwitches` | cdk_constructs/protected_cloudfront.py:42-51 | every `Activate*` switch is `"True"` except `ActivateBadBotProtectionParam`, which is `"False"`; the only other parameter is the log bucket's name |
| `ProtectedCloudfront.WafStackFor` | cdk_constructs/protected_cloudfront.py:38-52 | the WAF stack is in `us-east-1`, does not log requests, and its parameters are exactly `WafParams` of the log bucket's name, so it gets that name and leaves bad-bot protection off |
| `ProtectedCloudfront.AssetsOriginRequestPolicy` | cdk_constructs/protected_cloudfront.py:71-77 | the assets policy forwards only the `Host` header, with no cookies and no query strings |
| `ProtectedCloudfront.DefaultBehavior` | cdk_constructs/protected_cloudfront.py:89-96 | the default behaviour sends to the given origin, compresses, uses `CACHING_DISABLED` and `ALL_VIEWER`, allows all methods, caches GET/HEAD and redirects HTTP to HTTPS |
| `ProtectedCloudfront.AssetsBehavior` | cdk_constructs/protected_cloudfront.py:98-105 | the `/assets/*` behaviour sends to the given origin, compresses, uses `CACHING_OPTIMIZED` and the given origin request policy, allows and caches GET/HEAD only, and redirects HTTP to HTTPS |
| `ProtectedCloudfront.BehaviorsDiffer` | cdk_constructs/protected_cloudfront.py:89-105 | both behaviours use the same origin, compress, cache GET/HEAD and redirect to HTTPS. The default one uses `CACHING_DISABLED`, `ALL_VIEWER` and all methods. The assets one uses `CACHING_OPTIMIZED`, the Host-only policy and GET/HEAD only |
| `ProtectedCloudfront.GeoAllowlistExact` | cdk_constructs/protected_cloudfront.py:88 | the geo allowlist is exactly `{GB, JE, GG}`, with no repeats |
| `ProtectedCloudfront.Distribution.constructor` | cdk_constructs/protected_cloudfront.py:79-96 | a new distribution holds the given settings and has no extra behaviours |
| `ProtectedCloudfront.Distribution.AddBehavior` | cdk_constructs/protected_cloudfront.py:98-105 | `add_behavior` appends one `(path pattern, behaviour)` pair and changes nothing else |
| `ProtectedCloudfront.Distribution.DistributionId` | cdk_constructs/protected_cloudfront.py:111 | the distribution id is the deploy-time `DistributionId` token of this distribution |
| `ProtectedCloudfront.Distribution.DistributionDomainName` | cdk_constructs/protected_cloudfront.py:112 | the distribution domain is the deploy-time `DomainName` token of this distribution, distinct from its id |
| `ProtectedCloudfront.ProtectedCloudfrontStack.constructor` | cdk_constructs/protected_cloudfront.py:20-121 | the stack's state after construction: context, env name, secret header, log bucket, WAF stack, certificate in `us-east-1`, a distribution with geo allowlist, log bucket, WAF ACL and default behaviour, then one `/assets/*` behaviour, the three outputs, and the DNS record `DomainPrefix(domain)` aliasing the distribution |
| `ProtectedCloudfront.ProtectedCloudfrontStack.Create` | cdk_constructs/protected_cloudfront.py:23-24 | construction fails with `KeyError("env_name")` exactly when the context lacks `env_name`; otherwise the stack is valid and its secret header is `env_name-stack_name` |
| `ProtectedCloudfront.ProtectedCloudfrontStack.Cdn` | cdk_constructs/protected_cloudfront.py:123-125 | returns the stack's own distribution, the one whose origin sends the secret header |
| `ProtectedCloudfront.ProtectedCloudfrontStack.SecretHeaderValue` | cdk_constructs/protected_cloudfront.py:127-128 | the value is `env_name-stack_name`. It is the same value the origin's custom header carries and the `SecretHeaderArn` output publishes |
| `ProtectedCloudfront.ProtectedCloudfrontStack.SecretHeader` | cdk_constructs/protected_cloudfront.py:130-131 | a one-entry map from `X-Secret-CF-ALB-Header` to `SecretHeaderValue()`, and the origin's custom headers are exactly this map |

## Left out

- `metadata` of the `ExternalSecret` is passed through unchanged and is not modelled.
- The cdk8s and AWS CDK constructs themselves are not modelled. Their settings are records, and the model does not say what the libraries do with them.
- `RemoteOutputs` is not modelled. The WAF web ACL ARN it fetches is the opaque token `Token("Outputs", "WAFWebACLArn")`.
- `WafStack` (`cdk_constructs/waf`) is not part of this model. Only the arguments the stack passes to it are recorded.
- `cdn.node.add_dependency(waf)` is not modelled. It only orders deployment in the external engine.
- The deploy-time values of the distribution id, the distribution domain and the generated bucket name are tokens, not strings.
- `stack_name` is taken as given. How CDK derives it from the construct id, the scope and an optional `stack_name` keyword is not modelled.
- `ProtectedCloudfrontStack.constructor` requires `env_name` in the context. The `KeyError` the code raises otherwise is modelled by `Create`.
- `env_context` is a map from strings to strings. In the code it is an untyped dict, and `env_name` is formatted with `str()`.
- The secret-mapping values are strings. A `None` value, which the type hint rules out, would also take the fallback in the code.
- Neither construct validates that `k8s_secret_name` is DNS-compliant or that names are unique, and the model does not either. The usage comment at external_secret.py:55 says `k8s_secret_name` defaults to a name derived from `source_secret`. The code has no such default: the field is required. The model follows the code.
- `PyStr.Split` models `split` with a one-character separator only. That is the only form the constructs use.
