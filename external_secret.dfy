/** The `ExternalSecret` facade: it lowers an `ExternalSecretSource` into the spec of
    an `external-secrets.io/v1beta1` `ExternalSecret` that reads from an existing
    secret store. */
module ExternalSecrets {
  import PyStr

  /** Default of `ExternalSecretSource.refresh_interval`. */
  const DefaultRefreshInterval: string := "1h"

  /** The kind of store every generated `secretStoreRef` points at. */
  const SecretStoreKind: string := "SecretStore"

  /** Separator of nested provider keys such as `KEY.SUBKEY`. */
  const KeySeparator: char := '.'

  /** One entry of `secret_mappings`: provider property key, target key in the
      Kubernetes secret ("" means "derive it from the provider key"). */
  type Mapping = (string, string)

  /** `ExternalSecretSource`. The dict `secret_mappings` is a sequence of pairs in
      the dict's iteration order; a dict's keys are distinct (see `DistinctKeys`). */
  datatype ExternalSecretSource = ExternalSecretSource(
    sourceSecret: string,
    k8sSecretName: string,
    secretMappings: seq<Mapping>,
    refreshInterval: string)

  /** The keys of a dict are pairwise distinct. */
  predicate DistinctKeys(mappings: seq<Mapping>)
  {
    forall i, j :: 0 <= i < j < |mappings| ==> mappings[i].0 != mappings[j].0
  }

  /** `ExternalSecretSource(source_secret, k8s_secret_name, secret_mappings)` with the
      refresh interval left at its default. */
  function NewSource(sourceSecret: string, k8sSecretName: string, secretMappings: seq<Mapping>)
    : (source: ExternalSecretSource)
    ensures source.refreshInterval == DefaultRefreshInterval == "1h"
    ensures source.sourceSecret == sourceSecret && source.k8sSecretName == k8sSecretName
    ensures source.secretMappings == secretMappings
  {
    ExternalSecretSource(sourceSecret, k8sSecretName, secretMappings, DefaultRefreshInterval)
  }

  datatype SecretStoreRef = SecretStoreRef(name: string, kind: string)
  datatype RemoteRef = RemoteRef(key: string, property: string)
  datatype SpecData = SpecData(remoteRef: RemoteRef, secretKey: string)
  datatype SpecTarget = SpecTarget(name: string)

  /** `ExternalSecretV1Beta1Spec`, restricted to the fields the facade sets. */
  datatype Spec = Spec(
    secretStoreRef: SecretStoreRef,
    refreshInterval: string,
    target: SpecTarget,
    data: seq<SpecData>)

  /** The facade construct: the name it remembers and the resource it emits. */
  datatype ExternalSecret = ExternalSecret(rememberedK8sSecretName: string, spec: Spec)
  {
    /** What `__init__` establishes: the remembered name is the one the emitted
        resource targets, and the store reference is of kind `SecretStore`. */
    predicate WellFormed()
    {
      spec.target.name == rememberedK8sSecretName && spec.secretStoreRef.kind == SecretStoreKind
    }

    /** The read-only `k8s_secret_name` property: the name of the Kubernetes secret
        the emitted resource writes to. */
    function K8sSecretName(): (name: string)
      ensures WellFormed() ==> name == spec.target.name
    {
      rememberedK8sSecretName
    }
  }

  /** `v or str(k).split(".")[-1]`: the key in the Kubernetes secret for the mapping
      `k: v`. A non-empty `v` is taken verbatim; the empty string, the only falsy
      `str`, falls back to the part of `k` after its last dot. */
  function SecretKey(k: string, v: string): (key: string)
    ensures v != "" ==> key == v
    ensures v == "" ==> |key| <= |k| && key == k[|k| - |key|..]
    ensures v == "" ==> KeySeparator !in key
    ensures v == "" && |key| < |k| ==> k[|k| - |key| - 1] == KeySeparator
    ensures v == "" && KeySeparator !in k ==> key == k
  {
    if v != "" then v else PyStr.LastSegment(k, KeySeparator)
  }

  /** One element of the `data` comprehension. */
  function DataEntry(sourceSecret: string, m: Mapping): (entry: SpecData)
    ensures entry.remoteRef.key == sourceSecret && entry.remoteRef.property == m.0
    ensures m.1 != "" ==> entry.secretKey == m.1
    ensures m.1 == "" ==> |entry.secretKey| <= |m.0| && entry.secretKey == m.0[|m.0| - |entry.secretKey|..]
    ensures m.1 == "" ==> KeySeparator !in entry.secretKey
    ensures m.1 == "" && |entry.secretKey| < |m.0| ==> m.0[|m.0| - |entry.secretKey| - 1] == KeySeparator
    ensures m.1 == "" && KeySeparator !in m.0 ==> entry.secretKey == m.0
  {
    SpecData(RemoteRef(sourceSecret, m.0), SecretKey(m.0, m.1))
  }

  /** The `data` comprehension over `secret_mappings.items()`: one entry per mapping,
      in iteration order. */
  function Data(sourceSecret: string, mappings: seq<Mapping>): (data: seq<SpecData>)
    ensures |data| == |mappings|
    ensures forall i :: 0 <= i < |data| ==>
      data[i].remoteRef.key == sourceSecret &&
      data[i].remoteRef.property == mappings[i].0 &&
      data[i].secretKey == SecretKey(mappings[i].0, mappings[i].1)
  {
    if mappings == [] then []
    else [DataEntry(sourceSecret, mappings[0])] + Data(sourceSecret, mappings[1..])
  }

  /** `ExternalSecret(scope, id, store_name, secret_source)`. */
  function NewExternalSecret(storeName: string, source: ExternalSecretSource): (es: ExternalSecret)
    ensures es.spec.secretStoreRef.name == storeName
    ensures es.spec.secretStoreRef.kind == SecretStoreKind
    ensures es.spec.refreshInterval == source.refreshInterval
    ensures es.WellFormed()
    ensures es.spec.target.name == source.k8sSecretName == es.K8sSecretName()
    ensures |es.spec.data| == |source.secretMappings|
    ensures forall i :: 0 <= i < |es.spec.data| ==>
      es.spec.data[i].remoteRef == RemoteRef(source.sourceSecret, source.secretMappings[i].0)
  {
    ExternalSecret(
      source.k8sSecretName,
      Spec(
        SecretStoreRef(storeName, SecretStoreKind),
        source.refreshInterval,
        SpecTarget(source.k8sSecretName),
        Data(source.sourceSecret, source.secretMappings)))
  }

  /** The comprehension respects concatenation: mappings iterated later produce
      entries later, so the order of `data` is the dict's iteration order. */
  lemma {:induction false} DataAppend(sourceSecret: string, front: seq<Mapping>, back: seq<Mapping>)
    ensures Data(sourceSecret, front + back) == Data(sourceSecret, front) + Data(sourceSecret, back)
    decreases |front|
  {
    if front != [] {
      assert (front + back)[0] == front[0];
      assert (front + back)[1..] == front[1..] + back;
      DataAppend(sourceSecret, front[1..], back);
    }
  }

  /** Each mapping's entry: which property the provider is asked for, and under which
      key the value lands, with the fallback spelled out. */
  lemma DataEntryFor(storeName: string, source: ExternalSecretSource, i: nat)
    requires i < |source.secretMappings|
    ensures var k, v := source.secretMappings[i].0, source.secretMappings[i].1;
      var entry := NewExternalSecret(storeName, source).spec.data[i];
      var pieces := PyStr.Split(k, KeySeparator);
      && entry.remoteRef.key == source.sourceSecret
      && entry.remoteRef.property == k
      && (v != "" ==> entry.secretKey == v)
      && (v == "" ==> entry.secretKey == pieces[|pieces| - 1])
  {
    var m := source.secretMappings[i];
    var data := Data(source.sourceSecret, source.secretMappings);
    assert NewExternalSecret(storeName, source).spec.data[i] == data[i];
    SecretKeyFallbackIsSplitLast(m.0);
  }

  /** The fallback key is literally `str(k).split(".")[-1]`. */
  lemma SecretKeyFallbackIsSplitLast(k: string)
    ensures var pieces := PyStr.Split(k, KeySeparator); SecretKey(k, "") == pieces[|pieces| - 1]
  {
    PyStr.LastSegmentIsSplitLast(k, KeySeparator);
  }

  /** Distinct provider keys (a dict) ask the provider for distinct properties. */
  lemma DistinctProperties(storeName: string, source: ExternalSecretSource)
    requires DistinctKeys(source.secretMappings)
    ensures var data := NewExternalSecret(storeName, source).spec.data;
      forall i, j :: 0 <= i < j < |data| ==> data[i].remoteRef.property != data[j].remoteRef.property
  {
  }

  /** When every mapping names its target key, the secret's keys are exactly the
      mapping values, in order. */
  lemma {:induction false} ExplicitSecretKeys(sourceSecret: string, mappings: seq<Mapping>)
    requires forall i :: 0 <= i < |mappings| ==> mappings[i].1 != ""
    ensures SecretKeys(Data(sourceSecret, mappings)) == Values(mappings)
    decreases |mappings|
  {
    if mappings != [] {
      ExplicitSecretKeys(sourceSecret, mappings[1..]);
    }
  }

  /** The `secretKey` of each entry, in order. */
  function SecretKeys(data: seq<SpecData>): seq<string>
  {
    if data == [] then [] else [data[0].secretKey] + SecretKeys(data[1..])
  }

  /** The values of the mapping, in order. */
  function Values(mappings: seq<Mapping>): seq<string>
  {
    if mappings == [] then [] else [mappings[0].1] + Values(mappings[1..])
  }

  /** A nested provider key with no explicit target lands under its last segment. */
  lemma NestedKeyExample()
    ensures SecretKey("KEY.SUBKEY", "") == "SUBKEY"
    ensures SecretKey("some_key", "") == "some_key"
    ensures SecretKey("some_key.subkey", "FOO") == "FOO"
  {
    var key := SecretKey("KEY.SUBKEY", "");
    assert "KEY.SUBKEY"[3] == KeySeparator;
    assert KeySeparator !in "SUBKEY";
    assert |key| == 6;
  }

  /** `{"K.S": "", "K2": "T2"}` becomes the secret keys `S` and `T2`, both read
      from the same source secret. */
  lemma MappingExample(storeName: string)
    ensures var es := NewExternalSecret(storeName,
        NewSource("secret-1", "app-secret2", [("K.S", ""), ("K2", "T2")]));
      && es.spec.refreshInterval == "1h"
      && es.K8sSecretName() == "app-secret2"
      && es.spec.data == [
        SpecData(RemoteRef("secret-1", "K.S"), "S"),
        SpecData(RemoteRef("secret-1", "K2"), "T2")]
  {
    var key := SecretKey("K.S", "");
    assert "K.S"[1] == KeySeparator;
    assert |key| == 1;
    assert key == "S";
  }
}
