/**
 * The table-driven cases of the bucket reconciler's tests, replayed
 * against the model: each method sets up the store, the finder and the
 * updaters as its case does and proves the outcome the case expects.
 * The owner and the package constants are left arbitrary.
 */
module Scenarios {
  import opened Wrappers
  import opened Naming
  import opened Store
  import opened HelmValues
  import opened Projectors
  import opened Reconciler

  const TestBucket: string := "test-bucket"
  const TestError: string := "test-error"
  const TestSecret: string := "test-secret"

  /** A reconciler for `owner`'s test bucket over a fresh store. */
  method NewTestReconciler(c: Constants, owner: Owner, claims: map<NamespacedName, Claim>,
                           secrets: map<NamespacedName, Secret>, getFault: Option<string>,
                           createFault: Option<string>, finder: ResolveOutcome,
                           updaters: map<string, UpdaterOutcome>) returns (r: BucketReconciler)
    requires ClaimsKeyed(claims) && SecretsKeyed(secrets)
    ensures r.Valid() && fresh(r.base) && fresh(r.base.store) && fresh(r.transformer)
    ensures r.base.owner == owner && r.base.resourceName == TestBucket && r.base.status.None?
    ensures r.base.store.claims == claims && r.base.store.secrets == secrets
    ensures r.base.store.getFault == getFault && r.base.store.createFault == createFault
    ensures r.base.store.updateFault.None?
    ensures r.consts == c && r.finder == finder && r.transformer.updaters == updaters
    ensures r.transformer.calls == 0
  {
    var store := new ObjectStore(claims, secrets, getFault, createFault, None);
    r := new BucketReconciler(owner, store, TestBucket, c, finder, updaters, ConnectionValues);
  }

  /** The finder fails: a class-resolution error naming the claim kind and the provider. */
  method FailToFindResourceClass(c: Constants, owner: Owner) returns (err: Option<Error>, status: Option<ClaimStatus>)
    ensures err == Some(ClassResolution(TestError, ClaimKind(c, TestBucket), owner.providerRef))
    ensures status == None
  {
    var r := NewTestReconciler(c, owner, map[], map[], None, None, Failure(TestError), map[]);
    err := r.Reconcile();
    status := r.base.status;
  }

  /** No claim, and the create fails: a claim-create error naming the kind and the key. */
  method FailToCreate(c: Constants, owner: Owner) returns (err: Option<Error>, status: Option<ClaimStatus>)
    ensures err == Some(ClaimCreate(Failed(TestError), ClaimKind(c, TestBucket), ClaimKey(owner, TestBucket)))
    ensures KeyString(err.value.key) == KeyString(OwnerKey(owner)) + "-" + BucketKind + "-" + TestBucket
    ensures status == None
  {
    var r := NewTestReconciler(c, owner, map[], map[], None, Some(TestError), Success(None), map[]);
    err := r.Reconcile();
    status := r.base.status;
    ClaimKeyString(owner, TestBucket);
  }

  /** The fetch fails other than by NotFound: a claim-fetch error naming the kind and the key. */
  method FailToRetrieveObjectOther(c: Constants, owner: Owner) returns (err: Option<Error>, status: Option<ClaimStatus>)
    ensures err == Some(ClaimFetch(Failed(TestError), ClaimKind(c, TestBucket), ClaimKey(owner, TestBucket)))
    ensures KeyString(err.value.key) == KeyString(OwnerKey(owner)) + "-" + BucketKind + "-" + TestBucket
    ensures status == None
  {
    var r := NewTestReconciler(c, owner, map[], map[], Some(TestError), None, Success(None), map[]);
    err := r.Reconcile();
    status := r.base.status;
    ClaimKeyString(owner, TestBucket);
  }

  /**
   * No claim, and the create succeeds: no error, no status, and the store
   * holds a claim whose spec name is `<owner>-Bucket-test-bucket<delimiter>%s`.
   */
  method CreateSuccessful(c: Constants, owner: Owner)
    returns (err: Option<Error>, status: Option<ClaimStatus>, claims: map<NamespacedName, Claim>)
    ensures err == None && status == None
    ensures claims.Keys == {ClaimKey(owner, TestBucket)}
    ensures claims[ClaimKey(owner, TestBucket)].specName ==
            owner.name + "-" + BucketKind + "-" + TestBucket + c.bucketNameDelimiter + "%s"
    ensures claims[ClaimKey(owner, TestBucket)].classRef == None
  {
    var r := NewTestReconciler(c, owner, map[], map[], None, None, Success(None), map[]);
    err := r.Reconcile();
    status := r.base.status;
    claims := r.base.store.claims;
  }

  /** The claim is still being created: no error, that status recorded, no transform. */
  method SuccessfulNotReady(c: Constants, owner: Owner)
    returns (err: Option<Error>, status: Option<ClaimStatus>, ghost calls: nat)
    ensures err == None
    ensures status == Some(ClaimStatus(Creating, ""))
    ensures calls == 0
  {
    var key := ClaimKey(owner, TestBucket);
    var claim := Claim(key, ClaimSpecName(c, owner, TestBucket), None, ClaimStatus(Creating, ""));
    var r := NewTestReconciler(c, owner, map[key := claim], map[], None, None, Success(None), map[]);
    err := r.Reconcile();
    status := r.base.status;
    calls := r.transformer.calls;
  }

  /** The claim is ready and the transform succeeds: no error, the ready status recorded. */
  method SuccessfulReady(c: Constants, owner: Owner)
    returns (err: Option<Error>, status: Option<ClaimStatus>, secrets: map<NamespacedName, Secret>, ghost calls: nat)
    ensures err == None
    ensures status == Some(ClaimStatus(Ready, TestSecret))
    ensures var secretKey := NamespacedName(owner.namespace, TestSecret);
            secrets == map[secretKey := Secret(secretKey, map[])]
    ensures calls == 1
  {
    var key := ClaimKey(owner, TestBucket);
    var ready := ClaimStatus(Ready, TestSecret);
    var claim := Claim(key, ClaimSpecName(c, owner, TestBucket), None, ready);
    var secretKey := NamespacedName(owner.namespace, TestSecret);
    var r := NewTestReconciler(c, owner, map[key := claim], map[secretKey := Secret(secretKey, map[])],
                               None, None, Success(None), map[owner.provider := Writes(map[])]);
    err := r.Reconcile();
    status := r.base.status;
    secrets := r.base.store.secrets;
    calls := r.transformer.calls;
    assert Secret(secretKey, map[]).data + map[] == map[];
  }

  /**
   * A second pass after a successful create finds the claim the first one
   * made: it creates nothing more, records the new claim's pending status
   * and does not transform.
   */
  method CreateThenReconcileAgain(c: Constants, owner: Owner)
    returns (first: Option<Error>, second: Option<Error>, status: Option<ClaimStatus>,
             claims: map<NamespacedName, Claim>)
    ensures first == None && second == None
    ensures status == Some(EmptyStatus)
    ensures claims.Keys == {ClaimKey(owner, TestBucket)}
  {
    var r := NewTestReconciler(c, owner, map[], map[], None, None, Success(None), map[]);
    first := r.Reconcile();
    second := r.Reconcile();
    assert r.transformer.calls == 0;
    status := r.base.status;
    claims := r.base.store.claims;
  }

  /** The claim kind of a reconciler for the test bucket is `<claim kind>-test-bucket`. */
  method GetClaimKindCase(c: Constants, owner: Owner) returns (kind: string)
    ensures kind == c.bucketClaimKind + "-" + TestBucket
  {
    var r := NewTestReconciler(c, owner, map[], map[], None, None, Success(None), map[]);
    kind := r.GetClaimKind();
    assert kind == c.bucketClaimKind + "-" + TestBucket;
  }

  /** A fresh reconciler has no status, so the values accessor fails with status-not-found. */
  method GetHelmValuesFailure(c: Constants, owner: Owner, values: Values, secretPrefix: string)
    returns (err: Option<Error>)
    modifies values
    ensures err == Some(StatusNotFound)
  {
    var r := NewTestReconciler(c, owner, map[], map[], None, None, Success(None), map[]);
    err := r.GetHelmValues(values, secretPrefix);
  }

  /** A transformer over a fresh store whose owner has the empty provider discriminator. */
  method NewTestTransformer(owner: Owner, status: Option<ClaimStatus>, getFault: Option<string>,
                            updateFault: Option<string>, updaters: map<string, UpdaterOutcome>)
    returns (t: SecretTransformer)
    ensures fresh(t) && fresh(t.base) && fresh(t.base.store) && t.base.store.Valid()
    ensures t.base.owner == owner && t.base.status == status && t.updaters == updaters
    ensures var key := NamespacedName(owner.namespace, TestSecret);
            t.base.store.secrets == map[key := Secret(key, map[])]
    ensures t.base.store.getFault == getFault && t.base.store.updateFault == updateFault
  {
    var key := NamespacedName(owner.namespace, TestSecret);
    var store := new ObjectStore(map[], map[key := Secret(key, map[])], getFault, None, updateFault);
    var base := new BaseReconciler(owner, store, TestBucket);
    base.status := status;
    t := new SecretTransformer(base, updaters);
  }

  /** The transform cases, in the order of their steps; `step` picks the case. */
  method TransformCase(namespace: string, name: string, providerRef: ObjectRef, step: nat)
    returns (err: Option<Error>)
    requires step < 6
    ensures var key := NamespacedName(namespace, TestSecret);
            && (step == 0 ==> err == Some(StatusNotFound))
            && (step == 1 ==> err == Some(SecretFetch(Failed(TestError), key)))
            && (step == 2 ==> err == Some(UnsupportedProvider("")))
            && (step == 3 ==> err == Some(SecretDataUpdate(TestError, key)))
            && (step == 4 ==> err == Some(SecretPersist(Failed(TestError), key)))
            && (step == 5 ==> err == None)
  {
    var owner := Owner(namespace, name, providerRef, "");
    var status := if step == 0 then None else Some(ClaimStatus(Ready, TestSecret));
    var getFault := if step == 1 then Some(TestError) else None;
    var updateFault := if step == 4 then Some(TestError) else None;
    var updaters: map<string, UpdaterOutcome> :=
      if step <= 2 then map[] else if step == 3 then map["" := Fails(TestError)] else map["" := Writes(map[])];
    var t := NewTestTransformer(owner, status, getFault, updateFault, updaters);
    err := t.Transform();
  }

  /** The connection values of the test's bucket, on empty values. */
  method ConnectionEmptyValues(c: Constants) returns (tree: Tree)
    requires c.endpointKey != c.connectionKey
    ensures tree == map[c.valuesKeyGlobal := Node(map[c.valuesKeyAppConfig := Node(map["coolBucket" := Node(map[
              "bucket" := Str("gcs://coolBucket"),
              "connection" := Node(map["key" := Str(c.connectionKey), "secret" := Str("coolPrefix-coolSecret")])])])])]
  {
    var secret := Secret(NamespacedName("", "coolSecret"),
                         map[c.endpointKey := "gcs://coolBucket", c.connectionKey := "coolBucketCredentials"]);
    assert Field(secret, c.endpointKey) == "gcs://coolBucket";
    assert "coolPrefix-" + secret.meta.name == "coolPrefix-coolSecret";
    var values := new Values(map[]);
    BucketConnectionHelmValues(values, c, secret, "coolBucket", "coolPrefix-");
    MergeIntoEmpty(ConnectionPatch(c, secret, "coolBucket", "coolPrefix-"));
    tree := values.tree;
  }

  /** The backups values of the test's bucket, on empty values. */
  method BackupsEmptyValues(c: Constants) returns (tree: Tree)
    requires c.endpointKey != c.connectionKey
    requires c.valuesKeyGitlab != c.valuesKeyGlobal
    ensures tree == map[
              c.valuesKeyGitlab := Node(map["task-runner" := Node(map["backups" := Node(map[
                "objectStorage" := Node(map["config" := Node(map[
                  "key" := Str(c.connectionKey), "secret" := Str("coolPrefix-coolSecret")])])])])]),
              c.valuesKeyGlobal := Node(map[c.valuesKeyAppConfig := Node(map["coolBucket" := Node(map[
                "bucket" := Str("gcs://coolBucket")])])])]
  {
    var secret := Secret(NamespacedName("", "coolSecret"),
                         map[c.endpointKey := "gcs://coolBucket", c.connectionKey := "coolBucketCredentials"]);
    assert Field(secret, c.endpointKey) == "gcs://coolBucket";
    assert "coolPrefix-" + secret.meta.name == "coolPrefix-coolSecret";
    var values := new Values(map[]);
    BucketBackupsHelmValues(values, c, secret, "coolBucket", "coolPrefix-");
    BackupsOnEmpty(c, secret, "coolBucket", "coolPrefix-");
    tree := values.tree;
  }

  /** The temporary-bucket values of the test's bucket, from an empty secret, on empty values. */
  method BackupsTempEmptyValues(c: Constants) returns (tree: Tree)
    ensures tree == map[c.valuesKeyGlobal := Node(map[c.valuesKeyAppConfig := Node(map[
              "backups" := Node(map["tmpBucket" := Str("coolBucket")])])])]
  {
    var values := new Values(map[]);
    BucketBackupsTempHelmValues(values, c, Secret(NamespacedName("", ""), map[]), "coolBucket", "");
    MergeIntoEmpty(BackupsTempPatch(c, "coolBucket"));
    tree := values.tree;
  }
}
