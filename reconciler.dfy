/**
 * The bucket reconciler: resolve a resource class, fetch or create the
 * bucket claim under its deterministic key, record the claim's status and,
 * once the claim is ready, run the secret transformer; and the values
 * accessor that projects the claim's credentials secret into the caller's
 * configuration tree.
 */
module Reconciler {
  import opened Wrappers
  import opened Naming
  import opened Store
  import opened HelmValues
  import opened Projectors

  /** The error kinds, each with the context it carries. */
  datatype Error =
    | ClassResolution(reason: string, claimKind: string, providerRef: ObjectRef)
    | ClaimCreate(cause: StoreError, claimKind: string, key: NamespacedName)
    | ClaimFetch(cause: StoreError, claimKind: string, key: NamespacedName)
    | StatusNotFound
    | SecretFetch(cause: StoreError, key: NamespacedName)
    | UnsupportedProvider(provider: string)
    | SecretDataUpdate(reason: string, key: NamespacedName)
    | SecretPersist(cause: StoreError, key: NamespacedName)

  /** What the resource-class finder reports: a class reference, possibly none, or an error. */
  type ResolveOutcome = Result<Option<ObjectRef>, string>

  /** What a provider's secret updater does to the secret: writes these fields, or fails. */
  datatype UpdaterOutcome = Writes(fields: map<string, string>) | Fails(reason: string)

  /** The values function a bucket reconciler is configured with. */
  datatype Projector = ConnectionValues | BackupsValues | BackupsTempValues

  /** The subtree a values function merges into the caller's tree. */
  function ProjectorPatch(p: Projector, c: Constants, secret: Secret, name: string, secretPrefix: string): Tree
  {
    match p
    case ConnectionValues => ConnectionPatch(c, secret, name, secretPrefix)
    case BackupsValues => BackupsPatch(c, secret, name, secretPrefix)
    case BackupsTempValues => BackupsTempPatch(c, name)
  }

  /** Where the claim's credentials secret lives: the owner's namespace, the name the status gives. */
  function CredentialsKey(o: Owner, status: ClaimStatus): NamespacedName
  {
    NamespacedName(o.namespace, status.credentialsSecret)
  }

  /** The secret after an updater wrote `fields` into its data. */
  function WithFields(s: Secret, fields: map<string, string>): Secret
  {
    Secret(s.meta, s.data + fields)
  }

  /**
   * The transform chain as a function of the recorded status, the owner,
   * the updater registry and the store: the secret it persists, or the
   * error of the first step that fails. The steps, in order, are: a status
   * is recorded, the credentials secret is fetched, an updater is
   * registered for the owner's provider, the updater succeeds, the secret
   * is written back.
   */
  function TransformResult(status: Option<ClaimStatus>, owner: Owner, updaters: map<string, UpdaterOutcome>,
                           secrets: map<NamespacedName, Secret>, getFault: Option<string>,
                           updateFault: Option<string>): (r: Result<Secret, Error>)
    // status-not-found exactly when no status is recorded: nothing else is consulted
    ensures status.None? <==> r == Failure(StatusNotFound)
    // with a status, the first failing step decides the error
    ensures status.Some? ==>
              var key := CredentialsKey(owner, status.value);
              var fetched := Fetch(secrets, key, getFault);
              && (fetched.Failure? ==> r == Failure(SecretFetch(fetched.error, key)))
              && (fetched.Success? && owner.provider !in updaters ==>
                    r == Failure(UnsupportedProvider(owner.provider)))
              && (fetched.Success? && owner.provider in updaters && updaters[owner.provider].Fails? ==>
                    r == Failure(SecretDataUpdate(updaters[owner.provider].reason, key)))
              && (fetched.Success? && owner.provider in updaters && updaters[owner.provider].Writes? &&
                  UpdateError(secrets, fetched.value.meta, updateFault).Some? ==>
                    r == Failure(SecretPersist(UpdateError(secrets, fetched.value.meta, updateFault).value, key)))
    // success exactly when every step succeeds, and then the persisted secret is the updated one
    ensures r.Success? <==>
              && status.Some?
              && Fetch(secrets, CredentialsKey(owner, status.value), getFault).Success?
              && owner.provider in updaters && updaters[owner.provider].Writes?
              && UpdateError(secrets, secrets[CredentialsKey(owner, status.value)].meta, updateFault).None?
    ensures r.Success? ==>
              r.value == WithFields(secrets[CredentialsKey(owner, status.value)], updaters[owner.provider].fields)
    // each later error kind implies that every earlier step passed
    ensures r.Failure? && r.error.SecretFetch? ==>
              && status.Some? && r.error.key == CredentialsKey(owner, status.value)
              && Fetch(secrets, r.error.key, getFault) == Failure(r.error.cause)
    ensures r.Failure? && r.error.UnsupportedProvider? ==>
              && status.Some? && Fetch(secrets, CredentialsKey(owner, status.value), getFault).Success?
              && r.error.provider == owner.provider && owner.provider !in updaters
    ensures r.Failure? && r.error.SecretDataUpdate? ==>
              && status.Some? && r.error.key == CredentialsKey(owner, status.value)
              && Fetch(secrets, r.error.key, getFault).Success?
              && owner.provider in updaters && updaters[owner.provider] == Fails(r.error.reason)
    ensures r.Failure? && r.error.SecretPersist? ==>
              && status.Some? && r.error.key == CredentialsKey(owner, status.value)
              && Fetch(secrets, r.error.key, getFault).Success?
              && owner.provider in updaters && updaters[owner.provider].Writes?
              && UpdateError(secrets, secrets[r.error.key].meta, updateFault) == Some(r.error.cause)
    // and no other kind of error comes out of the chain
    ensures r.Failure? ==>
              r.error.StatusNotFound? || r.error.SecretFetch? || r.error.UnsupportedProvider? ||
              r.error.SecretDataUpdate? || r.error.SecretPersist?
  {
    if status.None? then Failure(StatusNotFound)
    else
      var key := CredentialsKey(owner, status.value);
      match Fetch(secrets, key, getFault)
      case Failure(e) => Failure(SecretFetch(e, key))
      case Success(secret) =>
        if owner.provider !in updaters then Failure(UnsupportedProvider(owner.provider))
        else match updaters[owner.provider]
          case Fails(reason) => Failure(SecretDataUpdate(reason, key))
          case Writes(fields) =>
            var updated := WithFields(secret, fields);
            match UpdateError(secrets, updated.meta, updateFault)
            case Some(e) => Failure(SecretPersist(e, key))
            case None => Success(updated)
  }

  /** The error a transform call returns, given its result. */
  function ErrorOf(r: Result<Secret, Error>): Option<Error>
  {
    if r.Success? then None else Some(r.error)
  }

  /** The secrets after a transform call, given its result. */
  function SecretsAfter(secrets: map<NamespacedName, Secret>, r: Result<Secret, Error>): map<NamespacedName, Secret>
  {
    if r.Success? then secrets[r.value.meta := r.value] else secrets
  }

  /**
   * Running the transform a second time on the store the first run left
   * behind persists the same secret again and leaves the store as it was:
   * the derived data depends only on the credentials secret and the updater.
   */
  lemma TransformIdempotent(status: Option<ClaimStatus>, owner: Owner, updaters: map<string, UpdaterOutcome>,
                            secrets: map<NamespacedName, Secret>, getFault: Option<string>, updateFault: Option<string>)
    requires SecretsKeyed(secrets)
    requires TransformResult(status, owner, updaters, secrets, getFault, updateFault).Success?
    ensures var r := TransformResult(status, owner, updaters, secrets, getFault, updateFault);
            var secrets' := SecretsAfter(secrets, r);
            && TransformResult(status, owner, updaters, secrets', getFault, updateFault) == r
            && SecretsAfter(secrets', r) == secrets'
  {
    var key := CredentialsKey(owner, status.value);
    var r := TransformResult(status, owner, updaters, secrets, getFault, updateFault);
    var fields := updaters[owner.provider].fields;
    var s := secrets[key];
    var secrets' := SecretsAfter(secrets, r);
    assert r.value == WithFields(s, fields) && r.value.meta == key;
    assert secrets'[key] == WithFields(s, fields);
    assert (s.data + fields) + fields == s.data + fields;
  }

  /** The part of the reconciler that the reconciler proper and the transformer share. */
  class BaseReconciler {
    const owner: Owner
    const resourceName: string
    const store: ObjectStore
    /** The status of the claim as last observed; None until a fetch found the claim. */
    var status: Option<ClaimStatus>

    constructor (owner: Owner, store: ObjectStore, resourceName: string)
      ensures this.owner == owner && this.store == store && this.resourceName == resourceName
      ensures status.None?
    {
      this.owner, this.store, this.resourceName := owner, store, resourceName;
      status := None;
    }
  }

  /** Derives the connection secret once the claim is ready. */
  class SecretTransformer {
    const base: BaseReconciler
    /** The registry from provider discriminator to that provider's updater. */
    const updaters: map<string, UpdaterOutcome>
    /** How many times the transform has run; lets callers state when it is not invoked. */
    ghost var calls: nat

    constructor (base: BaseReconciler, updaters: map<string, UpdaterOutcome>)
      ensures this.base == base && this.updaters == updaters && calls == 0
    {
      this.base, this.updaters := base, updaters;
      calls := 0;
    }

    /** Runs the transform chain against the shared status and store. */
    method Transform() returns (err: Option<Error>)
      requires base.store.Valid()
      modifies this, base.store`secrets
      ensures base.store.Valid()
      ensures calls == old(calls) + 1
      ensures var r := TransformResult(base.status, base.owner, updaters, old(base.store.secrets),
                                       base.store.getFault, base.store.updateFault);
              && err == ErrorOf(r)
              && base.store.secrets == SecretsAfter(old(base.store.secrets), r)
    {
      calls := calls + 1;
      if base.status.None? {
        return Some(StatusNotFound);
      }
      var key := CredentialsKey(base.owner, base.status.value);
      var fetched := base.store.GetSecret(key);
      if fetched.Failure? {
        return Some(SecretFetch(fetched.error, key));
      }
      if base.owner.provider !in updaters {
        return Some(UnsupportedProvider(base.owner.provider));
      }
      match updaters[base.owner.provider]
      case Fails(reason) =>
        return Some(SecretDataUpdate(reason, key));
      case Writes(fields) =>
        var e := base.store.UpdateSecret(WithFields(fetched.value, fields));
        if e.Some? {
          return Some(SecretPersist(e.value, key));
        }
        return None;
    }
  }

  /** Reconciles one bucket claim of one owner. */
  class BucketReconciler {
    const base: BaseReconciler
    const consts: Constants
    /** The resource-class finder's answer. */
    const finder: ResolveOutcome
    const transformer: SecretTransformer
    /** The values function used by GetHelmValues. */
    const projector: Projector

    ghost predicate Valid()
      reads base.store
    {
      transformer.base == base && base.store.Valid()
    }

    constructor (owner: Owner, store: ObjectStore, bucketName: string, consts: Constants,
                 finder: ResolveOutcome, updaters: map<string, UpdaterOutcome>, projector: Projector)
      requires store.Valid()
      ensures Valid() && fresh(base) && fresh(transformer)
      ensures base.owner == owner && base.store == store && base.resourceName == bucketName
      ensures base.status.None? && transformer.updaters == updaters && transformer.calls == 0
      ensures this.consts == consts && this.finder == finder && this.projector == projector
    {
      var b := new BaseReconciler(owner, store, bucketName);
      base := b;
      transformer := new SecretTransformer(b, updaters);
      this.consts, this.finder, this.projector := consts, finder, projector;
    }

    /**
     * The claim's type identity, `<claim kind>-<bucket>`: it splits back
     * into the package's claim kind, a dash and this reconciler's bucket.
     */
    function GetClaimKind(): (k: string)
      ensures |k| == |consts.bucketClaimKind| + 1 + |base.resourceName|
      ensures k[..|consts.bucketClaimKind|] == consts.bucketClaimKind
      ensures k[|consts.bucketClaimKind|] == '-'
      ensures k[|consts.bucketClaimKind| + 1..] == base.resourceName
    {
      ClaimKind(consts, base.resourceName)
    }

    /** The key the claim is fetched and created under. */
    function Key(): NamespacedName
    {
      ClaimKey(base.owner, base.resourceName)
    }

    /** The claim a reconcile pass creates when none exists. */
    function NewClaim(classRef: Option<ObjectRef>): Claim
    {
      Claim(Key(), ClaimSpecName(consts, base.owner, base.resourceName), classRef, EmptyStatus)
    }

    method Reconcile() returns (err: Option<Error>)
      requires Valid()
      modifies base`status, transformer, base.store
      ensures Valid()
      // the class finder fails: nothing is fetched, created or recorded
      ensures finder.Failure? ==>
                && err == Some(ClassResolution(finder.error, GetClaimKind(), base.owner.providerRef))
                && unchanged(base, base.store, transformer)
      // the claim fetch fails other than by NotFound: nothing is created or recorded
      ensures finder.Success? && base.store.getFault.Some? ==>
                && err == Some(ClaimFetch(Failed(base.store.getFault.value), GetClaimKind(), Key()))
                && unchanged(base, base.store, transformer)
      // no claim yet: one is created under the key, referring to the resolved class, and no status is recorded
      ensures finder.Success? && base.store.getFault.None? && Key() !in old(base.store.claims) ==>
                && unchanged(base, transformer)
                && base.store.secrets == old(base.store.secrets)
                && (base.store.createFault.Some? ==>
                      && err == Some(ClaimCreate(Failed(base.store.createFault.value), GetClaimKind(), Key()))
                      && base.store.claims == old(base.store.claims))
                && (base.store.createFault.None? ==>
                      && err.None?
                      && base.store.claims == old(base.store.claims)[Key() := NewClaim(finder.value)])
      // the claim exists: its status is recorded, and only a ready claim is transformed
      ensures finder.Success? && base.store.getFault.None? && Key() in old(base.store.claims) ==>
                var claim := old(base.store.claims)[Key()];
                && base.status == Some(claim.status)
                && base.store.claims == old(base.store.claims)
                && (claim.status.state != Ready ==>
                      && err.None?
                      && base.store.secrets == old(base.store.secrets)
                      && transformer.calls == old(transformer.calls))
                && (claim.status.state == Ready ==>
                      var r := TransformResult(Some(claim.status), base.owner, transformer.updaters,
                                               old(base.store.secrets), base.store.getFault, base.store.updateFault);
                      && transformer.calls == old(transformer.calls) + 1
                      && err == ErrorOf(r)
                      && base.store.secrets == SecretsAfter(old(base.store.secrets), r))
    {
      if finder.Failure? {
        return Some(ClassResolution(finder.error, GetClaimKind(), base.owner.providerRef));
      }
      var key := Key();
      var got := base.store.GetClaim(key);
      if got.Failure? {
        if got.error == NotFound {
          var e := base.store.CreateClaim(NewClaim(finder.value));
          if e.Some? && e.value != AlreadyExists {
            return Some(ClaimCreate(e.value, GetClaimKind(), key));
          }
          return None;
        }
        return Some(ClaimFetch(got.error, GetClaimKind(), key));
      }
      base.status := Some(got.value.status);
      if got.value.status.state != Ready {
        return None;
      }
      err := transformer.Transform();
    }

    /**
     * Projects the claim's credentials secret into the caller's values
     * with the configured values function.
     */
    method GetHelmValues(values: Values, secretPrefix: string) returns (err: Option<Error>)
      requires Valid()
      modifies values
      ensures base.status.None? ==> err == Some(StatusNotFound) && values.tree == old(values.tree)
      ensures base.status.Some? ==>
                var key := CredentialsKey(base.owner, base.status.value);
                var fetched := Fetch(base.store.secrets, key, base.store.getFault);
                && (fetched.Failure? ==>
                      err == Some(SecretFetch(fetched.error, key)) && values.tree == old(values.tree))
                && (fetched.Success? ==>
                      && err.None?
                      && values.tree == Merge(old(values.tree),
                                              ProjectorPatch(projector, consts, fetched.value, base.resourceName, secretPrefix)))
    {
      if base.status.None? {
        return Some(StatusNotFound);
      }
      var key := CredentialsKey(base.owner, base.status.value);
      var fetched := base.store.GetSecret(key);
      if fetched.Failure? {
        return Some(SecretFetch(fetched.error, key));
      }
      match projector {
        case ConnectionValues =>
          BucketConnectionHelmValues(values, consts, fetched.value, base.resourceName, secretPrefix);
        case BackupsValues =>
          BucketBackupsHelmValues(values, consts, fetched.value, base.resourceName, secretPrefix);
        case BackupsTempValues =>
          BucketBackupsTempHelmValues(values, consts, fetched.value, base.resourceName, secretPrefix);
      }
      return None;
    }
  }
}
