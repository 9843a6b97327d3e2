# GitLab controller: bucket reconciler model

This is a verified Dafny model of the bucket reconciler in the GitLab controller. The reconciler makes sure that a
GitLab installation has an object-storage bucket. It asks for the bucket by creating a *bucket claim* named after the
GitLab owner and the bucket. Once the claim is ready, it rewrites the claim's credentials secret into the form GitLab
expects. It then offers three *projectors* that fold the secret's settings into the Helm values of the GitLab chart.

The production file `pkg/controller/gitlab/buckets.go` is not part of this model. The behaviour modelled is the behaviour
that `pkg/controller/gitlab/buckets_test.go` asserts, case by case.

Modules (one file each):

- `Wrappers` (`wrappers.dfy`): `Option` and `Result`.
- `Naming` (`naming.dfy`): the claim kind `<bucketClaimKind>-<bucket>`.
  - The claim's object key `<owner ns>/<owner name>-Bucket-<bucket>`.
  - Its spec name `<owner name>-Bucket-<bucket><delimiter>%s`.
  - For one owner, the key determines the bucket. Across owners of one namespace it does not: owner `a` with bucket
    `x-Bucket-y` and owner `a-Bucket-x` with bucket `y` share a claim key.
  - The package's string constants are fields of a `Constants` record, so every lemma holds whatever their values are.
- `Store` (`store.dfy`): the object store that the controller talks to.
  - It is a class holding maps of claims and secrets. Optional injected faults make a get, a create or an update fail.
  - `NotFound` and `AlreadyExists` follow from the maps.
  - Its invariant is that every object is stored under its own key.
- `HelmValues` (`values.dfy`): the chart's values as a tree, `Str(string)` leaves under `Node(map)`.
  - A key-wise deep merge in which the patch wins on clashes.
  - `Lookup` by path.
  - Proofs that a merge places the patch's leaves, keeps every path the patch leaves alone, and is idempotent.
  - A `Values` class, updated in place as the chart's values map is.
- `Projectors` (`projectors.dfy`): the three projectors as methods that update a `Values` in place.
  - Connection: `global.appConfig.<name> = {bucket, connection: {key, secret}}`.
  - Backups: `global.appConfig.<name>.bucket` plus `gitlab.task-runner.backups.objectStorage.config = {key, secret}`.
  - Temporary bucket: `global.appConfig.backups.tmpBucket = <name>`.
  - Lemmas prove the exact shapes on empty values, the leaves written on any values, and that sibling subtrees survive.
- `Reconciler` (`reconciler.dfy`): the reconcile state machine, the secret transformer's ordered chain of steps, and
  the values accessor.
  - Each failure point is a distinct `Error` constructor that carries its context: the claim kind, the key, the
    provider reference or the secret key.
- `Scenarios` (`scenarios.dfy`): each table-driven case of the tests, replayed against the model with its outcome
  proved. A retry case is added: a second pass after a create.

## Model

| member | source | states |
|---|---|---|
| Naming.ClaimKindInjective | pkg/controller/gitlab/buckets_test.go:64-66 | The claim kind `<bucketClaimKind>-<bucket>` determines the bucket: two buckets have the same kind iff they are equal |
| Naming.ClaimKeyInjective | pkg/controller/gitlab/buckets_test.go:144 | The claim's object key for one owner determines the bucket (iff) |
| Naming.ClaimSpecNameOfKey | pkg/controller/gitlab/buckets_test.go:84-90 | The spec name is the key's name followed by the delimiter and `%s`, and it determines the bucket (iff) |
| Naming.ClaimKeyCollidesAcrossOwners | pkg/controller/gitlab/buckets_test.go:84-90 | For two different owners of one namespace, the key does not determine the bucket: owner `a` with bucket `x-Bucket-y` and owner `a-Bucket-x` with bucket `y` share a key |
| Naming.ClaimKeyString | pkg/controller/gitlab/buckets_test.go:164 | The printed claim key is the owner's printed key, then `-Bucket-`, then the bucket |
| Store.ObjectStore.GetClaim | pkg/controller/gitlab/buckets_test.go:125-129 | A get fails with the injected fault, else returns the stored claim when its key is present, else fails NotFound. A returned claim carries the key it was asked for, and the get changes nothing |
| Store.ObjectStore.GetSecret | pkg/controller/gitlab/buckets_test.go:327-331 | The same three outcomes for a secret; a returned secret carries the key it was asked for |
| Store.ObjectStore.CreateClaim | pkg/controller/gitlab/buckets_test.go:130-133 | A create fails with the injected fault or AlreadyExists, or stores the claim under its key. Secrets are untouched, and every object stays under its own key |
| Store.ObjectStore.UpdateSecret | pkg/controller/gitlab/buckets_test.go:372-373 | An update fails with the injected fault or NotFound, or replaces the stored secret. Claims are untouched, and every object stays under its own key |
| HelmValues.MergeV | pkg/controller/gitlab/buckets_test.go:417-477 | A leaf patch replaces what it meets; two nodes merge to the union of their keys |
| HelmValues.Merge | pkg/controller/gitlab/buckets_test.go:417-477 | The merged tree has the union of the keys; keys outside the patch keep their value; the patch's leaf values win |
| HelmValues.MergeIntoEmpty | pkg/controller/gitlab/buckets_test.go:438-466 | Merging into empty values yields the patch itself |
| HelmValues.UntouchedMergeV | pkg/controller/gitlab/buckets_test.go:417-477 | A merge of two trees leaves alone every path that both of them leave alone |
| HelmValues.UntouchedNotInPatch | pkg/controller/gitlab/buckets_test.go:417-477 | A path the patch leaves alone has no value in the patch |
| HelmValues.MergeKeepsUntouchedV | pkg/controller/gitlab/buckets_test.go:417-477 | Merging keeps the value at every path the patch leaves alone |
| HelmValues.MergeKeepsUntouched | pkg/controller/gitlab/buckets_test.go:417-477 | The same on trees: sibling subtrees are not clobbered |
| HelmValues.MergePlacesLeavesV | pkg/controller/gitlab/buckets_test.go:417-477 | Every leaf of the patch is found at its path after the merge |
| HelmValues.MergePlacesLeaves | pkg/controller/gitlab/buckets_test.go:417-477 | The same on trees |
| HelmValues.MergeSelfV | pkg/controller/gitlab/buckets_test.go:417-477 | Merging a tree into itself leaves it unchanged |
| HelmValues.MergeIdempotentV | pkg/controller/gitlab/buckets_test.go:417-477 | Merging the same patch twice equals merging it once |
| HelmValues.MergeIdempotent | pkg/controller/gitlab/buckets_test.go:417-477 | The same on trees |
| HelmValues.Values.MergeIn | pkg/controller/gitlab/buckets_test.go:470-472 | The caller's values become the merge of their old contents with the patch, updated in place |
| Projectors.BucketConnectionHelmValues | pkg/controller/gitlab/buckets_test.go:417-477 | The caller's values become their merge with the connection subtree under `global.appConfig.<name>` |
| Projectors.BucketBackupsHelmValues | pkg/controller/gitlab/buckets_test.go:479-541 | The caller's values become their merge with the bucket endpoint and the backup job's storage config |
| Projectors.BucketBackupsTempHelmValues | pkg/controller/gitlab/buckets_test.go:543-584 | The caller's values become their merge with `global.appConfig.backups.tmpBucket = <name>`; the secret is not read |
| Projectors.ConnectionOnEmpty | pkg/controller/gitlab/buckets_test.go:438-466 | On empty values the connection projection is exactly its subtree, with only the global key at the top |
| Projectors.BackupsOnEmpty | pkg/controller/gitlab/buckets_test.go:499-530 | On empty values the backups projection is exactly the gitlab and global subtrees side by side |
| Projectors.BackupsTempOnEmpty | pkg/controller/gitlab/buckets_test.go:559-573 | On empty values the temporary-bucket projection is exactly its subtree, with the name at `tmpBucket` |
| Projectors.ConnectionPatchLeaves | pkg/controller/gitlab/buckets_test.go:451-463 | The connection patch holds the endpoint at the bucket path, the connection key at `connection.key` and the prefixed secret name at `connection.secret` |
| Projectors.ConnectionWritesLeaves | pkg/controller/gitlab/buckets_test.go:451-463 | On any values, the endpoint, connection key and prefixed secret name are found at their three paths |
| Projectors.BackupsBucketLeaf | pkg/controller/gitlab/buckets_test.go:524-526 | The backups bucket patch holds the endpoint at the bucket path |
| Projectors.BackupsConfigLeaves | pkg/controller/gitlab/buckets_test.go:513-523 | The backups config patch holds the connection key and the prefixed secret name |
| Projectors.BackupsWritesLeaves | pkg/controller/gitlab/buckets_test.go:512-528 | On any values, the backups projection's three leaves are found at their paths |
| Projectors.BackupsTempWritesLeaf | pkg/controller/gitlab/buckets_test.go:565-571 | On any values, the bucket name is found at `tmpBucket` |
| Projectors.ConnectionUntouched | pkg/controller/gitlab/buckets_test.go:417-477 | Every path that diverges from the three connection leaves is left alone by the connection patch |
| Projectors.ConnectionKeepsSiblings | pkg/controller/gitlab/buckets_test.go:417-477 | The connection projector keeps the value at every diverging path |
| Projectors.BackupsBucketUntouched | pkg/controller/gitlab/buckets_test.go:479-541 | Every path that diverges from the bucket leaf is left alone by the bucket patch |
| Projectors.BackupsConfigUntouched | pkg/controller/gitlab/buckets_test.go:479-541 | Every path that diverges from both config leaves is left alone by the config patch |
| Projectors.BackupsKeepsSiblings | pkg/controller/gitlab/buckets_test.go:479-541 | The backups projector keeps the value at every path diverging from its three leaves |
| Projectors.BackupsTempKeepsSiblings | pkg/controller/gitlab/buckets_test.go:543-584 | The temporary-bucket projector keeps the value at every path diverging from `tmpBucket` |
| Projectors.ConnectionThenBackups | pkg/controller/gitlab/buckets_test.go:417-541 | After the connection projector and then the backups projector, all five leaves are present |
| Projectors.ProjectionsIdempotent | pkg/controller/gitlab/buckets_test.go:417-584 | Applying any projector a second time changes nothing |
| Reconciler.TransformResult | pkg/controller/gitlab/buckets_test.go:304-402 | The transform's ordered steps. Status-not-found iff no status is recorded. With a status, the first failing step decides the error, in this order: secret fetch, unsupported provider, data update, persist. Success iff every step passes, and success yields the fetched secret with the updater's fields. Conversely, each error implies that every earlier step passed |
| Reconciler.TransformIdempotent | pkg/controller/gitlab/buckets_test.go:386-402 | On a store that keeps each secret under its own key, a second run of a successful transform, on the secrets the first run stored, gives the same result and stores nothing new |
| Reconciler.SecretTransformer.Transform | pkg/controller/gitlab/buckets_test.go:304-415 | It returns the error of the step chain and stores exactly the chain's result. The store keeps each object under its own key, and each call is counted |
| Reconciler.BucketReconciler.Reconcile | pkg/controller/gitlab/buckets_test.go:107-258 | The conditions below |
| Reconciler.BucketReconciler.GetClaimKind | pkg/controller/gitlab/buckets_test.go:261-266 | The claim kind splits back into the package's claim kind, a dash and the reconciler's bucket (see also `Naming.ClaimKindInjective`) |
| Reconciler.BucketReconciler.GetHelmValues | pkg/controller/gitlab/buckets_test.go:268-302 | No status gives status-not-found and leaves values alone. Otherwise a failed secret fetch is reported, and a fetched secret is run through the configured projector |
| Scenarios.FailToFindResourceClass | pkg/controller/gitlab/buckets_test.go:107-121 | A class-resolution error with the claim kind and the owner's provider reference; no status |
| Scenarios.FailToCreate | pkg/controller/gitlab/buckets_test.go:122-145 | A claim-create error with the kind and the key `<ns/name>-Bucket-test-bucket`; no status |
| Scenarios.FailToRetrieveObjectOther | pkg/controller/gitlab/buckets_test.go:146-165 | A claim-fetch error with the kind and the same key; no status |
| Scenarios.CreateSuccessful | pkg/controller/gitlab/buckets_test.go:166-188 | No error and no status. The store holds exactly the new claim, whose spec name is `<owner>-Bucket-test-bucket<delimiter>%s` |
| Scenarios.SuccessfulNotReady | pkg/controller/gitlab/buckets_test.go:189-214 | No error; the Creating status is recorded; the transformer is not invoked |
| Scenarios.SuccessfulReady | pkg/controller/gitlab/buckets_test.go:215-243 | No error; the Ready status is recorded; the transformer runs once, and the credentials secret is stored back |
| Scenarios.CreateThenReconcileAgain | pkg/controller/gitlab/buckets_test.go:166-214 | A second pass after a create finds the claim, creates nothing more and records its pending status |
| Scenarios.GetClaimKindCase | pkg/controller/gitlab/buckets_test.go:261-266 | The claim kind of a reconciler for the test bucket is `<claim kind>-test-bucket` |
| Scenarios.GetHelmValuesFailure | pkg/controller/gitlab/buckets_test.go:283-289 | A fresh reconciler's values accessor fails with status-not-found |
| Scenarios.TransformCase | pkg/controller/gitlab/buckets_test.go:317-402 | The six transform cases, each with the error its case expects |
| Scenarios.ConnectionEmptyValues | pkg/controller/gitlab/buckets_test.go:438-466 | The connection projection of the case's secret, as a literal tree |
| Scenarios.BackupsEmptyValues | pkg/controller/gitlab/buckets_test.go:499-530 | The backups projection of the case's secret, as a literal tree |
| Scenarios.BackupsTempEmptyValues | pkg/controller/gitlab/buckets_test.go:559-573 | The temporary-bucket projection from an empty secret, as a literal tree |

`Reconciler.BucketReconciler.Reconcile` ensures the following:

- A failing class finder gives a class-resolution error and changes nothing.
- A failing get gives a claim-fetch error and changes nothing.
- A missing claim is created, and no status is recorded. A failing create gives a claim-create error.
- An existing claim's status is recorded.
- Only a Ready claim is transformed. The transformer's call counter goes up by exactly one in that case and otherwise
  stays the same.

## Left out

- The Kubernetes client, `context.Context` and cancellation are not modelled. The store is a class with maps and
  injected faults, and the class finder's answer is a constructor parameter. The finder's inputs (the provider
  reference and the resource name) are not modelled.
- Error messages are not formatted. Each error is a constructor that carries its context fields; the message formats
  and their comparison are not part of this model.
- Provider-specific secret updaters are opaque. Each is an outcome: write these fields into the secret's data, or fail
  with a reason.
- The substitution of the `%s` suffix in the spec name happens outside the reconciler and is not modelled.
- Secret data is modelled as strings, not byte slices.
- The projectors' error result: the projectors never fail here. The tests discard the returned error at lines 471, 535
  and 578, and no failing merge is known. The values accessor therefore has no projector error to report.
- The provider discriminator that selects a secret updater is a separate field of the owner. How it derives from the
  provider reference is not modelled.
- Projectors.BucketBackupsHelmValues: the shape and leaf lemmas assume `valuesKeyGitlab` differs from `valuesKeyGlobal`.
  If the two constants were equal, the two subtrees would share a root.
- Reconciler.BucketReconciler.Reconcile: an `AlreadyExists` answer to the create counts as success. In this sequential
  model that answer cannot arise, because the create only runs after a get found no claim.
- Reconciler.TransformIdempotent: holds because each updater writes a fixed set of fields that does not depend on what
  the secret already holds. The transformer rewrites the credentials secret in place, so a real updater reads its own
  earlier output on a second pass. The transform is idempotent only if that updater is idempotent on its own output.
- Reconciler.BucketReconciler.Reconcile: the class reference on the created claim is the finder's answer as given.
  Class resolution itself is not modelled.
- Behaviour that the test file leaves open follows the most direct reading of the cases:
  - After a successful create, the status stays unset. This is what the create case expects, even though a general
    description of the reconciler would record it.
  - The transformer writes the updater's fields into the fetched credentials secret and stores it with an update.
    Every transform error in the cases carries that secret's key.
  - A failed secret fetch in the values accessor is reported as a secret-fetch error; no case pins this down.
  - The transformer and the values accessor give status-not-found only when no status is recorded (lines 283-289 and
    317-323 pin only that case). A recorded status that names no credentials secret, such as the Creating status of a
    claim that is not ready, goes on to fetch the secret with an empty name. It does not give status-not-found.
  - When a leaf and a subtree meet in a merge, the patch's side wins. No case has such a clash.
  - The tests pass no transformer where none is reached. The model always has one and counts its calls, so "not
    invoked" can be stated.
