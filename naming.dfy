/**
 * Identities of the owner and of the bucket claim it requests, and the
 * deterministic names derived from them, so that every reconcile pass
 * targets the same claim object.
 */
module Naming {

  /** Kind of the claim objects the bucket reconciler manages. */
  const BucketKind: string := "Bucket"

  /**
   * Package constants whose values are not part of this model; every
   * definition and lemma below holds whatever they are.
   */
  datatype Constants = Constants(
    bucketClaimKind: string,
    bucketNameDelimiter: string,
    connectionKey: string,
    valuesKeyGlobal: string,
    valuesKeyAppConfig: string,
    valuesKeyGitlab: string,
    endpointKey: string)

  /** Namespace and name of an object in the store. */
  datatype NamespacedName = NamespacedName(namespace: string, name: string)

  /** A reference to another object (the owner's provider, a resource class). */
  datatype ObjectRef = ObjectRef(kind: string, namespace: string, name: string)

  /**
   * The requesting GitLab resource: its identity, its provider reference
   * and the provider discriminator that selects a secret updater.
   */
  datatype Owner = Owner(namespace: string, name: string, providerRef: ObjectRef, provider: string)

  /** The textual form of a key, `namespace/name`. */
  function KeyString(k: NamespacedName): string
  {
    k.namespace + "/" + k.name
  }

  function OwnerKey(o: Owner): NamespacedName
  {
    NamespacedName(o.namespace, o.name)
  }

  /** The claim's type identity used in diagnostics: `<claim kind>-<bucket>`. */
  function ClaimKind(c: Constants, bucket: string): string
  {
    c.bucketClaimKind + "-" + bucket
  }

  /** The store key of the bucket claim: `<namespace>/<owner>-Bucket-<bucket>`. */
  function ClaimKey(o: Owner, bucket: string): NamespacedName
  {
    NamespacedName(o.namespace, o.name + "-" + BucketKind + "-" + bucket)
  }

  /**
   * The name written into the claim's spec: the key's name, the delimiter
   * and a `%s` placeholder that a later formatting step fills in.
   */
  function ClaimSpecName(c: Constants, o: Owner, bucket: string): string
  {
    o.name + "-" + BucketKind + "-" + bucket + c.bucketNameDelimiter + "%s"
  }

  /** Two strings with a common prefix are equal exactly when their tails are. */
  lemma PrefixCancel(p: string, x: string, y: string)
    requires p + x == p + y
    ensures x == y
  {
    assert x == (p + x)[|p|..];
    assert y == (p + y)[|p|..];
  }

  /** Two strings with a common suffix are equal exactly when their heads are. */
  lemma SuffixCancel(x: string, y: string, s: string)
    requires x + s == y + s
    ensures x == y
  {
    assert |x| == |y|;
    assert x == (x + s)[..|x|];
    assert y == (y + s)[..|y|];
  }

  /** Distinct buckets have distinct claim kinds, and the kind determines the bucket. */
  lemma ClaimKindInjective(c: Constants, b1: string, b2: string)
    ensures ClaimKind(c, b1) == ClaimKind(c, b2) <==> b1 == b2
  {
    if ClaimKind(c, b1) == ClaimKind(c, b2) {
      PrefixCancel(c.bucketClaimKind + "-", b1, b2);
    }
  }

  /** For one owner, distinct buckets are stored under distinct claim keys. */
  lemma ClaimKeyInjective(o: Owner, b1: string, b2: string)
    ensures ClaimKey(o, b1) == ClaimKey(o, b2) <==> b1 == b2
  {
    if ClaimKey(o, b1) == ClaimKey(o, b2) {
      PrefixCancel(o.name + "-" + BucketKind + "-", b1, b2);
    }
  }

  /**
   * Across owners of one namespace the key does not determine the bucket:
   * owner `a` with bucket `x-Bucket-y` and owner `a-Bucket-x` with bucket
   * `y` are given the same claim key.
   */
  lemma ClaimKeyCollidesAcrossOwners(ns: string, ref: ObjectRef, provider: string)
    ensures var o1 := Owner(ns, "a", ref, provider);
            var o2 := Owner(ns, "a-Bucket-x", ref, provider);
            o1 != o2 && ClaimKey(o1, "x-Bucket-y") == ClaimKey(o2, "y")
  {
    assert "a" + "-" + BucketKind + "-" + "x-Bucket-y" == "a-Bucket-x-Bucket-y";
    assert "a-Bucket-x" + "-" + BucketKind + "-" + "y" == "a-Bucket-x-Bucket-y";
  }

  /**
   * The spec name is the key's name followed by the delimiter and the
   * placeholder, and for one owner it determines the bucket.
   */
  lemma ClaimSpecNameOfKey(c: Constants, o: Owner, b1: string, b2: string)
    ensures ClaimSpecName(c, o, b1) == ClaimKey(o, b1).name + c.bucketNameDelimiter + "%s"
    ensures ClaimSpecName(c, o, b1) == ClaimSpecName(c, o, b2) <==> b1 == b2
  {
    var p := o.name + "-" + BucketKind + "-";
    var s := c.bucketNameDelimiter + "%s";
    assert ClaimSpecName(c, o, b1) == p + b1 + s;
    assert ClaimSpecName(c, o, b2) == p + b2 + s;
    if ClaimSpecName(c, o, b1) == ClaimSpecName(c, o, b2) {
      assert (p + b1) + s == (p + b2) + s;
      SuffixCancel(p + b1, p + b2, s);
      PrefixCancel(p, b1, b2);
    }
  }

  /**
   * The key the claim errors report prints as the owner's key followed by
   * `-Bucket-<bucket>`.
   */
  lemma ClaimKeyString(o: Owner, bucket: string)
    ensures KeyString(ClaimKey(o, bucket)) == KeyString(OwnerKey(o)) + "-" + BucketKind + "-" + bucket
  {
  }
}
