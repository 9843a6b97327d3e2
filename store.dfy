/**
 * The object store the reconciler talks to, reduced to two maps of
 * objects (claims and secrets) and a fault that each kind of call can be
 * made to report, the way a test client is configured per scenario.
 */
module Store {
  import opened Wrappers
  import opened Naming

  /** A secret: its key and its data, one string per field. */
  datatype Secret = Secret(meta: NamespacedName, data: map<string, string>)

  /** The claim's provisioning condition as the reconciler reads it. */
  datatype ClaimState = Pending | Creating | Ready

  /** The claim's status: its condition and the name of its credentials secret. */
  datatype ClaimStatus = ClaimStatus(state: ClaimState, credentialsSecret: string)

  /** The status of a claim nobody has provisioned yet. */
  const EmptyStatus: ClaimStatus := ClaimStatus(Pending, "")

  /** A bucket claim: its key, its spec name, its resource class and its status. */
  datatype Claim = Claim(meta: NamespacedName, specName: string, classRef: Option<ObjectRef>, status: ClaimStatus)

  /** The errors the store reports; NotFound and AlreadyExists are distinguishable. */
  datatype StoreError = NotFound | AlreadyExists | Failed(message: string)

  /** What a get reports: the injected fault, else the object, else NotFound. */
  function Fetch<T>(objects: map<NamespacedName, T>, key: NamespacedName, fault: Option<string>): Result<T, StoreError>
  {
    if fault.Some? then Failure(Failed(fault.value))
    else if key in objects then Success(objects[key])
    else Failure(NotFound)
  }

  /** What a create reports: the injected fault, else AlreadyExists for a taken key. */
  function CreateError<T>(objects: map<NamespacedName, T>, key: NamespacedName, fault: Option<string>): Option<StoreError>
  {
    if fault.Some? then Some(Failed(fault.value))
    else if key in objects then Some(AlreadyExists)
    else None
  }

  /** What an update reports: the injected fault, else NotFound for a missing key. */
  function UpdateError<T>(objects: map<NamespacedName, T>, key: NamespacedName, fault: Option<string>): Option<StoreError>
  {
    if fault.Some? then Some(Failed(fault.value))
    else if key !in objects then Some(NotFound)
    else None
  }

  /** Every claim is stored under its own key. */
  predicate ClaimsKeyed(claims: map<NamespacedName, Claim>)
  {
    forall k :: k in claims ==> claims[k].meta == k
  }

  /** Every secret is stored under its own key. */
  predicate SecretsKeyed(secrets: map<NamespacedName, Secret>)
  {
    forall k :: k in secrets ==> secrets[k].meta == k
  }

  class ObjectStore {
    var claims: map<NamespacedName, Claim>
    var secrets: map<NamespacedName, Secret>
    const getFault: Option<string>
    const createFault: Option<string>
    const updateFault: Option<string>

    /** The store keeps each object under its own key. */
    predicate Valid()
      reads this
    {
      ClaimsKeyed(claims) && SecretsKeyed(secrets)
    }

    constructor (claims0: map<NamespacedName, Claim>, secrets0: map<NamespacedName, Secret>,
                 getFault: Option<string>, createFault: Option<string>, updateFault: Option<string>)
      requires ClaimsKeyed(claims0) && SecretsKeyed(secrets0)
      ensures Valid()
      ensures claims == claims0 && secrets == secrets0
      ensures this.getFault == getFault && this.createFault == createFault && this.updateFault == updateFault
    {
      claims, secrets := claims0, secrets0;
      this.getFault, this.createFault, this.updateFault := getFault, createFault, updateFault;
    }

    /** Fetches a claim; with no fault it is found exactly when its key is present. */
    method GetClaim(key: NamespacedName) returns (r: Result<Claim, StoreError>)
      requires Valid()
      ensures r.Success? <==> getFault.None? && key in claims
      ensures r.Success? ==> r.value == claims[key] && r.value.meta == key
      ensures r.Failure? ==> r.error == if getFault.Some? then Failed(getFault.value) else NotFound
    {
      r := Fetch(claims, key, getFault);
    }

    /** Fetches a secret; with no fault it is found exactly when its key is present. */
    method GetSecret(key: NamespacedName) returns (r: Result<Secret, StoreError>)
      requires Valid()
      ensures r.Success? <==> getFault.None? && key in secrets
      ensures r.Success? ==> r.value == secrets[key] && r.value.meta == key
      ensures r.Failure? ==> r.error == if getFault.Some? then Failed(getFault.value) else NotFound
    {
      r := Fetch(secrets, key, getFault);
    }

    /** Creates a claim under its own key unless the key is taken or a fault is injected. */
    method CreateClaim(c: Claim) returns (e: Option<StoreError>)
      requires Valid()
      modifies this`claims
      ensures Valid()
      ensures e == CreateError(old(claims), c.meta, createFault)
      ensures claims == if e.None? then old(claims)[c.meta := c] else old(claims)
    {
      e := CreateError(claims, c.meta, createFault);
      if e.None? {
        claims := claims[c.meta := c];
      }
    }

    /** Replaces a secret stored under its key unless it is missing or a fault is injected. */
    method UpdateSecret(s: Secret) returns (e: Option<StoreError>)
      requires Valid()
      modifies this`secrets
      ensures Valid()
      ensures e == UpdateError(old(secrets), s.meta, updateFault)
      ensures secrets == if e.None? then old(secrets)[s.meta := s] else old(secrets)
    {
      e := UpdateError(secrets, s.meta, updateFault);
      if e.None? {
        secrets := secrets[s.meta := s];
      }
    }
  }
}
