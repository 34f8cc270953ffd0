/**
 * The remote-state bootstrap of `tf-remote-config`: make sure the state
 * bucket exists, creating it only when the existence probe answers 404, and
 * make sure its versioning is enabled, enabling it only when it is not.
 */
module Backend {
  import opened Wrappers
  import opened BucketNaming

  /** A bucket's versioning status; a bucket that was never versioned has none. */
  datatype Versioning = Unversioned | Enabled | Suspended

  /** The object-store permissions the caller may hold. */
  datatype Permission = ListBucket | CreateBucket | GetVersioning | PutVersioning

  /** An error answer of the object store, by its HTTP status. */
  datatype ClientError = ClientError(code: int)

  const NotFound: int := 404
  const Forbidden: int := 403
  const Conflict: int := 409

  /**
   * What the store holds: the caller's buckets with their versioning status,
   * the names held by other accounts, and the caller's permissions.
   */
  datatype StoreState = StoreState(buckets: map<string, Versioning>, foreign: set<string>, granted: set<Permission>)

  /** `head_bucket`: 403 without permission or for another account's bucket, 404 for a missing one. */
  function Head(st: StoreState, name: string): Result<(), ClientError> {
    if ListBucket !in st.granted || name in st.foreign then Err(ClientError(Forbidden))
    else if name !in st.buckets then Err(ClientError(NotFound))
    else Ok(())
  }

  /** `create_bucket`: a new, unversioned bucket, unless refused or the name is taken. */
  function Create(st: StoreState, name: string): Result<StoreState, ClientError> {
    if CreateBucket !in st.granted then Err(ClientError(Forbidden))
    else if name in st.foreign || name in st.buckets then Err(ClientError(Conflict))
    else Ok(st.(buckets := st.buckets[name := Unversioned]))
  }

  /** `bucket.Versioning().status`. */
  function ReadVersioning(st: StoreState, name: string): Result<Versioning, ClientError> {
    if GetVersioning !in st.granted || name in st.foreign then Err(ClientError(Forbidden))
    else if name !in st.buckets then Err(ClientError(NotFound))
    else Ok(st.buckets[name])
  }

  /** `bucket_versioning.enable()`. */
  function EnableVersioning(st: StoreState, name: string): Result<StoreState, ClientError> {
    if PutVersioning !in st.granted || name in st.foreign then Err(ClientError(Forbidden))
    else if name !in st.buckets then Err(ClientError(NotFound))
    else Ok(st.(buckets := st.buckets[name := Enabled]))
  }

  /** One bootstrap run: its result, the store it leaves, and the create and enable requests it sent. */
  datatype Run = Run(result: Result<(), ClientError>, after: StoreState, creates: nat, enables: nat)

  /** The versioning half of a run on a bucket that exists, after `creates` create requests. */
  function Versioned(st: StoreState, name: string, creates: nat): Run {
    match ReadVersioning(st, name)
    case Err(e) => Run(Err(e), st, creates, 0)
    case Ok(v) =>
      if v == Enabled then Run(Ok(()), st, creates, 0)
      else match EnableVersioning(st, name)
        case Err(e) => Run(Err(e), st, creates, 1)
        case Ok(st2) => Run(Ok(()), st2, creates, 1)
  }

  /**
   * What one bootstrap run does. A 404 probe leads to exactly one create; any
   * other probe error is passed on with nothing written; an existing bucket is
   * never created again; a refused create, versioning read or enable ends the
   * run with that error; after a successful create the bucket exists even
   * when the versioning step fails; versioning is enabled exactly when it is
   * not already; the run succeeds exactly when the probe or the create
   * succeeds and the versioning read, and the enable if one is needed, are
   * permitted, and then it leaves the bucket existing with versioning
   * enabled, touching no other bucket.
   */
  function Bootstrap(st: StoreState, name: string): (r: Run)
    ensures Head(st, name).Err? && Head(st, name).error.code != NotFound ==>
              r == Run(Err(Head(st, name).error), st, 0, 0)
    ensures r.creates <= 1 && r.enables <= 1
    ensures r.creates == 1 <==> Head(st, name) == Err(ClientError(NotFound))
    ensures name in st.buckets ==> r.creates == 0
    ensures r.enables == 1 ==> !(name in st.buckets && st.buckets[name] == Enabled)
    ensures r.result.Ok? ==> r.after == st.(buckets := st.buckets[name := Enabled])
    ensures r.result.Ok? && name in st.buckets && st.buckets[name] == Enabled ==> r.enables == 0
    ensures r.after == st || r.after == st.(buckets := st.buckets[name := Unversioned])
            || r.after == st.(buckets := st.buckets[name := Enabled])
    ensures Head(st, name) == Err(ClientError(NotFound)) && Create(st, name).Err? ==>
              r == Run(Err(Create(st, name).error), st, 1, 0)
    ensures Head(st, name) == Err(ClientError(NotFound)) && Create(st, name).Ok? ==> name in r.after.buckets
    ensures r.result.Ok? ==> (r.enables == 1 <==> !(name in st.buckets && st.buckets[name] == Enabled))
    ensures r.result.Ok? ==> Head(st, name).Ok? || Create(st, name).Ok?
    ensures r.result.Ok? ==> GetVersioning in st.granted
    ensures r.result.Ok? && r.enables == 1 ==> PutVersioning in st.granted
    ensures Head(st, name).Ok? && ReadVersioning(st, name).Err? ==>
              r == Run(Err(ReadVersioning(st, name).error), st, 0, 0)
    ensures (Head(st, name).Ok? && ReadVersioning(st, name).Ok? && ReadVersioning(st, name).value != Enabled
             && EnableVersioning(st, name).Err?) ==>
              r == Run(Err(EnableVersioning(st, name).error), st, 0, 1)
    ensures r.result.Ok? <==>
              (Head(st, name).Ok? || (Head(st, name) == Err(ClientError(NotFound)) && Create(st, name).Ok?))
              && GetVersioning in st.granted
              && ((name in st.buckets && st.buckets[name] == Enabled) || PutVersioning in st.granted)
    ensures (Head(st, name) == Err(ClientError(NotFound)) && Create(st, name).Ok? && r.result.Err?) ==>
              r == Run(Err(ClientError(Forbidden)), Create(st, name).value, 1, if GetVersioning in st.granted then 1 else 0)
  {
    match Head(st, name)
    case Ok(_) => Versioned(st, name, 0)
    case Err(e) =>
      if e.code != NotFound then Run(Err(e), st, 0, 0)
      else match Create(st, name)
        case Err(e2) => Run(Err(e2), st, 1, 0)
        case Ok(st1) =>
          assert st1.buckets[name := Enabled] == st.buckets[name := Enabled];
          Versioned(st1, name, 1)
  }

  /** A second run on what a successful run leaves sends no write and changes nothing. */
  lemma BootstrapIdempotent(st: StoreState, name: string)
    requires Bootstrap(st, name).result.Ok?
    ensures Bootstrap(Bootstrap(st, name).after, name) == Run(Ok(()), Bootstrap(st, name).after, 0, 0)
  {
  }

  /** A missing bucket, all permissions held: one create, then one enable. */
  lemma ScenarioMissingBucket(st: StoreState, name: string)
    requires name !in st.buckets && name !in st.foreign
    requires st.granted == {ListBucket, CreateBucket, GetVersioning, PutVersioning}
    ensures Bootstrap(st, name) == Run(Ok(()), st.(buckets := st.buckets[name := Enabled]), 1, 1)
  {
  }

  /** An existing bucket whose versioning is off or suspended: no create, one enable, then `Enabled`. */
  lemma ScenarioNotYetVersioned(st: StoreState, name: string)
    requires name in st.buckets && st.buckets[name] != Enabled && name !in st.foreign
    requires ListBucket in st.granted && GetVersioning in st.granted && PutVersioning in st.granted
    ensures Bootstrap(st, name) == Run(Ok(()), st.(buckets := st.buckets[name := Enabled]), 0, 1)
  {
  }

  /** An existing bucket with versioning already enabled: nothing is written. */
  lemma ScenarioAlreadyVersioned(st: StoreState, name: string)
    requires name in st.buckets && st.buckets[name] == Enabled
    requires ListBucket in st.granted && GetVersioning in st.granted && name !in st.foreign
    ensures Bootstrap(st, name) == Run(Ok(()), st, 0, 0)
  {
  }

  /** The object store as the bootstrap sees it, counting the create and enable requests it receives. */
  class ObjectStore {
    var buckets: map<string, Versioning>
    var foreign: set<string>
    var granted: set<Permission>
    var creates: nat
    var enables: nat

    function State(): StoreState
      reads this
    {
      StoreState(buckets, foreign, granted)
    }

    constructor (st: StoreState)
      ensures State() == st && creates == 0 && enables == 0
    {
      buckets := st.buckets;
      foreign := st.foreign;
      granted := st.granted;
      creates := 0;
      enables := 0;
    }

    method HeadBucket(name: string) returns (r: Result<(), ClientError>)
      ensures r == Head(State(), name)
    {
      r := Head(State(), name);
    }

    /** `create_bucket` followed by `wait_until_exists`: on success the bucket exists. */
    method CreateAndWait(name: string) returns (r: Result<(), ClientError>)
      modifies this
      ensures creates == old(creates) + 1 && enables == old(enables)
      ensures r.Ok? ==> name in buckets
      ensures match Create(old(State()), name)
              case Ok(st) => r == Ok(()) && State() == st
              case Err(e) => r == Err(e) && State() == old(State())
    {
      creates := creates + 1;
      match Create(State(), name)
      case Ok(st) =>
        buckets := st.buckets;
        r := Ok(());
      case Err(e) =>
        r := Err(e);
    }

    method VersioningStatus(name: string) returns (r: Result<Versioning, ClientError>)
      ensures r == ReadVersioning(State(), name)
    {
      r := ReadVersioning(State(), name);
    }

    method EnableBucketVersioning(name: string) returns (r: Result<(), ClientError>)
      modifies this
      ensures enables == old(enables) + 1 && creates == old(creates)
      ensures match EnableVersioning(old(State()), name)
              case Ok(st) => r == Ok(()) && State() == st
              case Err(e) => r == Err(e) && State() == old(State())
    {
      enables := enables + 1;
      match EnableVersioning(State(), name)
      case Ok(st) =>
        buckets := st.buckets;
        r := Ok(());
      case Err(e) =>
        r := Err(e);
    }
  }

  /**
   * Ensure the state bucket: probe it, create it on a 404 (any other probe
   * error is raised again), then enable versioning unless it is enabled.
   */
  method CheckTfConfigBucket(s: ObjectStore, name: string) returns (r: Result<(), ClientError>)
    modifies s
    ensures var run := Bootstrap(old(s.State()), name);
            r == run.result && s.State() == run.after
            && s.creates == old(s.creates) + run.creates && s.enables == old(s.enables) + run.enables
  {
    var probe := s.HeadBucket(name);
    if probe.Err? {
      if probe.error.code != NotFound {
        return Err(probe.error);
      }
      var created := s.CreateAndWait(name);
      if created.Err? {
        return Err(created.error);
      }
    }
    var status :- s.VersioningStatus(name);
    if status != Enabled {
      var enabled := s.EnableBucketVersioning(name);
      if enabled.Err? {
        return Err(enabled.error);
      }
    }
    return Ok(());
  }

  /** Why `tf-remote-config` stops: a template `str.format` refuses, or an object-store error. */
  datatype ConfigError = BadTemplate(format: FormatError) | StoreFailure(client: ClientError)

  /**
   * The bucket part of `tf-remote-config`: derive the bucket name from the
   * template and the domain and, unless it is a dry run, bootstrap that
   * bucket. Returns the bucket name the backend configuration uses.
   */
  method TfRemoteConfig(s: ObjectStore, template: string, domain: string, dryRun: bool)
    returns (r: Result<string, ConfigError>)
    modifies s
    ensures match BucketName(template, domain)
            case Err(e) =>
              r == Err(BadTemplate(e))
              && s.State() == old(s.State()) && s.creates == old(s.creates) && s.enables == old(s.enables)
            case Ok(name) =>
              if dryRun then
                r == Ok(name)
                && s.State() == old(s.State()) && s.creates == old(s.creates) && s.enables == old(s.enables)
              else
                var run := Bootstrap(old(s.State()), name);
                s.State() == run.after
                && s.creates == old(s.creates) + run.creates && s.enables == old(s.enables) + run.enables
                && r == if run.result.Ok? then Ok(name) else Err(StoreFailure(run.result.error))
  {
    var named := BucketName(template, domain);
    if named.Err? {
      return Err(BadTemplate(named.error));
    }
    var name := named.value;
    if !dryRun {
      var checked := CheckTfConfigBucket(s, name);
      if checked.Err? {
        return Err(StoreFailure(checked.error));
      }
    }
    return Ok(name);
  }
}
