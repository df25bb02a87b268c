/** The instance-profile credential cache: the last credentials fetched from
    the instance metadata service, refreshed by a background loop and
    fetched on demand when nothing is cached yet. The model is sequential:
    the gate and the background task are steps a caller takes in turn. */
module DefaultInstanceProfile {
  import opened Wrappers

  /** Sleep after a successful refresh: 15 minutes. */
  const RefreshRateMs: nat := 15 * 60 * 1000
  /** Initial sleep after a failed refresh: 5 seconds (the rate is settable). */
  const DefaultErrorRefreshRateMs: nat := 5 * 1000
  /** The description handed to the Error hook by the background loop. */
  const RenewErrorDescription := "Error in RenewCredentials"
  /** The object name an `ObjectDisposedException` carries. */
  const ObjectName := "DefaultInstanceProfileAWSCredentialsEx"

  /** The opening words of every service exception the cache raises. */
  const UnableTo := "Unable to"

  /** The opening words of the argument-null exception, as the .NET runtime
      words it. */
  const ArgumentNullOpening := "Value cannot be null. (Parameter '"

  /** An immutable key triple handed to callers. */
  datatype ImmutableCredentials = ImmutableCredentials(accessKey: string, secretKey: string, token: string)

  /** The key material the metadata service reports for one role. */
  datatype CredentialMetadata = CredentialMetadata(accessKeyId: string, secretAccessKey: string, token: string)

  /** One entry of the role dictionary: the role, and its metadata or null. */
  datatype RoleEntry = RoleEntry(role: string, metadata: Option<CredentialMetadata>)

  /** What the metadata service reports at the time of a call: whether it is
      enabled, and its role dictionary in enumeration order (None for null). */
  datatype InstanceMetadata = InstanceMetadata(imdsEnabled: bool, securityCredentials: Option<seq<RoleEntry>>)

  datatype CredentialsError =
    | ImdsDisabled
    | NoSecurityCredentials
    | NoInstanceRole
    | NoCredentialsForRole(role: string)
    | EmptyKey(parameter: string) // the credentials constructor's argument check
  {
    /** The text of the exception each error is raised with: the service
        exceptions all start "Unable to", the argument check names the
        parameter it refused. */
    function Message(): (m: string)
      ensures |m| > 9 && (m[..9] == "Unable to" <==> !EmptyKey?)
      ensures EmptyKey? ==> var n := |ArgumentNullOpening|;
        |m| > n + |parameter| && m[n .. n + |parameter|] == parameter
    {
      match this
      case ImdsDisabled => UnableTo + " retrieve credentials."
      case NoSecurityCredentials => UnableTo + " get IAM security credentials from EC2 Instance Metadata Service."
      case NoInstanceRole => UnableTo + " get EC2 instance role from EC2 Instance Metadata Service."
      case NoCredentialsForRole(role) => UnableTo + " get credentials for role \"" + role + "\" from EC2 Instance Metadata Service."
      case EmptyKey(parameter) =>
        var text := ArgumentNullOpening + parameter + "')";
        assert text[0] == ArgumentNullOpening[0] == 'V' && UnableTo[0] == 'U';
        text
    }
  }

  /** A hook invocation: BeforeFetch, or Error with its description and cause. */
  datatype HookCall = BeforeFetchCalled | ErrorCalled(description: string, cause: CredentialsError)

  /** What one pass of the background loop ends in: the loop has stopped, or
      it sleeps this many milliseconds before the next pass. */
  datatype LoopStep = Stopped | Sleep(milliseconds: nat)

  /** The dictionary's indexer: the metadata of the first entry for `role`. */
  function Lookup(entries: seq<RoleEntry>, role: string): (r: Option<Option<CredentialMetadata>>)
    ensures r.None? <==> forall i :: 0 <= i < |entries| ==> entries[i].role != role
    ensures r.Some? ==> exists i :: 0 <= i < |entries| && entries[i].role == role && entries[i].metadata == r.value
  {
    if entries == [] then None
    else if entries[0].role == role then Some(entries[0].metadata)
    else Lookup(entries[1..], role)
  }

  /** The credentials constructor: both keys must be non-empty (a null key
      stands here as the empty string); the token is taken as given. */
  function NewCredentials(m: CredentialMetadata): (r: Result<ImmutableCredentials, CredentialsError>)
    ensures r.Success? <==> m.accessKeyId != "" && m.secretAccessKey != ""
    ensures r.Success? ==>
      r.value.accessKey == m.accessKeyId && r.value.secretKey == m.secretAccessKey && r.value.token == m.token
    ensures r.Failure? ==> r.error == EmptyKey(if m.accessKeyId == "" then "awsAccessKeyId" else "awsSecretAccessKey")
  {
    if m.accessKeyId == "" then Failure(EmptyKey("awsAccessKeyId"))
    else if m.secretAccessKey == "" then Failure(EmptyKey("awsSecretAccessKey"))
    else Success(ImmutableCredentials(m.accessKeyId, m.secretAccessKey, m.token))
  }

  /** One fetch after its hook: the first role of the dictionary and that
      role's key material, with the three service failures checked in order
      and then the constructor's own check. */
  function SelectCredentials(securityCredentials: Option<seq<RoleEntry>>): Result<ImmutableCredentials, CredentialsError>
  {
    match securityCredentials
    case None => Failure(NoSecurityCredentials)
    case Some(entries) =>
      var index := if entries == [] then None else Some(entries[0].role);
      if index.None? || index.value == "" then Failure(NoInstanceRole)
      else
        var credentialMetadata := Lookup(entries, index.value).value;
        if credentialMetadata.None? then Failure(NoCredentialsForRole(index.value))
        else NewCredentials(credentialMetadata.value)
  }

  /** Which outcome a fetch has: each failure holds exactly when its
      condition holds, and success hands back the first role's keys. */
  lemma SelectCredentialsOutcomes(securityCredentials: Option<seq<RoleEntry>>)
    ensures var r := SelectCredentials(securityCredentials);
      && (r == Failure(NoSecurityCredentials) <==> securityCredentials.None?)
      && (r == Failure(NoInstanceRole) <==>
          securityCredentials.Some? && (securityCredentials.value == [] || securityCredentials.value[0].role == ""))
      && (r.Failure? && r.error.NoCredentialsForRole? <==>
          && securityCredentials.Some? && securityCredentials.value != []
          && securityCredentials.value[0].role != "" && securityCredentials.value[0].metadata.None?)
      && (r.Failure? && r.error.EmptyKey? <==>
          && securityCredentials.Some? && securityCredentials.value != []
          && securityCredentials.value[0].role != "" && securityCredentials.value[0].metadata.Some?
          && (securityCredentials.value[0].metadata.value.accessKeyId == ""
              || securityCredentials.value[0].metadata.value.secretAccessKey == ""))
      && (r.Failure? ==> !r.error.ImdsDisabled?)
      && (r.Failure? && r.error.NoCredentialsForRole? ==> r.error.role == securityCredentials.value[0].role)
      && (r.Success? ==>
          && securityCredentials.Some? && securityCredentials.value != []
          && securityCredentials.value[0].metadata == Some(CredentialMetadata(r.value.accessKey, r.value.secretKey, r.value.token))
          && r.value.accessKey != "" && r.value.secretKey != "")
  {
  }

  /** Only the first role counts: whatever follows it in the dictionary does
      not change what a fetch returns. */
  lemma SelectIgnoresLaterRoles(first: RoleEntry, rest1: seq<RoleEntry>, rest2: seq<RoleEntry>)
    ensures SelectCredentials(Some([first] + rest1)) == SelectCredentials(Some([first] + rest2))
  {
  }

  /** The key material of the first role reaches the caller unchanged, or
      is refused by the constructor when a key is empty. */
  lemma SelectReturnsFirstRoleKeys(role: string, m: CredentialMetadata, rest: seq<RoleEntry>)
    requires role != ""
    ensures SelectCredentials(Some([RoleEntry(role, Some(m))] + rest)) ==
      if m.accessKeyId == "" then Failure(EmptyKey("awsAccessKeyId"))
      else if m.secretAccessKey == "" then Failure(EmptyKey("awsSecretAccessKey"))
      else Success(ImmutableCredentials(m.accessKeyId, m.secretAccessKey, m.token))
  {
  }

  /** The failure for a role without metadata names that role, in double
      quotes, in its text. */
  lemma NoCredentialsMessageNamesRole(role: string)
    ensures var m := NoCredentialsForRole(role).Message();
      && |m| > 36 + |role| && m[36 .. 36 + |role|] == role
      && m[35] == '"' && m[36 + |role|] == '"'
  {
    var opening := UnableTo + " get credentials for role \"";
    var closing := "\" from EC2 Instance Metadata Service.";
    assert NoCredentialsForRole(role).Message() == opening + role + closing;
    assert |opening| == 36 && opening[35] == '"' && closing[0] == '"';
  }

  /** The cache after a run of background passes that all took place before
      disposal: each successful fetch replaces the value, each failure
      leaves it as it was. */
  function Renewed(cache: Option<ImmutableCredentials>, snapshots: seq<InstanceMetadata>): Option<ImmutableCredentials>
    decreases |snapshots|
  {
    if snapshots == [] then cache
    else
      var fetched := SelectCredentials(snapshots[0].securityCredentials);
      Renewed(if fetched.Success? then Some(fetched.value) else cache, snapshots[1..])
  }

  /** No pass ever empties the cache: once populated it stays populated. */
  lemma {:induction false} RenewedKeepsValue(cache: Option<ImmutableCredentials>, snapshots: seq<InstanceMetadata>)
    requires cache.Some?
    ensures Renewed(cache, snapshots).Some?
    decreases |snapshots|
  {
    if snapshots != [] {
      var fetched := SelectCredentials(snapshots[0].securityCredentials);
      RenewedKeepsValue(if fetched.Success? then Some(fetched.value) else cache, snapshots[1..]);
    }
  }

  /** The cache holds the result of the most recent successful fetch: after
      a successful pass k that no later pass succeeds after, the cache is
      what pass k fetched. */
  lemma {:induction false} RenewedIsLatestSuccess(cache: Option<ImmutableCredentials>, snapshots: seq<InstanceMetadata>, k: nat)
    requires k < |snapshots|
    requires SelectCredentials(snapshots[k].securityCredentials).Success?
    requires forall j :: k < j < |snapshots| ==> SelectCredentials(snapshots[j].securityCredentials).Failure?
    ensures Renewed(cache, snapshots) == Some(SelectCredentials(snapshots[k].securityCredentials).value)
    decreases |snapshots|
  {
    var fetched := SelectCredentials(snapshots[0].securityCredentials);
    var next := if fetched.Success? then Some(fetched.value) else cache;
    if k == 0 {
      RenewedAllFail(next, snapshots[1..]);
    } else {
      RenewedIsLatestSuccess(next, snapshots[1..], k - 1);
    }
  }

  /** Passes whose fetches all fail leave the cache alone. */
  lemma {:induction false} RenewedAllFail(cache: Option<ImmutableCredentials>, snapshots: seq<InstanceMetadata>)
    requires forall j :: 0 <= j < |snapshots| ==> SelectCredentials(snapshots[j].securityCredentials).Failure?
    ensures Renewed(cache, snapshots) == cache
    decreases |snapshots|
  {
    if snapshots != [] {
      RenewedAllFail(cache, snapshots[1..]);
    }
  }

  /** The sleeps a run of passes selects: 15 minutes after a success, the
      error rate after a failure. */
  function Sleeps(snapshots: seq<InstanceMetadata>, errorRefreshRateMs: nat): seq<LoopStep> {
    seq(|snapshots|, i requires 0 <= i < |snapshots| => PassSleep(SelectCredentials(snapshots[i].securityCredentials), errorRefreshRateMs))
  }

  /** The sleep one pass selects. */
  function PassSleep(fetched: Result<ImmutableCredentials, CredentialsError>, errorRefreshRateMs: nat): LoopStep {
    if fetched.Success? then Sleep(RefreshRateMs) else Sleep(errorRefreshRateMs)
  }

  /** The hook calls a run of passes makes, given which hooks are set. */
  function RunHookCalls(snapshots: seq<InstanceMetadata>, beforeFetchSet: bool, errorSet: bool): seq<HookCall> {
    if snapshots == [] then []
    else
      var first := PassHookCalls(SelectCredentials(snapshots[0].securityCredentials), beforeFetchSet, errorSet);
      first + RunHookCalls(snapshots[1..], beforeFetchSet, errorSet)
  }

  /** The hook calls of one pass: BeforeFetch first, then Error on failure. */
  function PassHookCalls(fetched: Result<ImmutableCredentials, CredentialsError>, beforeFetchSet: bool, errorSet: bool): seq<HookCall> {
    (if beforeFetchSet then [BeforeFetchCalled] else [])
      + (if fetched.Failure? && errorSet then [ErrorCalled(RenewErrorDescription, fetched.error)] else [])
  }

  lemma {:induction false} RunHookCallsAppend(snapshots: seq<InstanceMetadata>, s: InstanceMetadata, beforeFetchSet: bool, errorSet: bool)
    ensures RunHookCalls(snapshots + [s], beforeFetchSet, errorSet)
      == RunHookCalls(snapshots, beforeFetchSet, errorSet) + PassHookCalls(SelectCredentials(s.securityCredentials), beforeFetchSet, errorSet)
  {
    if snapshots != [] {
      assert (snapshots + [s])[1..] == snapshots[1..] + [s];
      RunHookCallsAppend(snapshots[1..], s, beforeFetchSet, errorSet);
    }
  }

  /** A service that keeps failing is retried forever: k failing passes
      select k error sleeps and report k errors to a set Error hook. */
  lemma {:induction false} FailingServiceRetries(snapshots: seq<InstanceMetadata>, errorRefreshRateMs: nat)
    requires forall j :: 0 <= j < |snapshots| ==> SelectCredentials(snapshots[j].securityCredentials).Failure?
    ensures Sleeps(snapshots, errorRefreshRateMs) == seq(|snapshots|, i => Sleep(errorRefreshRateMs))
    ensures |RunHookCalls(snapshots, false, true)| == |snapshots|
    ensures forall i :: 0 <= i < |snapshots| ==>
      RunHookCalls(snapshots, false, true)[i] == ErrorCalled(RenewErrorDescription, SelectCredentials(snapshots[i].securityCredentials).error)
  {
    if snapshots != [] {
      FailingServiceRetries(snapshots[1..], errorRefreshRateMs);
      var rest := RunHookCalls(snapshots[1..], false, true);
      assert RunHookCalls(snapshots, false, true)
        == [ErrorCalled(RenewErrorDescription, SelectCredentials(snapshots[0].securityCredentials).error)] + rest;
    }
  }

  class InstanceProfileCredentials {
    /** The last credentials fetched; None stands for null. */
    var lastRetrievedCredentials: Option<ImmutableCredentials>
    var disposed: bool
    /** Whether the BeforeFetch and Error hooks are set. */
    var beforeFetchSet: bool
    var errorSet: bool
    /** Every hook invocation so far, in order. */
    ghost var hookCalls: seq<HookCall>
    /** The sleep after a failed refresh, in milliseconds. */
    var errorRefreshRateMs: nat
    /** The number of fetches made so far. */
    ghost var fetchCount: nat

    /** A fresh instance, as the lazy singleton creates it; the background
        loop it starts is `RenewStep`, taken by the caller. */
    constructor ()
      ensures lastRetrievedCredentials == None && !disposed
      ensures !beforeFetchSet && !errorSet && hookCalls == []
      ensures errorRefreshRateMs == DefaultErrorRefreshRateMs && fetchCount == 0
    {
      lastRetrievedCredentials := None;
      disposed := false;
      beforeFetchSet := false;
      errorSet := false;
      hookCalls := [];
      errorRefreshRateMs := DefaultErrorRefreshRateMs;
      fetchCount := 0;
    }

    method SetHooks(beforeFetch: bool, error: bool)
      modifies this`beforeFetchSet, this`errorSet
      ensures beforeFetchSet == beforeFetch && errorSet == error
    {
      beforeFetchSet := beforeFetch;
      errorSet := error;
    }

    method SetErrorRefreshRate(milliseconds: nat)
      modifies this`errorRefreshRateMs
      ensures errorRefreshRateMs == milliseconds
    {
      errorRefreshRateMs := milliseconds;
    }

    /** The hook call a fetch makes before it reads any metadata. */
    function BeforeFetchCalls(): seq<HookCall>
      reads this`beforeFetchSet
    {
      if beforeFetchSet then [BeforeFetchCalled] else []
    }

    /** One fetch: BeforeFetch, then the first role's credentials. */
    method FetchCredentials(md: InstanceMetadata) returns (r: Result<ImmutableCredentials, CredentialsError>)
      modifies this`hookCalls, this`fetchCount
      ensures r == SelectCredentials(md.securityCredentials)
      ensures hookCalls == old(hookCalls) + BeforeFetchCalls()
      ensures fetchCount == old(fetchCount) + 1
    {
      if beforeFetchSet {
        hookCalls := hookCalls + [BeforeFetchCalled];
      }
      fetchCount := fetchCount + 1;
      r := SelectCredentials(md.securityCredentials);
    }

    /** Credentials for a caller: refused when the metadata service is
        disabled, whatever is cached; a copy of the cached value when there
        is one, without fetching; otherwise the gated fetch. */
    method GetCredentials(md: InstanceMetadata) returns (r: Result<ImmutableCredentials, CredentialsError>)
      modifies this`lastRetrievedCredentials, this`hookCalls, this`fetchCount
      ensures !md.imdsEnabled ==> r == Failure(ImdsDisabled) && unchanged(this)
      ensures md.imdsEnabled && old(lastRetrievedCredentials).Some? ==>
        r == Success(old(lastRetrievedCredentials).value) && unchanged(this)
      ensures md.imdsEnabled && old(lastRetrievedCredentials).None? ==>
        && r == SelectCredentials(md.securityCredentials)
        && lastRetrievedCredentials == (if r.Success? then Some(r.value) else None)
        && hookCalls == old(hookCalls) + BeforeFetchCalls()
        && fetchCount == old(fetchCount) + 1
      ensures old(lastRetrievedCredentials).Some? ==> lastRetrievedCredentials.Some?
    {
      if !md.imdsEnabled {
        return Failure(ImdsDisabled);
      }
      var immutableCredentials := lastRetrievedCredentials;
      if immutableCredentials.Some? {
        return Success(immutableCredentials.value);
      }
      r := GatedFetch(md);
    }

    /** The part of a call that runs holding the gate: look at the cache
        again (another caller or the background loop may have filled it
        meanwhile) and fetch only when it is still empty. */
    method GatedFetch(md: InstanceMetadata) returns (r: Result<ImmutableCredentials, CredentialsError>)
      modifies this`lastRetrievedCredentials, this`hookCalls, this`fetchCount
      ensures old(lastRetrievedCredentials).Some? ==>
        r == Success(old(lastRetrievedCredentials).value) && unchanged(this)
      ensures old(lastRetrievedCredentials).None? ==>
        && r == SelectCredentials(md.securityCredentials)
        && lastRetrievedCredentials == (if r.Success? then Some(r.value) else None)
        && hookCalls == old(hookCalls) + BeforeFetchCalls()
        && fetchCount == old(fetchCount) + 1
    {
      var immutableCredentials := lastRetrievedCredentials;
      if immutableCredentials.Some? {
        return Success(immutableCredentials.value);
      }
      r := FetchCredentials(md);
      if r.Success? {
        lastRetrievedCredentials := Some(r.value);
      }
    }

    /** One pass of the background loop: stop once disposed; otherwise
        fetch, replace the cache and sleep 15 minutes on success, or report
        the failure to the Error hook, keep the cache and sleep the error
        rate. */
    method RenewStep(md: InstanceMetadata) returns (step: LoopStep)
      modifies this`lastRetrievedCredentials, this`hookCalls, this`fetchCount
      ensures disposed ==> step == Stopped && unchanged(this)
      ensures !disposed ==>
        var fetched := SelectCredentials(md.securityCredentials);
        && fetchCount == old(fetchCount) + 1
        && hookCalls == old(hookCalls) + PassHookCalls(fetched, beforeFetchSet, errorSet)
        && lastRetrievedCredentials == (if fetched.Success? then Some(fetched.value) else old(lastRetrievedCredentials))
        && step == PassSleep(fetched, errorRefreshRateMs)
      ensures old(lastRetrievedCredentials).Some? ==> lastRetrievedCredentials.Some?
    {
      if disposed {
        return Stopped;
      }
      var fetched := FetchCredentials(md);
      match fetched {
        case Success(credentials) =>
          lastRetrievedCredentials := Some(credentials);
          step := Sleep(RefreshRateMs);
        case Failure(error) =>
          if errorSet {
            hookCalls := hookCalls + [ErrorCalled(RenewErrorDescription, error)];
          }
          step := Sleep(errorRefreshRateMs);
      }
    }

    /** The background loop over the metadata the service reports at each
        pass, one snapshot per pass: it runs while the instance is not
        disposed, every pass ending in a sleep. */
    method Run(snapshots: seq<InstanceMetadata>) returns (steps: seq<LoopStep>)
      modifies this`lastRetrievedCredentials, this`hookCalls, this`fetchCount
      ensures disposed ==> steps == [] && unchanged(this)
      ensures !disposed ==>
        && steps == Sleeps(snapshots, errorRefreshRateMs)
        && lastRetrievedCredentials == Renewed(old(lastRetrievedCredentials), snapshots)
        && hookCalls == old(hookCalls) + RunHookCalls(snapshots, beforeFetchSet, errorSet)
        && fetchCount == old(fetchCount) + |snapshots|
    {
      steps := [];
      if disposed {
        return;
      }
      ghost var start := lastRetrievedCredentials;
      var i := 0;
      while !disposed && i < |snapshots|
        invariant 0 <= i <= |snapshots| && !disposed
        invariant |steps| == i
        invariant forall j :: 0 <= j < i ==> steps[j] == PassSleep(SelectCredentials(snapshots[j].securityCredentials), errorRefreshRateMs)
        invariant Renewed(lastRetrievedCredentials, snapshots[i..]) == Renewed(start, snapshots)
        invariant hookCalls == old(hookCalls) + RunHookCalls(snapshots[..i], beforeFetchSet, errorSet)
        invariant fetchCount == old(fetchCount) + i
      {
        ghost var pass := PassHookCalls(SelectCredentials(snapshots[i].securityCredentials), beforeFetchSet, errorSet);
        var step := RenewStep(snapshots[i]);
        steps := steps + [step];
        RunHookCallsAppend(snapshots[..i], snapshots[i], beforeFetchSet, errorSet);
        SeqAssoc(old(hookCalls), RunHookCalls(snapshots[..i], beforeFetchSet, errorSet), pass);
        assert snapshots[..i + 1] == snapshots[..i] + [snapshots[i]];
        assert snapshots[i..][1..] == snapshots[i + 1..];
        i := i + 1;
      }
      assert snapshots[..i] == snapshots;
    }

    /** Stops the background loop; a second call is refused and changes
        nothing. */
    method Dispose() returns (r: Result<(), string>)
      modifies this`disposed
      ensures old(disposed) ==> r == Failure(ObjectName) && disposed
      ensures !old(disposed) ==> r == Success(()) && disposed
    {
      if disposed {
        return Failure(ObjectName);
      }
      disposed := true;
      r := Success(());
    }
  }

  /** A cold cache is fetched once; the next call serves the copy without a
      second fetch; a disposed instance's loop does nothing; disposing twice
      fails. */
  method CacheScenario(m: CredentialMetadata)
    requires m.accessKeyId != "" && m.secretAccessKey != ""
  {
    var cache := new InstanceProfileCredentials();
    var md := InstanceMetadata(true, Some([RoleEntry("role", Some(m))]));
    var first := cache.GetCredentials(md);
    assert first == Success(ImmutableCredentials(m.accessKeyId, m.secretAccessKey, m.token)) && cache.fetchCount == 1;
    var second := cache.GetCredentials(md.(securityCredentials := None));
    assert second == first && cache.fetchCount == 1;
    var refused := cache.GetCredentials(md.(imdsEnabled := false));
    assert refused == Failure(ImdsDisabled);
    var ok := cache.Dispose();
    assert ok.Success?;
    var step := cache.RenewStep(md);
    assert step == Stopped;
    var again := cache.Dispose();
    assert again == Failure(ObjectName);
  }
}
