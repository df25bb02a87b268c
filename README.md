# AwsEx.Creds credential chain and instance-profile cache, in Dafny

This project models two classes from the AwsEx.Creds library:

- **`FallbackCredentialsFactoryEx`** is the process-wide fallback credential chain. It holds an ordered list of credential generators and one cached result. `GetCredentials` returns the cached result when there is one. Otherwise it invokes the generators in order and caches the first non-null result. A process-credential exception aborts the walk at once. Every other exception is recorded and the walk goes on. When nothing succeeds, the call returns the anonymous placeholder if the caller asked for it. Otherwise it raises one aggregate error that lists every recorded exception as "Exception i of n". `Reset` empties the cache and installs the four standard generators: web identity, the default profile, environment variables, and the container / instance-profile choice.
- **`DefaultInstanceProfileAWSCredentialsEx`** is the instance-profile credential cache. `GetCredentials` first refuses when the instance metadata service is disabled. It then serves a copy of the cached credentials, or, on a cold cache, fetches once behind a gate, stores the result and returns it. `FetchCredentials` takes the first role of the metadata dictionary. It has three distinct service failures, and the credentials constructor refuses empty keys. A background loop refreshes the cache. After a successful fetch it sleeps 15 minutes. After a failure it reports to the Error hook and sleeps 5 seconds. `Dispose` stops the loop, and a second call is refused.

Both classes are modelled sequentially, as Dafny classes whose methods update their fields.

- `FallbackCredentials.FallbackCredentialsFactory` has two fields: `cachedCredentials` and `credentialsGenerators`. A ghost log, `invoked`, records every generator invocation.
- `DefaultInstanceProfile.InstanceProfileCredentials` has the fields `lastRetrievedCredentials` and `disposed`, the two hook flags and the error refresh rate. A ghost log, `hookCalls`, records every hook invocation, and a ghost counter, `fetchCount`, counts fetches.

Each method is proved against a specification function:

- `GetCredentials(w, fallbackToAnonymous := false)` and `Reset(proxy := None)` keep the C# default arguments.
- The chain's `GetCredentials` is proved against `ChainResult`, `ChainCache` and `InvokedPrefix`, which are functions of the generators' outcomes.
- The cache's methods are proved against `SelectCredentials`, `Renewed`, `Sleeps` and `RunHookCalls`.

The lemmas beside these functions state the promised properties:

- the first success wins;
- a process-credential failure aborts the walk;
- an exhausted chain falls back to the placeholder or to the aggregate error;
- the layout of the aggregate message, entry by entry;
- the decimal numbering reads back as the number it stands for;
- only the first role is consulted;
- the background loop never empties a populated cache, keeps the most recent successful value, and retries a failing service forever.

Everything outside the two classes is an input:

- The environment is a map of variables. It may also carry the text of a security exception that every read raises.
- The profile store maps each profile name to what building credentials from that profile does.
- The web-identity and environment-variable generators are given as outcomes: credentials, null, a process failure, or another failure with its text.
- Generators installed through the public list are given as a function from an identifier to an outcome.
- The instance metadata service is a snapshot: an enabled flag, plus a nullable, ordered role dictionary whose values are nullable key material.
- The platform newline is a parameter.

Behaviour of the code worth knowing:

- The code takes the first key of the dictionary even when that role's metadata is null, and then fails naming that role. It never moves on to the next role.
- The code also fails separately when the dictionary itself is null, and treats an empty first key like a missing one.
- `AWS_PROFILE` set to the empty string selects the profile named "", because `??` only replaces null.
- With the standard generator list the chain can never fall back to the anonymous placeholder or raise the aggregate error. The container / instance-profile wrapper always returns a credentials object. `StandardChainNeverExhausts` proves this.
- The background loop fetches without consulting the enabled flag. Only `GetCredentials` checks it.

## Model

| member | source | states |
|---|---|---|
| `Decimal.NatToString` | src/AwsEx.Creds/FallbackCredentialsFactoryEx.cs:124 | the entry numbers are rendered as digits only, at least one, with a leading zero only for 0 and exactly one digit below 10 |
| `Decimal.DecimalRoundTrip` | src/AwsEx.Creds/FallbackCredentialsFactoryEx.cs:124 | reading the rendered number back yields the number itself |
| `Decimal.NatToStringInjective` | src/AwsEx.Creds/FallbackCredentialsFactoryEx.cs:124 | two different entry numbers never render alike |
| `FallbackCredentials.ProfileName` | src/AwsEx.Creds/FallbackCredentialsFactoryEx.cs:52 | the profile is `AWS_PROFILE` whenever that variable is set, even to "", and "default" when it is unset; a security exception while reading is passed on |
| `FallbackCredentials.ProfileNotFoundMessage` | src/AwsEx.Creds/FallbackCredentialsFactoryEx.cs:56 | the missing-profile message starts "Unable to find the '" and carries the profile name right after it |
| `FallbackCredentials.ProfileCredentials` | src/AwsEx.Creds/FallbackCredentialsFactoryEx.cs:50-57 | with a readable environment, the profile named by `AWS_PROFILE` (or "default" when unset) is looked up: the store's result when it knows the profile, otherwise an ordinary failure whose text carries that name; an unreadable environment gives an ordinary failure with the security text |
| `FallbackCredentials.Invoke` | src/AwsEx.Creds/FallbackCredentialsFactoryEx.cs:42-46 | invoking a standard generator: the default-profile step turns an unreadable environment into an ordinary failure, never an aborting one, and the container / instance-profile step always returns the container endpoint with the given proxy or the instance-profile cache |
| `FallbackCredentials.ContainerOrInstance` | src/AwsEx.Creds/FallbackCredentialsFactoryEx.cs:61-78 | the container endpoint, carrying the proxy, is chosen exactly when the environment is readable and the relative or the full URI variable is non-empty; in every other case, a security exception included, the instance-profile cache is chosen |
| `FallbackCredentials.StopIndex` | src/AwsEx.Creds/FallbackCredentialsFactoryEx.cs:87-111 | the walk ends at the first generator that returns credentials or throws a process-credential exception; every generator before it returned null or threw another exception |
| `FallbackCredentials.RecordedErrorsAppend` | src/AwsEx.Creds/FallbackCredentialsFactoryEx.cs:103-107 | each step appends its exception's text to the recorded errors, and a step that returns null appends nothing |
| `FallbackCredentials.RecordedErrorsBounds` | src/AwsEx.Creds/FallbackCredentialsFactoryEx.cs:91-107 | there are never more recorded errors than generators; when every generator threw, every error is recorded in generator order; when every generator returned null, nothing is recorded |
| `FallbackCredentials.WriteEntry` | src/AwsEx.Creds/FallbackCredentialsFactoryEx.cs:124-126 | writing the heading line, the error line and the blank line appends exactly one entry to the message |
| `FallbackCredentials.EntriesAppend` | src/AwsEx.Creds/FallbackCredentialsFactoryEx.cs:121-127 | numbering runs across the entries without gaps: the entries of a + b are those of a, followed by those of b numbered on from there |
| `FallbackCredentials.AggregateMessageLayout` | src/AwsEx.Creds/FallbackCredentialsFactoryEx.cs:117-129 | the i-th recorded error appears as "Exception i+1 of n:", its text and a blank line, right after the header and the earlier entries, n being the number of recorded errors |
| `FallbackCredentials.BuildMessage` | src/AwsEx.Creds/FallbackCredentialsFactoryEx.cs:117-129 | the writer loop produces exactly the aggregate message: "Unable to find credentials", a blank line, then one entry per recorded error in order |
| `FallbackCredentials.FirstProducerWins` | src/AwsEx.Creds/FallbackCredentialsFactoryEx.cs:87-111 | when generator k is the first to return credentials and no earlier one aborted, the call returns and caches k's result, and exactly generators 0..k are invoked |
| `FallbackCredentials.ProcessFailureAborts` | src/AwsEx.Creds/FallbackCredentialsFactoryEx.cs:99-102 | a process-credential exception at k is rethrown unchanged, the cache stays empty, and no generator after k runs |
| `FallbackCredentials.ChainExhausted` | src/AwsEx.Creds/FallbackCredentialsFactoryEx.cs:113-129 | when no generator yields or aborts, all of them run, the cache stays empty, and the call returns the anonymous placeholder or raises the aggregate error over every recorded exception, as the caller chose |
| `FallbackCredentials.StandardChainNeverExhausts` | src/AwsEx.Creds/FallbackCredentialsFactoryEx.cs:34-78 | with the list `Reset` installs, a call on an empty cache either caches and returns the credentials it produced or rethrows a process-credential exception; it never falls back |
| `FallbackCredentials.FallbackCredentialsFactory.constructor` | src/AwsEx.Creds/FallbackCredentialsFactoryEx.cs:27-30 | the static constructor runs `Reset` once, without a proxy: the cache is empty and the standard list is installed |
| `FallbackCredentials.FallbackCredentialsFactory.Reset` | src/AwsEx.Creds/FallbackCredentialsFactoryEx.cs:34-48 | the cache is emptied, and exactly the four standard generators are installed in order, the last carrying the proxy |
| `FallbackCredentials.FallbackCredentialsFactory.SetGenerators` | src/AwsEx.Creds/FallbackCredentialsFactoryEx.cs:32 | the public setter replaces the generator list and leaves the cache as it is |
| `FallbackCredentials.FallbackCredentialsFactory.GetCredentials` | src/AwsEx.Creds/FallbackCredentialsFactoryEx.cs:80-134 | a cached result is returned without invoking any generator; otherwise the result, the new cache and the invoked generators are those of the walk (`ChainResult`, `ChainCache`, `InvokedPrefix`), and the list is unchanged |
| `FallbackCredentials.FallbackCredentialsFactory.WalkGenerators` | src/AwsEx.Creds/FallbackCredentialsFactoryEx.cs:85-111 | the `foreach` over the generators on an empty cache: it invokes exactly the generators up to the one that yields or aborts, caches what that one yields, passes out an aborting exception's text, and, when the walk runs to the end, has recorded every other exception in order |
| `DefaultInstanceProfile.Lookup` | src/AwsEx.Creds/DefaultInstanceProfileAWSCredentialsEx.cs:114 | the dictionary indexer finds a role exactly when some entry has it, and returns that entry's metadata |
| `DefaultInstanceProfile.CredentialsError.Message` | src/AwsEx.Creds/DefaultInstanceProfileAWSCredentialsEx.cs:83-115 | the four service exceptions all open with "Unable to" and the constructor's argument error does not; the argument error names the parameter it refused |
| `DefaultInstanceProfile.NewCredentials` | src/AwsEx.Creds/DefaultInstanceProfileAWSCredentialsEx.cs:117 | the credentials constructor succeeds exactly when both keys are non-empty, then carries the three fields unchanged; otherwise it fails naming the access key when that is empty, else the secret key |
| `DefaultInstanceProfile.SelectCredentialsOutcomes` | src/AwsEx.Creds/DefaultInstanceProfileAWSCredentialsEx.cs:106-117 | a null dictionary, no first role or an empty one, a null entry for the first role, and an empty key in that entry are four distinct failures, each exactly when its condition holds; the third names the role; a success returns the first role's keys, both non-empty |
| `DefaultInstanceProfile.SelectIgnoresLaterRoles` | src/AwsEx.Creds/DefaultInstanceProfileAWSCredentialsEx.cs:110 | only the first role counts: the entries after it never change the fetch's result |
| `DefaultInstanceProfile.SelectReturnsFirstRoleKeys` | src/AwsEx.Creds/DefaultInstanceProfileAWSCredentialsEx.cs:114-117 | the access key, secret key and token of the first role reach the caller unchanged, unless the constructor refuses an empty access key or, after it, an empty secret key |
| `DefaultInstanceProfile.NoCredentialsMessageNamesRole` | src/AwsEx.Creds/DefaultInstanceProfileAWSCredentialsEx.cs:115 | the failure for a role without metadata carries the role's name, in quotes, in its message |
| `DefaultInstanceProfile.RenewedKeepsValue` | src/AwsEx.Creds/DefaultInstanceProfileAWSCredentialsEx.cs:27-37 | no run of background passes empties a populated cache |
| `DefaultInstanceProfile.RenewedIsLatestSuccess` | src/AwsEx.Creds/DefaultInstanceProfileAWSCredentialsEx.cs:27-37 | after a run of passes, the cache holds what the last successful pass fetched |
| `DefaultInstanceProfile.RenewedAllFail` | src/AwsEx.Creds/DefaultInstanceProfileAWSCredentialsEx.cs:33-37 | passes whose fetches all fail leave the cache exactly as it was |
| `DefaultInstanceProfile.FailingServiceRetries` | src/AwsEx.Creds/DefaultInstanceProfileAWSCredentialsEx.cs:33-37 | against a service that keeps failing, k passes select k error sleeps and report k errors, each "Error in RenewCredentials" with its cause; for any error rate `Task.Delay` accepts, the loop never stops by itself |
| `DefaultInstanceProfile.InstanceProfileCredentials.constructor` | src/AwsEx.Creds/DefaultInstanceProfileAWSCredentialsEx.cs:19-39 | a new instance has an empty cache, is not disposed, has no hooks set, and uses the 5-second error rate |
| `DefaultInstanceProfile.InstanceProfileCredentials.SetHooks` | src/AwsEx.Creds/DefaultInstanceProfileAWSCredentialsEx.cs:44-49 | the Error and BeforeFetch hooks are set or cleared |
| `DefaultInstanceProfile.InstanceProfileCredentials.SetErrorRefreshRate` | src/AwsEx.Creds/DefaultInstanceProfileAWSCredentialsEx.cs:54 | the sleep after a failed refresh is settable |
| `DefaultInstanceProfile.InstanceProfileCredentials.FetchCredentials` | src/AwsEx.Creds/DefaultInstanceProfileAWSCredentialsEx.cs:102-118 | every fetch first calls the BeforeFetch hook when it is set, on success and on failure alike, and then returns the first role's selection |
| `DefaultInstanceProfile.InstanceProfileCredentials.GetCredentials` | src/AwsEx.Creds/DefaultInstanceProfileAWSCredentialsEx.cs:73-100 | a disabled service is refused before the cache is consulted; a cached value is returned as an equal copy, with no fetch; a cold cache is fetched exactly once, the result is stored only on success, and a failure propagates; a populated cache is never emptied |
| `DefaultInstanceProfile.InstanceProfileCredentials.GatedFetch` | src/AwsEx.Creds/DefaultInstanceProfileAWSCredentialsEx.cs:88-99 | behind the gate the cache is checked again: a value filled in meanwhile is returned without fetching; otherwise it is fetched once and stored |
| `DefaultInstanceProfile.InstanceProfileCredentials.RenewStep` | src/AwsEx.Creds/DefaultInstanceProfileAWSCredentialsEx.cs:27-37 | once disposed, the loop stops and nothing changes; otherwise one fetch, then on success the cache is replaced and 15 minutes are selected, and on failure the Error hook is called with "Error in RenewCredentials", the cache is kept and the error rate is selected |
| `DefaultInstanceProfile.InstanceProfileCredentials.Run` | src/AwsEx.Creds/DefaultInstanceProfileAWSCredentialsEx.cs:25-38 | a run over successive metadata snapshots selects one sleep per pass, leaves the cache as `Renewed` says, and logs the hook calls of every pass in order; a disposed instance runs no pass |
| `DefaultInstanceProfile.InstanceProfileCredentials.Dispose` | src/AwsEx.Creds/DefaultInstanceProfileAWSCredentialsEx.cs:63-68 | the first call sets the disposed flag; a second call fails with the object-disposed error naming the class |

## Left out

- Concurrency is left out: `Task.Run`, `async`/`await`, the single-permit `SemaphoreSlim`, and the blocking `GetAwaiter().GetResult()`. The single-flight guarantee under concurrent callers is not modelled. The gated part of a call is the separate method `GatedFetch`, so that a value filled in "meanwhile" can be expressed. The synchronous and asynchronous `GetCredentials` are one method.
- `Task.Delay` and real time are left out. A pass of the background loop returns the sleep it would take.
- `Dispose` does not wait for the background task to finish, because there is no task in the model.
- DefaultInstanceProfile.InstanceProfileCredentials.Run: the unbounded `while (!_disposed)` loop is bounded by the list of metadata snapshots it is given. Each pass consumes one snapshot.
- The lazy singleton (`Lazy<T>`, `Instance`) and the timing of the static constructor are left out. The factory's constructor runs `Reset` once.
- The network and SDK collaborators are inputs: the metadata service, the container endpoint, web-identity federation, environment-variable credentials, the profile store and `AWSCredentialsFactory`. Building the container endpoint is assumed not to throw.
- Network failures inside the metadata service calls are not modelled apart from the null dictionary they produce.
- The hooks are flags saying whether each is set, plus a log of their calls. A hook that itself throws is not modelled.
- The logger call on a security exception in the container/instance wrapper is left out. So are the culture of the `StringWriter` and the exact value of `Environment.NewLine`, which is a parameter.
- The generator that `#if BCL` adds (`AppConfigAWSCredentials`) is not part of this model. The model follows the non-BCL build.
- An exception's `ToString()` is reduced to "the error's text" carried by each failure outcome.
- FallbackCredentials.FallbackCredentialsFactory.SetGenerators: the public setter also accepts null. The `foreach` would then throw a `NullReferenceException` outside the `try`; the model's list is never null, so that failure is not modelled.
- DefaultInstanceProfile.NewCredentials: the SDK's `ImmutableCredentials` constructor is not part of this model's sources. The model takes its documented checks: an empty or null access key, then secret key, raises an argument-null error. Null strings in the metadata stand as the empty string, so a null token becoming "" is not distinguished. The error's text is the .NET runtime's wording.
- DefaultInstanceProfile.InstanceProfileCredentials.SetErrorRefreshRate: the rate is a natural number of milliseconds. The source's rate is a static `TimeSpan` whose setter accepts any value. `Task.Delay` inside the `catch` throws for a negative rate other than -1 ms and for a rate above 4294967294 ms (above `Int32.MaxValue` ms on .NET Framework). That exception faults the background task, so the retries stop, and the next `Dispose` rethrows it. With -1 ms (infinite) the loop never retries. The model keeps retrying at every rate, including ones too large for `Task.Delay`. Because the rate is static, a value set before the singleton is created survives its creation; the model's constructor starts at 5 seconds.
- `ImmutableCredentials.Copy()` is left out. Credentials are immutable values here, so a copy is the value itself, and aliasing cannot be expressed.
