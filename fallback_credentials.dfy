/** The process-wide fallback credential chain: an ordered list of credential
    generators, tried in order until one yields credentials, with the first
    success cached until the chain is reset. */
module FallbackCredentials {
  import opened Wrappers
  import Decimal

  const AwsProfileVariable := "AWS_PROFILE"
  const DefaultProfileName := "default"
  const ContainerRelativeUriVariable := "AWS_CONTAINER_CREDENTIALS_RELATIVE_URI"
  const ContainerFullUriVariable := "AWS_CONTAINER_CREDENTIALS_FULL_URI"
  /** First line of the aggregate error raised when every generator failed. */
  const CredentialsNotFound := "Unable to find credentials"

  /** The web proxy handed to `Reset`, passed on to the container endpoint. */
  datatype Proxy = Proxy(address: string)

  /** The process environment: its variables, and, when reading them is
      forbidden, the text of the security exception every read raises. */
  datatype Environment = Environment(variables: map<string, string>, securityFailure: Option<string>)

  /** The credentials object a generator hands back. */
  datatype AwsCredentials =
    | Anonymous                        // the placeholder for "no credentials"
    | ContainerTask(proxy: Option<Proxy>) // the container credentials endpoint
    | InstanceProfile                  // the instance-profile cache singleton
    | Opaque(description: string)      // whatever another generator built

  /** What invoking one generator does: return credentials, return null,
      throw a process-credential exception, or throw any other exception. */
  datatype Outcome =
    | Produced(credentials: AwsCredentials)
    | NoResult
    | ProcessFailure(text: string)
    | OtherFailure(text: string)

  /** One step of the chain. The four standard steps, and steps a caller
      installs through the public generator list. */
  datatype Generator =
    | WebIdentityFromEnvironment
    | DefaultProfile
    | EnvironmentVariables
    | ContainerOrInstanceProfile(proxy: Option<Proxy>)
    | Custom(id: nat)

  /** Everything outside the chain that its generators consult.
      `profileStore` maps each profile the store knows to what building
      credentials from it does; `newLine` is the platform line terminator. */
  datatype World = World(
    env: Environment,
    profileStore: map<string, Outcome>,
    webIdentity: Outcome,
    environmentVariables: Outcome,
    custom: nat -> Outcome,
    newLine: string)

  datatype ChainError =
    | ProcessCredentialError(text: string) // rethrown unchanged
    | NoCredentialsFound(message: string)  // the aggregate error

  // ---------------------------------------------------------------------
  // Environment lookups and the two decision functions

  /** Reading one variable: its value, null when unset, or the security exception. */
  function GetEnvironmentVariable(env: Environment, name: string): Result<Option<string>, string> {
    match env.securityFailure
    case Some(text) => Failure(text)
    case None => Success(if name in env.variables then Some(env.variables[name]) else None)
  }

  predicate IsNullOrEmpty(s: Option<string>) {
    s.None? || s.value == ""
  }

  predicate IsSetNonEmpty(env: Environment, name: string) {
    name in env.variables && env.variables[name] != ""
  }

  /** The profile to load: `AWS_PROFILE` when it is set (even to the empty
      string, since only null is replaced), otherwise "default". */
  function ProfileName(env: Environment): (r: Result<string, string>)
    ensures r.Failure? <==> env.securityFailure.Some?
    ensures r.Failure? ==> r.error == env.securityFailure.value
    ensures r.Success? ==> (r.value == DefaultProfileName <==> AwsProfileVariable !in env.variables || env.variables[AwsProfileVariable] == DefaultProfileName)
    ensures r.Success? && AwsProfileVariable in env.variables ==> r.value == env.variables[AwsProfileVariable]
  {
    match GetEnvironmentVariable(env, AwsProfileVariable)
    case Failure(text) => Failure(text)
    case Success(value) => Success(if value.Some? then value.value else DefaultProfileName)
  }

  function ProfileNotFoundMessage(name: string): (m: string)
    ensures |m| > 20 + |name|
    ensures m[..20] == "Unable to find the '" && m[20 .. 20 + |name|] == name
  {
    "Unable to find the '" + name + "' profile in CredentialProfileStoreChain."
  }

  /** The default-profile generator: the chosen profile's credentials, or a
      failure naming the profile when the store does not know it. */
  function ProfileCredentials(env: Environment, store: map<string, Outcome>): (r: Outcome)
    ensures env.securityFailure.Some? ==> r == OtherFailure(env.securityFailure.value)
    ensures env.securityFailure.None? ==>
      var name := if AwsProfileVariable in env.variables then env.variables[AwsProfileVariable] else DefaultProfileName;
      && (name in store ==> r == store[name])
      && (name !in store ==> r.OtherFailure? && |r.text| > 20 + |name| && r.text[20 .. 20 + |name|] == name)
  {
    match ProfileName(env)
    case Failure(text) => OtherFailure(text)
    case Success(name) =>
      if name in store then store[name] else OtherFailure(ProfileNotFoundMessage(name))
  }

  /** The last standard generator: the container endpoint when either
      container variable is set and non-empty, otherwise (and when the
      environment cannot be read) the instance-profile cache. */
  function ContainerOrInstance(env: Environment, proxy: Option<Proxy>): (r: AwsCredentials)
    ensures r == ContainerTask(proxy) <==>
      env.securityFailure.None? && (IsSetNonEmpty(env, ContainerRelativeUriVariable) || IsSetNonEmpty(env, ContainerFullUriVariable))
    ensures r != ContainerTask(proxy) ==> r == InstanceProfile
  {
    match GetEnvironmentVariable(env, ContainerRelativeUriVariable)
    case Failure(_) => InstanceProfile
    case Success(relativeUri) =>
      if !IsNullOrEmpty(relativeUri) then ContainerTask(proxy)
      else
        match GetEnvironmentVariable(env, ContainerFullUriVariable)
        case Failure(_) => InstanceProfile
        case Success(fullUri) =>
          if !IsNullOrEmpty(fullUri) then ContainerTask(proxy) else InstanceProfile
  }

  /** What invoking generator `g` does in world `w`. The default-profile
      step turns an unreadable environment into an ordinary failure, never
      into the aborting one, and the container / instance-profile step
      always returns one of its two credentials objects. */
  function Invoke(g: Generator, w: World): (r: Outcome)
    ensures g == DefaultProfile && w.env.securityFailure.Some? ==> r == OtherFailure(w.env.securityFailure.value)
    ensures g.ContainerOrInstanceProfile? ==>
      r.Produced? && (r.credentials == ContainerTask(g.proxy) || r.credentials == InstanceProfile)
  {
    match g
    case WebIdentityFromEnvironment => w.webIdentity
    case DefaultProfile => ProfileCredentials(w.env, w.profileStore)
    case EnvironmentVariables => w.environmentVariables
    case ContainerOrInstanceProfile(proxy) => Produced(ContainerOrInstance(w.env, proxy))
    case Custom(id) => w.custom(id)
  }

  function Outcomes(gens: seq<Generator>, w: World): seq<Outcome> {
    seq(|gens|, i requires 0 <= i < |gens| => Invoke(gens[i], w))
  }

  /** The list `Reset` installs, in the order the chain tries it. */
  function StandardGenerators(proxy: Option<Proxy>): seq<Generator> {
    [WebIdentityFromEnvironment, DefaultProfile, EnvironmentVariables, ContainerOrInstanceProfile(proxy)]
  }

  // ---------------------------------------------------------------------
  // The chain as a specification over the generators' outcomes

  /** An outcome that ends the walk: credentials, or the aborting exception. */
  predicate Stops(o: Outcome) {
    o.Produced? || o.ProcessFailure?
  }

  /** The position at which the walk ends: the first outcome that stops it,
      or the length of the list when none does. */
  function StopIndex(outs: seq<Outcome>): (k: nat)
    ensures k <= |outs|
    ensures forall j :: 0 <= j < k ==> !Stops(outs[j])
    ensures k < |outs| ==> Stops(outs[k])
  {
    if outs == [] then 0
    else if Stops(outs[0]) then 0
    else 1 + StopIndex(outs[1..])
  }

  /** The errors the walk records: the text of every non-aborting exception,
      in generator order; a generator that returns null records nothing. */
  function RecordedErrors(outs: seq<Outcome>): seq<string> {
    if outs == [] then []
    else (if outs[0].OtherFailure? then [outs[0].text] else []) + RecordedErrors(outs[1..])
  }

  lemma {:induction false} RecordedErrorsAppend(outs: seq<Outcome>, o: Outcome)
    ensures RecordedErrors(outs + [o]) == RecordedErrors(outs) + (if o.OtherFailure? then [o.text] else [])
  {
    if outs != [] {
      assert (outs + [o])[1..] == outs[1..] + [o];
      RecordedErrorsAppend(outs[1..], o);
    }
  }

  /** Exceptions are recorded and nothing else: never more entries than
      generators, every error in order when every generator threw, none
      when every generator returned null. */
  lemma {:induction false} RecordedErrorsBounds(outs: seq<Outcome>)
    ensures |RecordedErrors(outs)| <= |outs|
    ensures (forall i :: 0 <= i < |outs| ==> outs[i].OtherFailure?) ==>
      RecordedErrors(outs) == seq(|outs|, i requires 0 <= i < |outs| => outs[i].text)
    ensures (forall i :: 0 <= i < |outs| ==> outs[i].NoResult?) ==> RecordedErrors(outs) == []
  {
    if outs != [] {
      RecordedErrorsBounds(outs[1..]);
      if forall i :: 0 <= i < |outs| ==> outs[i].OtherFailure? {
        assert forall i :: 0 <= i < |outs[1..]| ==> outs[1..][i].OtherFailure?;
        assert RecordedErrors(outs) == [outs[0].text] + RecordedErrors(outs[1..]);
      }
      if forall i :: 0 <= i < |outs| ==> outs[i].NoResult? {
        assert forall i :: 0 <= i < |outs[1..]| ==> outs[1..][i].NoResult?;
      }
    }
  }

  /** `StringWriter.WriteLine`: the line, then the line terminator. */
  function WriteLine(buffer: string, line: string, nl: string): string {
    buffer + line + nl
  }

  lemma WriteLineAfter(prefix: string, buffer: string, line: string, nl: string)
    ensures WriteLine(prefix + buffer, line, nl) == prefix + WriteLine(buffer, line, nl)
  {
  }

  /** The heading line of one entry, "Exception i of n:". */
  function Heading(number: nat, total: nat): string {
    "Exception " + Decimal.NatToString(number) + " of " + Decimal.NatToString(total) + ":"
  }

  /** One entry of the aggregate message: the heading, the error's text and
      a blank line. */
  function Entry(number: nat, total: nat, text: string, nl: string): string {
    WriteLine(WriteLine(WriteLine("", Heading(number, total), nl), text, nl), "", nl)
  }

  /** The entries for `errs`, numbered from `first`, each saying "of total". */
  function Entries(errs: seq<string>, total: nat, first: nat, nl: string): string {
    if errs == [] then "" else Entry(first, total, errs[0], nl) + Entries(errs[1..], total, first + 1, nl)
  }

  /** The first two lines: "Unable to find credentials" and a blank line. */
  function Header(nl: string): string {
    WriteLine(WriteLine("", CredentialsNotFound, nl), "", nl)
  }

  /** The message of the aggregate error: the header and one entry per
      recorded error, "Exception i of n", n the number of errors. */
  function AggregateMessage(errs: seq<string>, nl: string): string {
    Header(nl) + Entries(errs, |errs|, 1, nl)
  }

  lemma {:induction false} EntriesAppend(a: seq<string>, b: seq<string>, total: nat, first: nat, nl: string)
    ensures Entries(a + b, total, first, nl) == Entries(a, total, first, nl) + Entries(b, total, first + |a|, nl)
  {
    if a == [] {
      assert a + b == b;
    } else {
      assert (a + b)[0] == a[0];
      assert (a + b)[1..] == a[1..] + b;
      EntriesAppend(a[1..], b, total, first + 1, nl);
      var e := Entry(first, total, a[0], nl);
      calc {
        Entries(a + b, total, first, nl);
        e + Entries(a[1..] + b, total, first + 1, nl);
        e + (Entries(a[1..], total, first + 1, nl) + Entries(b, total, first + |a|, nl));
        (e + Entries(a[1..], total, first + 1, nl)) + Entries(b, total, first + |a|, nl);
      }
    }
  }

  /** The i-th recorded error appears, headed "Exception i+1 of n:", right
      after the header and the entries of the errors recorded before it;
      the message begins with the header whatever was recorded. */
  lemma AggregateMessageLayout(errs: seq<string>, nl: string, i: nat)
    requires i < |errs|
    ensures AggregateMessage(errs, nl) ==
      Header(nl) + Entries(errs[..i], |errs|, 1, nl) + Entry(i + 1, |errs|, errs[i], nl) + Entries(errs[i + 1..], |errs|, i + 2, nl)
  {
    var n := |errs|;
    var tail := errs[i..];
    var p, e, t := Entries(errs[..i], n, 1, nl), Entry(i + 1, n, errs[i], nl), Entries(errs[i + 1..], n, i + 2, nl);
    assert errs == errs[..i] + tail;
    EntriesAppend(errs[..i], tail, n, 1, nl);
    assert Entries(errs, n, 1, nl) == p + Entries(tail, n, i + 1, nl);
    assert tail[0] == errs[i] && tail[1..] == errs[i + 1..];
    assert Entries(tail, n, i + 1, nl) == e + t;
    SeqAssoc(p, e, t);
    SeqAssoc(Header(nl), p, e + t);
    SeqAssoc(Header(nl) + p, e, t);
  }

  /** Writing an entry's three lines to a buffer appends the entry. */
  lemma WriteEntry(buffer: string, number: nat, total: nat, text: string, nl: string)
    ensures WriteLine(WriteLine(WriteLine(buffer, Heading(number, total), nl), text, nl), "", nl)
      == buffer + Entry(number, total, text, nl)
  {
    var h := Heading(number, total);
    WriteLineAfter(buffer, "", h, nl);
    WriteLineAfter(buffer, WriteLine("", h, nl), text, nl);
    WriteLineAfter(buffer, WriteLine(WriteLine("", h, nl), text, nl), "", nl);
  }

  /** The `StringWriter` loop that lays out the aggregate message. */
  method BuildMessage(errs: seq<string>, nl: string) returns (message: string)
    ensures message == AggregateMessage(errs, nl)
  {
    var n := |errs|;
    message := WriteLine("", CredentialsNotFound, nl);
    message := WriteLine(message, "", nl);
    assert message == Header(nl) + Entries(errs[..0], n, 1, nl);
    for i := 0 to n
      invariant message == Header(nl) + Entries(errs[..i], n, 1, nl)
    {
      ghost var done := Entries(errs[..i], n, 1, nl);
      message := WriteLine(message, Heading(i + 1, n), nl);
      message := WriteLine(message, errs[i], nl);
      message := WriteLine(message, "", nl);
      WriteEntry(Header(nl) + done, i + 1, n, errs[i], nl);
      assert errs[..i + 1] == errs[..i] + [errs[i]];
      EntriesAppend(errs[..i], [errs[i]], n, 1, nl);
      assert Entries([errs[i]], n, i + 1, nl) == Entry(i + 1, n, errs[i], nl);
      SeqAssoc(Header(nl), done, Entry(i + 1, n, errs[i], nl));
    }
    assert errs[..n] == errs;
  }

  /** What a call on an empty cache returns, given the generators' outcomes. */
  function ChainResult(outs: seq<Outcome>, fallbackToAnonymous: bool, nl: string): Result<AwsCredentials, ChainError> {
    var k := StopIndex(outs);
    if k < |outs| then
      if outs[k].Produced? then Success(outs[k].credentials)
      else Failure(ProcessCredentialError(outs[k].text))
    else if fallbackToAnonymous then Success(Anonymous)
    else Failure(NoCredentialsFound(AggregateMessage(RecordedErrors(outs), nl)))
  }

  /** The cache after a call on an empty cache: the credentials that ended
      the walk, or still empty. */
  function ChainCache(outs: seq<Outcome>): Option<AwsCredentials> {
    var k := StopIndex(outs);
    if k < |outs| && outs[k].Produced? then Some(outs[k].credentials) else None
  }

  /** The generators a call on an empty cache invokes: a prefix of the list,
      up to and including the one that ended the walk. */
  function InvokedPrefix(gens: seq<Generator>, outs: seq<Outcome>): seq<Generator>
    requires |outs| == |gens|
  {
    var k := StopIndex(outs);
    gens[..if k < |outs| then k + 1 else k]
  }

  /** First success wins: when generator k is the first to return credentials
      and none before it aborted, the chain returns and caches its result and
      invokes nothing after it. */
  lemma FirstProducerWins(gens: seq<Generator>, outs: seq<Outcome>, fallbackToAnonymous: bool, nl: string, k: nat)
    requires |outs| == |gens| && k < |outs| && outs[k].Produced?
    requires forall j :: 0 <= j < k ==> outs[j].NoResult? || outs[j].OtherFailure?
    ensures ChainResult(outs, fallbackToAnonymous, nl) == Success(outs[k].credentials)
    ensures ChainCache(outs) == Some(outs[k].credentials)
    ensures InvokedPrefix(gens, outs) == gens[..k + 1]
  {
    assert StopIndex(outs) == k;
  }

  /** A process-credential exception aborts the chain: it is rethrown,
      nothing is cached, no later generator runs. */
  lemma ProcessFailureAborts(gens: seq<Generator>, outs: seq<Outcome>, fallbackToAnonymous: bool, nl: string, k: nat)
    requires |outs| == |gens| && k < |outs| && outs[k].ProcessFailure?
    requires forall j :: 0 <= j < k ==> outs[j].NoResult? || outs[j].OtherFailure?
    ensures ChainResult(outs, fallbackToAnonymous, nl) == Failure(ProcessCredentialError(outs[k].text))
    ensures ChainCache(outs) == None
    ensures InvokedPrefix(gens, outs) == gens[..k + 1]
  {
    assert StopIndex(outs) == k;
  }

  /** When no generator yields credentials or aborts, every generator runs,
      nothing is cached, and the call returns the anonymous placeholder or
      raises the aggregate error over every recorded exception. */
  lemma ChainExhausted(gens: seq<Generator>, outs: seq<Outcome>, fallbackToAnonymous: bool, nl: string)
    requires |outs| == |gens|
    requires forall j :: 0 <= j < |outs| ==> outs[j].NoResult? || outs[j].OtherFailure?
    ensures ChainResult(outs, fallbackToAnonymous, nl) ==
      if fallbackToAnonymous then Success(Anonymous)
      else Failure(NoCredentialsFound(AggregateMessage(RecordedErrors(outs), nl)))
    ensures ChainCache(outs) == None
    ensures InvokedPrefix(gens, outs) == gens
  {
    assert StopIndex(outs) == |outs|;
  }

  /** The standard chain never runs dry: its last step always yields the
      container endpoint or the instance-profile cache, so a call on an empty
      cache either caches and returns what some step produced or rethrows a
      process-credential exception; the anonymous fallback and the aggregate
      error cannot occur. */
  lemma StandardChainNeverExhausts(proxy: Option<Proxy>, w: World, fallbackToAnonymous: bool)
    ensures var outs := Outcomes(StandardGenerators(proxy), w);
      var r := ChainResult(outs, fallbackToAnonymous, w.newLine);
      && (r.Success? ==> ChainCache(outs) == Some(r.value))
      && (r.Failure? ==> r.error.ProcessCredentialError? && ChainCache(outs) == None)
  {
    var outs := Outcomes(StandardGenerators(proxy), w);
    assert Stops(outs[3]);
  }

  // ---------------------------------------------------------------------
  // The chain's process-wide state

  class FallbackCredentialsFactory {
    /** The cached result; None stands for null. */
    var cachedCredentials: Option<AwsCredentials>
    /** The public, replaceable list of generators. */
    var credentialsGenerators: seq<Generator>
    /** Every generator invocation so far, in order. */
    ghost var invoked: seq<Generator>

    /** The static constructor: runs `Reset` once, with no proxy. */
    constructor ()
      ensures cachedCredentials == None
      ensures credentialsGenerators == StandardGenerators(None)
      ensures invoked == []
    {
      cachedCredentials := None;
      credentialsGenerators := [];
      invoked := [];
      new;
      Reset();
    }

    /** Empties the cache and installs the four standard generators. */
    method Reset(proxy: Option<Proxy> := None)
      modifies this
      ensures cachedCredentials == None
      ensures credentialsGenerators == StandardGenerators(proxy)
      ensures invoked == old(invoked)
    {
      cachedCredentials := None;
      credentialsGenerators := StandardGenerators(proxy);
    }

    /** The public setter of the generator list; the cache is left as it is. */
    method SetGenerators(gens: seq<Generator>)
      modifies this
      ensures credentialsGenerators == gens
      ensures cachedCredentials == old(cachedCredentials) && invoked == old(invoked)
    {
      credentialsGenerators := gens;
    }

    /** Returns the cached credentials, or walks the generators in order
        and falls back when none of them yields. */
    method GetCredentials(w: World, fallbackToAnonymous: bool := false) returns (r: Result<AwsCredentials, ChainError>)
      modifies this`cachedCredentials, this`invoked
      ensures old(cachedCredentials).Some? ==>
        r == Success(old(cachedCredentials).value) && cachedCredentials == old(cachedCredentials) && invoked == old(invoked)
      ensures old(cachedCredentials).None? ==>
        var outs := Outcomes(credentialsGenerators, w);
        && r == ChainResult(outs, fallbackToAnonymous, w.newLine)
        && cachedCredentials == ChainCache(outs)
        && invoked == old(invoked) + InvokedPrefix(credentialsGenerators, outs)
    {
      if cachedCredentials.Some? {
        return Success(cachedCredentials.value);
      }
      var errors, aborted := WalkGenerators(w);
      if aborted.Some? {
        return Failure(ProcessCredentialError(aborted.value));
      }
      if cachedCredentials.None? {
        if fallbackToAnonymous {
          return Success(Anonymous);
        }
        var message := BuildMessage(errors, w.newLine);
        return Failure(NoCredentialsFound(message));
      }
      r := Success(cachedCredentials.value);
    }

    /** The walk over the generators: each is invoked in turn inside the
        error boundary until one yields credentials, which are cached, or
        one throws the aborting exception, which is passed out. */
    method WalkGenerators(w: World) returns (errors: seq<string>, aborted: Option<string>)
      requires cachedCredentials == None
      modifies this`cachedCredentials, this`invoked
      ensures var outs := Outcomes(credentialsGenerators, w);
        var k := StopIndex(outs);
        && cachedCredentials == ChainCache(outs)
        && invoked == old(invoked) + InvokedPrefix(credentialsGenerators, outs)
        && aborted == (if k < |outs| && outs[k].ProcessFailure? then Some(outs[k].text) else None)
        && (k == |outs| ==> errors == RecordedErrors(outs))
    {
      var generators := credentialsGenerators;
      ghost var outs := Outcomes(generators, w);
      errors, aborted := [], None;
      var i := 0;
      while i < |generators|
        invariant 0 <= i <= |generators| == |outs|
        invariant i <= StopIndex(outs)
        invariant cachedCredentials == None
        invariant errors == RecordedErrors(outs[..i])
        invariant invoked == old(invoked) + generators[..i]
      {
        var generator := generators[i];
        invoked := invoked + [generator];
        assert generators[..i + 1] == generators[..i] + [generator];
        SeqAssoc(old(invoked), generators[..i], [generator]);
        assert outs[i] == Invoke(generator, w);
        match Invoke(generator, w) {
          case Produced(c) =>
            assert StopIndex(outs) == i;
            cachedCredentials := Some(c);
            return;
          case ProcessFailure(text) =>
            assert StopIndex(outs) == i;
            return errors, Some(text);
          case NoResult =>
          case OtherFailure(text) =>
            errors := errors + [text];
        }
        RecordedErrorsAppend(outs[..i], outs[i]);
        assert outs[..i + 1] == outs[..i] + [outs[i]];
        i := i + 1;
      }
      assert outs[..i] == outs;
    }
  }

  /** A chain of [fail, fail, succeed("X")]: the third result is returned and
      cached, a second call serves the cache without invoking anything, and
      after `Reset` the standard list runs from its start. */
  method FirstSuccessScenario(w0: World) {
    var chain := new FallbackCredentialsFactory();
    chain.SetGenerators([Custom(0), Custom(1), Custom(2)]);
    var w := w0.(custom := id => if id == 2 then Produced(Opaque("X")) else OtherFailure("boom"));
    var outs := Outcomes([Custom(0), Custom(1), Custom(2)], w);
    FirstProducerWins([Custom(0), Custom(1), Custom(2)], outs, false, w.newLine, 2);
    var r := chain.GetCredentials(w);
    assert r == Success(Opaque("X"));
    assert chain.invoked == [Custom(0), Custom(1), Custom(2)];
    r := chain.GetCredentials(w);
    assert r == Success(Opaque("X"));
    assert chain.invoked == [Custom(0), Custom(1), Custom(2)];
    chain.Reset();
    r := chain.GetCredentials(w);
    assert chain.invoked[3] == WebIdentityFromEnvironment;
  }

  /** A chain of [process failure, succeed("Y")]: the process error surfaces
      and the second generator never runs. */
  method ProcessFailureScenario(w0: World) {
    var chain := new FallbackCredentialsFactory();
    chain.SetGenerators([Custom(0), Custom(1)]);
    var w := w0.(custom := id => if id == 0 then ProcessFailure("helper failed") else Produced(Opaque("Y")));
    var outs := Outcomes([Custom(0), Custom(1)], w);
    ProcessFailureAborts([Custom(0), Custom(1)], outs, true, w.newLine, 0);
    var r := chain.GetCredentials(w, true);
    assert r == Failure(ProcessCredentialError("helper failed"));
    assert chain.invoked == [Custom(0)];
    assert chain.cachedCredentials == None;
  }
}
