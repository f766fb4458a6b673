/** Token refresh: `getValidToken` answers from the stored credentials while
    their token is valid, `forceRefresh` always refreshes, and a refresh is a
    task of the single-flight gate whose operation re-authenticates with a
    signed proof and saves the new credentials.

    The key store, the signer, the API client and the credentials store are
    one `Collaborators` object: what each call returns is given by a
    `Behaviour`, the stored credentials are a field, and every call is
    appended to a log so that contracts can speak of which calls happen and
    in what order. */
module TokenRefresh {
  import opened Outcomes
  import opened Session
  import opened Jwt
  import opened Coordination

  /** The private key the key store hands out, and the proof the signer makes. */
  type PrivateKey
  type LoginProof

  datatype LoginResponse = LoginResponse(authToken: string)

  /** How the external collaborators answer. `save` gives the error a write
      of the given credentials fails with, or `None` when it succeeds. */
  datatype Behaviour = Behaviour(
    loadKey: string -> Result<PrivateKey, Error>,
    createProof: (string, PrivateKey) -> Result<LoginProof, Error>,
    login: LoginProof -> Result<LoginResponse, Error>,
    save: Credentials -> Option<Error>,
    keyIdentifierRule: KeyIdentifierRule)

  /** One call into a collaborator. */
  datatype Call =
    | LoadCredentials
    | LoadKey(identifier: string)
    | CreateProof(certBase64: string, key: PrivateKey)
    | Login(proof: LoginProof)
    | Save(credentials: Credentials)

  /** Whether a logged call returned normally rather than throwing. */
  predicate Succeeded(b: Behaviour, call: Call)
  {
    match call
    case LoadCredentials => true
    case LoadKey(id) => b.loadKey(id).Ok?
    case CreateProof(cert, key) => b.createProof(cert, key).Ok?
    case Login(proof) => b.login(proof).Ok?
    case Save(u) => b.save(u).None?
  }

  /** `credentialsService.load()`: nothing stored means not logged in. */
  function Loaded(stored: Option<Credentials>): (r: Result<Credentials, Error>)
    ensures r.Ok? <==> stored.Some?
    ensures r.Ok? ==> stored == Some(r.value)
    ensures r.Err? ==> r.error == NotLoggedIn
  {
    match stored
    case None => Err(NotLoggedIn)
    case Some(c) => Ok(c)
  }

  /** What one run of the refresh operation does: the calls it makes, what
      it returns, and the credentials it durably wrote, if any. */
  datatype Run = Run(calls: seq<Call>, outcome: Outcome, written: Option<Credentials>)

  /** The refresh operation for credentials `c`: load the key named by
      `c.loginKeyIdentifier`, make a proof from `c.certBase64` and that key,
      log in with that proof, save credentials carrying the new token and
      `c`'s identity, and return the new token. A step runs only if the one
      before it returned; the first error thrown is the outcome. */
  function RefreshRun(b: Behaviour, c: Credentials): (run: Run)
    ensures 1 <= |run.calls| <= 4
    ensures run.calls[0] == LoadKey(c.loginKeyIdentifier)
    ensures forall i :: 0 <= i < |run.calls| - 1 ==> Succeeded(b, run.calls[i])
    ensures |run.calls| >= 2 ==>
              && b.loadKey(c.loginKeyIdentifier).Ok?
              && run.calls[1] == CreateProof(c.certBase64, b.loadKey(c.loginKeyIdentifier).value)
    ensures |run.calls| >= 3 ==>
              && run.calls[1].CreateProof?
              && b.createProof(run.calls[1].certBase64, run.calls[1].key).Ok?
              && run.calls[2] == Login(b.createProof(run.calls[1].certBase64, run.calls[1].key).value)
    ensures |run.calls| == 4 ==>
              && run.calls[2].Login? && run.calls[3].Save?
              && b.login(run.calls[2].proof).Ok?
              && var u := run.calls[3].credentials;
                 && u.authToken == b.login(run.calls[2].proof).value.authToken
                 && u.deviceId == c.deviceId && u.userId == c.userId
                 && u.certBase64 == c.certBase64 && u.isDemoMode == c.isDemoMode
    ensures forall i :: 0 <= i < |run.calls| && run.calls[i].Save? ==>
              i == 3 && run.calls[2].Login? && b.login(run.calls[2].proof).Ok?
    ensures run.outcome.Ok? <==> |run.calls| == 4 && Succeeded(b, run.calls[3])
    ensures run.outcome.Err? ==> !Succeeded(b, run.calls[|run.calls| - 1])
    ensures run.outcome.Ok? <==> run.written.Some?
    ensures run.written.Some? ==>
              run.calls[3] == Save(run.written.value) && run.written.value.authToken == run.outcome.value
  {
    var id := c.loginKeyIdentifier;
    match b.loadKey(id)
    case Err(e) => Run([LoadKey(id)], Err(e), None)
    case Ok(key) =>
      match b.createProof(c.certBase64, key)
      case Err(e) => Run([LoadKey(id), CreateProof(c.certBase64, key)], Err(e), None)
      case Ok(proof) =>
        var steps := [LoadKey(id), CreateProof(c.certBase64, key), Login(proof)];
        match b.login(proof)
        case Err(e) => Run(steps, Err(e), None)
        case Ok(response) =>
          var updated := Refreshed(c, response.authToken, b.keyIdentifierRule);
          match b.save(updated)
          case Some(e) => Run(steps + [Save(updated)], Err(e), None)
          case None => Run(steps + [Save(updated)], Ok(response.authToken), Some(updated))
  }

  /** The error a refresh fails with is the one thrown by the step that
      failed, which is the last step it ran. */
  lemma RefreshFailsWithFirstError(b: Behaviour, c: Credentials)
    requires RefreshRun(b, c).outcome.Err?
    ensures var run := RefreshRun(b, c); var last := run.calls[|run.calls| - 1];
      match last
      case LoadKey(id) => b.loadKey(id) == Err(run.outcome.error)
      case CreateProof(cert, key) => b.createProof(cert, key) == Err(run.outcome.error)
      case Login(proof) => b.login(proof) == Err(run.outcome.error)
      case Save(u) => b.save(u) == Some(run.outcome.error)
      case LoadCredentials => false
  {
  }

  /** A login that is refused ends the refresh with that error, and nothing
      is written. */
  lemma RejectedLoginWritesNothing(b: Behaviour, c: Credentials)
    requires b.loadKey(c.loginKeyIdentifier).Ok?
    requires b.createProof(c.certBase64, b.loadKey(c.loginKeyIdentifier).value).Ok?
    requires b.login(b.createProof(c.certBase64, b.loadKey(c.loginKeyIdentifier).value).value) == Err(AuthRejected)
    ensures RefreshRun(b, c).outcome == Err(AuthRejected)
    ensures RefreshRun(b, c).written.None?
    ensures forall i :: 0 <= i < |RefreshRun(b, c).calls| ==> !RefreshRun(b, c).calls[i].Save?
  {
  }

  /** What a call of `getValidToken` or `forceRefresh` does with the result
      of loading the credentials: answer at once, or refresh them. */
  datatype Plan = Answer(result: Outcome) | Refresh(credentials: Credentials)

  /** `getValidToken`: a load error propagates; credentials whose token is
      valid at `now` are answered with that token, unchanged; all others are
      refreshed. */
  function ValidTokenPlan(loaded: Result<Credentials, Error>, dec: Decoders, now: int): (p: Plan)
    ensures loaded.Err? ==> p == Answer(Err(loaded.error))
    ensures p.Answer? && p.result.Ok? <==> loaded.Ok? && IsValid(loaded.value.authToken, dec, now)
    ensures p.Answer? && p.result.Ok? ==> p.result.value == loaded.value.authToken
    ensures p.Refresh? ==> loaded.Ok? && p.credentials == loaded.value
    ensures loaded.Ok? && !IsValid(loaded.value.authToken, dec, now) ==> p == Refresh(loaded.value)
  {
    match loaded
    case Err(e) => Answer(Err(e))
    case Ok(c) => if IsValid(c.authToken, dec, now) then Answer(Ok(c.authToken)) else Refresh(c)
  }

  /** `forceRefresh`: a load error propagates; otherwise the credentials are
      refreshed, whatever their token. */
  function ForceRefreshPlan(loaded: Result<Credentials, Error>): (p: Plan)
    ensures p.Refresh? <==> loaded.Ok?
    ensures p.Refresh? ==> p.credentials == loaded.value
    ensures p.Answer? ==> p.result == Err(loaded.error)
  {
    match loaded
    case Err(e) => Answer(Err(e))
    case Ok(c) => Refresh(c)
  }

  /** Credentials whose token is not valid lead `getValidToken` to do exactly
      what `forceRefresh` does. */
  lemma InvalidTokenMeansForceRefresh(loaded: Result<Credentials, Error>, dec: Decoders, now: int)
    requires loaded.Err? || !IsValid(loaded.value.authToken, dec, now)
    ensures ValidTokenPlan(loaded, dec, now) == ForceRefreshPlan(loaded)
  {
  }

  /** A token found valid stays the answer of `getValidToken` at every
      earlier time. */
  lemma FastPathOnlyEarlier(loaded: Result<Credentials, Error>, dec: Decoders, now: int, earlier: int)
    requires earlier <= now
    requires ValidTokenPlan(loaded, dec, now).Answer? && ValidTokenPlan(loaded, dec, now).result.Ok?
    ensures ValidTokenPlan(loaded, dec, earlier) == ValidTokenPlan(loaded, dec, now)
  {
  }

  /** The external collaborators, with the credentials store's contents and
      a log of every call made to any of them. */
  class Collaborators {
    const behaviour: Behaviour
    var stored: Option<Credentials>
    var calls: seq<Call>

    constructor (behaviour: Behaviour, stored: Option<Credentials>)
      ensures this.behaviour == behaviour && this.stored == stored && calls == []
    {
      this.behaviour := behaviour;
      this.stored := stored;
      calls := [];
    }

    /** `credentialsService.load()`. */
    method Load() returns (r: Result<Credentials, Error>)
      modifies this`calls
      ensures calls == old(calls) + [Call.LoadCredentials]
      ensures r == Loaded(stored)
    {
      calls := calls + [Call.LoadCredentials];
      r := Loaded(stored);
    }

    /** `keyStore.loadKey(identifier:)`. */
    method LoadKey(identifier: string) returns (r: Result<PrivateKey, Error>)
      modifies this`calls
      ensures calls == old(calls) + [Call.LoadKey(identifier)]
      ensures r == behaviour.loadKey(identifier)
    {
      calls := calls + [Call.LoadKey(identifier)];
      r := behaviour.loadKey(identifier);
    }

    /** `Signing.createProof(certBase64:privateKey:)`. */
    method CreateProof(certBase64: string, key: PrivateKey) returns (r: Result<LoginProof, Error>)
      modifies this`calls
      ensures calls == old(calls) + [Call.CreateProof(certBase64, key)]
      ensures r == behaviour.createProof(certBase64, key)
    {
      calls := calls + [Call.CreateProof(certBase64, key)];
      r := behaviour.createProof(certBase64, key);
    }

    /** `apiClient.login(loginProof:)`. */
    method Login(proof: LoginProof) returns (r: Result<LoginResponse, Error>)
      modifies this`calls
      ensures calls == old(calls) + [Call.Login(proof)]
      ensures r == behaviour.login(proof)
    {
      calls := calls + [Call.Login(proof)];
      r := behaviour.login(proof);
    }

    /** `credentialsService.save(_:)`: the store holds `u` afterwards unless
        the write failed. */
    method Save(u: Credentials) returns (failure: Option<Error>)
      modifies this`calls, this`stored
      ensures calls == old(calls) + [Call.Save(u)]
      ensures failure == behaviour.save(u)
      ensures stored == if failure.None? then Some(u) else old(stored)
    {
      calls := calls + [Call.Save(u)];
      failure := behaviour.save(u);
      if failure.None? {
        stored := Some(u);
      }
    }
  }

  /** What a call of `getValidToken` or `forceRefresh` has come to once it
      either returned or suspended in the gate. */
  datatype Progress = Returned(result: Outcome) | Suspended(call: nat)

  class TokenRefreshService {
    const collaborators: Collaborators
    const gate: RefreshCoordinator<Credentials>
    const decoders: Decoders

    ghost predicate Valid()
      reads this, gate
    {
      gate.Valid()
    }

    constructor (collaborators: Collaborators, decoders: Decoders)
      ensures Valid() && this.collaborators == collaborators && this.decoders == decoders
      ensures fresh(gate) && gate.refreshTask == None && gate.tasks == [] && gate.suspended == map[]
    {
      this.collaborators := collaborators;
      this.decoders := decoders;
      gate := new RefreshCoordinator<Credentials>();
    }

    /** Carries out a plan: an answer returns at once and leaves the gate
        alone; a refresh is a request to the gate. */
    method Follow(p: Plan) returns (progress: Progress)
      requires Valid()
      modifies gate
      ensures Valid()
      ensures p.Answer? ==> progress == Returned(p.result) && unchanged(gate)
      ensures p.Refresh? ==>
                progress.Suspended? &&
                gate.Requested(p.credentials, progress.call, old(gate.refreshTask).None?)
    {
      match p
      case Answer(result) =>
        progress := Returned(result);
      case Refresh(c) =>
        var call, started := gate.Request(c);
        progress := Suspended(call);
    }

    /** `getValidToken()`, with the clock reading `now`. */
    method GetValidToken(now: int) returns (progress: Progress)
      requires Valid()
      modifies collaborators`calls, gate
      ensures Valid()
      ensures collaborators.calls == old(collaborators.calls) + [LoadCredentials]
      ensures var p := ValidTokenPlan(Loaded(collaborators.stored), decoders, now);
        && (p.Answer? ==> progress == Returned(p.result) && unchanged(gate))
        && (p.Refresh? ==>
              progress.Suspended? &&
              gate.Requested(p.credentials, progress.call, old(gate.refreshTask).None?))
    {
      var loaded := collaborators.Load();
      progress := Follow(ValidTokenPlan(loaded, decoders, now));
    }

    /** `forceRefresh()`. */
    method ForceRefresh() returns (progress: Progress)
      requires Valid()
      modifies collaborators`calls, gate
      ensures Valid()
      ensures collaborators.calls == old(collaborators.calls) + [LoadCredentials]
      ensures var p := ForceRefreshPlan(Loaded(collaborators.stored));
        && (p.Answer? ==> progress == Returned(p.result) && unchanged(gate))
        && (p.Refresh? ==>
              progress.Suspended? &&
              gate.Requested(p.credentials, progress.call, old(gate.refreshTask).None?))
    {
      var loaded := collaborators.Load();
      progress := Follow(ForceRefreshPlan(loaded));
    }

    /** The operation `refreshToken(credentials:)` hands to the gate. */
    method RefreshOperation(c: Credentials) returns (outcome: Outcome)
      modifies collaborators`calls, collaborators`stored
      ensures var run := RefreshRun(collaborators.behaviour, c);
        && collaborators.calls == old(collaborators.calls) + run.calls
        && collaborators.stored == (if run.written.Some? then run.written else old(collaborators.stored))
        && outcome == run.outcome
    {
      var key := collaborators.LoadKey(c.loginKeyIdentifier);
      if key.Err? {
        return Err(key.error);
      }
      var proof := collaborators.CreateProof(c.certBase64, key.value);
      if proof.Err? {
        return Err(proof.error);
      }
      var response := collaborators.Login(proof.value);
      if response.Err? {
        return Err(response.error);
      }
      var updated := Refreshed(c, response.value.authToken, collaborators.behaviour.keyIdentifierRule);
      var failure := collaborators.Save(updated);
      if failure.Some? {
        return Err(failure.value);
      }
      return Ok(response.value.authToken);
    }

    /** Task `t` runs its operation, on the credentials of the call that
        created it, and settles with the result. */
    method RunTask(t: nat)
      requires Valid()
      requires t < |gate.tasks| && gate.tasks[t].status.Running?
      modifies collaborators`calls, collaborators`stored, gate
      ensures Valid()
      ensures var run := RefreshRun(collaborators.behaviour, old(gate.tasks[t].op));
        && collaborators.calls == old(collaborators.calls) + run.calls
        && collaborators.stored == (if run.written.Some? then run.written else old(collaborators.stored))
        && gate.tasks == old(gate.tasks)[t := old(gate.tasks[t]).(status := Settled(run.outcome))]
      ensures gate.refreshTask == old(gate.refreshTask) && gate.suspended == old(gate.suspended)
      ensures gate.nextCall == old(gate.nextCall)
    {
      var outcome := RefreshOperation(gate.tasks[t].op);
      gate.Settle(t, outcome);
    }

    /** A suspended `getValidToken` or `forceRefresh` call returns the
        outcome of the task it awaited. */
    method Resume(call: nat) returns (outcome: Outcome)
      requires Valid()
      requires call in gate.suspended && gate.suspended[call].task < |gate.tasks|
      requires gate.tasks[gate.suspended[call].task].status.Settled?
      modifies gate
      ensures Valid()
      ensures outcome == old(gate.tasks[gate.suspended[call].task].status.outcome)
      ensures gate.refreshTask == (if old(gate.suspended[call].created) then None else old(gate.refreshTask))
      ensures gate.suspended == old(gate.suspended) - {call}
      ensures gate.tasks == old(gate.tasks) && gate.nextCall == old(gate.nextCall)
    {
      outcome := gate.Resume(call);
    }
  }

  /** The number of logins and of saves in a log. */
  function Logins(calls: seq<Call>): nat
  {
    if calls == [] then 0 else (if calls[0].Login? then 1 else 0) + Logins(calls[1..])
  }

  function Saves(calls: seq<Call>): nat
  {
    if calls == [] then 0 else (if calls[0].Save? then 1 else 0) + Saves(calls[1..])
  }

  lemma {:induction false} CountsOfConcat(a: seq<Call>, b: seq<Call>)
    ensures Logins(a + b) == Logins(a) + Logins(b) && Saves(a + b) == Saves(a) + Saves(b)
  {
    if a == [] {
      assert a + b == b;
    } else {
      assert (a + b)[0] == a[0];
      assert (a + b)[1..] == a[1..] + b;
      CountsOfConcat(a[1..], b);
    }
  }

  lemma {:induction false} OnlyLoadsCountNothing(calls: seq<Call>)
    requires forall i :: 0 <= i < |calls| ==> calls[i] == LoadCredentials
    ensures Logins(calls) == 0 && Saves(calls) == 0
  {
    if calls != [] {
      OnlyLoadsCountNothing(calls[1..]);
    }
  }

  lemma RunCounts(b: Behaviour, c: Credentials)
    ensures var run := RefreshRun(b, c);
      && Logins(run.calls) == (if |run.calls| >= 3 then 1 else 0)
      && Saves(run.calls) == (if |run.calls| == 4 then 1 else 0)
  {
    var calls := RefreshRun(b, c).calls;
    assert calls[|calls|..] == [];
    if |calls| == 4 {
      assert calls[3..][1..] == calls[4..];
      assert Logins(calls[3..]) == 0 && Saves(calls[3..]) == 1;
    }
    if |calls| >= 3 {
      assert calls[2..][1..] == calls[3..];
      assert Logins(calls[2..]) == 1 + Logins(calls[3..]) && Saves(calls[2..]) == Saves(calls[3..]);
    }
    if |calls| >= 2 {
      assert calls[1..][1..] == calls[2..];
      assert Logins(calls[1..]) == Logins(calls[2..]) && Saves(calls[1..]) == Saves(calls[2..]);
    }
    assert Logins(calls) == Logins(calls[1..]) && Saves(calls) == Saves(calls[1..]);
  }

  /** Three `getValidToken` calls on credentials whose token has expired,
      all made before the refresh settles: the refresh operation runs once,
      with at most one login and one save, and the three calls return the
      same outcome, which is that operation's. */
  method ConcurrentGetValidToken(b: Behaviour, dec: Decoders, c: Credentials, now: int)
    returns (r1: Outcome, r2: Outcome, r3: Outcome, logins: nat, saves: nat)
    requires !IsValid(c.authToken, dec, now)
    ensures r1 == RefreshRun(b, c).outcome && r2 == r1 && r3 == r1
    ensures logins == (if |RefreshRun(b, c).calls| >= 3 then 1 else 0)
    ensures saves == (if |RefreshRun(b, c).calls| == 4 then 1 else 0)
  {
    var store := new Collaborators(b, Some(c));
    var service := new TokenRefreshService(store, dec);
    var call1, call2, call3 := ThreeExpiredRequests(service, c, now);
    ghost var before := store.calls;
    OnlyLoadsCountNothing(before);
    service.RunTask(0);
    var run := RefreshRun(b, c);
    CountsOfConcat(before, run.calls);
    RunCounts(b, c);
    logins := Logins(store.calls);
    saves := Saves(store.calls);
    r1 := service.Resume(call1);
    r2 := service.Resume(call2);
    r3 := service.Resume(call3);
  }

  /** Three `getValidToken` calls on an idle service whose stored token has
      expired: the first creates the one task, the other two join it. */
  method ThreeExpiredRequests(service: TokenRefreshService, c: Credentials, now: int)
    returns (call1: nat, call2: nat, call3: nat)
    requires service.Valid() && service.collaborators.stored == Some(c)
    requires !IsValid(c.authToken, service.decoders, now)
    requires service.gate.refreshTask == None && service.gate.tasks == [] && service.gate.suspended == map[]
    requires service.collaborators.calls == []
    modifies service.collaborators`calls, service.gate
    ensures service.Valid()
    ensures service.collaborators.calls == [LoadCredentials, LoadCredentials, LoadCredentials]
    ensures service.gate.tasks == [Task(c, call1, Running)]
    ensures call1 != call2 && call1 != call3 && call2 != call3
    ensures service.gate.suspended == map[call1 := Await(0, true), call2 := Await(0, false), call3 := Await(0, false)]
  {
    assert ValidTokenPlan(Loaded(service.collaborators.stored), service.decoders, now) == Refresh(c);
    var p1 := service.GetValidToken(now);
    var p2 := service.GetValidToken(now);
    var p3 := service.GetValidToken(now);
    call1, call2, call3 := p1.call, p2.call, p3.call;
  }

  /** A `getValidToken` call on credentials whose token is valid returns
      that token after loading the credentials, with no other call and no
      refresh. */
  method ValidTokenFastPath(b: Behaviour, dec: Decoders, c: Credentials, now: int)
    returns (r: Outcome, log: seq<Call>, tasks: nat)
    requires IsValid(c.authToken, dec, now)
    ensures r == Ok(c.authToken) && log == [LoadCredentials] && tasks == 0
  {
    var store := new Collaborators(b, Some(c));
    var service := new TokenRefreshService(store, dec);
    var p := service.GetValidToken(now);
    r := p.result;
    log := store.calls;
    tasks := |service.gate.tasks|;
  }

  /** With nothing stored, `getValidToken` and `forceRefresh` both fail with
      the load's error after the load alone, and no refresh starts. */
  method NotLoggedInFailsFast(b: Behaviour, dec: Decoders, now: int)
    returns (r1: Outcome, r2: Outcome, log: seq<Call>, tasks: nat)
    ensures r1 == Err(NotLoggedIn) && r2 == Err(NotLoggedIn)
    ensures log == [LoadCredentials, LoadCredentials] && tasks == 0
  {
    var store := new Collaborators(b, None);
    var service := new TokenRefreshService(store, dec);
    var p1 := service.GetValidToken(now);
    var p2 := service.ForceRefresh();
    r1, r2 := p1.result, p2.result;
    log := store.calls;
    tasks := |service.gate.tasks|;
  }

  /** `forceRefresh` refreshes even credentials whose token is still valid. */
  method ForceRefreshIgnoresValidity(b: Behaviour, dec: Decoders, c: Credentials, now: int)
    returns (outcome: Outcome)
    ensures outcome == RefreshRun(b, c).outcome
  {
    var store := new Collaborators(b, Some(c));
    var service := new TokenRefreshService(store, dec);
    var p := service.ForceRefresh();
    service.RunTask(0);
    outcome := service.Resume(p.call);
  }
}
