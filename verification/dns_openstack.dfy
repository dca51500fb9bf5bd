/**
 The certbot DNS-01 authenticator for OpenStack Designate: `perform` connects
 to the cloud, then for every challenge in order looks up the zone derived
 from the first configured domain and creates a TXT recordset holding the
 challenge's validation, sleeps once for propagation and returns one response
 per challenge; `_cleanup` deletes the recordset whose zone and recordset ids
 were stored last.
 */
module DnsOpenstack {
  import opened DomainNames
  import opened Cloud

  /** The class-level `ttl`. Nothing passes it to the provider. */
  const Ttl: nat := 60

  /** The ACME response for a challenge, computed by the ACME library. */
  datatype Response = Response(token: string)

  /**
   A pending challenge as the host hands it over. The values the ACME library
   derives from it (`validation_domain_name(domain)`, `validation(account_key)`
   and `response(account_key)`) are carried as fields.
   */
  datatype AnnotatedChallenge = AnnotatedChallenge(
    domain: string,
    validationDomainName: string,
    validation: string,
    response: Response)

  /**
   The configuration the authenticator reads: `config.namespace.domains`,
   `client_config`, `cloud` and `propagation-seconds`.
   */
  datatype Config = Config(
    domains: seq<string>,
    clientConfig: Option<string>,
    cloud: Option<string>,
    propagationSeconds: int)

  /** Why a call on the authenticator raised. */
  datatype Error =
    | CallRaised      // a provider call or the sleep raised
    | IndexError      // `config.namespace.domains[0]` on an empty list
    | AttributeError  // `self.zone` or `self.recordset` read before being set

  datatype Outcome<T> = Done(value: T) | Failed(error: Error)

  /** `self.conf('client_config') or ''`: an unset or empty option gives the empty path. */
  function ClientConfigFile(clientConfig: Option<string>): (file: string)
    ensures file == "" <==> clientConfig.None? || clientConfig.value == ""
    ensures clientConfig.Some? ==> file == clientConfig.value
  {
    if clientConfig.Some? then clientConfig.value else ""
  }

  /** `config.namespace.domains[0]`, which is read only when there is a challenge. */
  function FirstDomain(cfg: Config): (domain: string)
    ensures |cfg.domains| > 0 ==> domain == cfg.domains[0]
  {
    if |cfg.domains| > 0 then cfg.domains[0] else ""
  }

  /** The responses of the challenges, one per challenge and in the same order. */
  function Responses(achalls: seq<AnnotatedChallenge>): (rs: seq<Response>)
    ensures |rs| == |achalls|
    ensures forall i :: 0 <= i < |achalls| ==> rs[i] == achalls[i].response
  {
    if achalls == [] then []
    else Responses(achalls[..|achalls| - 1]) + [achalls[|achalls| - 1].response]
  }

  /** The zone stored once the call has returned: the zone a successful lookup returned, else the one stored before. */
  ghost function StoredZone(stored: Option<Zone>, c: Call): Option<Zone>
  {
    if c.GetZone? && c.zone.Ok? then Some(c.zone.value) else stored
  }

  /** The recordset stored once the call has returned: the one a successful creation returned, else the one stored before. */
  ghost function StoredRecordset(stored: Option<Recordset>, c: Call): Option<Recordset>
  {
    if c.CreateRecordset? && c.recordset.Ok? then Some(c.recordset.value) else stored
  }

  /** The zone stored after the given calls: the one returned by the last successful lookup. */
  ghost function LastZone(initial: Option<Zone>, calls: seq<Call>): Option<Zone>
  {
    if calls == [] then initial
    else StoredZone(LastZone(initial, calls[..|calls| - 1]), calls[|calls| - 1])
  }

  /** The recordset stored after the given calls: the one returned by the last successful creation. */
  ghost function LastRecordset(initial: Option<Recordset>, calls: seq<Call>): Option<Recordset>
  {
    if calls == [] then initial
    else StoredRecordset(LastRecordset(initial, calls[..|calls| - 1]), calls[|calls| - 1])
  }

  /** The creation call puts a TXT recordset for the validation into the given zone. */
  ghost predicate CreatesTxt(zone: Zone, validationName: string, validation: string, create: Call)
  {
    create.CreateRecordset? && create.zoneId == zone.id &&
    create.name == validationName + "." && create.kind == "TXT" && create.records == [validation]
  }

  /** One challenge fully handled: the zone named `zoneName` was found and the recordset created in it. */
  ghost predicate Created(zoneName: string, validationName: string, validation: string, lookup: Call, create: Call)
  {
    lookup.GetZone? && lookup.name == zoneName && lookup.zone.Ok? &&
    CreatesTxt(lookup.zone.value, validationName, validation, create) && create.recordset.Ok?
  }

  /** One challenge abandoned: either the zone lookup raised, or the lookup succeeded and the creation raised. */
  ghost predicate NotCreated(zoneName: string, validationName: string, validation: string, calls: seq<Call>)
  {
    |calls| >= 1 && calls[0].GetZone? && calls[0].name == zoneName &&
    if calls[0].zone.Raised? then |calls| == 1
    else |calls| == 2 && CreatesTxt(calls[0].zone.value, validationName, validation, calls[1]) && calls[1].recordset.Raised?
  }

  /** The first `k` challenges handled in order, two calls each. */
  ghost predicate Steps(zoneName: string, achalls: seq<AnnotatedChallenge>, k: nat, calls: seq<Call>)
  {
    k <= |achalls| && |calls| == 2 * k &&
    forall j :: 0 <= j < k ==>
      Created(zoneName, achalls[j].validationDomainName, achalls[j].validation, calls[2 * j], calls[2 * j + 1])
  }

  /** The challenges before `k` handled, challenge `k` abandoned, and nothing after it. */
  ghost predicate AbortedAt(zoneName: string, achalls: seq<AnnotatedChallenge>, calls: seq<Call>, k: nat)
  {
    k < |achalls| && 2 * k < |calls| &&
    Steps(zoneName, achalls, k, calls[..2 * k]) &&
    NotCreated(zoneName, achalls[k].validationDomainName, achalls[k].validation, calls[2 * k..])
  }

  /**
   The calls one `perform` makes on the provider, and what it returns: connect
   (failure aborts); an `IndexError` before any lookup when there are
   challenges but no configured domain; then each challenge in order, looking
   up the zone of the first configured domain, the first failure aborting the
   batch; then one sleep, whose failure also aborts.
   */
  ghost predicate PerformRun(cfg: Config, achalls: seq<AnnotatedChallenge>, run: seq<Call>, result: Outcome<seq<Response>>)
    ensures PerformRun(cfg, achalls, run, result) && result.Done? ==>
      |run| >= 1 && run[0].Connect? && run[0].connected && result.value == Responses(achalls)
  {
    |run| >= 1 && run[0].Connect? &&
    run[0].configFile == ClientConfigFile(cfg.clientConfig) && run[0].cloud == cfg.cloud &&
    if !run[0].connected then
      |run| == 1 && result == Failed(CallRaised)
    else if |achalls| > 0 && |cfg.domains| == 0 then
      |run| == 1 && result == Failed(IndexError)
    else
      var zoneName := ZoneLookupName(FirstDomain(cfg));
      var calls := run[1..];
      var n := |achalls|;
      ((exists k :: AbortedAt(zoneName, achalls, calls, k)) && result == Failed(CallRaised)) ||
      (|calls| == 2 * n + 1 && Steps(zoneName, achalls, n, calls[..2 * n]) &&
       calls[2 * n].Sleep? && calls[2 * n].seconds == cfg.propagationSeconds &&
       result == if calls[2 * n].slept then Done(Responses(achalls)) else Failed(CallRaised))
  }

  class Authenticator {
    const config: Config
    /** The connection `self.cloud`, built by the connect call at the start of every `perform`. */
    const cloud: Provider
    var attemptCleanup: bool
    var zone: Option<Zone>
    var recordset: Option<Recordset>

    constructor (config: Config, cloud: Provider)
      ensures this.config == config && this.cloud == cloud
      ensures !attemptCleanup && zone == None && recordset == None
    {
      this.config := config;
      this.cloud := cloud;
      attemptCleanup := false;
      zone := None;
      recordset := None;
    }

    /**
     `_perform`: looks up the zone one label above `domain`, stores it, creates the
     TXT recordset in it and stores that. A raising call leaves the later field
     as it was.
     */
    method PerformChallenge(domain: string, validationName: string, validation: string)
      returns (ok: bool, ghost calls: seq<Call>)
      modifies this`zone, this`recordset, cloud
      ensures cloud.trace == old(cloud.trace) + calls
      ensures if ok then
          |calls| == 2 && Created(ZoneLookupName(domain), validationName, validation, calls[0], calls[1])
        else
          NotCreated(ZoneLookupName(domain), validationName, validation, calls)
      ensures zone == LastZone(old(zone), calls) && recordset == LastRecordset(old(recordset), calls)
    {
      var baseDomain := BaseDomain(domain);
      var found := cloud.GetZone(baseDomain + ".");
      calls := [Call.GetZone(baseDomain + ".", found)];
      if found.Raised? {
        return false, calls;
      }
      zone := Some(found.value);
      assert calls[..0] == [];
      var created := cloud.CreateRecordset(found.value.id, validationName + ".", "TXT", [validation]);
      calls := calls + [Call.CreateRecordset(found.value.id, validationName + ".", "TXT", [validation], created)];
      assert calls[..1] == [calls[0]] && calls[..1][..0] == [];
      assert LastRecordset(old(recordset), calls[..1]) == old(recordset);
      if created.Raised? {
        return false, calls;
      }
      recordset := Some(created.value);
      ok := true;
    }

    /**
     `perform`: connects, then handles the challenges in order, then sleeps for
     the propagation delay once, and returns the responses in challenge order.
     */
    method Perform(achalls: seq<AnnotatedChallenge>) returns (result: Outcome<seq<Response>>, ghost run: seq<Call>)
      modifies this`attemptCleanup, this`zone, this`recordset, cloud
      ensures cloud.trace == old(cloud.trace) + run
      ensures PerformRun(config, achalls, run, result)
      ensures attemptCleanup == (old(attemptCleanup) || run[0].connected)
      ensures config.propagationSeconds < 0 ==> result.Failed?
      ensures zone == LastZone(old(zone), run)
      ensures recordset == LastRecordset(old(recordset), run)
    {
      var connected := cloud.Connect(ClientConfigFile(config.clientConfig), config.cloud);
      ghost var connect := Call.Connect(ClientConfigFile(config.clientConfig), config.cloud, connected);
      run := [connect];
      assert run[..0] == [];
      if !connected {
        assert attemptCleanup == old(attemptCleanup);
        result := Failed(CallRaised);
      } else if |achalls| > 0 && |config.domains| == 0 {
        attemptCleanup := true;
        result := Failed(IndexError);
      } else {
        attemptCleanup := true;
        var ok, responses, calls := PerformEach(achalls);
        StoredAppend(old(zone), old(recordset), run, calls);
        AppendAssoc(old(cloud.trace), run, calls);
        assert (run + calls)[0] == connect && (run + calls)[1..] == calls;
        run := run + calls;
        if !ok {
          RunAborted(config, achalls, run);
          result := Failed(CallRaised);
        } else {
          var slept := cloud.Sleep(config.propagationSeconds);
          ghost var sleep := Call.Sleep(config.propagationSeconds, slept);
          RunCompleted(config, achalls, run, sleep);
          StoredAppend(old(zone), old(recordset), run, [sleep]);
          AppendAssoc(old(cloud.trace), run, [sleep]);
          assert (run + [sleep])[0] == connect;
          run := run + [sleep];
          result := if slept then Done(responses) else Failed(CallRaised);
        }
        assert attemptCleanup && run[0] == connect;
      }
    }

    /**
     The loop of `perform` over the challenges: each is handled in turn with
     the zone of the first configured domain, and the first raising call ends
     the loop.
     */
    method PerformEach(achalls: seq<AnnotatedChallenge>)
      returns (ok: bool, responses: seq<Response>, ghost calls: seq<Call>)
      requires |achalls| > 0 ==> |config.domains| > 0
      modifies this`zone, this`recordset, cloud
      ensures cloud.trace == old(cloud.trace) + calls
      ensures zone == LastZone(old(zone), calls) && recordset == LastRecordset(old(recordset), calls)
      ensures if ok then Steps(ZoneLookupName(FirstDomain(config)), achalls, |achalls|, calls) && responses == Responses(achalls)
        else exists k :: AbortedAt(ZoneLookupName(FirstDomain(config)), achalls, calls, k)
    {
      ghost var zoneName := ZoneLookupName(FirstDomain(config));
      calls := [];
      responses := [];
      for i := 0 to |achalls|
        invariant cloud.trace == old(cloud.trace) + calls
        invariant zone == LastZone(old(zone), calls) && recordset == LastRecordset(old(recordset), calls)
        invariant Steps(zoneName, achalls, i, calls)
        invariant |responses| == i
        invariant forall j :: 0 <= j < i ==> responses[j] == achalls[j].response
      {
        var domain := config.domains[0];
        var done;
        ghost var step;
        done, step := PerformChallenge(domain, achalls[i].validationDomainName, achalls[i].validation);
        AppendAssoc(old(cloud.trace), calls, step);
        StoredAppend(old(zone), old(recordset), calls, step);
        if !done {
          assert (calls + step)[..2 * i] == calls && (calls + step)[2 * i..] == step;
          assert AbortedAt(zoneName, achalls, calls + step, i);
          return false, responses, calls + step;
        }
        StepsExtend(zoneName, achalls, i, calls, step);
        calls := calls + step;
        responses := responses + [achalls[i].response];
      }
      ok := true;
    }

    /**
     `_cleanup`: deletes the recordset named by the stored zone and recordset
     ids, whatever challenge it is called for. Reading a field that was never
     set raises before the provider is called.
     */
    method Cleanup(domain: string, validationName: string, validation: string) returns (status: Outcome<()>)
      modifies cloud
      ensures zone.Some? && recordset.Some? ==>
        cloud.trace == old(cloud.trace) + [Call.DeleteRecordset(zone.value.id, recordset.value.id, status.Done?)]
      ensures zone.Some? && recordset.Some? ==> status == Done(()) || status == Failed(CallRaised)
      ensures zone.None? || recordset.None? ==>
        cloud.trace == old(cloud.trace) && status == Failed(AttributeError)
    {
      if zone.None? || recordset.None? {
        return Failed(AttributeError);
      }
      var deleted := cloud.DeleteRecordset(zone.value.id, recordset.value.id);
      status := if deleted then Done(()) else Failed(CallRaised);
    }
  }

  /** Handling challenge `i` after the first `i` extends the steps by its two calls. */
  lemma StepsExtend(zoneName: string, achalls: seq<AnnotatedChallenge>, i: nat, done: seq<Call>, calls: seq<Call>)
    requires i < |achalls|
    requires Steps(zoneName, achalls, i, done)
    requires |calls| == 2 && Created(zoneName, achalls[i].validationDomainName, achalls[i].validation, calls[0], calls[1])
    ensures Steps(zoneName, achalls, i + 1, done + calls)
  {
    var all := done + calls;
    forall j | 0 <= j < i + 1
      ensures Created(zoneName, achalls[j].validationDomainName, achalls[j].validation, all[2 * j], all[2 * j + 1])
    {
      if j < i {
        assert all[2 * j] == done[2 * j] && all[2 * j + 1] == done[2 * j + 1];
      }
    }
  }

  /** The zone and recordset stored after two batches of calls: those of the second, starting from those of the first. */
  lemma {:induction false} StoredAppend(zone: Option<Zone>, recordset: Option<Recordset>, first: seq<Call>, second: seq<Call>)
    ensures LastZone(zone, first + second) == LastZone(LastZone(zone, first), second)
    ensures LastRecordset(recordset, first + second) == LastRecordset(LastRecordset(recordset, first), second)
    decreases |second|
  {
    if second == [] {
      assert first + second == first;
    } else {
      StoredAppend(zone, recordset, first, second[..|second| - 1]);
      assert (first + second)[..|first + second| - 1] == first + second[..|second| - 1];
    }
  }

  /** A run whose challenge loop ended on a raising call is an aborted run. */
  lemma RunAborted(cfg: Config, achalls: seq<AnnotatedChallenge>, run: seq<Call>)
    requires |run| >= 1 && run[0] == Call.Connect(ClientConfigFile(cfg.clientConfig), cfg.cloud, true)
    requires |achalls| > 0 ==> |cfg.domains| > 0
    requires exists k :: AbortedAt(ZoneLookupName(FirstDomain(cfg)), achalls, run[1..], k)
    ensures PerformRun(cfg, achalls, run, Failed(CallRaised))
  {
  }

  /** A run whose challenges were all handled ends with the one sleep, which decides the result. */
  lemma RunCompleted(cfg: Config, achalls: seq<AnnotatedChallenge>, run: seq<Call>, sleep: Call)
    requires |run| >= 1 && run[0] == Call.Connect(ClientConfigFile(cfg.clientConfig), cfg.cloud, true)
    requires |achalls| > 0 ==> |cfg.domains| > 0
    requires Steps(ZoneLookupName(FirstDomain(cfg)), achalls, |achalls|, run[1..])
    requires sleep.Sleep? && sleep.seconds == cfg.propagationSeconds
    ensures PerformRun(cfg, achalls, run + [sleep],
                       if sleep.slept then Done(Responses(achalls)) else Failed(CallRaised))
  {
    var all := (run + [sleep])[1..];
    var n := |achalls|;
    assert all == run[1..] + [sleep];
    assert all[..2 * n] == run[1..];
    assert |all| == 2 * n + 1 && all[2 * n] == sleep;
    assert Steps(ZoneLookupName(FirstDomain(cfg)), achalls, n, all[..2 * n]);
  }

  /** Concatenation is associative. */
  lemma AppendAssoc<T>(a: seq<T>, b: seq<T>, c: seq<T>)
    ensures a + b + c == a + (b + c)
  {
  }

  /**
   Call `p` of the calls after connecting belongs to challenge `p / 2`: at even
   positions the lookup of the zone named `zoneName`, at odd positions a TXT
   creation for that challenge in the zone the preceding lookup returned.
   */
  ghost predicate ChallengeCall(zoneName: string, achalls: seq<AnnotatedChallenge>, calls: seq<Call>, p: nat)
    requires p < |calls|
  {
    p / 2 < |achalls| &&
    if p % 2 == 0 then
      calls[p].GetZone? && calls[p].name == zoneName
    else
      calls[p - 1].GetZone? && calls[p - 1].name == zoneName && calls[p - 1].zone.Ok? &&
      CreatesTxt(calls[p - 1].zone.value, achalls[p / 2].validationDomainName, achalls[p / 2].validation, calls[p])
  }

  /** Every call of a run of handled challenges belongs to its challenge. */
  lemma StepsAt(zoneName: string, achalls: seq<AnnotatedChallenge>, k: nat, calls: seq<Call>, p: nat)
    requires Steps(zoneName, achalls, k, calls) && p < |calls|
    ensures ChallengeCall(zoneName, achalls, calls, p)
  {
    var j := p / 2;
    assert p == 2 * j || p == 2 * j + 1;
    assert Created(zoneName, achalls[j].validationDomainName, achalls[j].validation, calls[2 * j], calls[2 * j + 1]);
  }

  /** A call that belongs to its challenge in a prefix still does in the whole. */
  lemma ChallengeCallPrefix(zoneName: string, achalls: seq<AnnotatedChallenge>, calls: seq<Call>, m: nat, p: nat)
    requires p < m <= |calls| && ChallengeCall(zoneName, achalls, calls[..m], p)
    ensures ChallengeCall(zoneName, achalls, calls, p)
  {
    assert calls[..m][p] == calls[p];
    if p % 2 == 1 {
      assert calls[..m][p - 1] == calls[p - 1];
    }
  }

  /** Every call of a batch aborted at challenge `k` belongs to its challenge. */
  lemma AbortedCallAt(zoneName: string, achalls: seq<AnnotatedChallenge>, calls: seq<Call>, k: nat, p: nat)
    requires AbortedAt(zoneName, achalls, calls, k) && p < |calls|
    ensures ChallengeCall(zoneName, achalls, calls, p)
  {
    if p < 2 * k {
      StepsAt(zoneName, achalls, k, calls[..2 * k], p);
      ChallengeCallPrefix(zoneName, achalls, calls, 2 * k, p);
    } else {
      var tail := calls[2 * k..];
      assert p / 2 == k;
      assert tail[p - 2 * k] == calls[p];
      if p - 2 * k == 1 {
        assert tail[0] == calls[p - 1];
      }
    }
  }

  /**
   The shape of a run: after the connect call, call `i` is either the one
   sleep, made last and only once every challenge was handled, or it belongs
   to challenge `(i - 1) / 2`, with the zone of the first configured domain.
   */
  lemma {:induction false} RunCallAt(cfg: Config, achalls: seq<AnnotatedChallenge>, run: seq<Call>,
                                     result: Outcome<seq<Response>>, i: nat)
    requires PerformRun(cfg, achalls, run, result) && 1 <= i < |run|
    ensures run[0].connected
    ensures run[i].Sleep? ==> i == |run| - 1 == 2 * |achalls| + 1 && run[i].seconds == cfg.propagationSeconds
    ensures !run[i].Sleep? ==>
      |cfg.domains| > 0 && ChallengeCall(ZoneLookupName(cfg.domains[0]), achalls, run[1..], i - 1)
  {
    var calls := run[1..];
    var zoneName := ZoneLookupName(FirstDomain(cfg));
    var n := |achalls|;
    assert calls[i - 1] == run[i];
    if exists k :: AbortedAt(zoneName, achalls, calls, k) {
      var k: nat :| AbortedAt(zoneName, achalls, calls, k);
      AbortedCallAt(zoneName, achalls, calls, k, i - 1);
    } else if i - 1 < 2 * n {
      StepsAt(zoneName, achalls, n, calls[..2 * n], i - 1);
      ChallengeCallPrefix(zoneName, achalls, calls, 2 * n, i - 1);
    }
  }

  /** Every zone lookup of a run asks for the zone of the first configured domain, whatever the challenge's own domain. */
  lemma LookupsUseFirstDomain(cfg: Config, achalls: seq<AnnotatedChallenge>, run: seq<Call>, result: Outcome<seq<Response>>)
    requires PerformRun(cfg, achalls, run, result)
    ensures forall i :: 0 <= i < |run| && run[i].GetZone? ==>
      |cfg.domains| > 0 && run[i].name == ZoneLookupName(cfg.domains[0])
  {
    forall i | 0 <= i < |run| && run[i].GetZone?
      ensures |cfg.domains| > 0 && run[i].name == ZoneLookupName(cfg.domains[0])
    {
      RunCallAt(cfg, achalls, run, result, i);
      assert run[1..][i - 1] == run[i];
    }
  }

  /**
   Every recordset creation of a run is a TXT record holding one challenge's
   validation under its validation name, made in the zone returned by the
   lookup just before it.
   */
  lemma CreatesFollowLookups(cfg: Config, achalls: seq<AnnotatedChallenge>, run: seq<Call>, result: Outcome<seq<Response>>)
    requires PerformRun(cfg, achalls, run, result)
    ensures forall i :: 0 <= i < |run| && run[i].CreateRecordset? ==>
      2 <= i && run[i - 1].GetZone? && run[i - 1].zone.Ok? &&
      (i - 1) / 2 < |achalls| &&
      run[i].zoneId == run[i - 1].zone.value.id && run[i].kind == "TXT" &&
      run[i].name == achalls[(i - 1) / 2].validationDomainName + "." &&
      run[i].records == [achalls[(i - 1) / 2].validation]
  {
    forall i | 0 <= i < |run| && run[i].CreateRecordset?
      ensures 2 <= i && run[i - 1].GetZone? && run[i - 1].zone.Ok? && (i - 1) / 2 < |achalls| &&
        run[i].zoneId == run[i - 1].zone.value.id && run[i].kind == "TXT" &&
        run[i].name == achalls[(i - 1) / 2].validationDomainName + "." &&
        run[i].records == [achalls[(i - 1) / 2].validation]
    {
      RunCallAt(cfg, achalls, run, result, i);
      assert run[1..][i - 1] == run[i];
      if i >= 2 {
        assert run[1..][i - 2] == run[i - 1];
      }
    }
  }

  /**
   A successful run connected, handled every challenge with two calls, slept
   once for the configured delay as its last call, and returns the challenges'
   responses in order.
   */
  lemma SuccessfulRun(cfg: Config, achalls: seq<AnnotatedChallenge>, run: seq<Call>, rs: seq<Response>)
    requires PerformRun(cfg, achalls, run, Done(rs))
    ensures rs == Responses(achalls)
    ensures |rs| == |achalls| && forall i :: 0 <= i < |achalls| ==> rs[i] == achalls[i].response
    ensures run[0].connected && |run| == 2 * |achalls| + 2
    ensures run[|run| - 1] == Call.Sleep(cfg.propagationSeconds, true)
    ensures forall i :: 0 <= i < |run| && run[i].Sleep? ==> i == |run| - 1
  {
    var n := |achalls|;
    forall i | 0 <= i < |run| && run[i].Sleep?
      ensures i == |run| - 1
    {
      if i > 0 {
        RunCallAt(cfg, achalls, run, Done(rs), i);
      }
    }
    assert run[1..][2 * n] == run[|run| - 1];
  }

  /** A call that raised. */
  ghost predicate Raised(c: Call)
  {
    (c.GetZone? && c.zone.Raised?) || (c.CreateRecordset? && c.recordset.Raised?)
  }

  /** None of the calls of handled challenges raised. */
  lemma StepsNotRaised(zoneName: string, achalls: seq<AnnotatedChallenge>, k: nat, calls: seq<Call>, p: nat)
    requires Steps(zoneName, achalls, k, calls) && p < |calls|
    ensures !Raised(calls[p])
  {
    var j := p / 2;
    assert p == 2 * j || p == 2 * j + 1;
    assert Created(zoneName, achalls[j].validationDomainName, achalls[j].validation, calls[2 * j], calls[2 * j + 1]);
  }

  /** In a batch aborted at challenge `k`, only the last call raised. */
  lemma AbortedRaisedLast(zoneName: string, achalls: seq<AnnotatedChallenge>, calls: seq<Call>, k: nat, p: nat)
    requires AbortedAt(zoneName, achalls, calls, k) && p < |calls| && Raised(calls[p])
    ensures p == |calls| - 1
  {
    if p < 2 * k {
      assert calls[..2 * k][p] == calls[p];
      StepsNotRaised(zoneName, achalls, k, calls[..2 * k], p);
      assert false;
    } else {
      assert calls[2 * k..][p - 2 * k] == calls[p];
    }
  }

  /**
   A raising lookup or creation ends the run: it is the last call, no sleep is
   made, and `perform` fails without responses; later challenges are never
   attempted.
   */
  lemma {:induction false} FailedChallengeEndsRun(cfg: Config, achalls: seq<AnnotatedChallenge>, run: seq<Call>,
                                                  result: Outcome<seq<Response>>, i: nat)
    requires PerformRun(cfg, achalls, run, result) && i < |run| && Raised(run[i])
    ensures i == |run| - 1
    ensures result == Failed(CallRaised)
    ensures forall j :: 0 <= j < |run| ==> !run[j].Sleep?
  {
    var calls := run[1..];
    var zoneName := ZoneLookupName(FirstDomain(cfg));
    var n := |achalls|;
    assert i >= 1 && calls[i - 1] == run[i];
    if exists k :: AbortedAt(zoneName, achalls, calls, k) {
      var k: nat :| AbortedAt(zoneName, achalls, calls, k);
      AbortedRaisedLast(zoneName, achalls, calls, k, i - 1);
      forall j | 1 <= j < |run|
        ensures !run[j].Sleep?
      {
        AbortedCallAt(zoneName, achalls, calls, k, j - 1);
        assert calls[j - 1] == run[j];
      }
    } else if i - 1 < 2 * n {
      assert calls[..2 * n][i - 1] == calls[i - 1];
      StepsNotRaised(zoneName, achalls, n, calls[..2 * n], i - 1);
      assert false;
    }
  }

  /**
   The outcome of `perform` is determined by the calls it made: a run cannot
   be read both as aborted and as completed, nor aborted at two challenges.
   */
  lemma {:induction false} RunOutcomeUnique(cfg: Config, achalls: seq<AnnotatedChallenge>, run: seq<Call>,
                                            r1: Outcome<seq<Response>>, r2: Outcome<seq<Response>>)
    requires PerformRun(cfg, achalls, run, r1) && PerformRun(cfg, achalls, run, r2)
    ensures r1 == r2
  {
    var calls := run[1..];
    var zoneName := ZoneLookupName(FirstDomain(cfg));
    if run[0].connected && !(|achalls| > 0 && |cfg.domains| == 0) {
      if exists k :: AbortedAt(zoneName, achalls, calls, k) {
        var k: nat :| AbortedAt(zoneName, achalls, calls, k);
        assert |calls[2 * k..]| <= 2;
        assert r1 == Failed(CallRaised) && r2 == Failed(CallRaised);
      }
    }
  }

  /**
   A `perform` of no challenges still connects and sleeps, and returns no
   responses once the sleep returns.
   */
  lemma EmptyBatch(cfg: Config, run: seq<Call>, result: Outcome<seq<Response>>)
    requires PerformRun(cfg, [], run, result)
    ensures run[0].connected ==>
      |run| == 2 && run[1].Sleep? && run[1].seconds == cfg.propagationSeconds &&
      result == if run[1].slept then Done([]) else Failed(CallRaised)
    ensures !run[0].connected ==> run == [run[0]] && result == Failed(CallRaised)
  {
    var calls := run[1..];
    if run[0].connected {
      assert !exists k :: AbortedAt(ZoneLookupName(FirstDomain(cfg)), [], calls, k);
      assert calls[0] == run[1];
    }
  }

  /** With challenges but no configured domain, `perform` fails with an `IndexError` right after connecting. */
  lemma NoDomainIndexError(cfg: Config, achalls: seq<AnnotatedChallenge>, run: seq<Call>, result: Outcome<seq<Response>>)
    requires PerformRun(cfg, achalls, run, result)
    requires |achalls| > 0 && |cfg.domains| == 0
    ensures |run| == 1
    ensures result == if run[0].connected then Failed(IndexError) else Failed(CallRaised)
  {
  }

  /**
   After a successful run of at least one challenge, the stored zone and
   recordset are those of the last challenge, so the recordset a later
   `_cleanup` deletes is that challenge's TXT record, whichever challenge it
   is called for.
   */
  lemma StoredAfterSuccess(cfg: Config, achalls: seq<AnnotatedChallenge>, run: seq<Call>, rs: seq<Response>,
                           zone: Option<Zone>, recordset: Option<Recordset>)
    requires PerformRun(cfg, achalls, run, Done(rs)) && |achalls| > 0
    ensures var n := |achalls|;
      run[2 * n - 1].GetZone? && run[2 * n - 1].zone.Ok? && run[2 * n].CreateRecordset? && run[2 * n].recordset.Ok? &&
      LastZone(zone, run) == Some(run[2 * n - 1].zone.value) &&
      LastRecordset(recordset, run) == Some(run[2 * n].recordset.value) &&
      CreatesTxt(run[2 * n - 1].zone.value, achalls[n - 1].validationDomainName, achalls[n - 1].validation, run[2 * n])
  {
    var n := |achalls|;
    SuccessfulRun(cfg, achalls, run, rs);
    RunCallAt(cfg, achalls, run, Done(rs), 2 * n);
    assert run[1..][2 * n - 1] == run[2 * n] && run[1..][2 * n - 2] == run[2 * n - 1];
    assert (2 * n - 1) / 2 == n - 1;
    var beforeLookup := run[..2 * n - 1];
    var lookedUp := run[..2 * n];
    var created := run[..2 * n + 1];
    assert lookedUp[..2 * n - 1] == beforeLookup && lookedUp[2 * n - 1] == run[2 * n - 1];
    assert created[..2 * n] == lookedUp && created[2 * n] == run[2 * n];
    assert run[..2 * n + 1] == created;
    assert LastZone(zone, lookedUp) == Some(run[2 * n - 1].zone.value);
    assert LastZone(zone, created) == LastZone(zone, lookedUp);
    assert LastRecordset(recordset, created) == Some(run[2 * n].recordset.value);
  }
}
