# certbot-dns-openstack: the DNS-01 authenticator, modelled in Dafny

The model covers the certbot authenticator plugin for OpenStack Designate
(`certbot_dns_openstack/dns_openstack.py`). Certbot hands the plugin a batch of
DNS-01 challenges. For each challenge, `perform` does the following:

- It builds the OpenStack connection.
- It marks the authenticator for cleanup.
- For every challenge in order, it runs `_perform`. That looks up the zone one
  label above the first configured domain, stores it in `self.zone`, creates a
  TXT recordset holding the validation and stores it in `self.recordset`.
- After the loop it sleeps once for the propagation delay.
- It returns one response per challenge.

Later, `_cleanup` deletes the recordset named by whatever zone and recordset
are stored at that moment.

The project has three modules:

- `DomainNames` (`domain_names.dfy`) is the pure base-zone derivation of line 92:
  - Python's `str.split('.')` and `'.'.join`, written out exactly, including
    empty labels and the empty string;
  - the base domain and the lookup name;
  - their round-trip and shape lemmas.
- `Cloud` (`cloud.dfy`) stands for the OpenStack SDK connection and `time.sleep`.
  - It is one provider object that records every call, with its reply, on a
    ghost trace.
  - A call either returns a value carrying an opaque provider-assigned id, or it
    raises.
  - The contract of each provider method promises that exactly that call is
    appended to the trace. `Sleep` promises one more thing: a negative duration
    always raises, as `time.sleep` raises `ValueError`. `Perform` relies on that
    promise for its clause that a negative propagation delay never succeeds.
    Apart from that, the authenticator's proofs hold for any replies.
- `DnsOpenstack` (`dns_openstack.dfy`) is the `Authenticator` class itself. It
  has the fields `attemptCleanup`, `zone` and `recordset`, which its methods
  overwrite in place, and the methods `Perform`, `PerformEach`,
  `PerformChallenge` and `Cleanup`.
  - `PerformEach` is the `for` loop of `perform`.
  - `PerformChallenge` is `_perform`.
  - `Cleanup` is `_cleanup`.

  The module also holds the ghost predicate `PerformRun`, which states the
  calls one `perform` makes and what it returns. `Perform` is proved against
  `PerformRun`, and the remaining lemmas derive the plugin's properties from
  it. An exception is a `Failed` outcome: a raising provider call, the
  `IndexError` of `config.namespace.domains[0]` on an empty list, or the
  `AttributeError` of reading `self.zone` or `self.recordset` before either was
  set.

Three behaviours of the code are modelled as written:

- Every challenge's zone is looked up from `config.namespace.domains[0]` (line
  75), never from the challenge's own domain.
- The class attribute `ttl = 60` (line 44) is never passed to `create_recordset`
  (lines 94-95), so a `CreateRecordset` call has no ttl.
- `_cleanup` ignores its arguments.

Two further behaviours of the code are kept as they are:

- `perform([])` still builds the connection and sleeps once (lines 69 and 87).
  See `EmptyBatch`.
- A raising delete is a failure of `Cleanup` (lines 98-99). A recordset that is
  already gone gets no special treatment.

## Model

| member | source | states |
|---|---|---|
| DomainNames.Split | certbot_dns_openstack/dns_openstack.py:92 | `domain.split('.')` always yields at least one piece, and no piece contains a dot |
| DomainNames.JoinSplit | certbot_dns_openstack/dns_openstack.py:92 | `'.'.join(s.split('.')) == s` for every string |
| DomainNames.SplitSingle | certbot_dns_openstack/dns_openstack.py:92 | a string splits into exactly one piece iff it has no dot, and that piece is the string itself |
| DomainNames.SplitAfterLabel | certbot_dns_openstack/dns_openstack.py:92 | splitting `head + "." + rest`, with a dot-free `head`, gives `head` followed by the pieces of `rest` |
| DomainNames.SplitJoin | certbot_dns_openstack/dns_openstack.py:92 | splitting a join of one or more dot-free labels gives the labels back |
| DomainNames.Join | certbot_dns_openstack/dns_openstack.py:92 | `'.'.join(labels)` starts with the first label, followed by a dot when there are two or more labels |
| DomainNames.BaseDomain | certbot_dns_openstack/dns_openstack.py:92 | `'.'.join(domain.split('.')[1:])` is empty for a domain without a dot (the dotted case is `BaseDomainAfterFirstLabel`) |
| DomainNames.ZoneLookupName | certbot_dns_openstack/dns_openstack.py:92-93 | the name passed to `get_zone` is never empty and always ends in a dot |
| DomainNames.BaseDomainAfterFirstLabel | certbot_dns_openstack/dns_openstack.py:92-93 | for a domain with a dot, first label + "." + base domain == domain |
| DomainNames.BaseDomainIsSuffixAfterFirstDot | certbot_dns_openstack/dns_openstack.py:92-93 | reference definition: the base domain is the text after the first dot, and the lookup name is that text plus "." |
| DomainNames.BaseDomainLabels | certbot_dns_openstack/dns_openstack.py:92 | the base domain has exactly the domain's labels minus the leftmost one, in order |
| DomainNames.LookupNameWithoutDot | certbot_dns_openstack/dns_openstack.py:92-93 | a domain without a dot has an empty base domain and is looked up as "." |
| DomainNames.LookupNameThreeLabels | certbot_dns_openstack/dns_openstack.py:92-93 | "www.example.com" is looked up as "example.com." |
| DomainNames.LookupNameTwoLabels | certbot_dns_openstack/dns_openstack.py:92-93 | "example.com" is looked up as "com." |
| Cloud.Provider.Connect | certbot_dns_openstack/dns_openstack.py:57-65 | building the connection from the config file and cloud name appends exactly one connect call, with whether it succeeded |
| Cloud.Provider.GetZone | certbot_dns_openstack/dns_openstack.py:93 | `get_zone(name)` appends exactly one lookup of `name`, with the zone or the raise |
| Cloud.Provider.CreateRecordset | certbot_dns_openstack/dns_openstack.py:94-95 | `create_recordset(zone_id, name, kind, records)` appends exactly that call (no ttl), with the recordset or the raise |
| Cloud.Provider.DeleteRecordset | certbot_dns_openstack/dns_openstack.py:98-99 | `delete_recordset(zone_id, recordset_id)` appends exactly that call, with whether it raised |
| Cloud.Provider.Sleep | certbot_dns_openstack/dns_openstack.py:87 | `sleep(seconds)` appends exactly one sleep of that duration, and a negative duration always raises |
| DnsOpenstack.Ttl | certbot_dns_openstack/dns_openstack.py:44 | the class-level ttl of 60 seconds; no call carries it |
| DnsOpenstack.ClientConfigFile | certbot_dns_openstack/dns_openstack.py:58 | `self.conf('client_config') or ''`: the empty path exactly when the option is unset or empty, the option's value otherwise |
| DnsOpenstack.FirstDomain | certbot_dns_openstack/dns_openstack.py:75 | `config.namespace.domains[0]` whenever the list is non-empty |
| DnsOpenstack.PerformRun | certbot_dns_openstack/dns_openstack.py:67-89 | the calls of one `perform` and its result: connect (a raise ends it), `IndexError` before any lookup with challenges and no domain, then per challenge a lookup of `domains[0]`'s zone and a TXT creation with the first raise ending the run, then one sleep; a success always connected and returns `Responses(achalls)` |
| DnsOpenstack.Responses | certbot_dns_openstack/dns_openstack.py:73-80 | the response list has one entry per challenge, and entry i is challenge i's response |
| DnsOpenstack.Authenticator.constructor | certbot_dns_openstack/dns_openstack.py:36-44 | a new authenticator has no stored zone or recordset and is not marked for cleanup |
| DnsOpenstack.Authenticator.PerformChallenge | certbot_dns_openstack/dns_openstack.py:91-95 | looks up `base_domain + "."`, then creates the TXT recordset `[validation]` named `validation_name + "."` in the zone id just returned; the fields become those of the last successful lookup and creation; a raising lookup makes no creation |
| DnsOpenstack.Authenticator.PerformEach | certbot_dns_openstack/dns_openstack.py:73-80 | handles the challenges in order with the zone of `domains[0]`; either all succeed and the responses are the challenges' responses in order, or the first raising challenge ends the loop with nothing after it |
| DnsOpenstack.Authenticator.Perform | certbot_dns_openstack/dns_openstack.py:67-89 | the trace grows by exactly a run satisfying `PerformRun` (connect; per challenge a lookup and a create; one sleep); `_attempt_cleanup` is set iff the connection was built; a negative delay never succeeds; the stored fields are those of the last successful lookup and creation |
| DnsOpenstack.Authenticator.Cleanup | certbot_dns_openstack/dns_openstack.py:97-99 | with a stored zone and recordset, appends exactly one `delete_recordset(zone.id, recordset.id)` whatever its arguments, and either succeeds or fails with the provider's raise; otherwise raises `AttributeError` with no call; its frame leaves `zone` and `recordset` unchanged |
| DnsOpenstack.StepsExtend | certbot_dns_openstack/dns_openstack.py:74-79 | one more handled challenge extends the handled prefix by its lookup and creation |
| DnsOpenstack.StoredAppend | certbot_dns_openstack/dns_openstack.py:93-95 | the stored zone and recordset after two call sequences are those of the second, starting from those of the first |
| DnsOpenstack.RunAborted | certbot_dns_openstack/dns_openstack.py:74-80 | a loop ended by a raising challenge makes `perform` fail with no sleep |
| DnsOpenstack.RunCompleted | certbot_dns_openstack/dns_openstack.py:85-89 | after a fully handled batch, the single sleep decides between returning all responses and failing |
| DnsOpenstack.StepsAt | certbot_dns_openstack/dns_openstack.py:74-79 | call p of the handled prefix is the lookup (p even) or the creation (p odd) of challenge p / 2 |
| DnsOpenstack.AbortedCallAt | certbot_dns_openstack/dns_openstack.py:74-79 | in an aborted batch too, every call is the lookup or the creation of its challenge |
| DnsOpenstack.RunCallAt | certbot_dns_openstack/dns_openstack.py:69-87 | after the connect call, each call is either the one sleep (last, after all 2n challenge calls) or the lookup of `domains[0]`'s zone / the TXT creation of challenge (i-1)/2 |
| DnsOpenstack.LookupsUseFirstDomain | certbot_dns_openstack/dns_openstack.py:75 | every `get_zone` of a run asks for the lookup name of `config.namespace.domains[0]`, the same name for every challenge |
| DnsOpenstack.CreatesFollowLookups | certbot_dns_openstack/dns_openstack.py:93-95 | every `create_recordset` is of kind TXT, named the validation name plus ".", holds exactly `[validation]`, and goes into the zone id returned by the successful lookup just before it |
| DnsOpenstack.SuccessfulRun | certbot_dns_openstack/dns_openstack.py:69-89 | a successful `perform` returns one response per challenge in order, made 2n+2 calls, and its only sleep is the last call, with the configured delay |
| DnsOpenstack.StepsNotRaised | certbot_dns_openstack/dns_openstack.py:93-95 | no call of a handled challenge raised |
| DnsOpenstack.AbortedRaisedLast | certbot_dns_openstack/dns_openstack.py:74-80 | in an aborted batch the raising call is the last one |
| DnsOpenstack.FailedChallengeEndsRun | certbot_dns_openstack/dns_openstack.py:74-87 | if a lookup or creation raised, it is the last call, there is no sleep, and `perform` fails with no response list |
| DnsOpenstack.RunOutcomeUnique | certbot_dns_openstack/dns_openstack.py:67-89 | the outcome of `perform` is determined by the calls it made |
| DnsOpenstack.EmptyBatch | certbot_dns_openstack/dns_openstack.py:69-89 | `perform([])` still connects and sleeps once, and returns `[]` when the sleep returns |
| DnsOpenstack.NoDomainIndexError | certbot_dns_openstack/dns_openstack.py:75 | with challenges but no configured domain, a connected `perform` fails with `IndexError` before any lookup |
| DnsOpenstack.StoredAfterSuccess | certbot_dns_openstack/dns_openstack.py:93-99 | after a successful batch of one or more challenges, the stored zone and recordset are the last challenge's, so `_cleanup` deletes that challenge's TXT recordset whichever challenge it is called for |

## Left out

- `_setup_credentials` (lines 57-65): the OpenStack config-file loading and `connection.Connection` are SDK code. They are one opaque connect call that may raise.
- `add_parser_arguments`, `more_info`, logging and `display_util.notify` (lines 47-55, 85-86): command-line and display plumbing with no effect on the calls made.
- `achall.validation_domain_name`, `achall.validation` and `achall.response` (lines 76-77, 80): these are computed by the ACME library. They are carried as given fields of each challenge.
- `sleep` (line 87) is one trace event carrying the configured seconds. Elapsed time is not modelled.
- The host side that calls `perform` and `_cleanup` and checks `_attempt_cleanup` (`certbot.plugins.dns_common`) is not part of this model.
- `DnsOpenstack.Authenticator.PerformChallenge`: the SDK's `get_zone` returns `None` for a missing zone. The code then stores `None` in `self.zone` and raises on `None['id']`. The model treats that as a raising lookup, which leaves the stored zone as it was.
- `Cloud.Provider`: which call raises, and which ids come back, are fixed by a set of failing call positions and a call counter. The authenticator's proofs rely only on each provider method's trace contract.
- The class attribute `ttl` is kept as the constant `Ttl` and is used nowhere, as in the code.
