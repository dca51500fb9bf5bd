/**
 The collaborators the authenticator calls: the OpenStack SDK connection
 (`connection.Connection` with its `get_zone`, `create_recordset` and
 `delete_recordset`) and the process's `time.sleep`.
 They are modelled as one provider object that records every call, together
 with the reply it gave, on a ghost trace. Replies are opaque: a call either
 returns a value carrying a provider-assigned id or raises. Callers may rely
 only on the trace each method promises to extend, never on how the reply
 was chosen.
 */
module Cloud {

  /** A provider-assigned identifier, the `'id'` entry of a zone or recordset. */
  datatype Id = Id(n: nat)

  /** A zone as returned by `get_zone`. */
  datatype Zone = Zone(id: Id, name: string)

  /** A recordset as returned by `create_recordset`. */
  datatype Recordset = Recordset(id: Id, name: string)

  /** The outcome of one call: its value, or an exception propagating to the caller. */
  datatype Reply<T> = Ok(value: T) | Raised

  /**
   One call on the provider, with the arguments it was given and its outcome.
   `CreateRecordset` has no ttl argument: none is passed by the authenticator.
   */
  datatype Call =
    | Connect(configFile: string, cloud: Option<string>, connected: bool)
    | GetZone(name: string, zone: Reply<Zone>)
    | CreateRecordset(zoneId: Id, name: string, kind: string, records: seq<string>, recordset: Reply<Recordset>)
    | DeleteRecordset(zoneId: Id, recordsetId: Id, deleted: bool)
    | Sleep(seconds: int, slept: bool)

  datatype Option<T> = None | Some(value: T)

  /**
   The provider double. Which calls raise is fixed when it is built (by the
   position of the call among all calls made on it); successful lookups and
   creations hand out fresh ids.
   */
  class Provider {
    ghost var trace: seq<Call>
    var calls: nat
    const failing: set<nat>

    constructor (failing: set<nat>)
      ensures trace == [] && this.failing == failing
    {
      trace := [];
      calls := 0;
      this.failing := failing;
    }

    /** Builds the connection from the config files and the named cloud. */
    method Connect(configFile: string, cloud: Option<string>) returns (connected: bool)
      modifies this
      ensures trace == old(trace) + [Call.Connect(configFile, cloud, connected)]
    {
      connected := calls !in failing;
      calls := calls + 1;
      trace := trace + [Call.Connect(configFile, cloud, connected)];
    }

    /** `get_zone(name)`. */
    method GetZone(name: string) returns (zone: Reply<Zone>)
      modifies this
      ensures trace == old(trace) + [Call.GetZone(name, zone)]
    {
      zone := if calls in failing then Raised else Ok(Zone(Id(calls), name));
      calls := calls + 1;
      trace := trace + [Call.GetZone(name, zone)];
    }

    /** `create_recordset(zone_id, name, kind, records)`. */
    method CreateRecordset(zoneId: Id, name: string, kind: string, records: seq<string>)
      returns (recordset: Reply<Recordset>)
      modifies this
      ensures trace == old(trace) + [Call.CreateRecordset(zoneId, name, kind, records, recordset)]
    {
      recordset := if calls in failing then Raised else Ok(Recordset(Id(calls), name));
      calls := calls + 1;
      trace := trace + [Call.CreateRecordset(zoneId, name, kind, records, recordset)];
    }

    /** `delete_recordset(zone_id, recordset_id)`. */
    method DeleteRecordset(zoneId: Id, recordsetId: Id) returns (deleted: bool)
      modifies this
      ensures trace == old(trace) + [Call.DeleteRecordset(zoneId, recordsetId, deleted)]
    {
      deleted := calls !in failing;
      calls := calls + 1;
      trace := trace + [Call.DeleteRecordset(zoneId, recordsetId, deleted)];
    }

    /** `time.sleep(seconds)`, which refuses a negative duration. */
    method Sleep(seconds: int) returns (slept: bool)
      modifies this
      ensures seconds < 0 ==> !slept
      ensures trace == old(trace) + [Call.Sleep(seconds, slept)]
    {
      slept := seconds >= 0 && calls !in failing;
      calls := calls + 1;
      trace := trace + [Call.Sleep(seconds, slept)];
    }
  }
}
