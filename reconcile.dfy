/** `maintainDomainRecord` (aliddns.py:163-198): find the provider's record
    for a configured key and add, update or keep it. */
module Reconcile {
  import opened Wrappers
  import opened Provider
  import Config

  /** `str(e)` of the AttributeError Python raises when a field is assigned
      on a provider entry, which is a plain dict. */
  const DICT_ATTRIBUTE_ERROR := "'dict' object has no attribute 'success'"

  /** A listed record is the configured one when RR, zone and type are all
      equal; its id and value play no part. */
  predicate Matches(p: ProviderRecord, rr: string, domain: string, recordType: string)
  {
    p.rr == rr && p.domainName == domain && p.recordType == recordType
  }

  /** Whether a listed entry matches does not depend on its id or value. */
  lemma MatchesIgnoresIdAndValue(p: ProviderRecord, recordId: string, value: string,
                                 rr: string, domain: string, recordType: string)
    ensures Matches(p.(recordId := recordId, value := value), rr, domain, recordType) == Matches(p, rr, domain, recordType)
  {
  }

  predicate NoMatch(records: seq<ProviderRecord>, rr: string, domain: string, recordType: string)
  {
    forall j :: 0 <= j < |records| ==> !Matches(records[j], rr, domain, recordType)
  }

  /** `i` is the position of the first listed record that matches. */
  predicate IsFirstMatch(records: seq<ProviderRecord>, i: int, rr: string, domain: string, recordType: string)
  {
    0 <= i < |records| && Matches(records[i], rr, domain, recordType) &&
    forall j :: 0 <= j < i ==> !Matches(records[j], rr, domain, recordType)
  }

  /** The reference search: the first exact match in list order, if any. */
  function FirstMatch(records: seq<ProviderRecord>, rr: string, domain: string, recordType: string): (r: Option<nat>)
    ensures r.None? <==> NoMatch(records, rr, domain, recordType)
    ensures r.Some? ==> IsFirstMatch(records, r.value, rr, domain, recordType)
  {
    if records == [] then None
    else if Matches(records[0], rr, domain, recordType) then Some(0)
    else
      match FirstMatch(records[1..], rr, domain, recordType)
      case None => None
      case Some(k) => Some(k + 1)
  }

  /** Only one position can be the first match. */
  lemma FirstMatchUnique(records: seq<ProviderRecord>, i: int, k: int, rr: string, domain: string, recordType: string)
    requires IsFirstMatch(records, i, rr, domain, recordType)
    requires IsFirstMatch(records, k, rr, domain, recordType)
    ensures i == k
  {
  }

  /** Entries after the first match are never consulted: appending more
      records does not change a match already found. */
  lemma {:induction false} FirstMatchIgnoresLater(records: seq<ProviderRecord>, more: seq<ProviderRecord>,
                                                   rr: string, domain: string, recordType: string)
    requires FirstMatch(records, rr, domain, recordType).Some?
    ensures FirstMatch(records + more, rr, domain, recordType) == FirstMatch(records, rr, domain, recordType)
  {
    if !Matches(records[0], rr, domain, recordType) {
      assert (records + more)[1..] == records[1..] + more;
      FirstMatchIgnoresLater(records[1..], more, rr, domain, recordType);
    }
  }

  /** The `for ... break` search (aliddns.py:174-183). `found` is the first
      exact match; `visited` is the entry the loop variable `record` names
      once the loop is over: None when nothing was listed, otherwise the
      entry the loop broke at or, without a match, the last one. */
  method FindRecord(records: seq<ProviderRecord>, rr: string, domain: string, recordType: string)
    returns (found: Option<nat>, visited: Option<nat>)
    ensures found == FirstMatch(records, rr, domain, recordType)
    ensures visited.None? <==> records == []
    ensures found.Some? ==> visited == found
    ensures found.None? && records != [] ==> visited == Some(|records| - 1)
  {
    found, visited := None, None;
    var i := 0;
    while i < |records|
      invariant 0 <= i <= |records|
      invariant found.None?
      invariant forall j :: 0 <= j < i ==> !Matches(records[j], rr, domain, recordType)
      invariant visited == if i == 0 then None else Some(i - 1)
    {
      visited := Some(i);
      if Matches(records[i], rr, domain, recordType) {
        found := Some(i);
        break;
      }
      i := i + 1;
    }
  }

  /** The requests one call issues, and the exception it ends with
      (None: it returned normally). */
  datatype Effect = Effect(calls: seq<Call>, raised: Option<string>)

  /** The reference behaviour of `maintainDomainRecord` for a fetched
      address `ip`, the provider's `listing` and the `failure` the Add or
      Update request raises, if any. When `raised` is None the configured
      record was given success and result `ip`. */
  function Maintain(rr: string, domain: string, recordType: string, ip: string,
                    listing: Reply<seq<ProviderRecord>>, failure: Option<string>): (e: Effect)
    // the listing is requested first, by zone with the RR as keyword
    ensures |e.calls| >= 1 && e.calls[0] == DescribeRecords(domain, rr)
    // the call returns normally only for an empty listing whose Add succeeded
    ensures e.raised.None? <==> listing == Ok([]) && failure.None?
  {
    var describe := DescribeRecords(domain, rr);
    match listing
    case Raised(message) => Effect([describe], Some(message))
    case Ok(records) =>
      match FirstMatch(records, rr, domain, recordType)
      case None =>
        // aliddns.py:186 passes (ip, type) where (type, ip) is expected
        var add := AddRecord(rr, domain, ip, recordType, TTL);
        Effect([describe, add],
               if failure.Some? then failure
               else if records != [] then Some(DICT_ATTRIBUTE_ERROR)
               else None)
      case Some(i) =>
        if records[i].value == ip then
          Effect([describe], Some(DICT_ATTRIBUTE_ERROR))
        else
          var update := UpdateRecord(rr, records[i].recordId, recordType, ip, TTL);
          Effect([describe, update], if failure.Some? then failure else Some(DICT_ATTRIBUTE_ERROR))
  }

  /** What `maintainDomainRecord` requests and raises, case by case. */
  lemma MaintainCases(rr: string, domain: string, recordType: string, ip: string,
                      listing: Reply<seq<ProviderRecord>>, failure: Option<string>)
    ensures var e := Maintain(rr, domain, recordType, ip, listing, failure);
      // a failed listing requests nothing more and surfaces its error
      (listing.Raised? ==> e.calls == [DescribeRecords(domain, rr)] && e.raised == Some(listing.message)) &&
      // no exact match: one Add, carrying the address as Type and the record type as Value
      (listing.Ok? && NoMatch(listing.value, rr, domain, recordType) ==>
        e.calls == [DescribeRecords(domain, rr), AddRecord(rr, domain, ip, recordType, TTL)]) &&
      // an exact match with the same value: nothing is changed
      (forall i | listing.Ok? && IsFirstMatch(listing.value, i, rr, domain, recordType) ::
        listing.value[i].value == ip ==> e.calls == [DescribeRecords(domain, rr)]) &&
      // an exact match with another value: one Update of that record id
      (forall i | listing.Ok? && IsFirstMatch(listing.value, i, rr, domain, recordType) ::
        listing.value[i].value != ip ==>
          e.calls == [DescribeRecords(domain, rr), UpdateRecord(rr, listing.value[i].recordId, recordType, ip, TTL)]) &&
      // otherwise a failing Add or Update surfaces its error, and anything else
      // ends in the AttributeError of writing to a provider entry
      (listing.Ok? && e.raised.Some? ==>
        e.raised == if |e.calls| == 2 && failure.Some? then failure else Some(DICT_ATTRIBUTE_ERROR))
  {
  }

  /** The assignments `record.success = True` (and `record.result = ip` when
      `result` is given) on whatever `record` names at that point: the
      configured record when the search loop never ran, otherwise a
      provider entry, which raises. */
  method AssignOutcome(record: Config.ResourceRecord, visited: Option<nat>, result: Option<string>)
    returns (raised: Option<string>)
    modifies record
    ensures raised == if visited.None? then None else Some(DICT_ATTRIBUTE_ERROR)
    ensures raised.None? ==> record.success && record.result == if result.Some? then result else old(record.result)
    ensures raised.Some? ==> record.success == old(record.success) && record.result == old(record.result)
  {
    if visited.Some? {
      return Some(DICT_ATTRIBUTE_ERROR);
    }
    record.success := true;
    if result.Some? {
      record.result := result;
    }
    raised := None;
  }

  /** `maintainDomainRecord(client, record, ip)`. `listing` is the provider's
      answer to the listing and `failure` the error an Add or Update raises. */
  method MaintainDomainRecord(net: Network, record: Config.ResourceRecord, ip: string,
                              listing: Reply<seq<ProviderRecord>>, failure: Option<string>)
    returns (raised: Option<string>)
    modifies net, record
    ensures var e := Maintain(record.rr, record.domain, record.recordType, ip, listing, failure);
      net.log == old(net.log) + e.calls && raised == e.raised
    ensures raised.None? ==> record.success && record.result == Some(ip)
    ensures raised.Some? ==> record.success == old(record.success) && record.result == old(record.result)
  {
    var rr, domain, recordType := record.rr, record.domain, record.recordType;
    var listed := net.GetRecords(rr, domain, listing);
    if listed.Raised? {
      return Some(listed.message);
    }
    var records := listed.value;
    var found, visited := FindRecord(records, rr, domain, recordType);
    if found.None? {
      raised := net.AddDomainRecord(rr, domain, ip, recordType, failure);
      if raised.None? {
        raised := AssignOutcome(record, visited, Some(ip));
      }
    } else {
      var i := found.value;
      if records[i].value == ip {
        raised := AssignOutcome(record, visited, None);
      } else {
        raised := net.UpdateDomainRecord(rr, domain, records[i].recordId, recordType, ip, failure);
        if raised.None? {
          raised := AssignOutcome(record, visited, Some(ip));
        }
      }
    }
  }
}
