/** What the updater asks of the outside world: the two public-address
    endpoints and the three DNS provider operations (aliddns.py:15-64,
    122-161). Replies are parameters; every request is appended to a log. */
module Provider {
  import opened Wrappers

  /** The TTL every Add and Update request carries. */
  const TTL: int := 600

  /** A record as the provider lists it (the `Record` entries of the JSON reply). */
  datatype ProviderRecord = ProviderRecord(
    rr: string, domainName: string, recordType: string, recordId: string, value: string)

  /** The address family of a record type: IPv4 for "A", IPv6 for "AAAA". */
  datatype Family = IPv4 | IPv6

  /** The family a record type selects, or None for any other type. */
  function FamilyOf(recordType: string): (f: Option<Family>)
    ensures f == Some(IPv4) <==> recordType == "A"
    ensures f == Some(IPv6) <==> recordType == "AAAA"
  {
    if recordType == "A" then Some(IPv4)
    else if recordType == "AAAA" then Some(IPv6)
    else None
  }

  /** One outbound request, with the parameters the request carries. */
  datatype Call =
    | GetIP(family: Family)
    | DescribeRecords(domainName: string, rrKeyWord: string)
    | AddRecord(rr: string, domainName: string, recordType: string, value: string, ttl: int)
    | UpdateRecord(rr: string, recordId: string, recordType: string, value: string, ttl: int)

  /** `getIPv4`/`getIPv6` after the HTTP fetch: the stripped reply text is
      kept when the address check accepts it. `addressError(text)` is the
      message `ipaddress.ip_address` raises for `text`, or None when it
      returns; it accepts either family. */
  function FetchAddress(reply: Reply<string>, addressError: string -> Option<string>): (r: Reply<string>)
    ensures r.Ok? <==> reply.Ok? && addressError(reply.value).None?
    ensures r.Ok? ==> r.value == reply.value
    ensures reply.Raised? ==> r == reply
    ensures reply.Ok? && addressError(reply.value).Some? ==> r == Raised(addressError(reply.value).value)
  {
    match reply
    case Raised(_) => reply
    case Ok(text) =>
      match addressError(text)
      case Some(message) => Raised(message)
      case None => reply
  }

  /** The Aliyun client together with the address endpoints. `log` is every
      request issued so far, in order. */
  class Network {
    ghost var log: seq<Call>

    constructor ()
      ensures log == []
    {
      log := [];
    }

    /** `getIPv4`: `reply` is the stripped text of the endpoint's answer, or
        the error the fetch raised. */
    method GetIPv4(reply: Reply<string>, addressError: string -> Option<string>) returns (r: Reply<string>)
      modifies this
      ensures log == old(log) + [GetIP(IPv4)]
      ensures r == FetchAddress(reply, addressError)
    {
      log := log + [GetIP(IPv4)];
      r := FetchAddress(reply, addressError);
    }

    /** `getIPv6`, the same check against the IPv6 endpoint. */
    method GetIPv6(reply: Reply<string>, addressError: string -> Option<string>) returns (r: Reply<string>)
      modifies this
      ensures log == old(log) + [GetIP(IPv6)]
      ensures r == FetchAddress(reply, addressError)
    {
      log := log + [GetIP(IPv6)];
      r := FetchAddress(reply, addressError);
    }

    /** `getRecords`: lists the zone's records filtered by the RR keyword;
        `reply` is the provider's answer. */
    method GetRecords(rr: string, domain: string, reply: Reply<seq<ProviderRecord>>)
      returns (r: Reply<seq<ProviderRecord>>)
      modifies this
      ensures log == old(log) + [DescribeRecords(domain, rr)]
      ensures r == reply
    {
      log := log + [DescribeRecords(domain, rr)];
      r := reply;
    }

    /** `addDomainRecord(client, rr, domain, type, ip)`; `failure` is the
        error the provider call raises, if any. */
    method AddDomainRecord(rr: string, domain: string, recordType: string, ip: string, failure: Option<string>)
      returns (raised: Option<string>)
      modifies this
      ensures log == old(log) + [AddRecord(rr, domain, recordType, ip, TTL)]
      ensures raised == failure
    {
      log := log + [AddRecord(rr, domain, recordType, ip, TTL)];
      raised := failure;
    }

    /** `updateDomainRecord(client, rr, domain, record_id, type, ip)`: the
        request names the record by id; the domain is not sent. */
    method UpdateDomainRecord(rr: string, domain: string, recordId: string, recordType: string, ip: string,
                              failure: Option<string>)
      returns (raised: Option<string>)
      modifies this
      ensures log == old(log) + [UpdateRecord(rr, recordId, recordType, ip, TTL)]
      ensures raised == failure
    {
      log := log + [UpdateRecord(rr, recordId, recordType, ip, TTL)];
      raised := failure;
    }
  }
}
