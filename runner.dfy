/** The main loop of the updater (aliddns.py:209-230): every configured
    record is processed in turn, a failure is recorded on that record alone,
    and the report is posted at the end. */
module Runner {
  import opened Wrappers
  import opened Provider
  import Config
  import Reconcile
  import Report

  /** What the outside world answers while one record is processed: the
      address endpoint's reply, the provider's listing, and the error an Add
      or Update raises, if any. */
  datatype Answers = Answers(fetch: Reply<string>, listing: Reply<seq<ProviderRecord>>, failure: Option<string>)

  /** The requests issued for one record and the record's fields afterwards. */
  datatype Outcome = Outcome(calls: seq<Call>, success: bool, result: Option<string>)

  /** The text of the ValueError raised for a type other than "A" and "AAAA". */
  function InvalidTypeMessage(recordType: string): (m: string)
    ensures |m| == 21 + |recordType| && m[..21] == "Invalid record type: " && m[21..] == recordType
  {
    "Invalid record type: " + recordType
  }

  /** One iteration of the loop for a record with these key fields: fetch the
      address of its family, reconcile it, and on any exception set
      `success = False` and `result = str(e)`. The outcome does not depend on
      the record's earlier state: every path assigns both fields. */
  function Step(rr: string, domain: string, recordType: string, a: Answers,
                addressError: string -> Option<string>): (o: Outcome)
    // every path leaves a result on the record
    ensures o.result.Some?
    // and the record is marked a success only together with its new address
    ensures o.success ==> FetchAddress(a.fetch, addressError).Ok? && o.result == Some(FetchAddress(a.fetch, addressError).value)
  {
    match FamilyOf(recordType)
    case None => Outcome([], false, Some(InvalidTypeMessage(recordType)))
    case Some(f) =>
      match FetchAddress(a.fetch, addressError)
      case Raised(message) => Outcome([GetIP(f)], false, Some(message))
      case Ok(ip) =>
        var e := Reconcile.Maintain(rr, domain, recordType, ip, a.listing, a.failure);
        if e.raised.None? then Outcome([GetIP(f)] + e.calls, true, Some(ip))
        else Outcome([GetIP(f)] + e.calls, false, e.raised)
  }

  /** How one iteration ends, case by case. */
  lemma StepCases(rr: string, domain: string, recordType: string, a: Answers,
                  addressError: string -> Option<string>)
    ensures var o := Step(rr, domain, recordType, a, addressError);
      // an unknown type raises before any request
      (FamilyOf(recordType).None? ==> o == Outcome([], false, Some(InvalidTypeMessage(recordType)))) &&
      // a known type first asks the endpoint of its family
      (FamilyOf(recordType).Some? ==> |o.calls| >= 1 && o.calls[0] == GetIP(FamilyOf(recordType).value)) &&
      // a failed fetch or address check stops there, with that error
      (FamilyOf(recordType).Some? && FetchAddress(a.fetch, addressError).Raised? ==>
        o == Outcome([GetIP(FamilyOf(recordType).value)], false, Some(FetchAddress(a.fetch, addressError).message))) &&
      // success exactly when the address is fetched, the listing is empty and the Add succeeds
      (o.success <==>
        FamilyOf(recordType).Some? && FetchAddress(a.fetch, addressError).Ok? && a.listing == Ok([]) && a.failure.None?) &&
      // and then the address went out in the swapped Add
      (o.success ==>
        o.calls == [GetIP(FamilyOf(recordType).value), DescribeRecords(domain, rr),
                    AddRecord(rr, domain, FetchAddress(a.fetch, addressError).value, recordType, TTL)])
  {
  }

  /** The outcome of the `k`-th iteration of a run. */
  function StepAt(records: seq<Config.ResourceRecord>, answers: seq<Answers>,
                  addressError: string -> Option<string>, k: nat): Outcome
    requires k < |records| && |answers| == |records|
  {
    Step(records[k].rr, records[k].domain, records[k].recordType, answers[k], addressError)
  }

  /** The outcomes of the first `n` iterations of a run, in list order. */
  function Iterations(records: seq<Config.ResourceRecord>, answers: seq<Answers>,
                      addressError: string -> Option<string>, n: nat): (os: seq<Outcome>)
    requires n <= |records| && |answers| == |records|
    ensures |os| == n
  {
    if n == 0 then []
    else Iterations(records, answers, addressError, n - 1) + [StepAt(records, answers, addressError, n - 1)]
  }

  /** The `k`-th outcome is the iteration on the `k`-th record with the
      `k`-th answers. */
  lemma {:induction false} IterationAt(records: seq<Config.ResourceRecord>, answers: seq<Answers>,
                                       addressError: string -> Option<string>, n: nat, k: nat)
    requires k < n <= |records| && |answers| == |records|
    ensures Iterations(records, answers, addressError, n)[k] == StepAt(records, answers, addressError, k)
  {
    if k < n - 1 {
      IterationAt(records, answers, addressError, n - 1, k);
    }
  }

  /** The requests of a sequence of iterations, in order. */
  function CallsOf(os: seq<Outcome>): seq<Call>
  {
    if |os| == 0 then [] else CallsOf(os[..|os| - 1]) + os[|os| - 1].calls
  }

  /** The requests of an earlier part of the run stay at the head of the log. */
  lemma {:induction false} CallsOfPrefix(os: seq<Outcome>, k: nat)
    requires k <= |os|
    ensures |CallsOf(os[..k])| <= |CallsOf(os)|
    ensures CallsOf(os)[..|CallsOf(os[..k])|] == CallsOf(os[..k])
  {
    if k < |os| {
      var init := os[..|os| - 1];
      assert init[..k] == os[..k];
      CallsOfPrefix(init, k);
      PrefixThroughAppend(CallsOf(init), os[|os| - 1].calls, |CallsOf(os[..k])|);
    } else {
      assert os[..k] == os;
    }
  }

  /** One more iteration appends its requests. */
  lemma CallsOfSnoc(os: seq<Outcome>, o: Outcome)
    ensures CallsOf(os + [o]) == CallsOf(os) + o.calls
  {
    assert (os + [o])[..|os|] == os;
  }

  lemma AppendAssoc(a: seq<Call>, b: seq<Call>, c: seq<Call>)
    ensures a + (b + c) == (a + b) + c
  {
  }

  lemma PrefixThroughAppend(a: seq<Call>, b: seq<Call>, m: nat)
    requires m <= |a|
    ensures (a + b)[..m] == a[..m]
  {
    assert forall i :: 0 <= i < m ==> (a + b)[..m][i] == a[..m][i];
  }

  /** Each iteration's requests appear in the run's log at their place,
      whatever happened in the iterations before: a failure does not stop
      the loop. */
  lemma StepCallsInRun(os: seq<Outcome>, k: nat)
    requires k < |os|
    ensures var start, end := |CallsOf(os[..k])|, |CallsOf(os[..k + 1])|;
      start <= end <= |CallsOf(os)| && CallsOf(os)[start..end] == os[k].calls
  {
    var all, upTo, before := CallsOf(os), CallsOf(os[..k + 1]), CallsOf(os[..k]);
    CallsOfPrefix(os, k + 1);
    assert os[..k + 1][..k] == os[..k];
    assert upTo == before + os[k].calls;
    assert all[|before|..|upTo|] == upTo[|before|..];
  }

  /** The position of the last occurrence of `r` among the first `n` records. */
  function LastIndexOf(records: seq<Config.ResourceRecord>, r: Config.ResourceRecord, n: nat): (j: nat)
    requires n <= |records| && r in records[..n]
    ensures j < n && records[j] == r
    ensures forall k :: j < k < n ==> records[k] != r
  {
    if records[n - 1] == r then n - 1
    else
      assert r in records[..n - 1] by {
        var k :| 0 <= k < n && records[..n][k] == r;
        assert records[..n - 1][k] == r;
      }
      LastIndexOf(records, r, n - 1)
  }

  /** `records[k]` is the last occurrence of that record among the first `n`. */
  predicate LastBefore(records: seq<Config.ResourceRecord>, k: nat, n: nat)
    requires k < n <= |records|
  {
    forall j :: k < j < n ==> records[j] != records[k]
  }

  /** One iteration of the loop on `record`, with the try/except around it;
      `o` is how it ends. */
  method Process(net: Network, record: Config.ResourceRecord, a: Answers, addressError: string -> Option<string>)
    returns (ghost o: Outcome)
    modifies net, record
    ensures o == Step(record.rr, record.domain, record.recordType, a, addressError)
    ensures net.log == old(net.log) + o.calls && record.success == o.success && record.result == o.result
  {
    var fetched: Reply<string>;
    if record.recordType == "A" {
      fetched := net.GetIPv4(a.fetch, addressError);
    } else if record.recordType == "AAAA" {
      fetched := net.GetIPv6(a.fetch, addressError);
    } else {
      fetched := Raised(InvalidTypeMessage(record.recordType));
    }
    var raised: Option<string> := if fetched.Raised? then Some(fetched.message) else None;
    if fetched.Ok? {
      raised := Reconcile.MaintainDomainRecord(net, record, fetched.value, a.listing, a.failure);
    }
    if raised.Some? {
      record.success := false;
      record.result := raised;
    }
    o := Step(record.rr, record.domain, record.recordType, a, addressError);
  }

  /** After the first `n` iterations, the last occurrence of each record
      among them holds the fields its iteration left. */
  ghost predicate Settled(records: seq<Config.ResourceRecord>, outs: seq<Outcome>, n: nat)
    requires n <= |records| && |outs| == n
    reads records
  {
    forall k {:trigger outs[k]} :: 0 <= k < n && LastBefore(records, k, n) ==>
      records[k].success == outs[k].success && records[k].result == outs[k].result
  }

  /** Once the first `n` iterations are settled, a record listed among the
      first `n` holds the success and result its last iteration left. */
  lemma SettledLastOccurrence(records: seq<Config.ResourceRecord>, outs: seq<Outcome>, n: nat,
                              r: Config.ResourceRecord)
    requires n <= |records| && |outs| == n && r in records[..n]
    requires Settled(records, outs, n)
    ensures var j := LastIndexOf(records, r, n);
      r.success == outs[j].success && r.result == outs[j].result
  {
    var j := LastIndexOf(records, r, n);
    assert LastBefore(records, j, n);
  }

  /** The `i`-th turn of the loop, on `records[i]`: `o` is how it ends; it
      extends the outcomes by one and keeps every record settled. */
  method Iterate(net: Network, records: seq<Config.ResourceRecord>, answers: seq<Answers>,
                 addressError: string -> Option<string>, i: nat, ghost outs: seq<Outcome>)
    returns (ghost o: Outcome)
    requires i < |records| && |answers| == |records|
    requires outs == Iterations(records, answers, addressError, i)
    requires Settled(records, outs, i)
    modifies net, records[i]
    ensures outs + [o] == Iterations(records, answers, addressError, i + 1)
    ensures net.log == old(net.log) + o.calls
    ensures Settled(records, outs + [o], i + 1)
  {
    o := Process(net, records[i], answers[i], addressError);
  }

  /** The loop over the configured records. `answers[k]` is what the world
      answers in the `k`-th iteration. A record listed twice ends in the
      state of its last iteration. */
  method Run(net: Network, records: seq<Config.ResourceRecord>, answers: seq<Answers>,
             addressError: string -> Option<string>)
    requires |answers| == |records|
    modifies net, records
    ensures net.log == old(net.log) + CallsOf(Iterations(records, answers, addressError, |records|))
    ensures Settled(records, Iterations(records, answers, addressError, |records|), |records|)
    ensures forall k :: 0 <= k < |records| ==> records[k].result.Some?
  {
    ghost var outs: seq<Outcome> := [];
    var i := 0;
    while i < |records|
      invariant 0 <= i <= |records|
      invariant outs == Iterations(records, answers, addressError, i)
      invariant net.log == old(net.log) + CallsOf(outs)
      invariant Settled(records, outs, i)
    {
      ghost var o := Iterate(net, records, answers, addressError, i, outs);
      CallsOfSnoc(outs, o);
      AppendAssoc(old(net.log), CallsOf(outs), o.calls);
      outs := outs + [o];
      i := i + 1;
    }
    forall k | 0 <= k < |records|
      ensures records[k].result.Some?
    {
      var j := LastIndexOf(records, records[k], |records|);
      IterationAt(records, answers, addressError, |records|, j);
    }
  }

  /** Once every record carries a result, a message body exists exactly when
      some record has type "A" or "AAAA". */
  lemma SettledRunIsSent(records: seq<Config.ResourceRecord>)
    requires forall k :: 0 <= k < |records| ==> records[k].result.Some?
    ensures Report.Compose(Report.Snapshot(records)).Some? <==>
      exists k :: 0 <= k < |records| && FamilyOf(records[k].recordType).Some?
  {
    var ss := Report.Snapshot(records);
    forall k | 0 <= k < |ss|
      ensures ss[k].result.Some? && ss[k].recordType == records[k].recordType
    {
      assert ss[k] == Report.StatusOf(records[k]);
    }
    Report.SettledRecordsAreSent(ss);
  }

  /** `post_dingtalk(config.ResourceRecords)` once every record carries a
      result: a message goes out exactly when DingTalk is enabled and some
      record has type "A" or "AAAA", and its text is the composed body. */
  method Notify(records: seq<Config.ResourceRecord>, useDingTalk: bool) returns (sent: Option<Report.Message>)
    requires forall k :: 0 <= k < |records| ==> records[k].result.Some?
    ensures sent.Some? <==> useDingTalk && exists k :: 0 <= k < |records| && FamilyOf(records[k].recordType).Some?
    ensures sent.Some? ==>
      Report.Compose(Report.Snapshot(records)).Some? &&
      sent.value == Report.Markdown(Report.TITLE, Report.Compose(Report.Snapshot(records)).value)
  {
    var statuses := Report.Snapshot(records);
    SettledRunIsSent(records);
    sent := Report.PostDingTalk(statuses, useDingTalk);
  }

  /** The whole program after start-up: the loop, then `post_dingtalk`. A
      message goes out exactly when DingTalk is enabled and some record has
      type "A" or "AAAA": after the loop every record carries a result, so
      none is skipped, and a record of another type belongs to no section. */
  method Execute(net: Network, records: seq<Config.ResourceRecord>, answers: seq<Answers>,
                 addressError: string -> Option<string>, useDingTalk: bool)
    returns (sent: Option<Report.Message>)
    requires |answers| == |records|
    modifies net, records
    ensures net.log == old(net.log) + CallsOf(Iterations(records, answers, addressError, |records|))
    ensures Settled(records, Iterations(records, answers, addressError, |records|), |records|)
    ensures sent.Some? <==> useDingTalk && exists k :: 0 <= k < |records| && FamilyOf(records[k].recordType).Some?
    ensures sent.Some? ==>
      Report.Compose(Report.Snapshot(records)).Some? &&
      sent.value == Report.Markdown(Report.TITLE, Report.Compose(Report.Snapshot(records)).value)
  {
    Run(net, records, answers, addressError);
    sent := Notify(records, useDingTalk);
  }
}
