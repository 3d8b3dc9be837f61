/** The report that `post_dingtalk` builds from the configured records
    (aliddns.py:66-120), and the decision whether to send it. */
module Report {
  import opened Wrappers
  import opened Provider
  import Config

  const DIVIDER := "------------------\n"
  const HEADER := "#### Aliyun DDNS Update\n"
  const IPV4_HEADING := "##### ====== IPv4 ======\n"
  const IPV6_HEADING := "##### ====== IPv6 ======\n"
  const FOOTER := "##### === AliyunDDNS ===\n"
  const TITLE := "Aliyun DDNS Update"

  /** The fields of a configured record that the report reads. */
  datatype Status = Status(rr: string, domain: string, recordType: string, success: bool, result: Option<string>)

  /** The markdown message handed to the DingTalk robot. */
  datatype Message = Markdown(title: string, text: string)

  function StatusOf(r: Config.ResourceRecord): Status
    reads r
  {
    Status(r.rr, r.domain, r.recordType, r.success, r.result)
  }

  /** The statuses of a list of records, in list order. */
  function Snapshot(rs: seq<Config.ResourceRecord>): (ss: seq<Status>)
    reads rs
    ensures |ss| == |rs|
    ensures forall i :: 0 <= i < |rs| ==> ss[i] == StatusOf(rs[i])
  {
    if rs == [] then [] else [StatusOf(rs[0])] + Snapshot(rs[1..])
  }

  /** How an f-string renders `result`: `None` prints as "None". */
  function Show(result: Option<string>): string
  {
    match result
    case None => "None"
    case Some(text) => text
  }

  /** A successful record without a result has nothing to report. */
  predicate Skipped(s: Status)
  {
    s.success && s.result.None?
  }

  /** `s` contributes a block to the section of family `f`. */
  predicate Reported(s: Status, f: Family)
  {
    !Skipped(s) && FamilyOf(s.recordType) == Some(f)
  }

  /** The block of one record: a Success block with the new address or a
      Failed block with the error. */
  function BlockText(s: Status): (b: string)
    ensures |b| > 0
  {
    if s.success then
      "Update Result: Success\n  - Domain: " + s.rr + "." + s.domain + "\n  - New IP: " + Show(s.result) + "\n"
    else
      "Update Result: Failed\n  - Domain: " + s.rr + "." + s.domain + "\n  - Error: " + Show(s.result) + "\n"
  }

  /** A block opens with the verdict line: Success exactly when the record
      succeeded. */
  lemma BlockTextVerdict(s: Status)
    ensures var b := BlockText(s);
      (s.success ==> |b| > 23 && b[..23] == "Update Result: Success\n") &&
      (!s.success ==> |b| > 22 && b[..22] == "Update Result: Failed\n")
  {
  }

  /** The line after the verdict names the record as `rr.domain`. */
  lemma BlockTextNamesRecord(s: Status)
    ensures var b := BlockText(s);
      var lead := if s.success then "Update Result: Success\n  - Domain: " else "Update Result: Failed\n  - Domain: ";
      |b| > |lead| + |s.rr| + |s.domain| && b[..|lead|] == lead &&
      b[|lead|..|lead| + |s.rr|] == s.rr && b[|lead| + |s.rr|] == '.' &&
      b[|lead| + |s.rr| + 1..|lead| + |s.rr| + 1 + |s.domain|] == s.domain
  {
    var lead := if s.success then "Update Result: Success\n  - Domain: " else "Update Result: Failed\n  - Domain: ";
    var named := lead + s.rr + "." + s.domain;
    var heading, tail := if s.success then "\n  - New IP: " else "\n  - Error: ", Show(s.result) + "\n";
    assert BlockText(s) == named + heading + Show(s.result) + "\n";
    assert BlockText(s) == named + (heading + tail);
    assert BlockText(s)[..|named|] == named;
  }

  /** The block's last line gives the new address of a successful record or
      the error of a failed one, rendered as `{rr.result}` renders it. */
  lemma BlockTextEndsWithResult(s: Status)
    ensures var b := BlockText(s);
      var last := (if s.success then "  - New IP: " else "  - Error: ") + Show(s.result) + "\n";
      |b| > |last| && b[|b| - |last|..] == last && b[|b| - |last| - 1] == '\n'
  {
    var result := Show(s.result);
    var head, heading, last;
    if s.success {
      head := "Update Result: Success\n  - Domain: " + s.rr + "." + s.domain;
      heading, last := "  - New IP: ", "  - New IP: " + result + "\n";
      assert BlockText(s) == head + "\n  - New IP: " + result + "\n";
    } else {
      head := "Update Result: Failed\n  - Domain: " + s.rr + "." + s.domain;
      heading, last := "  - Error: ", "  - Error: " + result + "\n";
      assert BlockText(s) == head + "\n  - Error: " + result + "\n";
    }
    assert BlockText(s) == (head + "\n") + (heading + result + "\n");
    SuffixOf(head + "\n", last);
  }

  lemma SuffixOf(a: string, b: string)
    requires |a| > 0
    ensures (a + b)[|a + b| - |b|..] == b && (a + b)[|a + b| - |b| - 1] == a[|a| - 1]
  {
    assert (a + b)[|a|..] == b;
  }

  /** The blocks of the first `n` statuses for section `f`, in record order. */
  function Blocks(ss: seq<Status>, n: nat, f: Family): (bs: seq<string>)
    requires n <= |ss|
    ensures |bs| <= n
    ensures |bs| == 0 <==> forall i :: 0 <= i < n ==> !Reported(ss[i], f)
    ensures forall k :: 0 <= k < |bs| ==> |bs[k]| > 0
  {
    if n == 0 then []
    else Blocks(ss, n - 1, f) + if Reported(ss[n - 1], f) then [BlockText(ss[n - 1])] else []
  }

  /** The blocks with a divider between each two consecutive ones. */
  function Join(bs: seq<string>): (s: string)
    ensures (forall k :: 0 <= k < |bs| ==> |bs[k]| > 0) ==> (|s| == 0 <==> |bs| == 0)
  {
    if |bs| == 0 then ""
    else if |bs| == 1 then bs[0]
    else bs[0] + DIVIDER + Join(bs[1..])
  }

  /** Joining one more block appends a divider (unless it is the first
      block) and the block: the loop's `+=` steps build `Join`. */
  lemma {:induction false} JoinSnoc(bs: seq<string>, b: string)
    ensures Join(bs + [b]) == if bs == [] then b else Join(bs) + DIVIDER + b
  {
    if |bs| > 1 {
      assert (bs + [b])[1..] == bs[1..] + [b];
      JoinSnoc(bs[1..], b);
    } else if |bs| == 1 {
      assert (bs + [b])[1..] == [b];
    }
  }

  /** The message body built from the two section texts, or None when
      both are empty (aliddns.py:100-110). */
  function Body(ipv4: string, ipv6: string): (body: Option<string>)
    ensures body.None? <==> |ipv4| == 0 && |ipv6| == 0
  {
    if |ipv4| == 0 && |ipv6| == 0 then None
    else
      var withIPv4 := if |ipv4| > 0 then HEADER + (IPV4_HEADING + ipv4 + "\n") else HEADER;
      var withIPv6 := if |ipv6| > 0 then withIPv4 + (IPV6_HEADING + ipv6 + "\n") else withIPv4;
      Some(withIPv6 + FOOTER)
  }

  /** The message body for the records' statuses: None when neither section
      has a block, otherwise the header, each non-empty section under its
      heading (IPv4 first) and the footer. */
  function Compose(ss: seq<Status>): (body: Option<string>)
    ensures body.None? <==> forall i :: 0 <= i < |ss| ==> !Reported(ss[i], IPv4) && !Reported(ss[i], IPv6)
    ensures var b4, b6 := Blocks(ss, |ss|, IPv4), Blocks(ss, |ss|, IPv6);
      body.Some? ==>
        body.value ==
          if |b4| > 0 && |b6| > 0 then
            HEADER + (IPV4_HEADING + Join(b4) + "\n") + (IPV6_HEADING + Join(b6) + "\n") + FOOTER
          else if |b4| > 0 then HEADER + (IPV4_HEADING + Join(b4) + "\n") + FOOTER
          else HEADER + (IPV6_HEADING + Join(b6) + "\n") + FOOTER
  {
    Body(Join(Blocks(ss, |ss|, IPv4)), Join(Blocks(ss, |ss|, IPv6)))
  }

  /** When every record carries a result, as after a run, a record is
      reported exactly when its type is that section's. */
  lemma {:induction false} SettledRecordsAreReported(ss: seq<Status>, f: Family)
    requires forall i :: 0 <= i < |ss| ==> ss[i].result.Some?
    ensures |Blocks(ss, |ss|, f)| == 0 <==> forall i :: 0 <= i < |ss| ==> FamilyOf(ss[i].recordType) != Some(f)
  {
    forall i | 0 <= i < |ss|
      ensures Reported(ss[i], f) <==> FamilyOf(ss[i].recordType) == Some(f)
    {
      assert !Skipped(ss[i]);
    }
  }

  /** When every record carries a result, a message body exists exactly
      when some record has type "A" or "AAAA". */
  lemma SettledRecordsAreSent(ss: seq<Status>)
    requires forall i :: 0 <= i < |ss| ==> ss[i].result.Some?
    ensures Compose(ss).Some? <==> exists k :: 0 <= k < |ss| && FamilyOf(ss[k].recordType).Some?
  {
    forall i | 0 <= i < |ss|
      ensures Reported(ss[i], IPv4) || Reported(ss[i], IPv6) <==> FamilyOf(ss[i].recordType).Some?
    {
      assert !Skipped(ss[i]);
    }
  }

  /** The text of section `f` once the first `n` statuses are processed,
      built step by step as the loop of `post_dingtalk` builds it. */
  ghost function Accumulated(ss: seq<Status>, n: nat, f: Family): (text: string)
    requires n <= |ss|
    ensures |text| == 0 <==> forall i :: 0 <= i < n ==> !Reported(ss[i], f)
  {
    if n == 0 then ""
    else
      Extend(Accumulated(ss, n - 1, f), ss[n - 1], f)
  }

  /** The step-by-step accumulation is the section's blocks joined by dividers. */
  lemma {:induction false} AccumulatedIsJoin(ss: seq<Status>, n: nat, f: Family)
    requires n <= |ss|
    ensures Accumulated(ss, n, f) == Join(Blocks(ss, n, f))
  {
    if n > 0 {
      AccumulatedIsJoin(ss, n - 1, f);
      var bs := Blocks(ss, n - 1, f);
      if !Reported(ss[n - 1], f) {
        assert Blocks(ss, n, f) == bs + [];
        assert bs + [] == bs;
      } else {
        JoinSnoc(bs, BlockText(ss[n - 1]));
      }
    }
  }

  /** `section += DIVIDER` when the section has content, then `section += text`. */
  method AddBlock(section: string, text: string) returns (r: string)
    ensures r == if |section| > 0 then section + DIVIDER + text else text
  {
    r := section;
    if |r| > 0 {
      r := r + DIVIDER;
    }
    r := r + text;
  }

  /** Appending `s`'s block to the section of family `f` as the loop does:
      unchanged when `s` is not reported there. */
  function Extend(section: string, s: Status, f: Family): (r: string)
    ensures !Reported(s, f) ==> r == section
    ensures Reported(s, f) ==> |r| > |section|
  {
    if !Reported(s, f) then section
    else if |section| > 0 then section + DIVIDER + BlockText(s)
    else BlockText(s)
  }

  /** A reported record's step keeps the section as its head and grows it
      at the end by a divider (unless it was empty) and the block. */
  lemma ExtendAppends(section: string, s: Status, f: Family)
    requires Reported(s, f)
    ensures var r := Extend(section, s, f);
      |r| == |section| + (if |section| > 0 then |DIVIDER| else 0) + |BlockText(s)| &&
      r[..|section|] == section && r[|r| - |BlockText(s)|..] == BlockText(s) &&
      (|section| > 0 ==> r[|section|..|section| + |DIVIDER|] == DIVIDER)
  {
  }

  /** One iteration of the loop of `post_dingtalk` (aliddns.py:72-99): the
      record's block goes to the section of its type, or nowhere. */
  method Consider(ss: seq<Status>, i: nat, ipv4: string, ipv6: string) returns (ipv4': string, ipv6': string)
    requires i < |ss|
    requires ipv4 == Accumulated(ss, i, IPv4) && ipv6 == Accumulated(ss, i, IPv6)
    ensures ipv4' == Accumulated(ss, i + 1, IPv4) && ipv6' == Accumulated(ss, i + 1, IPv6)
  {
    var s := ss[i];
    ipv4', ipv6' := ipv4, ipv6;
    if !(s.success && s.result.None?) {
      var text := BlockText(s);
      if s.recordType == "A" {
        ipv4' := AddBlock(ipv4, text);
      } else if s.recordType == "AAAA" {
        ipv6' := AddBlock(ipv6, text);
      }
    }
  }

  /** The accumulation loop of `post_dingtalk` (aliddns.py:71-99) over the
      records' statuses. */
  method Sections(ss: seq<Status>) returns (ipv4: string, ipv6: string)
    ensures ipv4 == Accumulated(ss, |ss|, IPv4)
    ensures ipv6 == Accumulated(ss, |ss|, IPv6)
  {
    ipv4, ipv6 := "", "";
    var i := 0;
    while i < |ss|
      invariant 0 <= i <= |ss|
      invariant ipv4 == Accumulated(ss, i, IPv4)
      invariant ipv6 == Accumulated(ss, i, IPv6)
    {
      ipv4, ipv6 := Consider(ss, i, ipv4, ipv6);
      i := i + 1;
    }
  }

  /** `post_dingtalk(rrs)` without the webhook transport, given the fields
      of the records in list order: the message it posts, if any (one at
      most, and only when `useDingTalk`). */
  method PostDingTalk(ss: seq<Status>, useDingTalk: bool) returns (sent: Option<Message>)
    ensures sent.Some? <==> useDingTalk && Compose(ss).Some?
    ensures sent.Some? ==> sent.value == Markdown(TITLE, Compose(ss).value)
  {
    var ipv4, ipv6 := Sections(ss);
    AccumulatedIsJoin(ss, |ss|, IPv4);
    AccumulatedIsJoin(ss, |ss|, IPv6);
    if |ipv4| == 0 && |ipv6| == 0 {
      return None;
    }
    var bodyText := HEADER;
    if |ipv4| > 0 {
      bodyText := bodyText + (IPV4_HEADING + ipv4 + "\n");
    }
    if |ipv6| > 0 {
      bodyText := bodyText + (IPV6_HEADING + ipv6 + "\n");
    }
    bodyText := bodyText + FOOTER;
    sent := if useDingTalk then Some(Markdown(TITLE, bodyText)) else None;
  }
}
