# AliDDNS reconciliation, modelled in Dafny

AliDDNS is a small dynamic-DNS updater for Aliyun (Alibaba Cloud) DNS. Each
configured resource record (an RR such as `home`, a zone such as
`example.com`, and a type `A` or `AAAA`) goes through the same steps:
- the updater fetches the machine's public address from an IPv4 or IPv6 endpoint;
- it lists the zone's records at the provider;
- it adds the record, updates it, or leaves it alone.

Each record's outcome is written back onto the configured record. At the end,
a markdown report of all outcomes can be posted to a DingTalk robot.

The model has six modules:

- `Wrappers` holds `Option` and `Reply`. A `Reply` is `Ok(value)` or `Raised(message)`, the latter standing for a Python exception and its `str(e)`.
- `Config` holds the configured record. It is a class with constant `rr`, `domain` and `recordType` and mutable `success` and `result`, plus its `str()` label.
- `Provider` holds the provider's listed records and the log of outbound requests. `Network` is a class whose ghost `log` records every request in order. The replies of the address endpoints and of the provider are parameters. The `ipaddress.ip_address` check is a parameter too: `addressError(text)` is the error text or `None`, and it accepts either family, as the source's check does.
- `Reconcile` holds `maintainDomainRecord`. There is a reference function `Maintain` (requests issued, exception raised), and the imperative `MaintainDomainRecord` with its `for ... break` search is proved against it.
- `Report` holds the text building of `post_dingtalk`. A reference `Compose` is defined over per-section block lists joined by dividers. The accumulation loop `Sections` and the method `PostDingTalk` are proved to build exactly that text.
- `Runner` holds the main loop. A reference `Step` gives one iteration's outcome and `Iterations` gives the whole run's outcomes. `Run` and `Execute` are proved to issue exactly the concatenated requests, in list order, and to leave the fields each record's last iteration wrote.

Two behaviours of the code are modelled as written:

- **Swapped Add arguments.** `aliddns.py:186` calls `addDomainRecord(client, rr, domain, ip, type)`, while the signature at `aliddns.py:122` is `(client, rr, domain, type, ip)`. The Add request therefore carries the address as its `Type` and the record type as its `Value`. The log entry is `AddRecord(rr, domain, ip, recordType, 600)`, with fields in the request's order (RR, DomainName, Type, Value, TTL).
- **Shadowed `record`.** The search loop's variable `record` (`aliddns.py:175`) replaces the parameter of the same name. Once the provider listed at least one entry, the later `record.success = True` writes to a provider entry, which is a plain dict, and raises `AttributeError`. The main loop then marks the configured record failed with that text. This happens after any Add or Update was already issued. As a result, `maintainDomainRecord` returns normally only for an empty listing whose Add succeeded (`Reconcile.Maintain`, `Runner.StepCases`).

Two further consequences of the code:

- The report skips a record that succeeded with no result (`aliddns.py:74-76`). That fits the unchanged path, which sets only `success` (`aliddns.py:193`). But the unchanged path always follows a non-empty listing, so because of the shadowed `record` it raises, and the main loop sets `result = str(e)` (`aliddns.py:226`). Every other path assigns `result` too. So after the loop every record carries a result and nothing is skipped. `Runner.Run` proves every record carries a result. `Runner.Execute` proves a message goes out exactly when DingTalk is enabled and some record has type `A` or `AAAA`. The skip rule itself is modelled in `Report.Compose` and `Report.PostDingTalk`, over arbitrary statuses.
- The configured list may name the same record object twice. Each iteration overwrites its fields, so a record ends in the state of its last occurrence (`Runner.Settled`).

## Model

| member | source | states |
|---|---|---|
| Config.ResourceRecord.constructor | config.py:2-7 | stores rr, domain and type as given, with no check on the type; a new record has success false and result None |
| Config.Label | config.py:9-10 | the label is `[`, rr, `.`, domain, `. `, type, `]`: length and each piece at its offset |
| Config.ResourceRecord.ToString | config.py:9-10 | `str(record)` is the record's label, with its rr and type at their offsets |
| Config.LabelInjective | config.py:9-10 | two labels are equal only for equal (rr, domain, type), when the RR holds no '.' and the domain no ' ' |
| Provider.FamilyOf | aliddns.py:212-218 | "A" selects the IPv4 source and "AAAA" the IPv6 source, each in both directions; any other type selects none |
| Provider.FetchAddress | aliddns.py:15-47 | the fetched text is returned exactly when the fetch succeeded and the address check accepted it; otherwise the fetch's error or the check's error is raised |
| Provider.Network.GetIPv4 | aliddns.py:15-30 | logs one request to the IPv4 endpoint and answers as FetchAddress |
| Provider.Network.GetIPv6 | aliddns.py:32-47 | logs one request to the IPv6 endpoint and answers as FetchAddress |
| Provider.Network.GetRecords | aliddns.py:49-64 | logs one listing request by zone with the RR as keyword, and returns the provider's reply |
| Provider.Network.AddDomainRecord | aliddns.py:122-140 | logs one Add with the parameters in order (RR, DomainName, Type, Value) and TTL 600; any provider error comes back |
| Provider.Network.UpdateDomainRecord | aliddns.py:142-161 | logs one Update keyed by record id, with type, value and TTL 600 (no domain); any provider error comes back |
| Reconcile.Matches | aliddns.py:176-180 | definition: a listed entry is the configured record when its RR, DomainName and Type all equal the record's |
| Reconcile.MatchesIgnoresIdAndValue | aliddns.py:176-180 | whether a listed entry matches does not depend on its record id or value |
| Reconcile.FirstMatch | aliddns.py:175-183 | None exactly when no listed entry matches RR, zone and type; otherwise the position of the first exact match, in list order |
| Reconcile.FirstMatchUnique | aliddns.py:175-183 | only one position can be the first match |
| Reconcile.FirstMatchIgnoresLater | aliddns.py:175-183 | entries after the first match are never consulted: appending entries does not change a match already found |
| Reconcile.FindRecord | aliddns.py:174-183 | the `for ... break` loop finds FirstMatch; afterwards the loop variable names no entry for an empty listing, else the matched entry or, without a match, the last one |
| Reconcile.Maintain | aliddns.py:163-198 | the listing is requested first; the call returns normally exactly when the listing is empty and the Add succeeds |
| Reconcile.MaintainCases | aliddns.py:173-198 | a failed listing stops there with its error; no match issues exactly one Add, with Type=ip and Value=type and TTL 600, and no Update; a match with the same value issues nothing more; a match with another value issues exactly one Update with the matched record id; a failing Add or Update raises its error, and every other non-empty listing raises the dict AttributeError |
| Reconcile.AssignOutcome | aliddns.py:187-198 | the writes reach the configured record only when the search loop never ran; otherwise they raise and the record is unchanged |
| Reconcile.MaintainDomainRecord | aliddns.py:163-198 | appends exactly Maintain's requests to the log and raises Maintain's error; on a normal return the record has success true and result ip, and on an error it is untouched |
| Report.Snapshot | aliddns.py:73 | the fields of the records in list order |
| Report.Show | aliddns.py:77-89 | definition: how `{rr.result}` renders a result, with a missing one printed as "None" |
| Report.Skipped | aliddns.py:74-76 | definition: a successful record with no result has nothing to report |
| Report.Reported | aliddns.py:74-99 | definition: a record contributes to the section of its family when it is not skipped; a type other than "A" or "AAAA" has no family |
| Report.BlockText | aliddns.py:77-89 | every block is non-empty |
| Report.BlockTextVerdict | aliddns.py:77-89 | a block opens with "Update Result: Success" exactly for a successful record and "Update Result: Failed" otherwise |
| Report.BlockTextNamesRecord | aliddns.py:77-89 | a block starts with "Update Result: Success" (or "Failed" for a failed record), a newline and "  - Domain: ", followed by rr, '.' and domain |
| Report.BlockTextEndsWithResult | aliddns.py:77-89 | a block's last line is "  - New IP: " for a successful record or "  - Error: " otherwise, then the rendered result and a newline |
| Report.Blocks | aliddns.py:73-99 | a section has no block exactly when no record is reported in it (skipped, or of another type); blocks keep record order |
| Report.Join | aliddns.py:79-87 | non-empty blocks join to the empty text exactly when there are none |
| Report.JoinSnoc | aliddns.py:80-82 | one more block adds a divider before it, except for the first block |
| Report.Body | aliddns.py:100-110 | no body exactly when both section texts are empty |
| Report.Compose | aliddns.py:73-110 | no body exactly when no record is reported in either section; otherwise header, the non-empty sections under their headings with IPv4 first, then footer |
| Report.SettledRecordsAreReported | aliddns.py:73-99 | when every record has a result, a section is empty exactly when no record has its type |
| Report.SettledRecordsAreSent | aliddns.py:73-103 | when every record has a result, a body exists exactly when some record has type A or AAAA |
| Report.Accumulated | aliddns.py:71-99 | the text of `ipv4_text` or `ipv6_text` after n turns of the loop; empty exactly when none of the first n records is reported in that section |
| Report.Extend | aliddns.py:78-99 | one turn leaves the section as it was when the record is not reported there, and otherwise makes it strictly longer |
| Report.ExtendAppends | aliddns.py:80-82 | a reported record's turn keeps the old section as the head, then a divider when the section had content, then the record's block at the end |
| Report.AccumulatedIsJoin | aliddns.py:71-99 | the text the loop accumulates for a section is that section's blocks joined by dividers |
| Report.AddBlock | aliddns.py:80-82 | the section gains a divider when it already has content, then the block |
| Report.Consider | aliddns.py:73-99 | one loop turn extends the section of the record's type by its block, or nothing when it is skipped or of another type |
| Report.Sections | aliddns.py:71-99 | the loop's two texts are the accumulated IPv4 and IPv6 sections |
| Report.PostDingTalk | aliddns.py:66-120 | posts at most one message, only when DingTalk is enabled and there is a body, with the fixed title and Compose's body |
| Runner.InvalidTypeMessage | aliddns.py:218 | the ValueError text is the fixed prefix followed by the type |
| Runner.Step | aliddns.py:209-227 | every iteration leaves a result on its record; success only with the newly fetched address as result |
| Runner.StepCases | aliddns.py:209-227 | an unknown type fails with no request; a known type first asks its own endpoint; a failed fetch or check stops there; success exactly for a fetched address, an empty listing and a successful Add, and then the requests are endpoint, listing, swapped Add |
| Runner.Iterations | aliddns.py:209 | one outcome per record visited |
| Runner.IterationAt | aliddns.py:209-227 | the k-th outcome is the k-th record's iteration with the k-th answers, whatever came before |
| Runner.CallsOfPrefix | aliddns.py:209-227 | the requests of earlier iterations stay at the head of the log |
| Runner.StepCallsInRun | aliddns.py:209-227 | each iteration's requests sit in the log at their place, also after a failure (the loop continues) |
| Runner.LastIndexOf | aliddns.py:209 | the last position of a record in the list |
| Runner.Process | aliddns.py:211-227 | one iteration with the try/except: logs Step's requests and leaves Step's success and result on the record |
| Runner.Settled | aliddns.py:209-227 | after the first n iterations, each record at its last position among them holds the success and result of that iteration |
| Runner.SettledLastOccurrence | aliddns.py:209-227 | in a settled state, a record listed among the first n holds the success and result of the iteration at its last position |
| Runner.Iterate | aliddns.py:209-227 | one loop turn extends the outcomes by the next record's Step, and keeps the log and every record's fields in step with them |
| Runner.Run | aliddns.py:209-227 | the log gains exactly the iterations' requests in list order; each record holds the fields of its last iteration; every record has a result |
| Runner.SettledRunIsSent | aliddns.py:209-230 | once every record has a result, a body exists exactly when some record has type A or AAAA |
| Runner.Notify | aliddns.py:230 | once every record has a result: a message exactly when DingTalk is enabled and some record has type A or AAAA, whose text is Compose's body of the records' fields |
| Runner.Execute | aliddns.py:209-230 | the loop's requests and fields as in Run, then a message exactly when DingTalk is enabled and some record has type A or AAAA, with the fixed title and Compose's body of the records' final fields |

## Left out

- The DingTalk transport: the webhook URL with its timestamp, HMAC-SHA256 signing, base64 and the HTTP POST. dingtalk_utils.py is not part of this model, and `PostDingTalk` returns the message it would post.
- The HTTP fetches of the address endpoints, and the decoding and `strip()` of the reply. The stripped text is a parameter.
- The internals of `ipaddress.ip_address`. They are the `addressError` parameter; like the source, the model does not tie the address's family to the record type.
- Aliyun SDK request construction, `do_action_with_exception` and JSON decoding. A malformed reply, including a `KeyError` on the listing, is one more `Raised` listing.
- Logging, `AcsClient` construction, and the credential and token constants of config.py.
- Python 3.13 and later word the dict `AttributeError` differently. The model uses the earlier wording.
- The `(rr, domain, type)` fields of a configured record are constants. The source never reassigns them.
