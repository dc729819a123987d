# DNS record reconciliation of terraform-provider-godaddy, in Dafny

This project models the part of the GoDaddy Terraform provider that reconciles DNS
records. That is the record half of the API client (`api/domains.go`) and the
`godaddy_domain_record` resource built on it (`plugin/godaddy/resource_dns_record.go`).

- **`Records`** (`records.dfy`). The `DomainRecord` value, and the type partitioner
  `domainRecordsOfType`. It keeps the records whose type equals a given type under
  `strings.EqualFold`, in input order.
- **`Remote`** (`remote.dfy`). The far side of `c.execute`:
  - the endpoints of the path templates, and the requests sent to them;
  - what the provider does with a request it accepts (`Effect`). A PUT on a type
    replaces that type's records (recordReplaceType). A PATCH appends (recordAdd). A
    PUT on a type and a name replaces the records of that pair;
  - a `Transport` object. It logs every request it is handed, holds the domain's
    records at the provider, and answers through oracles indexed by the request's
    position in the log.
  - `StopAtFirstFailure` is the closed form of a write loop. It sends a plan of
    requests in order and stops at the first body that does not encode or the first
    request the transport refuses. It keeps what was already applied.
- **`Domains`** (`domains.dfy`). The three write strategies, as loops over a
  `Transport`, each proved against `StopAtFirstFailure` of its plan of requests:
  - `AddDomainRecords`: one PATCH per allowed supported type;
  - `ReplaceDomainRecords`: one PUT per allowed supported type;
  - `UpdateDomainRecords`: one PUT per record, addressed by its type and name.
- **`Reads`** (`reads.dfy`). The paginated fetch `GetDomainRecords`: pages of 500,
  numbered from 1, until an empty page comes back. The poll `GetDomain`: fetch again
  every 3 seconds while the status contains "PENDING".
- **`WriteLaws`** (`laws.dfy`). What the strategies do to the provider's records:
  - replace sets each allowed type's partition and leaves the other types alone, and
    doing it twice equals doing it once;
  - add only appends;
  - an update leaves the updated record as the only one with its type and name.
- **`RecordResource`** (`resource.dfy`). The resource itself:
  - `domainRecordResource` as a class with `mergeRecords`;
  - `newDomainRecordResource`, which builds records from the `record` rows and stops
    at the first error;
  - the loop of `populateResourceDataFromResponse`, which splits off default A
    records;
  - `flattenRecords`, and the round trip back through the rows;
  - the create/update/restore hooks. Create and update replace; restore (the delete
    hook) adds.

Several things the client consults are taken as parameters:
- the supported-type table and `IsDisallowed`, as a `Policy`;
- `api.NewDomainRecord`;
- `api.IsDefaultARecord`;
- whether `json.Marshal` succeeds on a body, as `encodes`.

`newDomainRecordResource` never fills in `Customer` or `Domain`
(plugin/godaddy/resource_dns_record.go:34-66). So as written, the create, update and
restore hooks poll and write the domain `""`. The model follows the code here:
`NewDomainRecordResource` ensures both are empty, and `RunHook` states its whole
outcome for domain `""`.

No resource hook calls `UpdateDomainRecords`: update uses `ReplaceDomainRecords`,
like create. `UpdateDomainRecords` is modelled on its own, and `StrategyOf` maps
update to Replace.

## Model

| member | source | states |
|---|---|---|
| Records.FoldChar | api/domains.go:324 | folding maps exactly the ASCII upper-case letters to lower case and leaves every other character alone; the result is never upper case |
| Records.OfType | api/domains.go:320-330 | a partition is never longer than the records it is taken from |
| Records.OfTypeMembers | api/domains.go:320-330 | a record is in the partition of `t` if and only if it is one of the records and its type equals `t` up to case |
| Records.OfTypeSelects | api/domains.go:320-330 | the partition is the subsequence at the matching positions, in increasing order: every record of the type is kept, every other dropped, and input order is preserved |
| Records.OfTypeAppend | api/domains.go:323-327 | partitioning distributes over concatenation of record lists |
| Records.OfTypeOfPartition | api/domains.go:323-327 | partitioning a partition of `t` again by `u` keeps it whole when `u` equals `t` up to case, and empties it otherwise |
| Records.OfTypeFoldEqual | api/domains.go:324 | two type names equal up to case have the same partition |
| Records.DomainRecordsOfType | api/domains.go:320-330 | the append loop returns exactly the partition `OfType` of the records |
| Remote.EffectsAppend | api/domains.go:159-186 | the effect of two batches of accepted requests is the effect of the second applied after the first |
| Remote.OfTypeWithoutType | api/domains.go:176-178 | removing type `t` from the provider's records empties the partition of every type equal to `t` up to case and leaves every other partition unchanged |
| Remote.Transport.constructor | api/domains.go:149 | a fresh transport holds the given records and oracles and has sent nothing |
| Remote.Transport.Execute | api/domains.go:149-151 | a write is logged whatever the verdict; the verdict for its position is returned; only an accepted write changes the provider's records, by its effect |
| Remote.Transport.FetchPage | api/domains.go:111-113 | a page read is logged, returns the page oracle's answer for its position, and changes no record |
| Remote.Transport.FetchDomain | api/domains.go:55-57 | a domain read is logged, returns the domain oracle's answer for its position, and changes no record |
| Remote.FirstFailureSpec | api/domains.go:165-185 | every request before the first failure gets through (encodes and is accepted), and the request at the first failure does not |
| Remote.FailsIffSomeRequestFails | api/domains.go:165-188 | a write loop returns an error if and only if some request of its plan does not get through; without an error it sent the whole plan and applied all of it; it only ever sends a prefix of the plan, and every request it sent before the last was accepted |
| Remote.OutcomeWhenAllGoThrough | api/domains.go:159-188 | when every request gets through, the loop sends the whole plan, returns nil, and the records are the effect of the whole plan |
| Remote.OutcomeWhenStopped | api/domains.go:165-185 | after a prefix that got through, a body that fails to encode ends the loop with the marshal error without sending it; a refused request is sent and ends the loop with the transport's error; in both cases only the prefix is applied |
| Domains.Allowed | api/domains.go:159-163 | a type is allowed if and only if it is a supported type whose partition the policy does not disallow |
| Domains.PlanAdvance | api/domains.go:159-163 | a plan under way at supported type `i` continues with that type's request when its partition is allowed, and skips it when it is disallowed |
| Domains.PartitionPlanShape | api/domains.go:159-186 | the plan holds exactly one request per allowed type, in supported-type order, each carrying that type's whole partition |
| Domains.ReplacePlanAddressesEachAllowedTypeOnce | api/domains.go:159-186 | replace sends only PUTs addressed by (domain, type), each carrying exactly its type's partition and no record of another type; every allowed type gets one and no disallowed type is addressed; with distinct supported types, no two PUTs share a URL |
| Domains.AllowedDistinct | api/domains.go:159 | the allowed types of distinct supported types are distinct |
| Domains.AddPlanOnlyAppends | api/domains.go:126-152 | add sends one PATCH per allowed type, always to the domain's records endpoint, each carrying exactly that type's partition; it never sends a PUT |
| Domains.Send | api/domains.go:165-185 | a body that does not encode returns the marshal error with nothing sent; otherwise the request is sent and the transport's verdict returned |
| Domains.SendNext | api/domains.go:165-185 | one turn of a write loop either extends what went through by one request, or leaves the transport exactly as the loop's final outcome describes |
| Domains.SendPartitions | api/domains.go:159-188 | the shared partition loop leaves log, error and provider records exactly as `StopAtFirstFailure` of its partition plan says |
| Domains.AddDomainRecords | api/domains.go:125-155 | AddDomainRecords sends, returns and applies exactly what stopping at the first failure of the add plan gives |
| Domains.ReplaceDomainRecords | api/domains.go:158-189 | ReplaceDomainRecords sends, returns and applies exactly what stopping at the first failure of the replace plan gives |
| Domains.UpdatePlanShape | api/domains.go:193-217 | the update plan holds one PUT per record, in input order, addressed by that record's type and name and carrying that record alone; no record is filtered |
| Domains.UpdateDomainRecords | api/domains.go:192-221 | UpdateDomainRecords sends, returns and applies exactly what stopping at the first failure of the update plan gives |
| WriteLaws.CoversCons | api/domains.go:159 | a type is covered by `t` followed by more types if and only if `t` or one of the rest covers it |
| WriteLaws.ReplaceOneType | api/domains.go:176-178 | one accepted PUT of type `t` sets the partition of every type equal to `t` up to case to the desired one and leaves every other type's partition unchanged |
| WriteLaws.ReplaceSetsPartitions | api/domains.go:157-189 | after a replace whose requests were all accepted, each type's partition at the provider is the desired partition if an allowed type covers it, and the previous partition otherwise |
| WriteLaws.ReplaceIdempotent | api/domains.go:157-189 | replacing the same records twice leaves every type's partition as replacing once did, even when the second call visits the supported types in another order than the first (each `range` over the map has its own order) |
| WriteLaws.AppendOnly | api/domains.go:142-144 | accepted PATCHes to the records endpoint keep the previous records in front, unchanged, and append the bodies in order |
| WriteLaws.AddOnlyAppends | api/domains.go:124-155 | after an add whose requests were all accepted, the provider holds the previous records followed by the allowed partitions; every type's partition only grows |
| WriteLaws.WithoutTypeNameMembers | api/domains.go:206 | a record survives the removal of the pair (type, name) if and only if it is not addressed by that pair |
| WriteLaws.UpdatePinsTypeName | api/domains.go:206-210 | after an accepted update of record `r`, `r` is present and is the only record with its type and name; membership of every other record is unchanged |
| Reads.PageRequests | api/domains.go:100-117 | the page requests are the GETs of pages 1 to `h`, in order |
| Reads.FirstHalt | api/domains.go:114-116 | the first page that ends the fetch is one whose answer is an error or an empty page |
| Reads.FirstHaltIsFirst | api/domains.go:102-119 | no page before the first halting one is empty or failed |
| Reads.FirstHaltAt | api/domains.go:102-119 | a halting page preceded only by non-empty pages is the first halting page |
| Reads.GetDomainRecords | api/domains.go:99-122 | the fetch requests pages 1 to the first empty or failed one, in order, with limit 500; it returns the concatenation of the pages before the empty one, or the error of the failed page with nothing else; records at the provider are unchanged |
| Reads.Chunk | api/domains.go:14 | a page holds at most 500 records |
| Reads.JoinedChunks | api/domains.go:118 | against a provider that pages a stored list by 500, the first `j` pages joined are the list's first `500 * j` records, or the whole list once it is exhausted |
| Reads.FetchOfPagedStore | api/domains.go:99-122 | against a provider that pages a stored list by 500, the fetch stops at the first empty page, one past the last non-empty one, and returns exactly the stored list |
| Reads.FetchOf1037Records | api/domains.go:99-122 | 1037 stored records come back as pages of 500, 500, 37 and 0: the fetch requests exactly pages 1 to 4 (the log `GetDomainRecords` appends) and returns the 1037 stored records |
| Reads.DomainRequests | api/domains.go:46-55 | the poll's requests are `n` identical GETs of the domain |
| Reads.ContainsIff | api/domains.go:59 | `strings.Contains` holds if and only if the substring occurs at some position |
| Reads.FirstSettled | api/domains.go:54-64 | the first fetch that ends the poll answers with an error or a domain that is not pending |
| Reads.FirstSettledIsFirst | api/domains.go:54-64 | every fetch before the settling one answered with a pending domain |
| Reads.GetDomain | api/domains.go:45-67 | the poll fetches the domain until the first error or non-pending status and returns that answer; it sleeps 3 seconds between fetches, so the wait is 3 seconds per pending answer; a domain it returns is never pending; records are unchanged |
| Reads.PollStopsAtFirstSettled | api/domains.go:54-61 | a domain not pending at the first fetch returns after one fetch and no sleep; a pending one costs at least two fetches |
| RecordResource.FlattenRecord | plugin/godaddy/resource_dns_record.go:290-300 | every flattened row carries all nine attributes, each of its schema kind |
| RecordResource.FlattenRecords | plugin/godaddy/resource_dns_record.go:287-288 | there is one row per record |
| RecordResource.FlattenRecordsRoundTrip | plugin/godaddy/resource_dns_record.go:287-303 | row `i` is well formed and reads back, attribute by attribute as newDomainRecordResource reads it, as record `i` |
| RecordResource.DomainRecordResource.constructor | plugin/godaddy/resource_dns_record.go:36 | a new resource has no customer, no domain and no records |
| RecordResource.DomainRecordResource.MergeRecords | plugin/godaddy/resource_dns_record.go:68-73 | the records keep their previous prefix, and gain one factory record per list entry, in order, whatever error the factory reports; customer and domain are unchanged |
| RecordResource.BuildStopsAtFirstError | plugin/godaddy/resource_dns_record.go:42-62 | building succeeds if and only if every row's record is accepted, and then yields one record per row at the same index; otherwise it yields the records of the rows before the first rejected one, and that row's error |
| RecordResource.BuildAdvance | plugin/godaddy/resource_dns_record.go:48-61 | building from row `i` either stops there with the row's error or appends its record and continues |
| RecordResource.NewDomainRecordResource | plugin/godaddy/resource_dns_record.go:34-66 | a fresh resource with empty customer and domain; no `record` attribute gives no records and no error; otherwise the records and error are those of building the rows, stopping at the first error |
| RecordResource.SplitPartitions | plugin/godaddy/resource_dns_record.go:265-274 | the split is a partition: kept and default-A counts add up to the fetched count; a record is kept if and only if it was fetched and is not a default A record; every default A record's data is collected |
| RecordResource.PopulateResourceDataFromResponse | plugin/godaddy/resource_dns_record.go:259-276 | the loop collects the data of the default A records in order, and stores the flattened rows of exactly the other records, in order |
| RecordResource.StateRoundTrip | plugin/godaddy/resource_dns_record.go:276 | when NewDomainRecord accepts each record as it is, the rows stored for a list are well formed and build exactly that list again with no error |
| RecordResource.StrategyOf | plugin/godaddy/resource_dns_record.go:189 | only the restore (delete) hook adds; create and update replace |
| RecordResource.HookWrites | plugin/godaddy/resource_dns_record.go:173-242 | whatever the verdicts and encodings, create and update send only PUTs replacing one type each, and restore sends only PATCHes to the records endpoint, never a replacing request |
| RecordResource.RunHook | plugin/godaddy/resource_dns_record.go:173-242 | a hook returns a row-building error with nothing sent; otherwise it polls domain `""`; a failed poll returns "domain not found" with the poll's cause; in both of those cases the provider's records are unchanged; otherwise the hook sends, returns and applies exactly what the hook's strategy plan gives |

## Left out

- HTTP itself is not modelled: request construction, the base URL, authentication headers, response decoding and `http.NewRequest` errors. The model has a `Request` value and the `Transport` oracles instead.
- Remote.Transport.Execute: a write the transport refuses is assumed to have had no effect at the provider. The transport code (`c.execute`) is not part of this model, and a failure reported after the provider applied the write, such as a lost response, cannot be expressed. Every failure-path contract inherits this assumption: `StopAtFirstFailure`, `OutcomeWhenStopped`, `SendNext`, the three write loops and `RunHook` all state that only the requests before the failing one were applied.
- Customer IDs are not modelled. The client only passes the customer ID through to `c.execute`, and the oracles do not depend on it.
- `log.Println` calls are left out. They have no effect on the result.
- `json.Marshal` is an oracle (`encodes`) saying whether a body encodes. The encoded bytes are not modelled.
- `time.Sleep(3 * time.Second)` is modelled as seconds counted in `waited`. There is no clock.
- Reads.GetDomainRecords: the model covers only fetches that end. `stop` is a page number whose answer is empty or failed, which bounds the loop. A provider that never returns an empty page makes the Go loop run forever, and that case is not modelled.
- Reads.GetDomain: the model covers only polls that end. `settle` bounds the loop the same way. A domain that stays pending forever is not modelled.
- Records.EqualFold folds ASCII letters only. Go's `strings.EqualFold` also folds non-ASCII Unicode letters.
- `supportedTypes` is a Go map, so the order the write loops visit types in is unspecified. The model takes an order from the caller. The laws hold for every order (`ReplaceIdempotent` even for two different orders), and the uniqueness of keys is stated as a `Distinct` hypothesis.
- The following are parameters, not modelled code:
  - `IsDisallowed`, `supportedTypes`, `api.NewDomainRecord` (with the schema defaults for TTL, priority, weight and port) and `api.IsDefaultARecord`;
  - the `RecordFactory` given to `mergeRecords`.
- RecordResource.NewDomainRecordResource: on an error, the Go resource holds a slice of the full row count with nil slots after the failing row. The model's records hold only the built prefix. No caller uses the records after an error.
- RecordResource.DomainRecordResource.MergeRecords: a factory that fails appends whatever record it returns, which in Go may be nil. The model's factory always returns a record value.
- The Terraform SDK is not modelled: `schema.ResourceData`, `d.Set`, `d.SetId`, diagnostics and the resource schema. `populateDomainInfo`'s `SetId` and the domain fallback in `populateResourceDataFromResponse` are not modelled either.
- The read hook `resourceDomainRecordRead` is not modelled. Neither is the read that the create, update and restore hooks run after a successful write. The read's loop is modelled as `PopulateResourceDataFromResponse`, and its fetch as `GetDomainRecords`.
- `aRecords` is computed by `populateResourceDataFromResponse` and never used by the Go code. The model returns it so that its contents can be stated.
- `GetDomains`, `UpdateNSDomain` and the commented-out functions of `api/domains.go` are not part of this model. `resource_dns_zone.go` is not part of this model either.
- Transport errors are opaque values from the `verdict`, `pages` and `info` oracles. `fmt.Errorf` wrapping is modelled only for the failed domain poll in the hooks, as `DomainNotFound`.
