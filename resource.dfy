/**
 * The record resource of the Terraform plugin (plugin/godaddy/resource_dns_record.go):
 * building the desired records from the `record` attribute, merging
 * factory-built records, splitting default A records off a fetched list,
 * flattening records into attribute rows, and the write strategy of each
 * lifecycle hook.
 */
module RecordResource {
  import opened Results
  import opened Records
  import opened Remote
  import opened Domains
  import opened Reads

  /** An attribute value of one `record` row: the schema's string and int kinds. */
  datatype Value = Str(s: string) | Int(i: int)

  /** One element of the `record` set: attribute name to value. */
  type Row = map<string, Value>

  const RecName := "name"
  const RecType := "type"
  const RecData := "data"
  const RecTTL := "ttl"
  const RecPriority := "priority"
  const RecWeight := "weight"
  const RecProto := "protocol"
  const RecService := "service"
  const RecPort := "port"

  /** The row holds every attribute of a record, each of the kind the schema gives it. */
  predicate WellFormedRow(row: Row)
  {
    && RecName in row && row[RecName].Str?
    && RecType in row && row[RecType].Str?
    && RecData in row && row[RecData].Str?
    && RecTTL in row && row[RecTTL].Int?
    && RecPriority in row && row[RecPriority].Int?
    && RecWeight in row && row[RecWeight].Int?
    && RecPort in row && row[RecPort].Int?
    && RecService in row && row[RecService].Str?
    && RecProto in row && row[RecProto].Str?
  }

  /** The nine values newDomainRecordResource reads from a row, as the record they describe. */
  function RecordOfRow(row: Row): DomainRecord
    requires WellFormedRow(row)
  {
    DomainRecord(row[RecName].s, row[RecType].s, row[RecData].s, row[RecTTL].i, row[RecPriority].i,
                 row[RecWeight].i, row[RecPort].i, row[RecService].s, row[RecProto].s)
  }

  /** The row flattenRecords builds for one record. */
  function FlattenRecord(r: DomainRecord): (row: Row)
    ensures WellFormedRow(row)
  {
    map[RecName := Str(r.name), RecType := Str(r.rtype), RecData := Str(r.data), RecTTL := Int(r.ttl),
        RecPriority := Int(r.priority), RecWeight := Int(r.weight), RecPort := Int(r.port),
        RecService := Str(r.service), RecProto := Str(r.protocol)]
  }

  /** flattenRecords: one row per record, at the same index. */
  function FlattenRecords(list: seq<DomainRecord>): (rows: seq<Row>)
    ensures |rows| == |list|
  {
    if list == [] then [] else [FlattenRecord(list[0])] + FlattenRecords(list[1..])
  }

  /**
   * Row i of flattenRecords reads back, attribute by attribute, as record i:
   * every row is well formed and carries the record's nine fields unchanged.
   */
  lemma {:induction false} FlattenRecordsRoundTrip(list: seq<DomainRecord>)
    ensures var rows := FlattenRecords(list);
      forall i :: 0 <= i < |list| ==> WellFormedRow(rows[i]) && RecordOfRow(rows[i]) == list[i]
  {
    if list != [] {
      FlattenRecordsRoundTrip(list[1..]);
      var rows := FlattenRecords(list);
      assert rows[0] == FlattenRecord(list[0]);
      assert forall i :: 1 <= i < |list| ==> rows[i] == FlattenRecords(list[1..])[i - 1] && list[i] == list[1..][i - 1];
    }
  }

  /** The resource as the hooks see it: the customer, the domain and the desired records. */
  class DomainRecordResource {
    var customer: string
    var domain: string
    var records: seq<DomainRecord>

    constructor ()
      ensures customer == "" && domain == "" && records == []
    {
      customer := "";
      domain := "";
      records := [];
    }

    /**
     * mergeRecords: append one factory-built record per entry of `list`, in
     * order, ignoring the factory's errors.
     */
    method MergeRecords(list: seq<string>, factory: string -> (DomainRecord, Option<Error>))
      modifies this
      ensures |records| == |old(records)| + |list|
      ensures records[..|old(records)|] == old(records)
      ensures forall i :: 0 <= i < |list| ==> records[|old(records)| + i] == factory(list[i]).0
      ensures customer == old(customer) && domain == old(domain)
    {
      ghost var before := records;
      for i := 0 to |list|
        invariant |records| == |before| + i
        invariant records[..|before|] == before
        invariant forall j :: 0 <= j < i ==> records[|before| + j] == factory(list[j]).0
        invariant customer == old(customer) && domain == old(domain)
      {
        var (record, _) := factory(list[i]);
        records := records + [record];
      }
    }
  }

  /** What building the records from the rows yields: the records built, and the error that stopped it, if any. */
  datatype Built = Built(records: seq<DomainRecord>, err: Option<Error>)

  /** Build the record of each row with `newRecord` (api.NewDomainRecord), stopping at the first error. */
  function Build(rows: seq<Row>, newRecord: DomainRecord -> Result<DomainRecord>): Built
    requires forall row :: row in rows ==> WellFormedRow(row)
  {
    if rows == [] then Built([], None)
    else
      match newRecord(RecordOfRow(rows[0]))
      case Err(e) => Built([], Some(e))
      case Ok(x) =>
        var rest := Build(rows[1..], newRecord);
        Built([x] + rest.records, rest.err)
  }

  /**
   * Building succeeds exactly when every row's record is accepted, and then
   * holds one record per row at the same index; otherwise it holds the
   * records of the rows before the first rejected one and that row's error.
   */
  lemma {:induction false} BuildStopsAtFirstError(rows: seq<Row>, newRecord: DomainRecord -> Result<DomainRecord>)
    requires forall row :: row in rows ==> WellFormedRow(row)
    ensures var b := Build(rows, newRecord);
      && |b.records| <= |rows|
      && (forall i :: 0 <= i < |b.records| ==> newRecord(RecordOfRow(rows[i])) == Ok(b.records[i]))
      && (b.err.None? <==> |b.records| == |rows|)
      && (b.err.Some? ==> newRecord(RecordOfRow(rows[|b.records|])) == Err(b.err.value))
  {
    if rows != [] {
      BuildStopsAtFirstError(rows[1..], newRecord);
      assert forall i :: 1 <= i < |rows| ==> rows[i] == rows[1..][i - 1];
    }
  }

  /** How building from position i on continues from the records `built` before it. */
  lemma BuildAdvance(rows: seq<Row>, i: nat, newRecord: DomainRecord -> Result<DomainRecord>, built: seq<DomainRecord>)
    requires i < |rows| && forall row :: row in rows ==> WellFormedRow(row)
    requires Build(rows, newRecord).records == built + Build(rows[i..], newRecord).records
    requires Build(rows, newRecord).err == Build(rows[i..], newRecord).err
    ensures var made, whole, rest := newRecord(RecordOfRow(rows[i])), Build(rows, newRecord), Build(rows[i + 1..], newRecord);
      && (made.Err? ==> whole.records == built && whole.err == Some(made.error))
      && (made.Ok? ==> whole.records == (built + [made.value]) + rest.records && whole.err == rest.err)
  {
    assert rows[i..][0] == rows[i] && rows[i..][1..] == rows[i + 1..];
    var made, rest := newRecord(RecordOfRow(rows[i])), Build(rows[i + 1..], newRecord);
    if made.Ok? {
      assert built + ([made.value] + rest.records) == (built + [made.value]) + rest.records;
    } else {
      assert built + [] == built;
    }
  }

  /**
   * newDomainRecordResource: a resource with no customer and no domain whose
   * records are built from the `record` rows, when the attribute is set, one
   * per row at the same index, stopping at the first NewDomainRecord error.
   */
  method NewDomainRecordResource(attr: Option<seq<Row>>, newRecord: DomainRecord -> Result<DomainRecord>)
    returns (r: DomainRecordResource, err: Option<Error>)
    requires attr.Some? ==> forall row :: row in attr.value ==> WellFormedRow(row)
    ensures fresh(r)
    ensures r.customer == "" && r.domain == ""
    ensures attr.None? ==> r.records == [] && err == None
    ensures attr.Some? ==> r.records == Build(attr.value, newRecord).records && err == Build(attr.value, newRecord).err
  {
    r := new DomainRecordResource();
    err := None;
    if attr.Some? {
      var rows := attr.value;
      for i := 0 to |rows|
        invariant r.customer == "" && r.domain == ""
        invariant Build(rows, newRecord).records == r.records + Build(rows[i..], newRecord).records
        invariant Build(rows, newRecord).err == Build(rows[i..], newRecord).err
        invariant err == None
      {
        BuildAdvance(rows, i, newRecord, r.records);
        var made := newRecord(RecordOfRow(rows[i]));
        if made.Err? {
          err := Some(made.error);
          return;
        }
        r.records := r.records + [made.value];
      }
      assert rows[|rows|..] == [];
    }
  }

  /** The records kept in state from a fetched list: the ones that are not default A records, in order. */
  function Kept(recs: seq<DomainRecord>, isDefaultA: DomainRecord -> bool): seq<DomainRecord>
  {
    if recs == [] then []
    else Kept(recs[..|recs| - 1], isDefaultA) + (if isDefaultA(recs[|recs| - 1]) then [] else [recs[|recs| - 1]])
  }

  /** The data of the default A records of a fetched list, in order. */
  function DefaultAData(recs: seq<DomainRecord>, isDefaultA: DomainRecord -> bool): seq<string>
  {
    if recs == [] then []
    else
      DefaultAData(recs[..|recs| - 1], isDefaultA)
        + (if isDefaultA(recs[|recs| - 1]) then [recs[|recs| - 1].data] else [])
  }

  /**
   * The split of a fetched list is a partition: every record is either kept
   * or a default A record, never both, and the kept records are exactly the
   * fetched ones that are not default A records.
   */
  lemma {:induction false} SplitPartitions(recs: seq<DomainRecord>, isDefaultA: DomainRecord -> bool)
    ensures |Kept(recs, isDefaultA)| + |DefaultAData(recs, isDefaultA)| == |recs|
    ensures forall x :: x in Kept(recs, isDefaultA) <==> x in recs && !isDefaultA(x)
    ensures forall x :: x in recs && isDefaultA(x) ==> x.data in DefaultAData(recs, isDefaultA)
  {
    if recs != [] {
      var init := recs[..|recs| - 1];
      SplitPartitions(init, isDefaultA);
      assert recs == init + [recs[|recs| - 1]];
    }
  }

  /**
   * The loop of populateResourceDataFromResponse: default A records give only
   * their data, to `aRecords`; every other record goes, in order, to the rows
   * stored in the `record` attribute.
   */
  method PopulateResourceDataFromResponse(recs: seq<DomainRecord>, isDefaultA: DomainRecord -> bool)
    returns (aRecords: seq<string>, state: seq<Row>)
    ensures aRecords == DefaultAData(recs, isDefaultA)
    ensures state == FlattenRecords(Kept(recs, isDefaultA))
  {
    aRecords := [];
    var records: seq<DomainRecord> := [];
    for i := 0 to |recs|
      invariant aRecords == DefaultAData(recs[..i], isDefaultA)
      invariant records == Kept(recs[..i], isDefaultA)
    {
      assert recs[..i + 1][..i] == recs[..i];
      if isDefaultA(recs[i]) {
        aRecords := aRecords + [recs[i].data];
      } else {
        records := records + [recs[i]];
      }
    }
    assert recs[..|recs|] == recs;
    state := FlattenRecords(records);
  }

  /**
   * What the next plan reads back from the state a read stored: when
   * NewDomainRecord accepts every record as it is, the rows of the kept
   * records build exactly the kept records again.
   */
  lemma {:induction false} StateRoundTrip(list: seq<DomainRecord>, newRecord: DomainRecord -> Result<DomainRecord>)
    requires forall x :: x in list ==> newRecord(x) == Ok(x)
    ensures forall row :: row in FlattenRecords(list) ==> WellFormedRow(row)
    ensures Build(FlattenRecords(list), newRecord) == Built(list, None)
  {
    FlattenRecordsRoundTrip(list);
    if list != [] {
      StateRoundTrip(list[1..], newRecord);
      assert FlattenRecords(list)[1..] == FlattenRecords(list[1..]);
      assert RecordOfRow(FlattenRecords(list)[0]) == list[0];
    }
  }

  /** The lifecycle hooks that write: create, update and delete (which restores). */
  datatype Hook = Create | Update | Restore

  /** The strategy each hook writes with. */
  function StrategyOf(hook: Hook): (s: Strategy)
    ensures s == Add <==> hook == Restore
  {
    match hook
    case Create => Replace
    case Update => Replace
    case Restore => Add
  }

  /**
   * Whatever the verdicts and encodings, create and update send only PUTs
   * that each replace one type's records, and restore sends only PATCHes
   * that append: it never sends a replacing request.
   */
  lemma HookWrites(hook: Hook, domain: string, policy: Policy, records: seq<DomainRecord>,
                   encodes: seq<DomainRecord> -> bool, verdict: (nat, Request) -> Option<Error>, n: nat,
                   before: seq<DomainRecord>)
    ensures var o := StopAtFirstFailure(PartitionPlan(StrategyOf(hook), domain, policy.supportedTypes,
                                                      policy.isDisallowed, records),
                                        encodes, verdict, domain, n, before);
      forall req :: req in o.sent ==>
        if hook == Restore then req.verb == Patch && req.url == RecordsAdd(domain)
        else req.verb == Put && req.url.RecordsOfType? && req.url.domain == domain
  {
    var plan := PartitionPlan(StrategyOf(hook), domain, policy.supportedTypes, policy.isDisallowed, records);
    var o := StopAtFirstFailure(plan, encodes, verdict, domain, n, before);
    FailsIffSomeRequestFails(plan, encodes, verdict, domain, n, before);
    PartitionPlanShape(StrategyOf(hook), domain, policy.supportedTypes, policy.isDisallowed, records);
    forall req | req in o.sent
      ensures if hook == Restore then req.verb == Patch && req.url == RecordsAdd(domain)
              else req.verb == Put && req.url.RecordsOfType? && req.url.domain == domain
    {
      var k :| 0 <= k < |o.sent| && o.sent[k] == req;
      assert req == plan[k];
    }
  }

  /**
   * A create, update or restore hook: build the resource from the `record`
   * rows, fetch the domain (waiting out a pending status), then write the
   * records with the hook's strategy. Every error ends the hook; a failed
   * domain fetch is reported as the domain not being found.
   */
  method RunHook(hook: Hook, transport: Transport, attr: Option<seq<Row>>,
                 newRecord: DomainRecord -> Result<DomainRecord>, policy: Policy,
                 encodes: seq<DomainRecord> -> bool, ghost settle: nat)
    returns (err: Option<Error>)
    modifies transport
    requires attr.Some? ==> forall row :: row in attr.value ==> WellFormedRow(row)
    requires Settled(Poll(transport.info, |transport.log|, "", settle))
    ensures var desired := if attr.None? then Built([], None) else Build(attr.value, newRecord);
      if desired.err.Some? then
        err == desired.err && transport.log == old(transport.log) && transport.records == old(transport.records)
      else
        var h := FirstSettled(transport.info, |old(transport.log)|, "", 0, settle);
        var polled := old(transport.log) + DomainRequests("", h + 1);
        var answer := Poll(transport.info, |old(transport.log)|, "", h);
        if answer.Err? then
          err == Some(DomainNotFound("", answer.error)) && transport.log == polled
          && transport.records == old(transport.records)
        else
          var o := StopAtFirstFailure(PartitionPlan(StrategyOf(hook), "", policy.supportedTypes, policy.isDisallowed,
                                                    desired.records),
                                      encodes, transport.verdict, transport.domain, |polled|, old(transport.records));
          transport.log == polled + o.sent && err == o.err && transport.records == o.records
  {
    var r;
    r, err := NewDomainRecordResource(attr, newRecord);
    if err.Some? {
      return;
    }
    var domainInfo, _ := GetDomain(transport, r.domain, settle);
    if domainInfo.Err? {
      return Some(DomainNotFound(r.domain, domainInfo.error));
    }
    match hook
    case Create =>
      err := ReplaceDomainRecords(transport, r.domain, r.records, policy, encodes);
    case Update =>
      err := ReplaceDomainRecords(transport, r.domain, r.records, policy, encodes);
    case Restore =>
      err := AddDomainRecords(transport, r.domain, r.records, policy, encodes);
  }
}
