/**
 * The record reconciliation of the provider's API client (api/domains.go):
 * the three write strategies, the paginated fetch and the pending-status poll.
 */
module Domains {
  import opened Results
  import opened Records
  import opened Remote

  /**
   * The record-type policy the client consults: the keys of `supportedTypes`
   * (a map in the client, so their enumeration order is unspecified and is
   * whatever order the caller gives here) and `IsDisallowed`.
   */
  datatype Policy = Policy(supportedTypes: seq<string>, isDisallowed: (string, seq<DomainRecord>) -> bool)

  /** The two strategies that work one type partition at a time. */
  datatype Strategy = Add | Replace

  /** The request a partition strategy sends for type `t`. */
  function TypeRequest(s: Strategy, domain: string, t: string, part: seq<DomainRecord>): Request
  {
    match s
    case Add => Request(Patch, RecordsAdd(domain), part)
    case Replace => Request(Put, RecordsOfType(domain, t), part)
  }

  /** The types of `types` whose partition of `records` the policy does not disallow, in order. */
  function Allowed(types: seq<string>, isDisallowed: (string, seq<DomainRecord>) -> bool,
                   records: seq<DomainRecord>): (a: seq<string>)
    ensures |a| <= |types|
    ensures forall t :: t in a <==> t in types && !isDisallowed(t, OfType(t, records))
  {
    if types == [] then []
    else
      var t := types[0];
      (if isDisallowed(t, OfType(t, records)) then [] else [t]) + Allowed(types[1..], isDisallowed, records)
  }

  /** The requests a partition strategy means to send, one per type of `types` whose partition is allowed. */
  function PartitionPlan(s: Strategy, domain: string, types: seq<string>,
                         isDisallowed: (string, seq<DomainRecord>) -> bool, records: seq<DomainRecord>): seq<Request>
  {
    if types == [] then []
    else
      var t := types[0];
      var part := OfType(t, records);
      (if isDisallowed(t, part) then [] else [TypeRequest(s, domain, t, part)])
        + PartitionPlan(s, domain, types[1..], isDisallowed, records)
  }

  /** Unfolding a plan by the type at position i. */
  lemma PartitionPlanStep(s: Strategy, domain: string, types: seq<string>, i: nat,
                          isDisallowed: (string, seq<DomainRecord>) -> bool, records: seq<DomainRecord>)
    requires i < |types|
    ensures PartitionPlan(s, domain, types[i..], isDisallowed, records)
      == (if isDisallowed(types[i], OfType(types[i], records)) then []
          else [TypeRequest(s, domain, types[i], OfType(types[i], records))])
         + PartitionPlan(s, domain, types[i + 1..], isDisallowed, records)
  {
    assert types[i..][0] == types[i] && types[i..][1..] == types[i + 1..];
  }

  /** How a plan that is under way splits at the type at position i: what has been sent, that type's request if allowed, the rest. */
  lemma PlanAdvance(s: Strategy, domain: string, types: seq<string>, i: nat,
                    isDisallowed: (string, seq<DomainRecord>) -> bool, records: seq<DomainRecord>,
                    plan: seq<Request>, sent: seq<Request>)
    requires i < |types|
    requires plan == sent + PartitionPlan(s, domain, types[i..], isDisallowed, records)
    ensures var t := types[i]; var part := OfType(t, records);
      var rest := PartitionPlan(s, domain, types[i + 1..], isDisallowed, records);
      if isDisallowed(t, part) then plan == sent + rest
      else (plan == sent + [TypeRequest(s, domain, t, part)] + rest
            && plan == (sent + [TypeRequest(s, domain, t, part)]) + rest)
  {
    PartitionPlanStep(s, domain, types, i, isDisallowed, records);
  }

  /**
   * The plan of a partition strategy holds, in type order, exactly one request
   * per allowed type, and that request carries the whole partition of its type.
   */
  lemma {:induction false} PartitionPlanShape(s: Strategy, domain: string, types: seq<string>,
                                              isDisallowed: (string, seq<DomainRecord>) -> bool,
                                              records: seq<DomainRecord>)
    ensures var plan, allowed := PartitionPlan(s, domain, types, isDisallowed, records), Allowed(types, isDisallowed, records);
      && |plan| == |allowed|
      && forall k :: 0 <= k < |plan| ==> plan[k] == TypeRequest(s, domain, allowed[k], OfType(allowed[k], records))
  {
    if types != [] {
      PartitionPlanShape(s, domain, types[1..], isDisallowed, records);
    }
  }

  /**
   * Replace sends only PUTs addressed by (domain, type), each carrying only
   * records of its type; every allowed type gets such a PUT, with exactly its
   * partition as body, and a disallowed type gets none. With distinct
   * supported types (the keys of a map), no two PUTs share a URL.
   */
  lemma ReplacePlanAddressesEachAllowedTypeOnce(domain: string, types: seq<string>,
                                                isDisallowed: (string, seq<DomainRecord>) -> bool,
                                                records: seq<DomainRecord>)
    ensures var plan := PartitionPlan(Replace, domain, types, isDisallowed, records);
      && (forall k :: 0 <= k < |plan| ==>
            && plan[k].verb == Put && plan[k].url.RecordsOfType? && plan[k].url.domain == domain
            && plan[k].body == OfType(plan[k].url.rtype, records)
            && plan[k].url.rtype in types && !isDisallowed(plan[k].url.rtype, plan[k].body)
            && (forall x :: x in plan[k].body ==> EqualFold(x.rtype, plan[k].url.rtype)))
      && (forall t :: t in types && !isDisallowed(t, OfType(t, records)) ==>
            Request(Put, RecordsOfType(domain, t), OfType(t, records)) in plan)
      && (forall t :: t in types && isDisallowed(t, OfType(t, records)) ==>
            forall k :: 0 <= k < |plan| ==> plan[k].url != RecordsOfType(domain, t))
      && (Distinct(types) ==> forall j, k :: 0 <= j < k < |plan| ==> plan[j].url != plan[k].url)
  {
    var plan, allowed := PartitionPlan(Replace, domain, types, isDisallowed, records), Allowed(types, isDisallowed, records);
    PartitionPlanShape(Replace, domain, types, isDisallowed, records);
    forall k | 0 <= k < |plan|
      ensures plan[k].url.RecordsOfType? && plan[k].url.rtype == allowed[k]
      ensures allowed[k] in types && !isDisallowed(allowed[k], OfType(allowed[k], records))
      ensures forall x :: x in plan[k].body ==> EqualFold(x.rtype, plan[k].url.rtype)
    {
      assert allowed[k] in allowed;
      OfTypeMembers(allowed[k], records);
    }
    forall t | t in types && !isDisallowed(t, OfType(t, records))
      ensures Request(Put, RecordsOfType(domain, t), OfType(t, records)) in plan
    {
      var k :| 0 <= k < |allowed| && allowed[k] == t;
      assert plan[k] == Request(Put, RecordsOfType(domain, t), OfType(t, records));
    }
    if Distinct(types) {
      AllowedDistinct(types, isDisallowed, records);
    }
  }

  /** No two positions of `s` hold the same value. */
  predicate Distinct<T(==)>(s: seq<T>)
  {
    forall i, j :: 0 <= i < j < |s| ==> s[i] != s[j]
  }

  lemma DistinctConcat<T>(a: seq<T>, b: seq<T>)
    requires Distinct(a) && Distinct(b)
    requires forall x :: x in a ==> x !in b
    ensures Distinct(a + b)
  {
    forall i, j | 0 <= i < j < |a + b|
      ensures (a + b)[i] != (a + b)[j]
    {
      if j < |a| {
        assert (a + b)[i] == a[i] && (a + b)[j] == a[j];
      } else if i < |a| {
        assert (a + b)[i] == a[i] && (a + b)[j] == b[j - |a|];
        assert a[i] in a && b[j - |a|] in b;
      } else {
        assert (a + b)[i] == b[i - |a|] && (a + b)[j] == b[j - |a|];
      }
    }
  }

  /** Allowed keeps distinct types distinct. */
  lemma {:induction false} AllowedDistinct(types: seq<string>, isDisallowed: (string, seq<DomainRecord>) -> bool,
                                           records: seq<DomainRecord>)
    requires Distinct(types)
    ensures Distinct(Allowed(types, isDisallowed, records))
  {
    if types != [] {
      var rest := types[1..];
      assert Distinct(rest) by {
        assert forall i :: 0 <= i < |rest| ==> rest[i] == types[i + 1];
      }
      AllowedDistinct(rest, isDisallowed, records);
      var a0 := Allowed(rest, isDisallowed, records);
      assert types[0] !in rest by {
        assert forall i :: 0 <= i < |rest| ==> rest[i] == types[i + 1];
      }
      var head: seq<string> := if isDisallowed(types[0], OfType(types[0], records)) then [] else [types[0]];
      DistinctConcat(head, a0);
    }
  }

  /**
   * Add sends only PATCHes to the domain's records endpoint, one per allowed
   * type, each carrying that type's whole partition and no record of another
   * type; it never sends a PUT.
   */
  lemma AddPlanOnlyAppends(domain: string, types: seq<string>,
                           isDisallowed: (string, seq<DomainRecord>) -> bool, records: seq<DomainRecord>)
    ensures var plan, allowed := PartitionPlan(Add, domain, types, isDisallowed, records), Allowed(types, isDisallowed, records);
      && |plan| == |allowed|
      && forall k :: 0 <= k < |plan| ==>
           && plan[k].verb == Patch && plan[k].url == RecordsAdd(domain)
           && plan[k].body == OfType(allowed[k], records)
           && (forall x :: x in plan[k].body ==> EqualFold(x.rtype, allowed[k]))
  {
    var plan, allowed := PartitionPlan(Add, domain, types, isDisallowed, records), Allowed(types, isDisallowed, records);
    PartitionPlanShape(Add, domain, types, isDisallowed, records);
    forall k | 0 <= k < |plan|
      ensures forall x :: x in plan[k].body ==> EqualFold(x.rtype, allowed[k])
    {
      OfTypeMembers(allowed[k], records);
    }
  }

  /**
   * The step the three write loops share: encode the body (json.Marshal) and,
   * only if that succeeds, hand the request to the transport (c.execute).
   */
  method Send(transport: Transport, req: Request, encodes: seq<DomainRecord> -> bool) returns (err: Option<Error>)
    modifies transport
    ensures !encodes(req.body) ==> && err == Some(MarshalError)
                                   && transport.log == old(transport.log)
                                   && transport.records == old(transport.records)
    ensures encodes(req.body) ==> && err == transport.verdict(|old(transport.log)|, req)
                                  && transport.log == old(transport.log) + [req]
                                  && transport.records == if err.None? then Effect(transport.domain, old(transport.records), req)
                                                          else old(transport.records)
  {
    if !encodes(req.body) {
      return Some(MarshalError);
    }
    err := transport.Execute(req);
  }

  /**
   * One turn of a write loop: send `req`, the request after `sent` in `plan`.
   * If it gets through, the loop goes on with `sent + [req]`; if not, the
   * transport is left in the state the loop's final outcome describes.
   */
  method SendNext(transport: Transport, req: Request, encodes: seq<DomainRecord> -> bool, ghost plan: seq<Request>,
                  ghost sent: seq<Request>, ghost rest: seq<Request>, ghost log0: seq<Request>,
                  ghost r0: seq<DomainRecord>)
    returns (err: Option<Error>)
    modifies transport
    requires plan == sent + [req] + rest
    requires transport.log == log0 + sent
    requires AllGoThrough(sent, encodes, transport.verdict, |log0|)
    requires transport.records == Effects(transport.domain, r0, sent)
    ensures err.None? ==> && transport.log == log0 + (sent + [req])
                          && AllGoThrough(sent + [req], encodes, transport.verdict, |log0|)
                          && transport.records == Effects(transport.domain, r0, sent + [req])
    ensures err.Some? ==> var o := StopAtFirstFailure(plan, encodes, transport.verdict, transport.domain, |log0|, r0);
                          && transport.log == log0 + o.sent
                          && err == o.err
                          && transport.records == o.records
  {
    ghost var v, d, n0 := transport.verdict, transport.domain, |log0|;
    err := Send(transport, req, encodes);
    if err.None? {
      AllGoThroughSnoc(sent, req, encodes, v, n0);
      EffectsAppend(d, r0, sent, [req]);
      assert log0 + sent + [req] == log0 + (sent + [req]);
    } else {
      OutcomeWhenStopped(plan, sent, req, rest, encodes, v, d, n0, r0);
      if encodes(req.body) {
        assert log0 + sent + [req] == log0 + (sent + [req]);
      } else {
        assert sent + [] == sent;
      }
    }
  }

  /**
   * The loop AddDomainRecords and ReplaceDomainRecords share: for each
   * supported type, partition the records, skip a disallowed partition,
   * otherwise encode and send it, stopping at the first failure.
   */
  method SendPartitions(transport: Transport, s: Strategy, domain: string, records: seq<DomainRecord>, policy: Policy,
                        encodes: seq<DomainRecord> -> bool) returns (err: Option<Error>)
    modifies transport
    ensures var o := StopAtFirstFailure(PartitionPlan(s, domain, policy.supportedTypes, policy.isDisallowed, records),
                                        encodes, transport.verdict, transport.domain,
                                        |old(transport.log)|, old(transport.records));
      && transport.log == old(transport.log) + o.sent
      && err == o.err
      && transport.records == o.records
  {
    var types := policy.supportedTypes;
    ghost var plan := PartitionPlan(s, domain, types, policy.isDisallowed, records);
    ghost var log0, r0 := transport.log, transport.records;
    ghost var sent: seq<Request> := [];
    for i := 0 to |types|
      invariant plan == sent + PartitionPlan(s, domain, types[i..], policy.isDisallowed, records)
      invariant transport.log == log0 + sent
      invariant AllGoThrough(sent, encodes, transport.verdict, |log0|)
      invariant transport.records == Effects(transport.domain, r0, sent)
    {
      var t := types[i];
      var typeRecords := DomainRecordsOfType(t, records);
      PlanAdvance(s, domain, types, i, policy.isDisallowed, records, plan, sent);
      if policy.isDisallowed(t, typeRecords) {
        continue;
      }
      var req := match s
        case Add => Request(Patch, RecordsAdd(domain), typeRecords)
        case Replace => Request(Put, RecordsOfType(domain, t), typeRecords);
      ghost var rest := PartitionPlan(s, domain, types[i + 1..], policy.isDisallowed, records);
      err := SendNext(transport, req, encodes, plan, sent, rest, log0, r0);
      if err.Some? {
        return;
      }
      sent := sent + [req];
    }
    assert types[|types|..] == [] && plan == sent;
    OutcomeWhenAllGoThrough(plan, encodes, transport.verdict, transport.domain, |log0|, r0);
    err := None;
  }

  /** AddDomainRecords: one PATCH per allowed supported type, appending that type's partition. */
  method AddDomainRecords(transport: Transport, domain: string, records: seq<DomainRecord>, policy: Policy,
                          encodes: seq<DomainRecord> -> bool) returns (err: Option<Error>)
    modifies transport
    ensures var o := StopAtFirstFailure(PartitionPlan(Add, domain, policy.supportedTypes, policy.isDisallowed, records),
                                        encodes, transport.verdict, transport.domain,
                                        |old(transport.log)|, old(transport.records));
      && transport.log == old(transport.log) + o.sent
      && err == o.err
      && transport.records == o.records
  {
    err := SendPartitions(transport, Add, domain, records, policy, encodes);
  }

  /** ReplaceDomainRecords: one PUT per allowed supported type, carrying that type's partition. */
  method ReplaceDomainRecords(transport: Transport, domain: string, records: seq<DomainRecord>, policy: Policy,
                              encodes: seq<DomainRecord> -> bool) returns (err: Option<Error>)
    modifies transport
    ensures var o := StopAtFirstFailure(PartitionPlan(Replace, domain, policy.supportedTypes, policy.isDisallowed, records),
                                        encodes, transport.verdict, transport.domain,
                                        |old(transport.log)|, old(transport.records));
      && transport.log == old(transport.log) + o.sent
      && err == o.err
      && transport.records == o.records
  {
    err := SendPartitions(transport, Replace, domain, records, policy, encodes);
  }

  /** The request UpdateDomainRecords sends for one record: a PUT addressed by its type and name, carrying it alone. */
  function UpdateRequest(domain: string, r: DomainRecord): Request
  {
    Request(Put, RecordsOfTypeName(domain, r.rtype, r.name), [r])
  }

  /** The requests UpdateDomainRecords means to send, one per record, in order. */
  function UpdatePlan(domain: string, records: seq<DomainRecord>): seq<Request>
  {
    if records == [] then [] else [UpdateRequest(domain, records[0])] + UpdatePlan(domain, records[1..])
  }

  /**
   * The update plan holds exactly one PUT per record, in input order, the i-th
   * addressed by the i-th record's type and name and carrying that record
   * alone; no record is filtered out.
   */
  lemma {:induction false} UpdatePlanShape(domain: string, records: seq<DomainRecord>)
    ensures var plan := UpdatePlan(domain, records);
      && |plan| == |records|
      && forall i :: 0 <= i < |plan| ==>
           && plan[i].verb == Put
           && plan[i].url == RecordsOfTypeName(domain, records[i].rtype, records[i].name)
           && plan[i].body == [records[i]]
  {
    if records != [] {
      UpdatePlanShape(domain, records[1..]);
      assert forall i :: 1 <= i < |records| ==> records[i] == records[1..][i - 1];
    }
  }

  /** UpdateDomainRecords: one PUT per record, addressed by its type and name, with no disallow check. */
  method UpdateDomainRecords(transport: Transport, domain: string, records: seq<DomainRecord>,
                             encodes: seq<DomainRecord> -> bool) returns (err: Option<Error>)
    modifies transport
    ensures var o := StopAtFirstFailure(UpdatePlan(domain, records), encodes, transport.verdict, transport.domain,
                                        |old(transport.log)|, old(transport.records));
      && transport.log == old(transport.log) + o.sent
      && err == o.err
      && transport.records == o.records
  {
    ghost var plan := UpdatePlan(domain, records);
    ghost var log0, r0 := transport.log, transport.records;
    ghost var sent: seq<Request> := [];
    for i := 0 to |records|
      invariant plan == sent + UpdatePlan(domain, records[i..])
      invariant transport.log == log0 + sent
      invariant AllGoThrough(sent, encodes, transport.verdict, |log0|)
      invariant transport.records == Effects(transport.domain, r0, sent)
    {
      var rec := records[i];
      var req := Request(Put, RecordsOfTypeName(domain, rec.rtype, rec.name), [rec]);
      ghost var rest := UpdatePlan(domain, records[i + 1..]);
      assert records[i..][0] == rec && records[i..][1..] == records[i + 1..];
      assert plan == sent + [req] + rest;
      err := SendNext(transport, req, encodes, plan, sent, rest, log0, r0);
      if err.Some? {
        return;
      }
      assert plan == (sent + [req]) + rest;
      sent := sent + [req];
    }
    assert records[|records|..] == [] && plan == sent;
    OutcomeWhenAllGoThrough(plan, encodes, transport.verdict, transport.domain, |log0|, r0);
    err := None;
  }
}
