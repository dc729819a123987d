/**
 * What the write strategies do to the records at the provider, under the
 * provider semantics of Remote.Effect: replace sets each allowed type's
 * partition, add only appends, and an update pins one (type, name) pair.
 */
module WriteLaws {
  import opened Records
  import opened Remote
  import opened Domains

  /** Some type of `ts` equals `u` up to case. */
  predicate Covers(ts: seq<string>, u: string)
  {
    exists t :: t in ts && EqualFold(t, u)
  }

  lemma CoversCons(t: string, ts: seq<string>, u: string)
    ensures Covers([t] + ts, u) <==> EqualFold(t, u) || Covers(ts, u)
  {
    assert t in [t] + ts;
    assert forall x :: x in [t] + ts <==> x == t || x in ts;
  }

  /**
   * One accepted PUT of type `t` carrying the partition of `records` sets the
   * partition of every type equal to `t` up to case, and leaves every other
   * type's partition as it was.
   */
  lemma ReplaceOneType(t: string, u: string, before: seq<DomainRecord>, records: seq<DomainRecord>)
    ensures OfType(u, WithoutType(t, before) + OfType(t, records))
         == if EqualFold(t, u) then OfType(u, records) else OfType(u, before)
  {
    OfTypeAppend(u, WithoutType(t, before), OfType(t, records));
    OfTypeWithoutType(u, t, before);
    OfTypeOfPartition(t, u, records);
    if EqualFold(t, u) {
      OfTypeFoldEqual(t, u, records);
      assert [] + OfType(t, records) == OfType(u, records);
    } else {
      assert OfType(u, before) + [] == OfType(u, before);
    }
  }

  /**
   * Once every request of a replace has been accepted, the partition of any
   * type `u` at the provider is the partition of the desired records when an
   * allowed type covers `u`, and the partition that was there before otherwise.
   */
  lemma {:induction false} ReplaceSetsPartitions(domain: string, types: seq<string>,
                                                 isDisallowed: (string, seq<DomainRecord>) -> bool,
                                                 records: seq<DomainRecord>, before: seq<DomainRecord>, u: string)
    ensures OfType(u, Effects(domain, before, PartitionPlan(Replace, domain, types, isDisallowed, records)))
         == if Covers(Allowed(types, isDisallowed, records), u) then OfType(u, records) else OfType(u, before)
    decreases |types|
  {
    if types != [] {
      var t := types[0];
      var part := OfType(t, records);
      var plan' := PartitionPlan(Replace, domain, types[1..], isDisallowed, records);
      var allowed' := Allowed(types[1..], isDisallowed, records);
      if !isDisallowed(t, part) {
        var req := Request(Put, RecordsOfType(domain, t), part);
        var after := WithoutType(t, before) + part;
        assert ([req] + plan')[0] == req && ([req] + plan')[1..] == plan';
        assert Effects(domain, before, [req] + plan') == Effects(domain, after, plan');
        ReplaceSetsPartitions(domain, types[1..], isDisallowed, records, after, u);
        ReplaceOneType(t, u, before, records);
        CoversCons(t, allowed', u);
      } else {
        assert PartitionPlan(Replace, domain, types, isDisallowed, records) == plan';
        assert Allowed(types, isDisallowed, records) == allowed';
        ReplaceSetsPartitions(domain, types[1..], isDisallowed, records, before, u);
      }
    }
  }

  /**
   * Replacing twice leaves every type's partition as replacing once did:
   * re-applying a replace whose requests were all accepted changes no
   * partition, even when the second call enumerates the supported types
   * (the keys of a map) in another order than the first.
   */
  lemma ReplaceIdempotent(domain: string, types1: seq<string>, types2: seq<string>,
                          isDisallowed: (string, seq<DomainRecord>) -> bool,
                          records: seq<DomainRecord>, before: seq<DomainRecord>, u: string)
    requires forall t :: t in types1 <==> t in types2
    ensures var p1 := PartitionPlan(Replace, domain, types1, isDisallowed, records);
      var p2 := PartitionPlan(Replace, domain, types2, isDisallowed, records);
      OfType(u, Effects(domain, Effects(domain, before, p1), p2)) == OfType(u, Effects(domain, before, p1))
  {
    var p1 := PartitionPlan(Replace, domain, types1, isDisallowed, records);
    ReplaceSetsPartitions(domain, types1, isDisallowed, records, before, u);
    ReplaceSetsPartitions(domain, types2, isDisallowed, records, Effects(domain, before, p1), u);
    assert Covers(Allowed(types1, isDisallowed, records), u) <==> Covers(Allowed(types2, isDisallowed, records), u);
  }

  /** The bodies of `reqs`, one after another. */
  function Bodies(reqs: seq<Request>): seq<DomainRecord>
    decreases |reqs|
  {
    if reqs == [] then [] else reqs[0].body + Bodies(reqs[1..])
  }

  /** Accepting PATCHes to the domain's records endpoint only appends their bodies, in order. */
  lemma {:induction false} AppendOnly(domain: string, before: seq<DomainRecord>, reqs: seq<Request>)
    requires forall k :: 0 <= k < |reqs| ==> reqs[k].verb == Patch && reqs[k].url == RecordsAdd(domain)
    ensures Effects(domain, before, reqs) == before + Bodies(reqs)
    decreases |reqs|
  {
    if reqs != [] {
      assert forall k :: 0 <= k < |reqs[1..]| ==> reqs[1..][k] == reqs[k + 1];
      AppendOnly(domain, before + reqs[0].body, reqs[1..]);
      assert before + reqs[0].body + Bodies(reqs[1..]) == before + (reqs[0].body + Bodies(reqs[1..]));
    }
  }

  /**
   * Once every request of an add has been accepted, the provider holds the
   * records it held before, unchanged and ahead, followed by each allowed
   * type's partition; no record is removed and every type's partition only grows.
   */
  lemma AddOnlyAppends(domain: string, types: seq<string>, isDisallowed: (string, seq<DomainRecord>) -> bool,
                       records: seq<DomainRecord>, before: seq<DomainRecord>)
    ensures var plan := PartitionPlan(Add, domain, types, isDisallowed, records);
      && Effects(domain, before, plan) == before + Bodies(plan)
      && forall u :: OfType(u, Effects(domain, before, plan)) == OfType(u, before) + OfType(u, Bodies(plan))
  {
    var plan := PartitionPlan(Add, domain, types, isDisallowed, records);
    AddPlanOnlyAppends(domain, types, isDisallowed, records);
    AppendOnly(domain, before, plan);
    forall u
      ensures OfType(u, Effects(domain, before, plan)) == OfType(u, before) + OfType(u, Bodies(plan))
    {
      OfTypeAppend(u, before, Bodies(plan));
    }
  }

  /** A record survives removing the pair (t, n) exactly when it is not addressed by it. */
  lemma {:induction false} WithoutTypeNameMembers(t: string, n: string, rs: seq<DomainRecord>)
    ensures forall x :: x in WithoutTypeName(t, n, rs) <==> x in rs && !HasTypeName(x, t, n)
  {
    if rs != [] {
      var init := rs[..|rs| - 1];
      WithoutTypeNameMembers(t, n, init);
      assert rs == init + [rs[|rs| - 1]];
    }
  }

  /**
   * An accepted update of record `r` leaves `r` as the only record addressed
   * by its type and name, and keeps every record addressed otherwise.
   */
  lemma UpdatePinsTypeName(domain: string, before: seq<DomainRecord>, r: DomainRecord)
    ensures var after := Effect(domain, before, UpdateRequest(domain, r));
      && r in after
      && (forall x :: x in after && HasTypeName(x, r.rtype, r.name) ==> x == r)
      && (forall x :: !HasTypeName(x, r.rtype, r.name) ==> (x in after <==> x in before))
  {
    WithoutTypeNameMembers(r.rtype, r.name, before);
    var after := Effect(domain, before, UpdateRequest(domain, r));
    assert after == WithoutTypeName(r.rtype, r.name, before) + [r];
  }
}
