/** DNS records and the type partitioner (api/domains.go, domainRecordsOfType). */
module Records {

  /** One DNS resource record, with the nine attributes the provider exchanges. */
  datatype DomainRecord = DomainRecord(
    name: string,
    rtype: string,
    data: string,
    ttl: int,
    priority: int,
    weight: int,
    port: int,
    service: string,
    protocol: string)

  /** ASCII simple case folding of one character. */
  function FoldChar(c: char): (f: char)
    ensures 'A' <= c <= 'Z' ==> f as int == c as int + 32
    ensures !('A' <= c <= 'Z') ==> f == c
    ensures !('A' <= f <= 'Z')
  {
    if 'A' <= c <= 'Z' then (c as int + 32) as char else c
  }

  function Fold(s: string): (f: string)
  {
    if s == [] then [] else [FoldChar(s[0])] + Fold(s[1..])
  }

  /** Case-insensitive equality of two type names (strings.EqualFold, ASCII only). */
  predicate EqualFold(a: string, b: string)
  {
    Fold(a) == Fold(b)
  }

  /** The records of `rs` whose type equals `t` up to case, in their order in `rs`. */
  function OfType(t: string, rs: seq<DomainRecord>): (r: seq<DomainRecord>)
    ensures |r| <= |rs|
  {
    if rs == [] then []
    else
      var last := rs[|rs| - 1];
      OfType(t, rs[..|rs| - 1]) + (if EqualFold(last.rtype, t) then [last] else [])
  }

  /** A record is in the partition of `t` exactly when it is in `rs` and has type `t` up to case. */
  lemma {:induction false} OfTypeMembers(t: string, rs: seq<DomainRecord>)
    ensures forall x :: x in OfType(t, rs) <==> x in rs && EqualFold(x.rtype, t)
  {
    if rs != [] {
      var init := rs[..|rs| - 1];
      OfTypeMembers(t, init);
      assert rs == init + [rs[|rs| - 1]];
    }
  }

  /** The positions of `rs` holding a record of type `t`, in increasing order. */
  function Matching(t: string, rs: seq<DomainRecord>): seq<nat>
  {
    if rs == [] then []
    else Matching(t, rs[..|rs| - 1]) + (if EqualFold(rs[|rs| - 1].rtype, t) then [|rs| - 1] else [])
  }

  /**
   * OfType picks exactly the matching positions of `rs`, in increasing order:
   * the partition keeps every record of the type, drops every other, and
   * keeps the input's relative order.
   */
  lemma OfTypeSelects(t: string, rs: seq<DomainRecord>)
    ensures var idx := Matching(t, rs);
      && |OfType(t, rs)| == |idx|
      && (forall j :: 0 <= j < |idx| ==> idx[j] < |rs| && OfType(t, rs)[j] == rs[idx[j]])
      && (forall j, k :: 0 <= j < k < |idx| ==> idx[j] < idx[k])
      && (forall i :: 0 <= i < |rs| ==> (EqualFold(rs[i].rtype, t) <==> i in idx))
  {
    MatchingPicks(t, rs);
    MatchingBounded(t, rs);
    MatchingComplete(t, rs);
  }

  lemma {:induction false} MatchingBounded(t: string, rs: seq<DomainRecord>)
    ensures forall j :: 0 <= j < |Matching(t, rs)| ==> Matching(t, rs)[j] < |rs|
    ensures forall j, k :: 0 <= j < k < |Matching(t, rs)| ==> Matching(t, rs)[j] < Matching(t, rs)[k]
  {
    if rs != [] {
      var init := rs[..|rs| - 1];
      MatchingBounded(t, init);
      var idx0 := Matching(t, init);
      var tail: seq<nat> := if EqualFold(rs[|rs| - 1].rtype, t) then [|rs| - 1] else [];
      assert Matching(t, rs) == idx0 + tail;
      assert |init| == |rs| - 1;
    }
  }

  lemma {:induction false} MatchingPicks(t: string, rs: seq<DomainRecord>)
    ensures var idx := Matching(t, rs);
      && |OfType(t, rs)| == |idx|
      && (forall j :: 0 <= j < |idx| ==> idx[j] < |rs| && OfType(t, rs)[j] == rs[idx[j]])
  {
    if rs != [] {
      var init := rs[..|rs| - 1];
      MatchingPicks(t, init);
      var idx0, r0 := Matching(t, init), OfType(t, init);
      assert forall j :: 0 <= j < |idx0| ==> rs[idx0[j]] == init[idx0[j]];
    }
  }

  lemma {:induction false} MatchingComplete(t: string, rs: seq<DomainRecord>)
    ensures forall i :: 0 <= i < |rs| ==> (EqualFold(rs[i].rtype, t) <==> i in Matching(t, rs))
  {
    if rs != [] {
      var init := rs[..|rs| - 1];
      MatchingComplete(t, init);
      MatchingBounded(t, init);
      var idx0 := Matching(t, init);
      var tail: seq<nat> := if EqualFold(rs[|rs| - 1].rtype, t) then [|rs| - 1] else [];
      assert Matching(t, rs) == idx0 + tail;
      assert |rs| - 1 !in idx0;
      forall i | 0 <= i < |rs|
        ensures EqualFold(rs[i].rtype, t) <==> i in Matching(t, rs)
      {
        if i < |init| {
          assert rs[i] == init[i];
        }
      }
    }
  }

  /** Partitioning distributes over concatenation. */
  lemma {:induction false} OfTypeAppend(t: string, a: seq<DomainRecord>, b: seq<DomainRecord>)
    ensures OfType(t, a + b) == OfType(t, a) + OfType(t, b)
  {
    if b != [] {
      var ab := a + b;
      assert ab[..|ab| - 1] == a + b[..|b| - 1];
      assert ab[|ab| - 1] == b[|b| - 1];
      OfTypeAppend(t, a, b[..|b| - 1]);
    } else {
      assert a + b == a;
    }
  }

  /** Partitioning a partition again by a type keeps it whole or empties it. */
  lemma {:induction false} OfTypeOfPartition(t: string, u: string, rs: seq<DomainRecord>)
    ensures OfType(u, OfType(t, rs)) == if EqualFold(t, u) then OfType(t, rs) else []
  {
    if rs != [] {
      var init, last := rs[..|rs| - 1], rs[|rs| - 1];
      OfTypeOfPartition(t, u, init);
      OfTypeAppend(u, OfType(t, init), if EqualFold(last.rtype, t) then [last] else []);
    }
  }

  /** Two type names that are equal up to case have the same partition. */
  lemma {:induction false} OfTypeFoldEqual(t: string, u: string, rs: seq<DomainRecord>)
    requires EqualFold(t, u)
    ensures OfType(t, rs) == OfType(u, rs)
  {
    if rs != [] {
      OfTypeFoldEqual(t, u, rs[..|rs| - 1]);
    }
  }

  /** domainRecordsOfType: the append loop that builds one type's partition. */
  method DomainRecordsOfType(t: string, records: seq<DomainRecord>) returns (typeRecords: seq<DomainRecord>)
    ensures typeRecords == OfType(t, records)
  {
    typeRecords := [];
    for i := 0 to |records|
      invariant typeRecords == OfType(t, records[..i])
    {
      assert records[..i + 1][..i] == records[..i];
      if EqualFold(records[i].rtype, t) {
        typeRecords := typeRecords + [records[i]];
      }
    }
    assert records[..|records|] == records;
  }
}
