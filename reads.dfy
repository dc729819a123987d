/**
 * The two reads of api/domains.go that loop: the paginated fetch of a
 * domain's records (GetDomainRecords) and the pending-status poll of a
 * domain (GetDomain).
 */
module Reads {
  import opened Results
  import opened Records
  import opened Remote

  /** defaultLimit: the number of records asked for per page. */
  const DefaultLimit: nat := 500

  /** The seconds GetDomain sleeps between two fetches of a pending domain. */
  const PollIntervalSeconds: nat := 3

  /** The GET of page `k` of the domain's records. */
  function PageRequest(domain: string, k: nat): Request
  {
    Request(Get, RecordsPage(domain, DefaultLimit, k), [])
  }

  /** The requests for pages 1 to `h`, in that order. */
  function PageRequests(domain: string, h: nat): (reqs: seq<Request>)
    ensures |reqs| == h
    ensures forall i :: 0 <= i < h ==> reqs[i] == PageRequest(domain, i + 1)
  {
    if h == 0 then [] else PageRequests(domain, h - 1) + [PageRequest(domain, h)]
  }

  /** The transport's answer to the request for page `k`, the first of which is the n0-th request sent. */
  function Answer(pages: (nat, Request) -> Result<seq<DomainRecord>>, n0: nat, domain: string, k: nat)
    : Result<seq<DomainRecord>>
    requires k >= 1
  {
    pages(n0 + k - 1, PageRequest(domain, k))
  }

  /** An answer that ends the fetch: a failure or an empty page. */
  predicate Halts(a: Result<seq<DomainRecord>>)
  {
    a.Err? || a.value == []
  }

  /** The records of an answer that is a page, nothing for a failure. */
  function PageRecords(a: Result<seq<DomainRecord>>): seq<DomainRecord>
  {
    if a.Ok? then a.value else []
  }

  /**
   * The first page number from `k` on whose answer ends the fetch. `stop` is
   * a page number known to end it; it only bounds the search.
   */
  function FirstHalt(pages: (nat, Request) -> Result<seq<DomainRecord>>, n0: nat, domain: string,
                     k: nat, stop: nat): (h: nat)
    requires 1 <= k <= stop && Halts(Answer(pages, n0, domain, stop))
    ensures k <= h <= stop && Halts(Answer(pages, n0, domain, h))
    decreases stop - k
  {
    if Halts(Answer(pages, n0, domain, k)) then k else FirstHalt(pages, n0, domain, k + 1, stop)
  }

  /** No page before the first halting one ends the fetch. */
  lemma {:induction false} FirstHaltIsFirst(pages: (nat, Request) -> Result<seq<DomainRecord>>, n0: nat,
                                            domain: string, k: nat, stop: nat)
    requires 1 <= k <= stop && Halts(Answer(pages, n0, domain, stop))
    ensures forall j :: k <= j < FirstHalt(pages, n0, domain, k, stop) ==> !Halts(Answer(pages, n0, domain, j))
    decreases stop - k
  {
    if !Halts(Answer(pages, n0, domain, k)) {
      FirstHaltIsFirst(pages, n0, domain, k + 1, stop);
    }
  }

  /** FirstHalt is the page that halts after a run of pages that do not. */
  lemma {:induction false} FirstHaltAt(pages: (nat, Request) -> Result<seq<DomainRecord>>, n0: nat,
                                       domain: string, k: nat, stop: nat, m: nat)
    requires 1 <= k <= m <= stop && Halts(Answer(pages, n0, domain, stop))
    requires Halts(Answer(pages, n0, domain, m))
    requires forall j :: k <= j < m ==> !Halts(Answer(pages, n0, domain, j))
    ensures FirstHalt(pages, n0, domain, k, stop) == m
    decreases m - k
  {
    if k < m {
      FirstHaltAt(pages, n0, domain, k + 1, stop, m);
    }
  }

  /** The records of pages 1 to `j`, one page after the other. */
  function Joined(pages: (nat, Request) -> Result<seq<DomainRecord>>, n0: nat, domain: string, j: nat)
    : seq<DomainRecord>
  {
    if j == 0 then [] else Joined(pages, n0, domain, j - 1) + PageRecords(Answer(pages, n0, domain, j))
  }

  /**
   * GetDomainRecords: request pages 1, 2, 3, ... of `defaultLimit` records
   * until a page comes back empty, and return their concatenation; a failed
   * page fetch returns its error and nothing of the pages already read.
   * `stop` is a page number whose answer ends the loop; it makes the model's
   * loop terminate and is not used by it.
   */
  method GetDomainRecords(transport: Transport, domain: string, ghost stop: nat) returns (r: Result<seq<DomainRecord>>)
    modifies transport
    requires 1 <= stop && Halts(Answer(transport.pages, |transport.log|, domain, stop))
    ensures var h := FirstHalt(transport.pages, |old(transport.log)|, domain, 1, stop);
      var last := Answer(transport.pages, |old(transport.log)|, domain, h);
      && transport.log == old(transport.log) + PageRequests(domain, h)
      && transport.records == old(transport.records)
      && r == if last.Err? then Err(last.error) else Ok(Joined(transport.pages, |old(transport.log)|, domain, h - 1))
  {
    ghost var log0, pages := transport.log, transport.pages;
    ghost var h := FirstHalt(pages, |log0|, domain, 1, stop);
    FirstHaltIsFirst(pages, |log0|, domain, 1, stop);
    var offset: nat := 1;
    var records: seq<DomainRecord> := [];
    while true
      invariant 1 <= offset <= h
      invariant transport.log == log0 + PageRequests(domain, offset - 1)
      invariant transport.records == old(transport.records)
      invariant records == Joined(pages, |log0|, domain, offset - 1)
      decreases h - offset
    {
      var page := transport.FetchPage(Request(Get, RecordsPage(domain, DefaultLimit, offset), []));
      assert |log0 + PageRequests(domain, offset - 1)| == |log0| + offset - 1;
      assert page == Answer(pages, |log0|, domain, offset);
      assert log0 + PageRequests(domain, offset - 1) + [PageRequest(domain, offset)]
          == log0 + PageRequests(domain, offset);
      if page.Err? {
        assert offset == h;
        return Err(page.error);
      }
      if |page.value| == 0 {
        assert offset == h;
        break;
      }
      offset := offset + 1;
      records := records + page.value;
    }
    r := Ok(records);
  }

  /** The chunk of `rs` a provider that pages `rs` by `defaultLimit` returns as page `k` (numbered from 1). */
  function Chunk(rs: seq<DomainRecord>, k: nat): (c: seq<DomainRecord>)
    requires k >= 1
    ensures |c| <= DefaultLimit
  {
    var lo, hi := (k - 1) * DefaultLimit, k * DefaultLimit;
    if |rs| <= lo then [] else if |rs| <= hi then rs[lo..] else rs[lo..hi]
  }

  /** The provider answers every page request with the matching chunk of `rs`. */
  ghost predicate PagesOf(pages: (nat, Request) -> Result<seq<DomainRecord>>, n0: nat, domain: string, rs: seq<DomainRecord>)
  {
    forall k :: k >= 1 ==> Answer(pages, n0, domain, k) == Ok(Chunk(rs, k))
  }

  /** The number of non-empty chunks of `rs`. */
  function Chunks(rs: seq<DomainRecord>): nat
  {
    (|rs| + DefaultLimit - 1) / DefaultLimit
  }

  lemma {:induction false} JoinedChunks(pages: (nat, Request) -> Result<seq<DomainRecord>>, n0: nat, domain: string,
                                        rs: seq<DomainRecord>, j: nat)
    requires PagesOf(pages, n0, domain, rs)
    ensures j * DefaultLimit <= |rs| ==> Joined(pages, n0, domain, j) == rs[..j * DefaultLimit]
    ensures j * DefaultLimit > |rs| ==> Joined(pages, n0, domain, j) == rs
  {
    if j > 0 {
      JoinedChunks(pages, n0, domain, rs, j - 1);
      assert Answer(pages, n0, domain, j) == Ok(Chunk(rs, j));
      var lo := (j - 1) * DefaultLimit;
      if |rs| <= lo {
        assert Joined(pages, n0, domain, j - 1) == rs;
      } else if |rs| <= j * DefaultLimit {
        assert Joined(pages, n0, domain, j - 1) == rs[..lo];
        assert rs[..lo] + rs[lo..] == rs;
      } else {
        assert Joined(pages, n0, domain, j - 1) == rs[..lo];
        assert rs[..lo] + rs[lo..j * DefaultLimit] == rs[..j * DefaultLimit];
      }
    }
  }

  /**
   * Against a provider that pages a stored list `rs` by `defaultLimit`, the
   * fetch asks for one page more than `rs` has non-empty chunks, stops at the
   * first empty one, and returns exactly `rs`.
   */
  lemma FetchOfPagedStore(pages: (nat, Request) -> Result<seq<DomainRecord>>, n0: nat, domain: string,
                          rs: seq<DomainRecord>)
    requires PagesOf(pages, n0, domain, rs)
    ensures var stop := Chunks(rs) + 1;
      && Halts(Answer(pages, n0, domain, stop))
      && FirstHalt(pages, n0, domain, 1, stop) == stop
      && Answer(pages, n0, domain, stop) == Ok([])
      && Joined(pages, n0, domain, stop - 1) == rs
  {
    var c := Chunks(rs);
    assert Answer(pages, n0, domain, c + 1) == Ok(Chunk(rs, c + 1));
    assert c * DefaultLimit >= |rs|;
    forall j | 1 <= j < c + 1
      ensures !Halts(Answer(pages, n0, domain, j))
    {
      assert Answer(pages, n0, domain, j) == Ok(Chunk(rs, j));
      assert (j - 1) * DefaultLimit < |rs|;
    }
    FirstHaltAt(pages, n0, domain, 1, c + 1, c + 1);
    JoinedChunks(pages, n0, domain, rs, c);
    if c * DefaultLimit == |rs| {
      assert rs[..c * DefaultLimit] == rs;
    }
  }

  /**
   * Pages of 500, 500, 37 and 0 records: the fetch requests exactly pages 1
   * to 4 (the log GetDomainRecords appends) and returns all 1037 records.
   */
  lemma FetchOf1037Records(pages: (nat, Request) -> Result<seq<DomainRecord>>, n0: nat, domain: string,
                           rs: seq<DomainRecord>)
    requires |rs| == 1037 && PagesOf(pages, n0, domain, rs)
    ensures |Chunk(rs, 1)| == 500 && |Chunk(rs, 2)| == 500 && |Chunk(rs, 3)| == 37 && |Chunk(rs, 4)| == 0
    ensures FirstHalt(pages, n0, domain, 1, 4) == 4
    ensures PageRequests(domain, FirstHalt(pages, n0, domain, 1, 4))
         == [PageRequest(domain, 1), PageRequest(domain, 2), PageRequest(domain, 3), PageRequest(domain, 4)]
    ensures Joined(pages, n0, domain, 3) == rs && |Joined(pages, n0, domain, 3)| == 1037
  {
    FetchOfPagedStore(pages, n0, domain, rs);
    assert Chunks(rs) == 3;
  }

  /** The GET of the domain. */
  function DomainRequest(domain: string): Request
  {
    Request(Get, DomainInfo(domain), [])
  }

  /** `n` copies of the GET of the domain. */
  function DomainRequests(domain: string, n: nat): (reqs: seq<Request>)
    ensures |reqs| == n
    ensures forall i :: 0 <= i < n ==> reqs[i] == DomainRequest(domain)
  {
    if n == 0 then [] else DomainRequests(domain, n - 1) + [DomainRequest(domain)]
  }

  /** `sub` occurs in `s` starting at position `i`. */
  predicate OccursAt(s: string, sub: string, i: nat)
  {
    i + |sub| <= |s| && s[i..i + |sub|] == sub
  }

  /** strings.Contains: `sub` occurs somewhere in `s`. */
  predicate Contains(s: string, sub: string)
    decreases |s|
  {
    sub <= s || (s != [] && Contains(s[1..], sub))
  }

  /** Contains holds exactly when some position of `s` starts an occurrence of `sub`. */
  lemma {:induction false} ContainsIff(s: string, sub: string)
    ensures Contains(s, sub) <==> exists i: nat :: OccursAt(s, sub, i)
    decreases |s|
  {
    if sub <= s {
      assert OccursAt(s, sub, 0);
    } else if s != [] {
      ContainsIff(s[1..], sub);
      if Contains(s[1..], sub) {
        var i: nat :| OccursAt(s[1..], sub, i);
        assert s[1..][i..i + |sub|] == s[i + 1..i + 1 + |sub|];
        assert OccursAt(s, sub, i + 1);
      }
      assert !OccursAt(s, sub, 0) by {
        if |sub| <= |s| {
          assert s[0..|sub|] == s[..|sub|];
        }
      }
      if exists i: nat :: OccursAt(s, sub, i) {
        var i: nat :| OccursAt(s, sub, i);
        assert i != 0;
        assert s[1..][i - 1..i - 1 + |sub|] == s[i..i + |sub|];
        assert OccursAt(s[1..], sub, i - 1);
      }
    } else {
      assert |sub| > 0;
    }
  }

  /** A status in the PENDING family. */
  predicate IsPending(status: string)
  {
    Contains(status, "PENDING")
  }

  /** The transport's answer to the k-th fetch of the domain (from 0), the first being the n0-th request sent. */
  function Poll(info: (nat, Request) -> Result<Domain>, n0: nat, domain: string, k: nat): Result<Domain>
  {
    info(n0 + k, DomainRequest(domain))
  }

  /** An answer that ends the poll: a failure or a domain that is not pending. */
  predicate Settled(a: Result<Domain>)
  {
    a.Err? || !IsPending(a.value.status)
  }

  /** The first fetch from the k-th on whose answer ends the poll; `settle` is one known to end it. */
  function FirstSettled(info: (nat, Request) -> Result<Domain>, n0: nat, domain: string, k: nat, settle: nat)
    : (h: nat)
    requires k <= settle && Settled(Poll(info, n0, domain, settle))
    ensures k <= h <= settle && Settled(Poll(info, n0, domain, h))
    decreases settle - k
  {
    if Settled(Poll(info, n0, domain, k)) then k else FirstSettled(info, n0, domain, k + 1, settle)
  }

  /** Every fetch before the first settled one saw a pending domain. */
  lemma {:induction false} FirstSettledIsFirst(info: (nat, Request) -> Result<Domain>, n0: nat, domain: string,
                                               k: nat, settle: nat)
    requires k <= settle && Settled(Poll(info, n0, domain, settle))
    ensures forall j :: k <= j < FirstSettled(info, n0, domain, k, settle) ==>
              Poll(info, n0, domain, j).Ok? && IsPending(Poll(info, n0, domain, j).value.status)
    decreases settle - k
  {
    if !Settled(Poll(info, n0, domain, k)) {
      FirstSettledIsFirst(info, n0, domain, k + 1, settle);
    }
  }

  /**
   * GetDomain: fetch the domain, and while its status contains "PENDING",
   * sleep for the poll interval and fetch it again; a failed fetch returns its
   * error. `waited` is the number of seconds slept. `settle` is a fetch whose
   * answer ends the loop; it makes the model's loop terminate and is not used by it.
   */
  method GetDomain(transport: Transport, domain: string, ghost settle: nat) returns (r: Result<Domain>, waited: nat)
    modifies transport
    requires Settled(Poll(transport.info, |transport.log|, domain, settle))
    ensures var h := FirstSettled(transport.info, |old(transport.log)|, domain, 0, settle);
      && transport.log == old(transport.log) + DomainRequests(domain, h + 1)
      && transport.records == old(transport.records)
      && r == Poll(transport.info, |old(transport.log)|, domain, h)
      && waited == PollIntervalSeconds * h
    ensures r.Ok? ==> !IsPending(r.value.status)
  {
    ghost var log0, info := transport.log, transport.info;
    ghost var h := FirstSettled(info, |log0|, domain, 0, settle);
    FirstSettledIsFirst(info, |log0|, domain, 0, settle);
    var req := Request(Get, DomainInfo(domain), []);
    ghost var k: nat := 0;
    waited := 0;
    while true
      invariant k <= h
      invariant transport.log == log0 + DomainRequests(domain, k)
      invariant transport.records == old(transport.records)
      invariant waited == PollIntervalSeconds * k
      decreases h - k
    {
      r := transport.FetchDomain(req);
      assert |log0 + DomainRequests(domain, k)| == |log0| + k;
      assert r == Poll(info, |log0|, domain, k);
      assert log0 + DomainRequests(domain, k) + [req] == log0 + DomainRequests(domain, k + 1);
      if r.Err? {
        assert k == h;
        return;
      }
      if !IsPending(r.value.status) {
        assert k == h;
        break;
      }
      waited := waited + PollIntervalSeconds;
      k := k + 1;
    }
  }

  /**
   * A domain that is not pending at the first fetch is returned after
   * exactly one fetch and no sleep; one that is pending at the first fetch
   * costs at least two fetches and one sleep.
   */
  lemma PollStopsAtFirstSettled(info: (nat, Request) -> Result<Domain>, n0: nat, domain: string, settle: nat)
    requires Settled(Poll(info, n0, domain, settle))
    ensures Settled(Poll(info, n0, domain, 0)) ==> FirstSettled(info, n0, domain, 0, settle) == 0
    ensures !Settled(Poll(info, n0, domain, 0)) ==> FirstSettled(info, n0, domain, 0, settle) >= 1
  {
  }
}
