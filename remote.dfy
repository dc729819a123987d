/**
 * The far side of `c.execute`: the requests the client sends, what the DNS
 * provider does with the ones it accepts, and an object that records every
 * request handed to the transport.
 */
module Remote {
  import opened Results
  import opened Records

  datatype Method = Get | Put | Patch

  /** The endpoints of the path templates at the top of api/domains.go. */
  datatype Url =
    | RecordsPage(domain: string, limit: nat, offset: nat)           // GET   .../records?limit=&offset=
    | RecordsAdd(domain: string)                                      // PATCH .../records
    | RecordsOfType(domain: string, rtype: string)                    // PUT   .../records/{type}
    | RecordsOfTypeName(domain: string, rtype: string, name: string)  // PUT   .../records/{type}/{name}
    | DomainInfo(domain: string)                                      // GET   .../domains/{domain}

  /** A request as the transport sees it; the body is the list the JSON encoder was given. */
  datatype Request = Request(verb: Method, url: Url, body: seq<DomainRecord>)

  /** The records of `rs` whose type is not `t` (up to case), in order. */
  function WithoutType(t: string, rs: seq<DomainRecord>): seq<DomainRecord>
  {
    if rs == [] then []
    else
      var last := rs[|rs| - 1];
      WithoutType(t, rs[..|rs| - 1]) + (if EqualFold(last.rtype, t) then [] else [last])
  }

  predicate HasTypeName(x: DomainRecord, t: string, n: string)
  {
    EqualFold(x.rtype, t) && x.name == n
  }

  /** The records of `rs` not addressed by the pair (`t`, `n`), in order. */
  function WithoutTypeName(t: string, n: string, rs: seq<DomainRecord>): seq<DomainRecord>
  {
    if rs == [] then []
    else
      var last := rs[|rs| - 1];
      WithoutTypeName(t, n, rs[..|rs| - 1]) + (if HasTypeName(last, t, n) then [] else [last])
  }

  /**
   * What the provider does to the records of domain `d` when it accepts `req`:
   * a PUT on a type replaces that type's records by the body (recordReplaceType),
   * a PATCH appends the body (recordAdd), a PUT on a type and name replaces the
   * records with that type and name by the body. Reads and requests for other
   * domains change nothing.
   */
  function Effect(d: string, rs: seq<DomainRecord>, req: Request): seq<DomainRecord>
  {
    if req.url.domain != d then rs
    else
      match req.url
      case RecordsOfType(_, t) => if req.verb == Put then WithoutType(t, rs) + req.body else rs
      case RecordsAdd(_) => if req.verb == Patch then rs + req.body else rs
      case RecordsOfTypeName(_, t, n) => if req.verb == Put then WithoutTypeName(t, n, rs) + req.body else rs
      case _ => rs
  }

  /** The effect of accepting `reqs` one after another. */
  function Effects(d: string, rs: seq<DomainRecord>, reqs: seq<Request>): seq<DomainRecord>
    decreases |reqs|
  {
    if reqs == [] then rs else Effects(d, Effect(d, rs, reqs[0]), reqs[1..])
  }

  lemma {:induction false} EffectsAppend(d: string, rs: seq<DomainRecord>, a: seq<Request>, b: seq<Request>)
    ensures Effects(d, rs, a + b) == Effects(d, Effects(d, rs, a), b)
    decreases |a|
  {
    if a == [] {
      assert a + b == b;
    } else {
      assert (a + b)[0] == a[0] && (a + b)[1..] == a[1..] + b;
      EffectsAppend(d, Effect(d, rs, a[0]), a[1..], b);
    }
  }

  /** Removing a type leaves the other types' partitions as they were and empties its own. */
  lemma {:induction false} OfTypeWithoutType(u: string, t: string, rs: seq<DomainRecord>)
    ensures OfType(u, WithoutType(t, rs)) == if EqualFold(t, u) then [] else OfType(u, rs)
  {
    if rs != [] {
      var init, last := rs[..|rs| - 1], rs[|rs| - 1];
      OfTypeWithoutType(u, t, init);
      OfTypeAppend(u, WithoutType(t, init), if EqualFold(last.rtype, t) then [] else [last]);
    }
  }

  /** A domain as the provider describes it: its identifier, its status and its name servers. */
  datatype Domain = Domain(id: int, status: string, nameServers: seq<string>)

  /**
   * The remote end of one domain as the client talks to it: every request the
   * client hands to the transport, the domain's records at the provider, the
   * transport's verdict on the n-th request when it is a write (None when it
   * succeeds), and its answer to the n-th request when it is a read of a
   * record page or of the domain.
   */
  class Transport {
    const domain: string
    const verdict: (nat, Request) -> Option<Error>
    const pages: (nat, Request) -> Result<seq<DomainRecord>>
    const info: (nat, Request) -> Result<Domain>
    var log: seq<Request>
    var records: seq<DomainRecord>

    constructor (domain: string, records: seq<DomainRecord>, verdict: (nat, Request) -> Option<Error>,
                 pages: (nat, Request) -> Result<seq<DomainRecord>>, info: (nat, Request) -> Result<Domain>)
      ensures this.domain == domain && this.records == records
      ensures this.verdict == verdict && this.pages == pages && this.info == info
      ensures log == []
    {
      this.domain := domain;
      this.records := records;
      this.verdict := verdict;
      this.pages := pages;
      this.info := info;
      log := [];
    }

    /** c.execute for a write: the request is sent whatever the verdict; only an accepted one takes effect. */
    method Execute(req: Request) returns (err: Option<Error>)
      modifies this
      ensures err == verdict(|old(log)|, req)
      ensures log == old(log) + [req]
      ensures records == if err.None? then Effect(domain, old(records), req) else old(records)
    {
      err := verdict(|log|, req);
      if err.None? {
        records := Effect(domain, records, req);
      }
      log := log + [req];
    }

    /** c.execute for a read of a page of records: the answer is decoded into a list of records. */
    method FetchPage(req: Request) returns (r: Result<seq<DomainRecord>>)
      modifies this
      ensures r == pages(|old(log)|, req)
      ensures log == old(log) + [req] && records == old(records)
    {
      r := pages(|log|, req);
      log := log + [req];
    }

    /** c.execute for a read of the domain: the answer is decoded into a Domain. */
    method FetchDomain(req: Request) returns (r: Result<Domain>)
      modifies this
      ensures r == info(|old(log)|, req)
      ensures log == old(log) + [req] && records == old(records)
    {
      r := info(|log|, req);
      log := log + [req];
    }
  }

  /** Request `req` gets through as the n-th request: its body encodes and the transport accepts it. */
  predicate GoesThrough(req: Request, encodes: seq<DomainRecord> -> bool, verdict: (nat, Request) -> Option<Error>, n: nat)
  {
    encodes(req.body) && verdict(n, req).None?
  }

  /** Every request of `reqs` gets through, the first as the n-th request sent. */
  predicate AllGoThrough(reqs: seq<Request>, encodes: seq<DomainRecord> -> bool,
                         verdict: (nat, Request) -> Option<Error>, n: nat)
    decreases |reqs|
  {
    reqs == [] || (GoesThrough(reqs[0], encodes, verdict, n) && AllGoThrough(reqs[1..], encodes, verdict, n + 1))
  }

  lemma {:induction false} AllGoThroughSnoc(reqs: seq<Request>, req: Request, encodes: seq<DomainRecord> -> bool,
                                            verdict: (nat, Request) -> Option<Error>, n: nat)
    requires AllGoThrough(reqs, encodes, verdict, n) && GoesThrough(req, encodes, verdict, n + |reqs|)
    ensures AllGoThrough(reqs + [req], encodes, verdict, n)
    decreases |reqs|
  {
    if reqs != [] {
      assert (reqs + [req])[1..] == reqs[1..] + [req];
      AllGoThroughSnoc(reqs[1..], req, encodes, verdict, n + 1);
    }
  }

  lemma {:induction false} AllGoThroughAt(reqs: seq<Request>, encodes: seq<DomainRecord> -> bool,
                                          verdict: (nat, Request) -> Option<Error>, n: nat)
    requires AllGoThrough(reqs, encodes, verdict, n)
    ensures forall k :: 0 <= k < |reqs| ==> GoesThrough(reqs[k], encodes, verdict, n + k)
    decreases |reqs|
  {
    if reqs != [] {
      AllGoThroughAt(reqs[1..], encodes, verdict, n + 1);
      assert forall k :: 1 <= k < |reqs| ==> reqs[k] == reqs[1..][k - 1];
    }
  }

  /** The position of the first request of `plan` that does not get through, or |plan|; `n` counts requests sent before. */
  function FirstFailure(plan: seq<Request>, encodes: seq<DomainRecord> -> bool, verdict: (nat, Request) -> Option<Error>,
                        n: nat): (f: nat)
    ensures f <= |plan|
    decreases |plan|
  {
    if plan == [] || !GoesThrough(plan[0], encodes, verdict, n) then 0
    else 1 + FirstFailure(plan[1..], encodes, verdict, n + 1)
  }

  /** Every request before the first failure gets through, and the one at it does not. */
  lemma {:induction false} FirstFailureSpec(plan: seq<Request>, encodes: seq<DomainRecord> -> bool,
                                            verdict: (nat, Request) -> Option<Error>, n: nat)
    ensures var f := FirstFailure(plan, encodes, verdict, n);
      && (forall k :: 0 <= k < f ==> GoesThrough(plan[k], encodes, verdict, n + k))
      && (f < |plan| ==> !GoesThrough(plan[f], encodes, verdict, n + f))
    decreases |plan|
  {
    if plan != [] && GoesThrough(plan[0], encodes, verdict, n) {
      FirstFailureSpec(plan[1..], encodes, verdict, n + 1);
      assert forall k :: 1 <= k < |plan| ==> plan[k] == plan[1..][k - 1];
    }
  }

  /** FirstFailure is the one position up to which every request gets through and at which one does not. */
  lemma {:induction false} FirstFailureAt(plan: seq<Request>, encodes: seq<DomainRecord> -> bool,
                                          verdict: (nat, Request) -> Option<Error>, n: nat, m: nat)
    requires m <= |plan|
    requires forall k :: 0 <= k < m ==> GoesThrough(plan[k], encodes, verdict, n + k)
    requires m < |plan| ==> !GoesThrough(plan[m], encodes, verdict, n + m)
    ensures FirstFailure(plan, encodes, verdict, n) == m
  {
    FirstFailureSpec(plan, encodes, verdict, n);
  }

  /** Positions in a plan that is split as sent, then req, then the rest. */
  lemma PlanPrefix(plan: seq<Request>, sent: seq<Request>, req: Request, rest: seq<Request>)
    requires plan == sent + [req] + rest
    ensures plan[|sent|] == req && plan[..|sent|] == sent && plan[..|sent| + 1] == sent + [req]
    ensures forall k :: 0 <= k < |sent| ==> plan[k] == sent[k]
  {
  }

  /** What a write loop has done: the requests it sent, the error it returned, the records left at the provider. */
  datatype Outcome = Outcome(sent: seq<Request>, err: Option<Error>, records: seq<DomainRecord>)

  /**
   * The outcome of a write loop that works through `plan` in order, encoding
   * each body and sending it, and stops at the first failure: a body that does
   * not encode ends it with MarshalError before that request is sent; a
   * refused request is sent and ends it with the transport's error. The
   * requests accepted before the failure stay applied at the provider.
   */
  function StopAtFirstFailure(plan: seq<Request>, encodes: seq<DomainRecord> -> bool,
                              verdict: (nat, Request) -> Option<Error>, d: string, n: nat,
                              rs: seq<DomainRecord>): Outcome
  {
    var f := FirstFailure(plan, encodes, verdict, n);
    Outcome(
      plan[..f] + (if f < |plan| && encodes(plan[f].body) then [plan[f]] else []),
      if f == |plan| then None
      else if !encodes(plan[f].body) then Some(MarshalError)
      else verdict(n + f, plan[f]),
      Effects(d, rs, plan[..f]))
  }

  /**
   * A write loop fails exactly when one of its requests does not get through;
   * it never sends a request after the failing one, and what it sent is the
   * plan's prefix up to and including the failing request.
   */
  lemma {:induction false} FailsIffSomeRequestFails(plan: seq<Request>, encodes: seq<DomainRecord> -> bool,
                                                    verdict: (nat, Request) -> Option<Error>, d: string, n: nat,
                                                    rs: seq<DomainRecord>)
    ensures var o := StopAtFirstFailure(plan, encodes, verdict, d, n, rs);
      && (o.err.None? <==> forall k :: 0 <= k < |plan| ==> GoesThrough(plan[k], encodes, verdict, n + k))
      && (o.err.None? ==> o.sent == plan && o.records == Effects(d, rs, plan))
      && |o.sent| <= |plan| && o.sent == plan[..|o.sent|]
      && (forall k :: 0 <= k < |o.sent| - 1 ==> verdict(n + k, o.sent[k]).None?)
  {
    FirstFailureSpec(plan, encodes, verdict, n);
    var f := FirstFailure(plan, encodes, verdict, n);
    var o := StopAtFirstFailure(plan, encodes, verdict, d, n, rs);
    if f < |plan| {
      assert !GoesThrough(plan[f], encodes, verdict, n + f);
      assert encodes(plan[f].body) ==> verdict(n + f, plan[f]).Some?;
      if encodes(plan[f].body) {
        assert o.sent == plan[..f + 1];
      }
    } else {
      assert plan[..f] == plan;
    }
  }

  /** A loop whose every request got through sent its whole plan and returns no error. */
  lemma OutcomeWhenAllGoThrough(plan: seq<Request>, encodes: seq<DomainRecord> -> bool,
                                verdict: (nat, Request) -> Option<Error>, d: string, n: nat, rs: seq<DomainRecord>)
    requires AllGoThrough(plan, encodes, verdict, n)
    ensures StopAtFirstFailure(plan, encodes, verdict, d, n, rs) == Outcome(plan, None, Effects(d, rs, plan))
  {
    AllGoThroughAt(plan, encodes, verdict, n);
    FirstFailureAt(plan, encodes, verdict, n, |plan|);
    assert plan[..|plan|] == plan;
  }

  /**
   * A loop that got every request of `sent` through and then failed on `req`
   * stops there: with MarshalError and without sending `req` when its body
   * does not encode, otherwise with the transport's error after sending it.
   */
  lemma OutcomeWhenStopped(plan: seq<Request>, sent: seq<Request>, req: Request, rest: seq<Request>,
                           encodes: seq<DomainRecord> -> bool, verdict: (nat, Request) -> Option<Error>,
                           d: string, n: nat, rs: seq<DomainRecord>)
    requires plan == sent + [req] + rest
    requires AllGoThrough(sent, encodes, verdict, n)
    requires !GoesThrough(req, encodes, verdict, n + |sent|)
    ensures StopAtFirstFailure(plan, encodes, verdict, d, n, rs)
      == Outcome(sent + (if encodes(req.body) then [req] else []),
                 if encodes(req.body) then verdict(n + |sent|, req) else Some(MarshalError),
                 Effects(d, rs, sent))
  {
    FirstFailureAfter(plan, sent, req, rest, encodes, verdict, n);
    assert plan[..|sent|] == sent && plan[|sent|] == req;
  }

  /** The first failure of a plan whose requests of `sent` got through and whose next request did not is at |sent|. */
  lemma FirstFailureAfter(plan: seq<Request>, sent: seq<Request>, req: Request, rest: seq<Request>,
                          encodes: seq<DomainRecord> -> bool, verdict: (nat, Request) -> Option<Error>, n: nat)
    requires plan == sent + [req] + rest
    requires AllGoThrough(sent, encodes, verdict, n)
    requires !GoesThrough(req, encodes, verdict, n + |sent|)
    ensures FirstFailure(plan, encodes, verdict, n) == |sent|
  {
    PlanPrefix(plan, sent, req, rest);
    AllGoThroughAt(sent, encodes, verdict, n);
    FirstFailureAt(plan, encodes, verdict, n, |sent|);
  }
}
