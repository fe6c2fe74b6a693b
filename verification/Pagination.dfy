/**
 Listing container applications page by page
 (scripts/takos-product-materializer.ts): all of them, or an error.
 */
module Pagination {
  import opened Wrappers
  import opened JsText

  const MAX_PAGES: nat := 100
  const MAX_TOKEN_LENGTH := 4096

  /** An entry of a page; the counters come from its health report. */
  datatype Entry =
    | NotAnObject
    | Entry(id: Field, name: Field, image: Field, failed: Field, starting: Field, scheduling: Field, active: Field)

  datatype Application = Application(id: Field, name: Field, image: Field, state: string)

  datatype Reply = Rejected | Page(entries: seq<Entry>, next: Field)

  /** What the API answers to the request with this number and page token. */
  type Api = (nat, Option<string>) -> Reply

  predicate Positive(f: Field) {
    f.Num? && f.n > 0.0
  }

  function StateOf(e: Entry): string
    requires e.Entry?
  {
    if Positive(e.failed) then "degraded"
    else if Positive(e.starting) || Positive(e.scheduling) then "provisioning"
    else if Positive(e.active) then "active"
    else "ready"
  }

  /** A failure outweighs everything, a start what is running. */
  lemma {:induction false} StateOrder(e: Entry)
    requires e.Entry?
    ensures StateOf(e) in {"degraded", "provisioning", "active", "ready"}
    ensures StateOf(e) == "degraded" <==> e.failed.Num? && e.failed.n > 0.0
    ensures StateOf(e) in {"degraded", "provisioning"} <==>
            Positive(e.failed) || Positive(e.starting) || Positive(e.scheduling)
    ensures StateOf(e) != "ready" <==>
            Positive(e.failed) || Positive(e.starting) || Positive(e.scheduling) || Positive(e.active)
  {
  }

  predicate WellFormed(r: Reply) {
    r.Page? && forall e | e in r.entries :: e.Entry?
  }

  function Applications(entries: seq<Entry>): seq<Application>
    requires forall e | e in entries :: e.Entry?
  {
    if entries == [] then []
    else
      var first := entries[0];
      [Application(first.id, first.name, first.image, StateOf(first))] + Applications(entries[1..])
  }

  /** One application for each entry, in order. */
  lemma {:induction false} ApplicationsAt(entries: seq<Entry>, i: nat)
    requires (forall e | e in entries :: e.Entry?) && i < |entries|
    ensures |Applications(entries)| == |entries|
    ensures entries[i].Entry? && Applications(entries)[i]
            == Application(entries[i].id, entries[i].name, entries[i].image, StateOf(entries[i]))
  {
    assert forall e | e in entries[1..] :: e in entries;
    if |entries| > 1 { ApplicationsAt(entries[1..], if i == 0 then 0 else i - 1); }
  }

  predicate IsEnd(next: Field) {
    next == Null || next == Absent || next == Text("")
  }

  /** Non-empty, already trimmed, without NUL and of bounded length. */
  predicate IsToken(next: Field) {
    next.Text? && JsTrim(next.s) == next.s && next.s != "" && '\0' !in next.s && Utf16Length(next.s) <= MAX_TOKEN_LENGTH
  }

  // ----- A complete listing -----

  /** Each request carries the token of the page before it. */
  predicate Linked(api: Api, tokens: seq<Option<string>>) {
    && tokens != [] && tokens[0] == None
    && (forall i | 0 <= i < |tokens| - 1 ::
          WellFormed(api(i, tokens[i])) && IsToken(api(i, tokens[i]).next)
              && tokens[i + 1] == Some(api(i, tokens[i]).next.s))
    && (forall i, j | 0 <= i < j < |tokens| :: tokens[i] != tokens[j])
  }

  /** The requests of a whole listing: linked, within the bound, and ending at a
      page that names no successor. */
  predicate Complete(api: Api, tokens: seq<Option<string>>) {
    && Linked(api, tokens) && |tokens| <= MAX_PAGES
    && WellFormed(api(|tokens| - 1, tokens[|tokens| - 1]))
    && IsEnd(api(|tokens| - 1, tokens[|tokens| - 1]).next)
  }

  /** Everything on the first `n` pages, in order. */
  function Collected(api: Api, tokens: seq<Option<string>>, n: nat): seq<Application>
    requires n <= |tokens| && forall i | 0 <= i < n :: WellFormed(api(i, tokens[i]))
  {
    if n == 0 then []
    else
      assert WellFormed(api(n - 1, tokens[n - 1]));
      Collected(api, tokens, n - 1) + Applications(api(n - 1, tokens[n - 1]).entries)
  }

  /** The first page fixes the second, and so on: linked requests agree. */
  lemma {:induction false} LinkedAgree(api: Api, a: seq<Option<string>>, b: seq<Option<string>>, i: nat)
    requires Linked(api, a) && Linked(api, b) && i < |a| && i < |b|
    ensures a[i] == b[i]
  {
    if i == 0 {
    } else {
      LinkedAgree(api, a, b, i - 1);
    }
  }

  /** There is at most one complete listing. */
  lemma {:induction false} CompleteUnique(api: Api, a: seq<Option<string>>, b: seq<Option<string>>)
    requires Complete(api, a) && Complete(api, b)
    ensures a == b
  {
    var n := if |a| < |b| then |a| else |b|;
    LinkedAgree(api, a, b, n - 1);
    forall i | 0 <= i < n ensures a[i] == b[i] { LinkedAgree(api, a, b, i); }
  }

  /** A page that cannot be continued rules a complete listing out. */
  lemma {:induction false} StuckIsIncomplete(api: Api, tokens: seq<Option<string>>, other: seq<Option<string>>)
    requires Linked(api, tokens) && Complete(api, other)
    ensures var last := api(|tokens| - 1, tokens[|tokens| - 1]);
            && WellFormed(last)
            && (IsEnd(last.next) || (IsToken(last.next) && Some(last.next.s) !in tokens && |tokens| < MAX_PAGES))
  {
    var n := if |tokens| < |other| then |tokens| else |other|;
    LinkedAgree(api, tokens, other, n - 1);
    forall i | 0 <= i < n ensures tokens[i] == other[i] { LinkedAgree(api, tokens, other, i); }
    if |tokens| < |other| {
      var last := api(|tokens| - 1, tokens[|tokens| - 1]);
      assert other[|tokens|] == Some(last.next.s);
      forall i | 0 <= i < |tokens| ensures tokens[i] != Some(last.next.s) {
        assert other[i] != other[|tokens|];
      }
    }
  }

  predicate Continues(api: Api, tokens: seq<Option<string>>)
    requires tokens != []
  {
    var last := api(|tokens| - 1, tokens[|tokens| - 1]);
    && WellFormed(last)
    && (IsEnd(last.next) || (IsToken(last.next) && Some(last.next.s) !in tokens && |tokens| < MAX_PAGES))
  }

  lemma {:induction false} StuckMeansNone(api: Api, tokens: seq<Option<string>>)
    requires Linked(api, tokens) && !Continues(api, tokens)
    ensures forall other :: !Complete(api, other)
  {
    forall other ensures !Complete(api, other) {
      if Complete(api, other) { StuckIsIncomplete(api, tokens, other); }
    }
  }

  lemma {:induction false} OnlyComplete(api: Api, tokens: seq<Option<string>>)
    requires Complete(api, tokens)
    ensures forall other | Complete(api, other) :: other == tokens
  {
    forall other | Complete(api, other) ensures other == tokens { CompleteUnique(api, tokens, other); }
  }

  /** One more link keeps the requests linked. */
  lemma {:induction false} LinkOn(api: Api, tokens: seq<Option<string>>)
    requires Linked(api, tokens) && Continues(api, tokens) && !IsEnd(api(|tokens| - 1, tokens[|tokens| - 1]).next)
    ensures Linked(api, tokens + [Some(api(|tokens| - 1, tokens[|tokens| - 1]).next.s)])
  {
  }

  // ----- The loop -----

  class Cloudflare {
    const api: Api
    var requests: seq<Option<string>>

    constructor (api: Api)
      ensures this.api == api && requests == []
    {
      this.api, requests := api, [];
    }

    method Fetch(token: Option<string>) returns (reply: Reply)
      modifies this
      ensures reply == api(|old(requests)|, token) && requests == old(requests) + [token]
    {
      reply := api(|requests|, token);
      requests := requests + [token];
    }
  }

  /** `bytes` measures the encoded listing. The listing succeeds exactly when a
      complete one exists and fits, and then it is the whole of it, in order; in
      any case at most a hundred requests are made. */
  method ListContainers(cf: Cloudflare, bytes: seq<Application> -> nat, maxBytes: nat)
    returns (r: Option<seq<Application>>)
    requires cf.requests == []
    modifies cf
    ensures |cf.requests| <= MAX_PAGES
    ensures r.Some? ==> Complete(cf.api, cf.requests) && r.value == Collected(cf.api, cf.requests, |cf.requests|)
    ensures r.Some? <==>
            exists tokens :: Complete(cf.api, tokens) && bytes(Collected(cf.api, tokens, |tokens|)) <= maxBytes
  {
    hide Linked, Complete, IsEnd, SoFar;
    var applications: seq<Application>, seenPageTokens: set<string>, pageToken: Option<string> := [], {}, None;
    var page := 0;
    LinkedStart(cf.api);
    while true
      invariant 0 <= page < MAX_PAGES
      invariant SoFar(cf.api, cf.requests, pageToken, seenPageTokens, page, applications)
      decreases MAX_PAGES - page
    {
      ghost var before, tokens := cf.requests, cf.requests + [pageToken];
      SoFarLast(cf.api, before, pageToken, seenPageTokens, page, applications);
      var reply := cf.Fetch(pageToken);
      if !WellFormed(reply) {
        StuckMeansNone(cf.api, tokens);
        return None;
      }
      if IsEnd(reply.next) {
        SoFarEnd(cf.api, before, pageToken, seenPageTokens, page, applications);
        applications := applications + Applications(reply.entries);
        break;
      }
      if !IsToken(reply.next) || reply.next.s in seenPageTokens || page >= MAX_PAGES - 1 {
        StuckMeansNone(cf.api, tokens);
        return None;
      }
      SoFarNext(cf.api, before, pageToken, seenPageTokens, page, applications);
      applications := applications + Applications(reply.entries);
      pageToken, seenPageTokens, page := Some(reply.next.s), seenPageTokens + {reply.next.s}, page + 1;
    }
    OnlyComplete(cf.api, cf.requests);
    r := if bytes(applications) <= maxBytes then Some(applications) else None;
  }

  /** What the loop knows before it requests page number `page`. */
  ghost predicate SoFar(api: Api, requests: seq<Option<string>>, pageToken: Option<string>, seen: set<string>,
          page: nat, applications: seq<Application>) {
    && |requests| == page
    && Linked(api, requests + [pageToken])
    && (forall s: string :: s in seen <==> Some(s) in requests + [pageToken])
    && (forall i | 0 <= i < page :: WellFormed(api(i, requests[i])))
    && applications == Collected(api, requests, page)
  }

  lemma {:induction false} SoFarLast(api: Api, requests: seq<Option<string>>, pageToken: Option<string>,
          seen: set<string>, page: nat, applications: seq<Application>)
    requires SoFar(api, requests, pageToken, seen, page, applications)
    ensures |requests| == page && Linked(api, requests + [pageToken])
    ensures Continues(api, requests + [pageToken]) ==>
              var reply := api(page, pageToken);
              && WellFormed(reply)
              && (IsEnd(reply.next) || (IsToken(reply.next) && reply.next.s !in seen && page < MAX_PAGES - 1))
  {
  }

  lemma {:induction false} SoFarNext(api: Api, requests: seq<Option<string>>, pageToken: Option<string>,
          seen: set<string>, page: nat, applications: seq<Application>)
    requires SoFar(api, requests, pageToken, seen, page, applications)
    requires var reply := api(page, pageToken);
             && WellFormed(reply) && !IsEnd(reply.next) && IsToken(reply.next)
             && reply.next.s !in seen && page < MAX_PAGES - 1
    ensures var reply := api(page, pageToken);
            SoFar(api, requests + [pageToken], Some(reply.next.s), seen + {reply.next.s}, page + 1,
                  applications + Applications(reply.entries))
  {
    var tokens := requests + [pageToken];
    LinkOn(api, tokens);
    CollectedSame(api, requests, tokens, page);
  }

  lemma {:induction false} SoFarEnd(api: Api, requests: seq<Option<string>>, pageToken: Option<string>,
          seen: set<string>, page: nat, applications: seq<Application>)
    requires SoFar(api, requests, pageToken, seen, page, applications) && page < MAX_PAGES
    requires WellFormed(api(page, pageToken)) && IsEnd(api(page, pageToken).next)
    ensures Complete(api, requests + [pageToken])
    ensures forall i | 0 <= i <= page :: WellFormed(api(i, (requests + [pageToken])[i]))
    ensures applications + Applications(api(page, pageToken).entries)
            == Collected(api, requests + [pageToken], page + 1)
  {
    CollectedSame(api, requests, requests + [pageToken], page);
  }

  lemma {:induction false} LinkedStart(api: Api)
    ensures SoFar(api, [], None, {}, 0, [])
  {
  }

  lemma {:induction false} CollectedSame(api: Api, a: seq<Option<string>>, b: seq<Option<string>>, n: nat)
    requires n <= |a| && n <= |b| && a[..n] == b[..n] && forall i | 0 <= i < n :: WellFormed(api(i, a[i]))
    ensures (forall i | 0 <= i < n :: a[i] == b[i]) && Collected(api, a, n) == Collected(api, b, n)
  {
    assert forall i | 0 <= i < n :: a[i] == a[..n][i] == b[i];
    if n > 0 {
      assert a[..n - 1] == a[..n][..n - 1] && b[..n - 1] == b[..n][..n - 1];
      CollectedSame(api, a, b, n - 1);
    }
  }
}
