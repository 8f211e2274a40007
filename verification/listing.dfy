/** Fetching the records of a domain: `getRecordsByDomainName` (index.js:43-65).
    The provider is not called; its answers are given up front as the sequence of
    responses it would return to successive list requests. */
module Listing {
  import opened Wrappers
  import opened Records
  import opened Subsequences

  /** The part of a `listResourceRecordSets` answer the loop reads. */
  datatype Page = Page(
    resourceRecordSets: seq<ResourceRecordSet>,
    nextRecordName: Option<string>,
    nextRecordType: Option<string>)

  /** One answer of the provider: a page, or the error its callback rejects with. */
  datatype Response = Listed(page: Page) | Rejected(reason: string)

  /** `listParams` as it stands when a request is sent. */
  datatype ListRequest = ListRequest(
    hostedZoneId: string,
    startRecordName: string,
    startRecordType: string,
    nextRecordName: Option<string>,
    nextRecordType: Option<string>)

  /** A rejected page request, or the responses running out while the cursor still
      asks for more (the provider is finite in the model, not in the source). */
  datatype FetchError = ListFailed(reason: string) | ResponsesExhausted

  /** What a fetch yields: the requests sent, every record of every page read, and
      those of them that carry the domain's exact name. */
  datatype Fetched = Fetched(
    requests: seq<ListRequest>,
    accumulated: seq<ResourceRecordSet>,
    records: seq<ResourceRecordSet>)

  /** The loop condition of line 61: both cursor fields truthy. */
  predicate HasMore(p: Page) {
    Truthy(p.nextRecordName) && Truthy(p.nextRecordType)
  }

  /** A response after which the loop asks for another page. */
  predicate Continues(r: Response) {
    r.Listed? && HasMore(r.page)
  }

  /** Index of the first response after which the loop stops, or `|rs|` if the
      responses run out first. */
  function Cutoff(rs: seq<Response>): (n: nat)
    ensures n <= |rs|
    ensures forall j :: 0 <= j < n ==> Continues(rs[j])
    ensures n < |rs| ==> !Continues(rs[n])
  {
    if |rs| == 0 || !Continues(rs[0]) then 0 else 1 + Cutoff(rs[1..])
  }

  /** `Cutoff` is the only index with its defining properties. */
  lemma CutoffAt(rs: seq<Response>, n: nat)
    requires n <= |rs|
    requires forall j :: 0 <= j < n ==> Continues(rs[j])
    requires n < |rs| ==> !Continues(rs[n])
    ensures Cutoff(rs) == n
  {
  }

  function RecordsOf(r: Response): seq<ResourceRecordSet> {
    if r.Listed? then r.page.resourceRecordSets else []
  }

  /** The records of the given responses, concatenated in order. */
  function Flatten(rs: seq<Response>): seq<ResourceRecordSet> {
    if |rs| == 0 then [] else Flatten(rs[..|rs| - 1]) + RecordsOf(rs[|rs| - 1])
  }

  /** Reading one more page appends its records. */
  lemma FlattenStep(rs: seq<Response>, i: nat)
    requires i < |rs|
    ensures Flatten(rs[..i + 1]) == Flatten(rs[..i]) + RecordsOf(rs[i])
  {
    assert rs[..i + 1][..i] == rs[..i];
  }

  /** `records.filter(record => record.Name === domainName)` (line 63). */
  function WithName(rs: seq<ResourceRecordSet>, name: string): (res: seq<ResourceRecordSet>)
    ensures IsSubsequence(res, rs)
    ensures forall r :: r in res ==> r.name == name
    ensures forall r: ResourceRecordSet :: r.name == name ==> multiset(res)[r] == multiset(rs)[r]
  {
    if |rs| == 0 then []
    else
      var rest := WithName(rs[1..], name);
      assert rs == [rs[0]] + rs[1..];
      if rs[0].name == name then
        assert ([rs[0]] + rest)[1..] == rest;
        [rs[0]] + rest
      else rest
  }

  /** The request the loop sends after the given responses: the start cursor of
      lines 44-48, with the cursor fields of the last page copied in (lines 59-60). */
  function RequestAfter(hostedZoneId: string, domainName: string, rs: seq<Response>, k: nat): ListRequest
    requires k <= |rs|
    requires forall j :: 0 <= j < k ==> rs[j].Listed?
  {
    if k == 0 then ListRequest(hostedZoneId, domainName, "A", None, None)
    else ListRequest(hostedZoneId, domainName, "A", rs[k - 1].page.nextRecordName, rs[k - 1].page.nextRecordType)
  }

  /** The do-while loop of lines 49-61: the requests it sends and the records it
      accumulates, or the error that ends it. */
  method Accumulate(hostedZoneId: string, domainName: string, responses: seq<Response>)
    returns (res: Result<(seq<ListRequest>, seq<ResourceRecordSet>), FetchError>)
    ensures Cutoff(responses) == |responses| ==> res == Failure(ResponsesExhausted)
    ensures Cutoff(responses) < |responses| && responses[Cutoff(responses)].Rejected?
            ==> res == Failure(ListFailed(responses[Cutoff(responses)].reason))
    ensures res.Success? <==> Cutoff(responses) < |responses| && responses[Cutoff(responses)].Listed?
    ensures res.Success? ==> |res.value.0| == Cutoff(responses) + 1
    ensures res.Success? ==> res.value.1 == Flatten(responses[..Cutoff(responses) + 1])
    ensures res.Success? ==> forall k :: 0 <= k < |res.value.0| ==>
              res.value.0[k] == RequestAfter(hostedZoneId, domainName, responses, k)
  {
    var listParams := ListRequest(hostedZoneId, domainName, "A", None, None);
    var requests: seq<ListRequest> := [];
    var records: seq<ResourceRecordSet> := [];
    var i := 0;
    var more := true;
    while more
      invariant 0 <= i <= |responses|
      invariant |requests| == i
      invariant forall j :: 0 <= j < i - 1 ==> Continues(responses[j])
      invariant i > 0 ==> responses[i - 1].Listed?
      invariant more <==> i == 0 || Continues(responses[i - 1])
      invariant listParams == RequestAfter(hostedZoneId, domainName, responses, i)
      invariant forall k :: 0 <= k < i ==> requests[k] == RequestAfter(hostedZoneId, domainName, responses, k)
      invariant records == Flatten(responses[..i])
      decreases |responses| - i
    {
      if i == |responses| {
        CutoffAt(responses, i);
        return Failure(ResponsesExhausted);
      }
      requests := requests + [listParams];
      match responses[i]
      case Rejected(reason) =>
        CutoffAt(responses, i);
        return Failure(ListFailed(reason));
      case Listed(page) =>
        FlattenStep(responses, i);
        records := records + page.resourceRecordSets;
        listParams := listParams.(nextRecordName := page.nextRecordName, nextRecordType := page.nextRecordType);
        i := i + 1;
        more := Truthy(listParams.nextRecordName) && Truthy(listParams.nextRecordType);
    }
    CutoffAt(responses, i - 1);
    res := Success((requests, records));
  }

  /** `getRecordsByDomainName` (lines 43-64): the loop, then the exact-name filter. */
  method FetchRecords(hostedZoneId: string, domainName: string, responses: seq<Response>)
    returns (res: Result<Fetched, FetchError>)
    ensures Cutoff(responses) == |responses| ==> res == Failure(ResponsesExhausted)
    ensures Cutoff(responses) < |responses| && responses[Cutoff(responses)].Rejected?
            ==> res == Failure(ListFailed(responses[Cutoff(responses)].reason))
    ensures res.Success? <==> Cutoff(responses) < |responses| && responses[Cutoff(responses)].Listed?
    ensures res.Success? ==> |res.value.requests| == Cutoff(responses) + 1
    ensures res.Success? ==> res.value.accumulated == Flatten(responses[..Cutoff(responses) + 1])
    ensures res.Success? ==> res.value.records == WithName(res.value.accumulated, domainName)
    ensures res.Success? ==> forall k :: 0 <= k < |res.value.requests| ==>
              res.value.requests[k] == RequestAfter(hostedZoneId, domainName, responses, k)
  {
    var pages :- Accumulate(hostedZoneId, domainName, responses);
    var (requests, records) := pages;
    res := Success(Fetched(requests, records, WithName(records, domainName)));
  }
}
