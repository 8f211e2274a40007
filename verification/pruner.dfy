/** The whole run (index.js:5-26 and 70-77): normalise the inputs, fetch the
    domain's records, select the stale geolocation records, and build one delete
    request per selected record. Sending the requests is not modelled. */
module Pruner {
  import opened Wrappers
  import opened Records
  import opened Subsequences
  import opened Inputs
  import opened Selection
  import opened Listing
  import opened Deletion

  /** Everything that makes `run()` reject before a delete request is issued. */
  datatype PruneError = FetchFailed(fetchError: FetchError) | SelectFailed(selectError: SelectError)

  /** `deleted` holds, in fetch order, exactly the fetched records that are named
      `domainName` and are candidates for deletion, each as often as it was fetched. */
  ghost predicate SelectsExactly(deleted: seq<ResourceRecordSet>, fetched: seq<ResourceRecordSet>,
                           domainName: string, loadBalancerDns: string)
  {
    && IsSubsequence(deleted, fetched)
    && (forall r :: r in deleted ==> r.name == domainName && IsCandidate(r, domainName, loadBalancerDns))
    && (forall r: ResourceRecordSet :: r.name == domainName && IsCandidate(r, domainName, loadBalancerDns)
          ==> multiset(deleted)[r] == multiset(fetched)[r])
  }

  /** The name filter of `getRecordsByDomainName` followed by the candidate filter
      of `deleteRecords` selects exactly the fetched candidates with the domain's name,
      and adds or duplicates no record. */
  lemma NameFilterThenSelect(fetched: seq<ResourceRecordSet>, domainName: string, loadBalancerDns: string)
    requires Select(WithName(fetched, domainName), domainName, loadBalancerDns).Success?
    ensures SelectsExactly(Select(WithName(fetched, domainName), domainName, loadBalancerDns).value,
                           fetched, domainName, loadBalancerDns)
    ensures multiset(Select(WithName(fetched, domainName), domainName, loadBalancerDns).value)
            <= multiset(fetched)
  {
    var named := WithName(fetched, domainName);
    var selected := Select(named, domainName, loadBalancerDns).value;
    SubsequenceTransitive(selected, named, fetched);
    SubsequenceMultiset(selected, fetched);
  }

  /** `deleteRecords(domainName, loadBalancerDns, zoneId)` as called by `run`. */
  method Prune(inputs: ActionInputs, responses: seq<Response>)
    returns (res: Result<seq<ChangeRequest>, PruneError>)
    ensures Cutoff(responses) == |responses| ==> res == Failure(FetchFailed(ResponsesExhausted))
    ensures Cutoff(responses) < |responses| && responses[Cutoff(responses)].Rejected?
            ==> res == Failure(FetchFailed(ListFailed(responses[Cutoff(responses)].reason)))
    ensures res.Failure? && res.error.FetchFailed? ==>
              Cutoff(responses) == |responses| || responses[Cutoff(responses)].Rejected?
    ensures Cutoff(responses) < |responses| && responses[Cutoff(responses)].Listed? ==>
              var d := ToLower(inputs.domainName);
              var named := WithName(Flatten(responses[..Cutoff(responses) + 1]), d);
              (res.Success? <==> forall r :: r in named ==> !Throws(r, d, ToLower(inputs.loadBalancerDns)))
    ensures res.Failure? && res.error.SelectFailed? ==>
              && Cutoff(responses) < |responses|
              && var d := ToLower(inputs.domainName);
                 var named := WithName(Flatten(responses[..Cutoff(responses) + 1]), d);
                 var i := FirstThrowing(named, d, ToLower(inputs.loadBalancerDns));
                 && i < |named|
                 && res.error.selectError == GeoLocationMissing(named[i])
                 && named[i].name == d && named[i].recordType == "A" && named[i].geoLocation.None?
    ensures res.Success? ==> Cutoff(responses) < |responses|
    ensures res.Success? ==> forall q :: q in res.value ==> q.hostedZoneId == inputs.hostedZoneId
    ensures res.Success? ==> forall q :: q in res.value ==> DeletedRecord(q).Some?
    ensures res.Success? ==>
              SelectsExactly(DeletedRecords(res.value), Flatten(responses[..Cutoff(responses) + 1]),
                             ToLower(inputs.domainName), ToLower(inputs.loadBalancerDns))
  {
    var params := Normalise(inputs);
    var fetched := FetchRecords(params.hostedZoneId, params.domainName, responses);
    if fetched.Failure? {
      return Failure(FetchFailed(fetched.error));
    }
    var records := fetched.value.records;
    NoneThrows(records, params.domainName, params.loadBalancerDns);
    var selected := Select(records, params.domainName, params.loadBalancerDns);
    if selected.Failure? {
      ghost var i := FirstThrowing(records, params.domainName, params.loadBalancerDns);
      assert records[i] in records;
      return Failure(SelectFailed(selected.error));
    }
    var toDelete := selected.value;
    res := Success(DeleteRequests(params.hostedZoneId, toDelete));
    DeleteRequestsRoundTrip(params.hostedZoneId, toDelete);
    NameFilterThenSelect(fetched.value.accumulated, params.domainName, params.loadBalancerDns);
  }

  const ScenarioDomain := "app.example.com"
  const ScenarioBalancer := "lb.example.com"
  const OtherBalancer := "lb2.example.com"
  const DefaultRecord := ResourceRecordSet(ScenarioDomain, "A", Some("default"),
    Some(GeoLocation(None, Some("*"), None)), Some(AliasTarget("Z2LB", ScenarioBalancer, false)), None, [])
  const EuropeRecord := ResourceRecordSet(ScenarioDomain, "A", Some("eu"),
    Some(GeoLocation(Some("EU"), None, None)), Some(AliasTarget("Z2LB", ScenarioBalancer, false)), None, [])
  const NeighbourRecord := ResourceRecordSet("other.example.com", "A", Some("eu"),
    Some(GeoLocation(Some("EU"), None, None)), Some(AliasTarget("Z2LB", ScenarioBalancer, false)), None, [])

  /** The neighbouring name is dropped by the exact-name filter. */
  lemma ScenarioNameFilter()
    ensures WithName([DefaultRecord, EuropeRecord, NeighbourRecord], ScenarioDomain)
            == [DefaultRecord, EuropeRecord]
  {
  }

  /** Of the default and the European record only the European one is selected for
      this load balancer, and neither for another. */
  lemma ScenarioSelection()
    ensures Select([DefaultRecord, EuropeRecord], ScenarioDomain, ScenarioBalancer) == Success([EuropeRecord])
    ensures Select([DefaultRecord, EuropeRecord], ScenarioDomain, OtherBalancer) == Success([])
  {
    var rs := [DefaultRecord, EuropeRecord];
    var tail := [EuropeRecord];
    assert |OtherBalancer| != |ScenarioBalancer|;
    assert rs[1..] == tail && tail[1..] == [];
    assert Select(tail[1..], ScenarioDomain, ScenarioBalancer) == Success([]);
    assert Select(tail[1..], ScenarioDomain, OtherBalancer) == Success([]);
    assert KeepRecord(DefaultRecord, ScenarioDomain, ScenarioBalancer) == Success(false);
    assert KeepRecord(EuropeRecord, ScenarioDomain, ScenarioBalancer) == Success(true);
    assert tail[0] == EuropeRecord && [tail[0]] + [] == tail;
    assert Select(tail, ScenarioDomain, ScenarioBalancer) == Success([EuropeRecord]);
    assert KeepRecord(DefaultRecord, ScenarioDomain, OtherBalancer) == Success(false);
    assert KeepRecord(EuropeRecord, ScenarioDomain, OtherBalancer) == Success(false);
    assert Select(tail, ScenarioDomain, OtherBalancer) == Success([]);
  }
}
