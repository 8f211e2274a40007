/** Choosing the records to delete: the callback passed to `records.filter` in
    `deleteRecords` (index.js:10-14), and the filter itself. */
module Selection {
  import opened Wrappers
  import opened Records
  import opened Subsequences

  /** The TypeError the callback throws when it reads a field of a missing `GeoLocation`. */
  datatype SelectError = GeoLocationMissing(record: ResourceRecordSet)

  predicate AliasMatches(r: ResourceRecordSet, loadBalancerDns: string) {
    r.aliasTarget.Some? && r.aliasTarget.value.dnsName == loadBalancerDns
  }

  /** The default record: type A, named after the domain, located at country "*". */
  predicate IsDefaultRecord(r: ResourceRecordSet, domainName: string) {
    && r.recordType == "A"
    && r.name == domainName
    && r.geoLocation.Some?
    && r.geoLocation.value.countryCode == Some("*")
  }

  /** A geolocation record aliased to the load balancer, with a continent or country code. */
  predicate IsGeoRecord(r: ResourceRecordSet, loadBalancerDns: string) {
    && r.recordType == "A"
    && AliasMatches(r, loadBalancerDns)
    && r.geoLocation.Some?
    && (Truthy(r.geoLocation.value.continentCode) || Truthy(r.geoLocation.value.countryCode))
  }

  /** The records the pruner is meant to delete. */
  predicate IsCandidate(r: ResourceRecordSet, domainName: string, loadBalancerDns: string) {
    IsGeoRecord(r, loadBalancerDns) && !IsDefaultRecord(r, domainName)
  }

  /** The callback dereferences `GeoLocation` of a type-A record when its name is the
      domain (line 11) or its alias is the load balancer (line 12). */
  predicate Throws(r: ResourceRecordSet, domainName: string, loadBalancerDns: string) {
    && r.recordType == "A"
    && r.geoLocation.None?
    && (r.name == domainName || AliasMatches(r, loadBalancerDns))
  }

  /** The filter callback, evaluated as the source evaluates it: `isDefaultRecord`
      first, then `isGeoRecord`, each short-circuiting left to right. */
  function KeepRecord(r: ResourceRecordSet, domainName: string, loadBalancerDns: string)
    : (res: Result<bool, SelectError>)
    ensures res.Failure? <==> Throws(r, domainName, loadBalancerDns)
    ensures res.Failure? ==> res.error == GeoLocationMissing(r)
    ensures res.Success? ==> (res.value <==> IsCandidate(r, domainName, loadBalancerDns))
  {
    if r.recordType == "A" && r.name == domainName && r.geoLocation.None? then
      Failure(GeoLocationMissing(r))
    else
      var isDefault := r.recordType == "A" && r.name == domainName
        && r.geoLocation.value.countryCode == Some("*");
      if r.recordType == "A" && r.aliasTarget.Some? && r.aliasTarget.value.dnsName == loadBalancerDns
         && r.geoLocation.None? then
        Failure(GeoLocationMissing(r))
      else
        var isGeo := r.recordType == "A" && r.aliasTarget.Some?
          && r.aliasTarget.value.dnsName == loadBalancerDns
          && (Truthy(r.geoLocation.value.continentCode) || Truthy(r.geoLocation.value.countryCode));
        Success(isGeo && !isDefault)
  }

  /** The default record is kept out of the deletion list whatever its alias target
      or continent code. */
  lemma DefaultNeverSelected(r: ResourceRecordSet, domainName: string, loadBalancerDns: string)
    requires r.recordType == "A" && r.name == domainName
    requires r.geoLocation.Some? && r.geoLocation.value.countryCode == Some("*")
    ensures KeepRecord(r, domainName, loadBalancerDns) == Success(false)
  {
  }

  /** Index of the first record on which the callback throws, or `|rs|` if none does. */
  function FirstThrowing(rs: seq<ResourceRecordSet>, domainName: string, loadBalancerDns: string)
    : (i: nat)
    ensures i <= |rs|
    ensures forall j :: 0 <= j < i ==> !Throws(rs[j], domainName, loadBalancerDns)
    ensures i < |rs| ==> Throws(rs[i], domainName, loadBalancerDns)
  {
    if |rs| == 0 then 0
    else if Throws(rs[0], domainName, loadBalancerDns) then 0
    else 1 + FirstThrowing(rs[1..], domainName, loadBalancerDns)
  }

  /** The callback throws on no record exactly when the first throwing index is past the end. */
  lemma NoneThrows(rs: seq<ResourceRecordSet>, domainName: string, loadBalancerDns: string)
    ensures FirstThrowing(rs, domainName, loadBalancerDns) == |rs|
            <==> forall r :: r in rs ==> !Throws(r, domainName, loadBalancerDns)
  {
  }

  /** `records.filter(callback)`: the candidates in their original order, or the
      error of the first record the callback throws on. */
  function Select(rs: seq<ResourceRecordSet>, domainName: string, loadBalancerDns: string)
    : (res: Result<seq<ResourceRecordSet>, SelectError>)
    ensures res.Success? <==> FirstThrowing(rs, domainName, loadBalancerDns) == |rs|
    ensures res.Failure? ==> res.error == GeoLocationMissing(rs[FirstThrowing(rs, domainName, loadBalancerDns)])
    ensures res.Success? ==> IsSubsequence(res.value, rs)
    ensures res.Success? ==> forall r :: r in res.value ==> IsCandidate(r, domainName, loadBalancerDns)
    ensures res.Success? ==> forall r :: IsCandidate(r, domainName, loadBalancerDns)
                                ==> multiset(res.value)[r] == multiset(rs)[r]
  {
    if |rs| == 0 then Success([])
    else
      match KeepRecord(rs[0], domainName, loadBalancerDns)
      case Failure(e) => Failure(e)
      case Success(keep) =>
        match Select(rs[1..], domainName, loadBalancerDns)
        case Failure(e) => Failure(e)
        case Success(rest) =>
          CountStep(rs, rest, domainName, loadBalancerDns);
          if keep then
            assert ([rs[0]] + rest)[1..] == rest;
            Success([rs[0]] + rest)
          else Success(rest)
  }

  /** One step of the multiplicity argument for `Select`: the head of the list is
      counted exactly when it is a candidate. */
  lemma CountStep(rs: seq<ResourceRecordSet>, rest: seq<ResourceRecordSet>, domainName: string, loadBalancerDns: string)
    requires |rs| > 0
    requires forall r :: IsCandidate(r, domainName, loadBalancerDns) ==> multiset(rest)[r] == multiset(rs[1..])[r]
    ensures IsCandidate(rs[0], domainName, loadBalancerDns) ==>
      forall r :: IsCandidate(r, domainName, loadBalancerDns) ==> multiset([rs[0]] + rest)[r] == multiset(rs)[r]
    ensures !IsCandidate(rs[0], domainName, loadBalancerDns) ==>
      forall r :: IsCandidate(r, domainName, loadBalancerDns) ==> multiset(rest)[r] == multiset(rs)[r]
  {
    assert rs == [rs[0]] + rs[1..];
  }

  /** Selecting from an already selected list selects all of it again. */
  lemma {:induction false} SelectIdempotent(rs: seq<ResourceRecordSet>, domainName: string, loadBalancerDns: string)
    requires Select(rs, domainName, loadBalancerDns).Success?
    ensures Select(Select(rs, domainName, loadBalancerDns).value, domainName, loadBalancerDns)
            == Select(rs, domainName, loadBalancerDns)
    decreases |rs|
  {
    if |rs| > 0 {
      SelectIdempotent(rs[1..], domainName, loadBalancerDns);
      var rest := Select(rs[1..], domainName, loadBalancerDns).value;
      if KeepRecord(rs[0], domainName, loadBalancerDns).value {
        var s := [rs[0]] + rest;
        assert s[0] == rs[0] && s[1..] == rest;
      }
    }
  }
}
