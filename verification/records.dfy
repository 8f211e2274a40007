/** The Route 53 resource record set, as the listing call returns it and the
    delete call takes it back. Only the fields the pruner reads are interpreted;
    the rest are carried along so that "the record, unchanged" means something. */
module Records {
  import opened Wrappers

  /** `AliasTarget` of a record: the resource the name points at. */
  datatype AliasTarget = AliasTarget(
    hostedZoneId: string,
    dnsName: string,
    evaluateTargetHealth: bool)

  /** `GeoLocation` of a geolocation record. A `countryCode` of "*" marks the
      default (catch-all) location. */
  datatype GeoLocation = GeoLocation(
    continentCode: Option<string>,
    countryCode: Option<string>,
    subdivisionCode: Option<string>)

  /** One resource record set. Every field the provider may omit is an `Option`. */
  datatype ResourceRecordSet = ResourceRecordSet(
    name: string,
    recordType: string,
    setIdentifier: Option<string>,
    geoLocation: Option<GeoLocation>,
    aliasTarget: Option<AliasTarget>,
    ttl: Option<nat>,
    resourceRecords: seq<string>)

  /** JavaScript truthiness of an optional string: defined and not "". */
  predicate Truthy(s: Option<string>) {
    s.Some? && s.value != ""
  }
}
