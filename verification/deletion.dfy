/** The change request `deleteRecord` sends (index.js:28-41) and the one-request-
    per-record fan-out of `deleteRecords` (index.js:16-24), without sending anything. */
module Deletion {
  import opened Wrappers
  import opened Records

  /** The three actions a Route 53 change batch may carry. */
  datatype ChangeAction = CREATE | DELETE | UPSERT

  datatype Change = Change(action: ChangeAction, resourceRecordSet: ResourceRecordSet)

  datatype ChangeBatch = ChangeBatch(changes: seq<Change>)

  /** The parameters of `changeResourceRecordSets`. */
  datatype ChangeRequest = ChangeRequest(hostedZoneId: string, changeBatch: ChangeBatch)

  /** The record a request deletes, when it is a batch of exactly one DELETE. */
  function DeletedRecord(q: ChangeRequest): Option<ResourceRecordSet> {
    if |q.changeBatch.changes| == 1 && q.changeBatch.changes[0].action == DELETE then
      Some(q.changeBatch.changes[0].resourceRecordSet)
    else
      None
  }

  /** `deleteParams` of lines 29-39. */
  function DeleteRequest(hostedZoneId: string, r: ResourceRecordSet): (q: ChangeRequest)
    ensures q.hostedZoneId == hostedZoneId
    ensures DeletedRecord(q) == Some(r)
  {
    ChangeRequest(hostedZoneId, ChangeBatch([Change(DELETE, r)]))
  }

  /** A request that deletes a single record is the one `deleteRecord` builds for it:
      nothing else is in the batch and nothing else is sent. */
  lemma DeleteRequestUnique(q: ChangeRequest)
    requires DeletedRecord(q).Some?
    ensures q == DeleteRequest(q.hostedZoneId, DeletedRecord(q).value)
  {
  }

  /** `recordsToDelete.map(record => deleteRecord(zoneId, record))` (line 24), as
      the requests it would send, in the order they are issued. */
  function DeleteRequests(hostedZoneId: string, rs: seq<ResourceRecordSet>): (qs: seq<ChangeRequest>)
    ensures |qs| == |rs|
    ensures forall i :: 0 <= i < |qs| ==>
              qs[i].hostedZoneId == hostedZoneId && DeletedRecord(qs[i]) == Some(rs[i])
  {
    seq(|rs|, i requires 0 <= i < |rs| => DeleteRequest(hostedZoneId, rs[i]))
  }

  /** The records a sequence of single-DELETE requests removes, in order. */
  function DeletedRecords(qs: seq<ChangeRequest>): (rs: seq<ResourceRecordSet>)
    requires forall i :: 0 <= i < |qs| ==> DeletedRecord(qs[i]).Some?
    ensures |rs| == |qs|
  {
    seq(|qs|, i requires 0 <= i < |qs| => DeletedRecord(qs[i]).value)
  }

  /** Building the delete requests and reading back what they delete gives the
      selected records again, each exactly once and in order. */
  lemma DeleteRequestsRoundTrip(hostedZoneId: string, rs: seq<ResourceRecordSet>)
    ensures DeletedRecords(DeleteRequests(hostedZoneId, rs)) == rs
  {
  }
}
