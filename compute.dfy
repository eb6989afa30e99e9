/**
 * What the modelled code sees of the Compute Engine provider: instances as
 * reported by the instance listing, and the answer to a zone-operation status
 * query, which either carries the operation's status or fails with an I/O
 * error.
 */
module Compute {

  /** A provider-side instance: its name, zone, lifecycle status and labels. */
  datatype Instance = Instance(name: string, zone: string, status: string, labels: map<string, string>)

  /** The answer to one status query for a zone operation. */
  datatype ZoneOperationResponse = Operation(status: string) | IOException

  /** The provider's answers at the moment of a poll, by (zone, operation id).
      The project id the real query also carries is fixed per cloud. */
  type ZoneOperations = (string, string) -> ZoneOperationResponse

  const Done: string := "DONE"

  /** An operation is done exactly when the provider answers with status
      "DONE"; a failed query counts as not done. */
  function IsZoneOperationDone(zoneOperations: ZoneOperations, zone: string, operationId: string): (done: bool)
    ensures done <==> zoneOperations(zone, operationId) == Operation("DONE")
    ensures zoneOperations(zone, operationId).IOException? ==> !done
  {
    match zoneOperations(zone, operationId)
    case Operation(status) => status == Done
    case IOException => false
  }
}
