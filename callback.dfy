/**
 * The custom-resource protocol: the lifecycle event the orchestrator sends,
 * the response record the handler PUTs back to it, and the endpoint that
 * receives those PUTs.
 */
module Callback {
  import opened Wrappers

  datatype RequestType = Create | Update | Delete

  datatype ResourceProperties = ResourceProperties(name: string, description: string)

  datatype Event = Event(
    requestType: RequestType,
    resourceProperties: ResourceProperties,
    responseUrl: string,
    stackId: string,
    requestId: string,
    logicalResourceId: string)

  datatype Status = Success | Failed

  /** The `Data` object of a response: what Create reports, or what Delete
      reports (each identifier absent when that secret was not found). */
  datatype ResponseData =
    | CreatedData(publicKey: string, publicKeyArn: string, privateKeyArn: string)
    | DeletedData(deletedPublicArn: Option<string>, deletedPrivateArn: Option<string>)

  datatype Response = Response(
    status: Status,
    physicalResourceId: string,
    stackId: string,
    requestId: string,
    logicalResourceId: string,
    data: Option<ResponseData>,
    reason: Option<string>)

  function RequestTypeText(t: RequestType): string {
    match t
    case Create => "Create"
    case Update => "Update"
    case Delete => "Delete"
  }

  /** The reason a failed Create or Delete reports: `<RequestType> failed`. */
  function FailureReason(t: RequestType): string {
    RequestTypeText(t) + " failed"
  }

  /** The response record for `event`: the physical resource id is the key
      pair's name, the correlation ids are the event's, and a reason is kept
      only when it is a non-empty string. */
  function ResponseFor(event: Event, status: Status, data: Option<ResponseData>, reason: Option<string>): Response {
    Response(status, event.resourceProperties.name, event.stackId, event.requestId,
             event.logicalResourceId, data,
             if reason.Some? && reason.value != "" then reason else None)
  }

  /** The response echoes the event's correlation fields. */
  predicate Echoes(r: Response, event: Event) {
    && r.physicalResourceId == event.resourceProperties.name
    && r.stackId == event.stackId
    && r.requestId == event.requestId
    && r.logicalResourceId == event.logicalResourceId
  }

  /** How one PUT to the response URL went: an HTTP answer (whose status
      code may be missing) or a transport error. */
  datatype Delivery = Answered(statusCode: Option<int>) | TransportError

  /** A PUT counts as failed on a transport error or a status of 400 or more. */
  predicate DeliveryFailed(d: Delivery) {
    d.TransportError? || (d.statusCode.Some? && d.statusCode.value >= 400)
  }

  /** The orchestrator's response URL: every PUT the handler issues is
      recorded, in order, whether or not its delivery failed. */
  class CallbackEndpoint {
    var attempts: seq<Response>

    constructor ()
      ensures attempts == []
    {
      attempts := [];
    }

    method Put(response: Response, delivery: Delivery) returns (delivered: bool)
      modifies this
      ensures attempts == old(attempts) + [response]
      ensures delivered <==> !DeliveryFailed(delivery)
    {
      attempts := attempts + [response];
      delivered := !DeliveryFailed(delivery);
    }
  }

  /** Builds the response record field by field, then adds the reason when
      one is given. */
  method AssembleResponse(event: Event, status: Status, data: Option<ResponseData>, reason: Option<string>)
    returns (response: Response)
    ensures response == ResponseFor(event, status, data, reason)
    ensures Echoes(response, event) && response.status == status && response.data == data
    ensures response.reason.Some? <==> reason.Some? && reason.value != ""
    ensures response.reason.Some? ==> response.reason == reason
  {
    response := Response(status, event.resourceProperties.name, event.stackId, event.requestId,
                         event.logicalResourceId, data, None);
    if reason.Some? && reason.value != "" {
      response := response.(reason := reason);
    }
  }

  /** sendResponse: assemble the record and PUT it once; the answer says
      whether the delivery succeeded. */
  method SendResponse(callback: CallbackEndpoint, event: Event, status: Status,
                      data: Option<ResponseData>, reason: Option<string>, delivery: Delivery)
    returns (delivered: bool)
    modifies callback
    ensures callback.attempts == old(callback.attempts) + [ResponseFor(event, status, data, reason)]
    ensures delivered <==> !DeliveryFailed(delivery)
  {
    var response := AssembleResponse(event, status, data, reason);
    delivered := callback.Put(response, delivery);
  }
}
