/** What the admission chain hands to a plugin and what it gets back. A plugin's
    in-place mutation of the request's object is modelled by returning the
    (possibly rewritten) object in the response. */
module Admission {
  import opened Api

  datatype Operation = Create | Update | Delete | Connect

  /** The attributes of one API request: the submitted object, the kind string
      the request claims, the resource and subresource it targets, and the
      operation. An empty `subresource` means the primary resource. */
  datatype Attributes = Attributes(
    obj: Object,
    kind: string,
    resource: string,
    subresource: string,
    operation: Operation)

  /** The one way the gate can fail: the request targets pods but the object
      is not a pod. */
  datatype AdmissionError = UnexpectedObjectType

  datatype Status = Allowed | Denied(error: AdmissionError)

  datatype Response = Response(status: Status, obj: Object)
}
