/** The registration record stored in each instance node (fitpay.turbine.model.Service),
    and the decoding of a node's data into it. */
module ServiceModel {
  import opened Exceptions

  datatype Service = Service(host: string, port: int)

  /** A node's data as the JSON decoder sees it: a Service record, or bytes that
      do not decode as one (malformed JSON, the literal null, a wrong shape). */
  datatype Payload = ServiceJson(service: Service) | Garbage

  /** Jackson's readValue(json, Service.class) on the data read from `path`. */
  function DecodeService(path: string, payload: Payload): (r: Result<Service>)
    ensures r.Ok? <==> payload.ServiceJson?
    ensures r.Ok? ==> r.value == payload.service
    ensures r.Err? ==> r.error == DecodeFailed(path)
  {
    match payload
    case ServiceJson(s) => Ok(s)
    case Garbage => Err(DecodeFailed(path))
  }
}
