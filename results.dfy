/** Failure-carrying values shared by the API client and the resource layer. */
module Results {

  datatype Option<+T> = None | Some(value: T)

  /** The errors the client hands back to its callers. */
  datatype Error =
    | MarshalError                                  // json.Marshal refused a request body
    | Failure(reason: string)                       // a transport or NewDomainRecord error; only their oracles make one
    | DomainNotFound(domain: string, cause: Error)  // populateDomainInfo's wrapping of a GetDomain failure

  datatype Result<+T> = Ok(value: T) | Err(error: Error)
}
