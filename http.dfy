/** The one shape every HTTP round trip of the clients takes in this model. */
module Http {
  import opened Wrappers

  /** How one HTTP round trip ended, as the client sees it: the request could
      not be built, the transport failed, or a status arrived together with the
      decoded JSON body (`None` when decoding failed). */
  datatype HttpOutcome<T> = RequestBuildFailed | TransportFailed | Responded(status: int, body: Option<T>)

  const StatusOK: int := 200
}
