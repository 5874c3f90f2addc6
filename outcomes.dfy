/** Small failure-carrying datatypes shared by the model, and the abstract
    outcomes of the store calls that the model does not implement. */
module Outcomes {

  datatype Option<+T> = None | Some(value: T)

  datatype Result<+T, +E> = Ok(value: T) | Err(error: E)

  /** What the store's collaborators answer during one store operation.
      Each field is `None` when that stage succeeds, or `Some(detail)` with the
      text of the error it reports:
      - `client`: loading the AWS configuration / building the DynamoDB client;
      - `request`: the Query, GetItem or PutItem round trip;
      - `decode`: unmarshalling what a read returned (unused by writes). */
  datatype StoreFaults = StoreFaults(client: Option<string>, request: Option<string>, decode: Option<string>)

  const NoFaults := StoreFaults(None, None, None)
}
