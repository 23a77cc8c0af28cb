/** Outcome types shared by the two Lambda handlers. */
module Results {

  datatype Option<+T> = None | Some(value: T)

  /** A Go `(value, error)` pair: on Failure the Go code returns the zero value beside the error. */
  datatype Result<+T, +E> = Success(value: T) | Failure(error: E)

  /** What an AWS SDK call hands back: its output, an `awserr.Error` carrying a
      service error code, or any other error (a transport failure, say). */
  datatype AwsReply<+T> = Replied(value: T) | ServiceError(code: string) | OtherError

  /** The CloudFormation custom-resource request types. */
  datatype RequestType = Create | Update | Delete

  /** What a handler returns to CloudFormation: a physical resource id and the
      data map (a nil map is the empty map here). */
  datatype Response = Response(physicalResourceId: string, data: map<string, string>)
}
