/** Optional values, and the outcome of a call that can fail with a Go error chain. */
module Wrappers {
  datatype Option<+T> = None | Some(value: T)

  /** The names under which AivenFail and LocalFail record a failure. */
  datatype Operation =
    | ResolveServiceName | ValidatePool | GetService | GetCA | GetOrInitSecret | ServiceUserNameWithSuffix
    | GetServiceUser | CreateServiceUser | UpdateServiceUser | CreateCredStores | UpdateACL
    | ResolveOpenSearchInstance | ResolveValkeyInstance
    | HandleProtectedAndTimeLimited | Hash | NeedsSynchronization | CreateSecret | SaveSecret

  /** The text of an error, as far as errors are told apart. */
  datatype Message =
    | Text(text: string)
    | OperationFailed(operation: Operation)
    | UnknownError | ConnectionLost | ClusterUnavailable | CannotParseTime
    | InvalidSecretName | NoProjectCA | PoolNotAllowed | BadServiceUserName | NoService | NoCredStores
    | MissingAnnotation | NotFoundInNamespace | NotRunning | LookupFailed
    | AddressesNotCached | AddressesExpired | ResourceDeleted | UnsupportedType

  /** A Go error. `cause` is what `%w` wraps; the three sentinels are the package variables of
      pkg/utils, and AivenError is the value type of the Aiven client. */
  datatype Error =
    | Plain(message: Message)
    | NotFound
    | Unrecoverable
    | NotReady
    | AivenError(status: int, text: string)
    | Wrapped(message: Message, cause: Error)

  datatype Result<+T> = Ok(value: T) | Err(error: Error)
}
