/** The values the typed API handle passes around: payload bytes, the crate's
    error, the parameter records, object lists, statuses and watch events. */
module KubeTypes {
  import opened Wrappers

  type Bytes = seq<bv8>

  /** An error reported by the JSON encoder; only its message is kept. */
  datatype JsonError = JsonError(message: string)

  /** The crate's error. A JSON encoding error is wrapped by `SerdeError`; the
      request builder and the client may fail with any value of this type. */
  datatype Error = SerdeError(cause: JsonError) | OtherError(message: string)

  /** The crate's `Result`. */
  type ApiResult<T> = Result<T, Error>

  /** Parameter records handed to the request builder untouched; their
      settings are opaque to the handle. */
  datatype PostParams = PostParams(settings: map<string, string>)
  datatype DeleteParams = DeleteParams(settings: map<string, string>)
  datatype ListParams = ListParams(settings: map<string, string>)
  datatype PatchParams = PatchParams(settings: map<string, string>)

  /** List-level metadata: the version to watch from and a continuation token. */
  datatype ListMeta = ListMeta(resourceVersion: Option<string>, continueToken: Option<string>)

  datatype ObjectList<K> = ObjectList(metadata: ListMeta, items: seq<K>)

  /** A status object the server returns instead of a resource. */
  datatype Status = Status(status: string, message: string, reason: string, code: int)

  datatype Either<L, R> = Left(left: L) | Right(right: R)

  /** The error payload of an `ERROR` watch event. */
  datatype ErrorResponse = ErrorResponse(status: string, message: string, reason: string, code: int)

  /** One decoded watch frame. */
  datatype WatchEvent<K> =
    | Added(resource: K)
    | Modified(resource: K)
    | Deleted(resource: K)
    | Error(response: ErrorResponse)
}
