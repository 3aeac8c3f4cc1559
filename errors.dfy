/** Every value this layer throws or rejects with, as one closed union. */
module Errors {
  import opened Wrappers
  import opened Json

  datatype Thrown =
    /** A built-in `TypeError` (a rejected `fetch`, a property read on `null`). */
    | TypeError(typeMessage: string)
    /** A built-in `RangeError` (`toISOString` on an invalid date). */
    | RangeError(rangeMessage: string)
    /** A thrown value that is not an `Error` instance. */
    | NotAnError
    /** `BackendAuthError` (api-client.ts): message and status as the payload gave them. */
    | BackendAuthError(authMessage: Json, authStatusCode: Json)
    /** `EditorSyncError` (editor-api.ts). */
    | EditorSyncError(message: string, statusCode: int)
    /** `EditorVersionConflictError` (editor-api.ts). */
    | EditorVersionConflictError(conflictMessage: string, serverVersion: int, serverUpdatedAt: string)

  /** `error instanceof Error ? error.message : undefined`. */
  function ErrorMessage(t: Thrown): (r: Option<Json>)
    ensures r.None? <==> t.NotAnError?
  {
    match t
    case TypeError(m) => Some(JStr(m))
    case RangeError(m) => Some(JStr(m))
    case NotAnError => None
    case BackendAuthError(m, _) => Some(m)
    case EditorSyncError(m, _) => Some(JStr(m))
    case EditorVersionConflictError(m, _, _) => Some(JStr(m))
  }
}
