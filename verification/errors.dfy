/** The crate's error values: the API's own response errors and the client error. */
module Errors {

  /** Response error reported by, or inferred from, the device. */
  datatype TapoResponseError =
    | InvalidRequest
    | InvalidResponse
    | MalformedRequest
    | InvalidParameters
    | InvalidPublicKey
    | InvalidCredentials
    | SessionTimeout
    | EmptyResult
    | Unknown(code: int)

  /** Client error. `Serde`, `Http` and `Other` carry only a message here. */
  datatype Error =
    | Tapo(response: TapoResponseError)
    | Validation(field: string, message: string)
    | Serde(detail: string)
    | Http(detail: string)
    | DeviceNotFound
    | Other(detail: string)
}
