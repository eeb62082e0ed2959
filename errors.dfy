/** The failures Present and CleanUp report, one constructor per `fmt.Errorf`
    (or propagated error) in main.go. Error text is not modelled, only which
    failure occurred and the names it carries. */
module Errors {
  import opened Wrappers

  datatype Error =
    | ConfigDecodeError(reason: string)                               // main.go:226
    | SecretUnavailable(reason: string)                               // main.go:89
    | SecretKeyNotFound(key: string, secret: string, namespace: string) // main.go:94
    | DomainQueryFailed(reason: string)                               // main.go:242
    | NoMatchingDomain(domain: string)                                // main.go:246
    | TooManyDomains(domain: string)                                  // main.go:250
    | RecordsUnavailable(cause: Option<string>)                       // main.go:128, cause nil on an empty listing
    | RecordQueryFailed(reason: string)                               // main.go:135, 185 (from 268)
    | RecordCreateFailed(reason: string)                              // main.go:154
    | RecordDeleteFailed(reason: string)                              // main.go:191
}
