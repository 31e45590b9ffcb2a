/** The vocabulary the translator produces: the actions the API server hands
    on to the VMM, the request wrapper that says whether the action is queued
    or must run synchronously, and the two kinds of error the MMDS translator
    can return. */
module ParsedRequest {
  import opened Json
  import opened Targets

  /** The one HTTP status the MMDS translator uses. */
  datatype StatusCode = BadRequest

  /** MMDS actions handled on the API server's normal (queued) path. */
  datatype RequestAction =
    | GetMMDS
    | GetMMDSVersion
    | PutMMDS(document: Value)
    | PatchMMDS(patch: Value)
    | SetMMDSVersion(version: MmdsVersion)

  /** MMDS actions that the VMM must carry out before the request is
      answered. */
  datatype VmmAction = SetMmdsConfiguration(config: MmdsConfig)

  /** A translated request: built by `ParsedRequest::new` from a request
      action, or by `ParsedRequest::new_sync` from a VMM action. */
  datatype ParsedRequest =
    | Queued(action: RequestAction)
    | Sync(vmmAction: VmmAction)

  /** Why a request was refused. */
  datatype Error =
    | Generic(status: StatusCode, message: string)
    | SerdeJson(cause: SerdeError)
}
