/** Success values, error codes and arithmetic shared by the models. */
module Wrappers {
  datatype Option<+T> = None | Some(value: T)

  /** Business error codes, errcode/codes.go. Only the codes the models return. */
  datatype Code =
    | ParamInvalid | Unauthorized | Forbidden | NotFound
    | UserNotFound | UserDisabled | UserAlreadyExists
    | ClusterNotFound | ResourceConflict | DownloadCodeInvalid | IssuedTokenInvalid
    | RoleAlreadyExists | RoleNotFound | UserGroupAlreadyExists | UserGroupNotFound
    | UpstreamK8sError | AgentTunnelUnavailable

  datatype Result<+T> = Ok(value: T) | Err(code: Code)

  function Min(a: int, b: int): int {
    if a <= b then a else b
  }
}
