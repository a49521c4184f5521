/**
 * The token claims the server signs (section 4.1 of RFC 7519 names `iat` and
 * `exp`). Signing and verification belong to a library and appear in the
 * model as function parameters.
 */
module Jwt {
  import opened Wrappers
  import opened Store

  datatype Claims = Claims(
    userId: string,
    email: string,
    username: Option<string>,
    status: Status,
    roles: seq<string>,
    groups: seq<string>,
    permissions: seq<string>,
    iat: int,
    exp: int)

  /** Seven days, in seconds. */
  const TokenLifetime: nat := 7 * 24 * 60 * 60
}
