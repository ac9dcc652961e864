/** The token record and the token file, seen as an abstract value. Opening,
    truncating, JSON encoding and decoding are external; their outcomes are
    supplied as oracle results. */
module TokenStore {

  /** The fields of an OAuth2 token that the orchestration looks at or keeps.
      `expiry` is an opaque timestamp. */
  datatype Token = Token(accessToken: string, tokenType: string, refreshToken: string, expiry: int)

  /** The token file: absent, holding one whole token, or left truncated by a
      write that failed after the file had been opened with truncation. */
  datatype FileState = Missing | Stored(token: Token) | Corrupt

  /** What a call to `store` reports: success, failure to open the file (the
      file is untouched), or failure while encoding into the already truncated
      file. */
  datatype StoreResult = StoreOk | OpenFailed(msg: string) | EncodeFailed(msg: string)

  /** What a call to `load` reports. */
  datatype LoadResult = LoadOk(token: Token) | LoadFailed(msg: string)

  /** The file after one `store(file, token)` whose outcome is `s`. */
  function AfterStore(file: FileState, token: Token, s: StoreResult): (after: FileState)
    ensures s.StoreOk? ==> after == Stored(token)
    ensures s.OpenFailed? ==> after == file
    ensures s.EncodeFailed? ==> after == Corrupt
    ensures after.Missing? ==> file.Missing? && s.OpenFailed?
  {
    match s
    case StoreOk => Stored(token)
    case OpenFailed(_) => file
    case EncodeFailed(_) => Corrupt
  }
}
