/** Vocabulary shared by every module of the model. */
module Common {

  datatype Option<+T> = None | Some(value: T)

  datatype Result<+T, +E> = Ok(value: T) | Err(error: E)

  /** A SHA-256 digest, idealised: it determines the hashed value. */
  datatype Digest<+T> = Sha256(preimage: T)

  /** Identifiers produced by uuid4, and every other short text. */
  type Id = string
}
