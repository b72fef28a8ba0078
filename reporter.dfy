/** The host services the extension calls through the `reporter` object.
    Their implementations are not part of this model: each one is a
    function-valued field, so every property proved below holds for ANY
    encryption service, sandbox and base64 codec. */
module Reporter {
  import opened Wrappers

  newtype byte = x: int | 0 <= x < 256

  /** A Node.js Buffer. */
  type Bytes = seq<byte>

  /** Which marker flag the encryption service put on an error it threw:
      `encryptionNoSecret`, `encryptionDecryptFail`, or neither. */
  datatype FailureKind = NoSecret | DecryptFail | Other

  /** An error thrown by `reporter.encryption.encrypt` or `decrypt`. */
  datatype EncryptionError = EncryptionError(kind: FailureKind, message: string)

  /** `reporter.encryption`: the process-wide root secret is hidden inside
      these two functions. */
  datatype Encryption = Encryption(
    encrypt: string -> Result<string, EncryptionError>,
    decrypt: string -> Result<string, EncryptionError>)

  /** The input object handed to the sandboxed script. */
  datatype ScriptInput = ScriptInput(officeContent: string, password: string)

  /** The `{message, stack}` object that crosses the isolation boundary. */
  datatype ScriptError = ScriptError(message: string, stack: string)

  /** What `reporter.executeScript` yields: the script's success object, its
      in-band `{error}` object, or a rejection of the call itself
      (isolation crash, timeout). */
  datatype ScriptReply =
    | Completed(officeContent: string)
    | InBandError(error: ScriptError)
    | Rejected(error: ScriptError)

  /** `buffer.toString('base64')` and `Buffer.from(s, 'base64')`. */
  datatype Base64 = Base64(encode: Bytes -> string, decode: string -> Bytes)

  /** The parts of `reporter` the listeners use. */
  datatype Host = Host(
    encryption: Encryption,
    executeScript: ScriptInput -> ScriptReply,
    base64: Base64)
}
