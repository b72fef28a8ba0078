/** The after-render listener: when protection applies, it resolves the
    password, has the sandbox encrypt the rendered office file, and replaces
    the response content with the protected file. */
module RenderHook {
  import opened Wrappers
  import opened Reporter
  import opened OfficePassword

  /** What the listener throws. `Reported` is an error made by
      `reporter.createError`; `Rethrown` is the decrypt error itself, with
      its message possibly rewritten; `ScriptRejected` is the rejection of
      `executeScript`, which the listener does not catch. */
  datatype RenderError =
    | Reported(message: string, statusCode: Option<int>, weak: bool, original: Option<ScriptError>)
    | Rethrown(cause: EncryptionError)
    | ScriptRejected(rejection: ScriptError)

  /** The listener's decision: return early, throw, or replace `res.content`. */
  datatype Outcome = Skip | Fail(error: RenderError) | Replace(content: Bytes)

  /** Protection applies when the template has an `officePassword` object
      whose `enabled` is not strictly `false`, and the response declares an
      office document type. */
  predicate Applies(s: Option<Settings>, officeDocumentType: Option<string>) {
    s.Some? && s.value.enabled != Some(false) && officeDocumentType.Some?
  }

  /** The catch block around decrypt: "no secret" is tested before
      "decrypt failed"; any other error keeps its message. */
  function RewriteDecryptError(e: EncryptionError): (r: EncryptionError)
    ensures r.kind == e.kind
    ensures e.kind == NoSecret ==> r.message == MissingSecretMessage
    ensures e.kind == DecryptFail ==> r.message == DecryptFailedMessage
    ensures e.kind == Other ==> r == e
  {
    match e.kind
    case NoSecret => e.(message := MissingSecretMessage)
    case DecryptFail => e.(message := DecryptFailedMessage)
    case Other => e
  }

  /** The password handed to the sandbox. The listener reads the
      `password` property, never `passwordRaw`. */
  function ResolvePassword(s: Settings, decrypt: string -> Result<string, EncryptionError>): (r: Result<string, RenderError>)
    // an explicit password wins and is used as it is, even when empty
    ensures s.password.Some? ==> r == Ok(s.password.value)
    // no password at all: the configuration error with status code 4000
    ensures s.password.None? && !Truthy(s.passwordSecure) ==>
      r == Err(Reported(PasswordNotSetMessage, Some(PasswordNotSetStatusCode), false, None))
    // otherwise the stored ciphertext is decrypted
    ensures s.password.None? && Truthy(s.passwordSecure) ==>
      match decrypt(s.passwordSecure.value)
      case Ok(p) => r == Ok(p)
      case Err(e) => r == Err(Rethrown(RewriteDecryptError(e)))
    // every failure is one of the two documented kinds
    ensures r.Err? ==> r.error.Rethrown? || (r.error.Reported? && r.error.statusCode == Some(4000))
  {
    if s.password.Some? then Ok(s.password.value)
    else if !Truthy(s.passwordSecure) then
      Err(Reported(PasswordNotSetMessage, Some(PasswordNotSetStatusCode), false, None))
    else
      match decrypt(s.passwordSecure.value)
      case Ok(p) => Ok(p)
      case Err(e) => Err(Rethrown(RewriteDecryptError(e)))
  }

  /** How the listener handles what `executeScript` yields. */
  function SandboxOutcome(reply: ScriptReply, base64: Base64): (o: Outcome)
    // only a successful script replaces the content, with its decoded output
    ensures o.Replace? <==> reply.Completed?
    ensures reply.Completed? ==> o == Replace(base64.decode(reply.officeContent))
    // an in-band error becomes a weak error wrapping the original message and stack
    ensures reply.InBandError? ==>
      o == Fail(Reported(AddPasswordFailedMessage, None, true, Some(reply.error)))
    // a rejected call propagates unchanged
    ensures reply.Rejected? ==> o == Fail(ScriptRejected(reply.error))
  {
    match reply
    case Completed(content) => Replace(base64.decode(content))
    case InBandError(error) => Fail(Reported(AddPasswordFailedMessage, None, true, Some(error)))
    case Rejected(error) => Fail(ScriptRejected(error))
  }

  /** The whole decision of the after-render listener, from the template's
      `officePassword`, `res.meta.officeDocumentType` and `res.content`. */
  function Decide(s: Option<Settings>, officeDocumentType: Option<string>, content: Bytes, host: Host): (o: Outcome)
    // the listener returns early exactly when protection does not apply
    ensures o.Skip? <==> !Applies(s, officeDocumentType)
    // a password that cannot be resolved stops the listener before the sandbox
    ensures Applies(s, officeDocumentType) && ResolvePassword(s.value, host.encryption.decrypt).Err? ==>
      o == Fail(ResolvePassword(s.value, host.encryption.decrypt).error)
    // otherwise the sandbox gets the base64 content and the resolved password
    ensures Applies(s, officeDocumentType) && ResolvePassword(s.value, host.encryption.decrypt).Ok? ==>
      o == SandboxOutcome(
        host.executeScript(ScriptInput(host.base64.encode(content), ResolvePassword(s.value, host.encryption.decrypt).value)),
        host.base64)
  {
    if !Applies(s, officeDocumentType) then Skip
    else
      match ResolvePassword(s.value, host.encryption.decrypt)
      case Err(e) => Fail(e)
      case Ok(password) =>
        SandboxOutcome(host.executeScript(ScriptInput(host.base64.encode(content), password)), host.base64)
  }

  /** An explicit `password` is never decrypted: the decision does not depend
      on the decrypt service. */
  lemma ExplicitPasswordSkipsDecrypt(
    s: Settings, officeDocumentType: Option<string>, content: Bytes, host: Host,
    decrypt: string -> Result<string, EncryptionError>)
    requires s.password.Some?
    ensures Decide(Some(s), officeDocumentType, content, host)
      == Decide(Some(s), officeDocumentType, content, host.(encryption := host.encryption.(decrypt := decrypt)))
  {
  }

  /** `passwordRaw` plays no part in the render decision. */
  lemma RawPasswordIgnoredAtRender(
    s: Settings, raw: Option<string>, officeDocumentType: Option<string>, content: Bytes, host: Host)
    ensures Decide(Some(s), officeDocumentType, content, host)
      == Decide(Some(s.(passwordRaw := raw)), officeDocumentType, content, host)
  {
  }

  /** The response of the render: `content` is `res.content`, and
      `officeDocumentType` is `res.meta.officeDocumentType`. */
  class Response {
    var content: Bytes
    var officeDocumentType: Option<string>

    constructor (content: Bytes, officeDocumentType: Option<string>)
      ensures this.content == content && this.officeDocumentType == officeDocumentType
    {
      this.content := content;
      this.officeDocumentType := officeDocumentType;
    }
  }

  /** The after-render listener: it decides, then its only state change is
      the final assignment to `res.content`. A skipped or failed render
      leaves the content exactly as rendered. */
  method AfterRender(template: Template, res: Response, host: Host) returns (thrown: Option<RenderError>)
    modifies res`content
    ensures var o := Decide(ValueOf(template.officePassword), res.officeDocumentType, old(res.content), host);
      (o.Replace? ==> thrown.None? && res.content == o.content) &&
      (o.Skip? ==> thrown.None? && res.content == old(res.content)) &&
      (o.Fail? ==> thrown == Some(o.error) && res.content == old(res.content))
  {
    var outcome := Decide(ValueOf(template.officePassword), res.officeDocumentType, res.content, host);
    match outcome {
      case Skip =>
        thrown := None;
      case Fail(e) =>
        thrown := Some(e);
      case Replace(protected) =>
        res.content := protected;
        thrown := None;
    }
  }
}
