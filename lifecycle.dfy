/** The secret's whole life: written through the insert or update listener,
    then read back by the after-render listener. */
module Lifecycle {
  import opened Wrappers
  import opened Reporter
  import opened OfficePassword
  import opened WriteHooks
  import opened RenderHook

  /** A raw password stored through a write listener is the password the
      sandbox later receives, provided the encryption service decrypts its
      own (non-empty) ciphertext back to the plaintext and the template
      carries no explicit `password`. */
  lemma WrittenPasswordReachesSandbox(s: Settings, officeDocumentType: Option<string>, content: Bytes, host: Host)
    requires Truthy(s.passwordRaw) && s.password.None? && s.enabled != Some(false) && officeDocumentType.Some?
    requires host.encryption.encrypt(s.passwordRaw.value).Ok?
    requires host.encryption.encrypt(s.passwordRaw.value).value != ""
    requires host.encryption.decrypt(host.encryption.encrypt(s.passwordRaw.value).value) == Ok(s.passwordRaw.value)
    ensures GuardWrite(Some(s), host.encryption.encrypt).thrown.None?
    ensures Decide(GuardWrite(Some(s), host.encryption.encrypt).settings, officeDocumentType, content, host)
      == SandboxOutcome(
           host.executeScript(ScriptInput(host.base64.encode(content), s.passwordRaw.value)),
           host.base64)
  {
  }

  /** With no root secret the write throws the remediation text and the raw
      password stays in the (unpersisted) payload; nothing is encrypted. */
  lemma MissingSecretAbortsWrite(s: Settings, encrypt: string -> Result<string, EncryptionError>, message: string)
    requires Truthy(s.passwordRaw)
    requires encrypt(s.passwordRaw.value) == Err(EncryptionError(NoSecret, message))
    ensures GuardWrite(Some(s), encrypt)
      == WriteResult(Some(s), Some(EncryptionError(NoSecret, MissingSecretMessage)))
  {
  }
}
