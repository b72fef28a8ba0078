/** The before-insert and before-update listeners of the templates
    collection: a raw password in the in-flight payload is replaced by its
    encrypted form before the payload reaches storage. */
module WriteHooks {
  import opened Wrappers
  import opened Reporter
  import opened OfficePassword

  /** The payload's `officePassword` after the listener, and the error it
      rethrew, if any. */
  datatype WriteResult = WriteResult(settings: Option<Settings>, thrown: Option<EncryptionError>)

  /** The guard of the listeners: the payload has an `officePassword` object
      and its `passwordRaw` is truthy. */
  predicate HasRawPassword(s: Option<Settings>) {
    s.Some? && Truthy(s.value.passwordRaw)
  }

  /** The catch block of both listeners: only an error flagged as "no secret"
      gets the remediation text; the error object itself is rethrown. */
  function RewriteEncryptError(e: EncryptionError): (r: EncryptionError)
    ensures r.kind == e.kind
    ensures e.kind == NoSecret ==> r.message == MissingSecretMessage
    ensures e.kind != NoSecret ==> r == e
  {
    if e.kind == NoSecret then e.(message := MissingSecretMessage) else e
  }

  /** What one listener call does to the payload's `officePassword`. */
  function GuardWrite(s: Option<Settings>, encrypt: string -> Result<string, EncryptionError>): (r: WriteResult)
    // no raw password: the payload is left exactly as it was
    ensures !HasRawPassword(s) ==> r == WriteResult(s, None)
    // success: the ciphertext is stored, the raw password cleared, the
    // filled flag set, and nothing else changes
    ensures HasRawPassword(s) && encrypt(s.value.passwordRaw.value).Ok? ==>
      r.thrown.None? && r.settings == Some(s.value.(
        passwordSecure := Some(encrypt(s.value.passwordRaw.value).value),
        passwordRaw := None,
        passwordFilled := Some(true)))
    // failure: the payload is untouched and the (rewritten) error propagates
    ensures HasRawPassword(s) && encrypt(s.value.passwordRaw.value).Err? ==>
      r.settings == s && r.thrown == Some(RewriteEncryptError(encrypt(s.value.passwordRaw.value).error))
    // no write that completes leaves a raw password behind
    ensures r.thrown.None? ==> !HasRawPassword(r.settings)
  {
    if !HasRawPassword(s) then WriteResult(s, None)
    else
      match encrypt(s.value.passwordRaw.value)
      case Err(e) => WriteResult(s, Some(RewriteEncryptError(e)))
      case Ok(c) =>
        WriteResult(Some(s.value.(passwordSecure := Some(c), passwordRaw := None, passwordFilled := Some(true))), None)
  }

  /** The listener called `n` times in a row on the same payload, stopping at
      the first error it throws. This stands for repeated calls made by the
      store; `lib/main.js` itself has no such loop. */
  function GuardWriteRepeated(s: Option<Settings>, encrypt: string -> Result<string, EncryptionError>, n: nat): WriteResult
    decreases n
  {
    if n == 0 then WriteResult(s, None)
    else
      var first := GuardWrite(s, encrypt);
      if first.thrown.Some? then first else GuardWriteRepeated(first.settings, encrypt, n - 1)
  }

  /** A payload without a truthy raw password is a fixed point of the
      listener, however often it runs. */
  lemma {:induction false} CleanPayloadIsFixedPoint(s: Option<Settings>, encrypt: string -> Result<string, EncryptionError>, n: nat)
    requires !HasRawPassword(s)
    ensures GuardWriteRepeated(s, encrypt, n) == WriteResult(s, None)
    decreases n
  {
    if n > 0 {
      CleanPayloadIsFixedPoint(s, encrypt, n - 1);
    }
  }

  /** The listener is idempotent: running it several times has the effect of
      running it once. */
  lemma {:induction false} RepeatedWriteIsSingleWrite(s: Option<Settings>, encrypt: string -> Result<string, EncryptionError>, n: nat)
    requires n >= 1
    ensures GuardWriteRepeated(s, encrypt, n) == GuardWrite(s, encrypt)
  {
    var first := GuardWrite(s, encrypt);
    if first.thrown.None? {
      CleanPayloadIsFixedPoint(first.settings, encrypt, n - 1);
    }
  }

  /** The body shared by both listeners, on the payload's `officePassword`
      object (`null` when the payload has none). Encryption happens before any
      field is written, so a failure leaves the object as it was. */
  method ProtectRawPassword(o: SettingsObject?, encrypt: string -> Result<string, EncryptionError>)
    returns (thrown: Option<EncryptionError>)
    modifies o
    ensures WriteResult(ValueOf(o), thrown) == GuardWrite(old(ValueOf(o)), encrypt)
  {
    if o == null || !Truthy(o.passwordRaw) {
      return None;
    }
    var encrypted := encrypt(o.passwordRaw.value);
    match encrypted {
      case Err(e) =>
        return Some(RewriteEncryptError(e));
      case Ok(c) =>
        o.passwordSecure := Some(c);
    }
    o.passwordRaw := None;
    o.passwordFilled := Some(true);
    return None;
  }

  /** The before-insert listener on a template `doc`. */
  method BeforeInsert(doc: Template, encrypt: string -> Result<string, EncryptionError>)
    returns (thrown: Option<EncryptionError>)
    modifies doc.officePassword
    ensures doc.officePassword == old(doc.officePassword)
    ensures WriteResult(ValueOf(doc.officePassword), thrown) == GuardWrite(old(ValueOf(doc.officePassword)), encrypt)
  {
    thrown := ProtectRawPassword(doc.officePassword, encrypt);
  }

  /** The before-update listener: it sees only `u.$set`, never the stored
      record. */
  method BeforeUpdate(u: Update, encrypt: string -> Result<string, EncryptionError>)
    returns (thrown: Option<EncryptionError>)
    modifies u.setFields.officePassword
    ensures u.setFields == old(u.setFields)
    ensures u.setFields.officePassword == old(u.setFields.officePassword)
    ensures WriteResult(ValueOf(u.setFields.officePassword), thrown)
      == GuardWrite(old(ValueOf(u.setFields.officePassword)), encrypt)
  {
    thrown := ProtectRawPassword(u.setFields.officePassword, encrypt);
  }
}
