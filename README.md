# office-password: secret lifecycle and protection decision

A Dafny model of the core of the jsreport office-password extension
(`lib/main.js`). The extension lets a template carry a password for the
office file it renders. Two parts are modelled:

- **Write path.** The before-insert and before-update listeners of the
  `templates` collection replace a raw password in the in-flight payload by
  its encrypted form. They store `encrypt(passwordRaw)` in `passwordSecure`,
  set `passwordRaw` to null and set `passwordFilled` to true. If encryption
  throws, the payload keeps its raw password and the error is rethrown. A
  "no secret" error first gets a fixed remediation message.
- **Render path.** The after-render listener decides whether to protect
  the output. If so, it resolves the password, sends the base64 content to
  the sandboxed script and replaces `res.content` with the protected file.
  Otherwise it returns or throws and leaves the content as rendered.

Files:

- `wrappers.dfy`: `Option` (null or undefined) and `Result` (a call that returns or throws).
- `reporter.dfy`: the host services as function-valued fields of `Host`.
  These are `reporter.encryption.encrypt`/`decrypt`, `reporter.executeScript`
  and the Buffer base64 conversions. Each lemma holds for every host.
- `office_password.dfy`: the `officePassword` object as a snapshot datatype
  (`Settings`) and as a mutable class (`SettingsObject`). Also the template,
  the update payload (`u.$set` is the field `setFields`), JavaScript
  truthiness and the fixed messages.
- `write_hooks.dfy`: `GuardWrite`, the specification of one listener call.
  The methods `ProtectRawPassword`, `BeforeInsert` and `BeforeUpdate` mutate
  the payload objects and are proved against it.
- `render_hook.dfy`: `Decide`, the listener's decision as a total function
  with the outcome `Skip | Fail | Replace`. The method `AfterRender`
  applies that outcome to a mutable `Response`.
- `lifecycle.dfy`: lemmas that connect the write path to the render path.

Two facts about the render listener shape the model:

- It reads `officePassword.password`, not `passwordRaw` (`lib/main.js:66`).
  A raw password therefore plays no part at render time. When `password` is
  null or undefined and `passwordSecure` is falsy, the listener fails with
  status code 4000, even if `passwordRaw` is set. When `password` is null or
  undefined and an earlier write left a truthy `passwordSecure`, that value
  is decrypted and the file is protected with the earlier password.
- It has no preview branch. Its document-type check (`lib/main.js:61`)
  skips exactly when `res.meta.officeDocumentType` is null or undefined.

## Model

| member | source | states |
|---|---|---|
| WriteHooks.RewriteEncryptError | lib/main.js:25-31 | the rethrown error keeps its kind; its message is the remediation text when the error is flagged "no secret" and is otherwise unchanged |
| WriteHooks.GuardWrite | lib/main.js:18-35 | without an `officePassword` object or with a falsy `passwordRaw` (empty string included) the payload is unchanged. On success `passwordSecure` is the ciphertext, `passwordRaw` is null, `passwordFilled` is true and no other field changes. On failure the payload is untouched and the rewritten error is thrown. No write that completes leaves a truthy raw password |
| WriteHooks.CleanPayloadIsFixedPoint | lib/main.js:19-21 | a payload without a truthy raw password is unchanged by any number of listener calls |
| WriteHooks.RepeatedWriteIsSingleWrite | lib/main.js:18-35 | running the listener n >= 1 times in a row on one payload has the effect of running it once |
| WriteHooks.ProtectRawPassword | lib/main.js:19-34 | the shared listener body mutates the `officePassword` object exactly as `GuardWrite` prescribes and returns the error it throws |
| WriteHooks.BeforeInsert | lib/main.js:18-35 | the insert listener changes only `doc.officePassword`'s fields, as `GuardWrite` prescribes; `doc` keeps the same `officePassword` object |
| WriteHooks.BeforeUpdate | lib/main.js:37-54 | the update listener changes only `u.$set.officePassword`'s fields, as `GuardWrite` prescribes; nothing outside that object changes |
| RenderHook.RewriteDecryptError | lib/main.js:77-85 | a decrypt error flagged "no secret" gets the remediation text; one flagged "decrypt failed" gets the secret-mismatch text; any other keeps its message |
| RenderHook.ResolvePassword | lib/main.js:66-86 | a non-null `password` is used as it is, even when empty. With no `password` and a falsy `passwordSecure` the result is the "password was not set" error with status code 4000. Otherwise the result is the decrypted value or the rewritten decrypt error |
| RenderHook.SandboxOutcome | lib/main.js:97-109 | content is replaced exactly when the script succeeds, by the decoded `officeContent`. An in-band error becomes the weak "Error while adding password to office file" error that wraps the original message and stack. A rejected call propagates unchanged |
| RenderHook.Decide | lib/main.js:56-110 | the listener skips exactly when `officePassword` is absent, `enabled` is strictly `false` or `officeDocumentType` is null. Otherwise a resolution error is thrown before the sandbox runs, or the sandbox gets the base64 content and the resolved password |
| RenderHook.ExplicitPasswordSkipsDecrypt | lib/main.js:66-68 | with a non-null `password` the decision does not depend on the decrypt service |
| RenderHook.RawPasswordIgnoredAtRender | lib/main.js:66 | `passwordRaw` has no effect on the render decision |
| RenderHook.AfterRender | lib/main.js:56-110 | the response content is replaced only on a `Replace` decision. On `Skip` and `Fail` it stays as rendered, and on `Fail` the error is thrown |
| Lifecycle.WrittenPasswordReachesSandbox | lib/main.js:24-95 | with an encryption service that decrypts its own non-empty ciphertext, a raw password stored by the write listener is the password the sandbox receives at render time |
| Lifecycle.MissingSecretAbortsWrite | lib/main.js:23-31 | with no root secret the write throws the exact remediation text and the payload keeps its raw password |

## Left out

- The cryptography of `reporter.encryption`, the base64 conversions and the sandboxed script: they are function-valued parameters (`Host`). The script itself (`lib/scriptOfficePassword.js`) calls a foreign OOXML encryptor, and only its reply shape is modelled.
- Schema registration and entity-type wiring (lib/main.js:6-15), listener registration and `index.js`: host plumbing with no behaviour.
- Logging (lib/main.js:62, 88, 107).
- Asynchronous scheduling and process isolation: the model is sequential.
- `null` and `undefined` are one value, `None`. Every test in the listeners treats them alike, except `enabled === false`, which is modelled as a strict comparison with `Some(false)`.
- JavaScript values of other types in the string fields (numbers, objects) are not modelled; the registered complex type declares them strings.
- An error carrying both marker flags is not modelled; `FailureKind` holds one. In the decrypt catch block the "no secret" flag would win.
- The update listener's query argument `q` is unused and left out. `u.$set` is taken to be present, because the listener dereferences it unconditionally.
- The stack of a rethrown encryption error is not modelled; only its kind and message are.
- Errors built by `reporter.createError` (lib/main.js:70, 101) are represented by the arguments passed to it (`RenderHook.RenderError.Reported`: message, status code, weak flag, original error). How the host combines the summary with the original message is not modelled.
