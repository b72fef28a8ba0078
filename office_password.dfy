/** The `officePassword` complex type a template carries, the template and
    update payloads the store hands to the listeners, and the fixed error
    texts of the extension. */
module OfficePassword {
  import opened Wrappers

  const MissingSecretMessage: string :=
    "office-password extension uses encryption to store sensitive data and needs secret key to be defined. Please fill \"encryption.secretKey\" at the root of the config or disable encryption using \"encryption.enabled=false\"."

  const DecryptFailedMessage: string :=
    "office-password data decrypt failed, looks like secret key value is different to the key used to encrypt sensitive data, make sure \"encryption.secretKey\" was not changed"

  const PasswordNotSetMessage: string :=
    "password was not set, you must supply a password when office-password is enabled"

  const PasswordNotSetStatusCode: int := 4000

  const AddPasswordFailedMessage: string :=
    "Error while adding password to office file"

  /** A snapshot of an `officePassword` object. `password` is not declared by
      the registered complex type, but the render listener reads it. */
  datatype Settings = Settings(
    passwordRaw: Option<string>,
    passwordSecure: Option<string>,
    passwordFilled: Option<bool>,
    enabled: Option<bool>,
    password: Option<string>)

  /** JavaScript truthiness of a nullable string: `null`, `undefined` and the
      empty string are falsy. */
  predicate Truthy(s: Option<string>) {
    s.Some? && s.value != ""
  }

  /** The mutable `officePassword` object of a template or of an update's
      `$set` payload. */
  class SettingsObject {
    var passwordRaw: Option<string>
    var passwordSecure: Option<string>
    var passwordFilled: Option<bool>
    var enabled: Option<bool>
    var password: Option<string>

    constructor (s: Settings)
      ensures Value() == s
    {
      passwordRaw, passwordSecure, passwordFilled := s.passwordRaw, s.passwordSecure, s.passwordFilled;
      enabled, password := s.enabled, s.password;
    }

    function Value(): Settings
      reads this
    {
      Settings(passwordRaw, passwordSecure, passwordFilled, enabled, password)
    }
  }

  /** The snapshot of a possibly absent `officePassword` object. */
  function ValueOf(o: SettingsObject?): Option<Settings>
    reads o
  {
    if o == null then None else Some(o.Value())
  }

  /** A template record (insert payload or `req.template`); its other
      properties are never touched by the listeners. */
  class Template {
    var officePassword: SettingsObject?

    constructor (officePassword: SettingsObject?)
      ensures this.officePassword == officePassword
    {
      this.officePassword := officePassword;
    }
  }

  /** The `$set` object of an update. */
  class SetFields {
    var officePassword: SettingsObject?

    constructor (officePassword: SettingsObject?)
      ensures this.officePassword == officePassword
    {
      this.officePassword := officePassword;
    }
  }

  /** An update `u`; `setFields` is `u.$set`. */
  class Update {
    var setFields: SetFields

    constructor (setFields: SetFields)
      ensures this.setFields == setFields
    {
      this.setFields := setFields;
    }
  }
}
