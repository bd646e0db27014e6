/**
 * `mapErrorMessage`: turns a Firebase Auth error code into the Spanish message
 * shown to the user, falling back to the error's own message and then to a
 * generic one.
 */
module AuthErrorMessages {

  /** The thirteen codes the mapping knows, each with its message. */
  const KnownMessages: map<string, string> := map[
    "auth/user-not-found" := "No se encontró una cuenta con esta dirección de correo electrónico.",
    "auth/wrong-password" := "La contraseña es incorrecta. Por favor, inténtalo de nuevo.",
    "auth/email-already-in-use" := "Ya existe una cuenta con esta dirección de correo electrónico.",
    "auth/weak-password" := "La contraseña debe tener al menos 6 caracteres.",
    "auth/invalid-email" := "Por favor, introduce una dirección de correo electrónico válida.",
    "auth/too-many-requests" := "Has intentado iniciar sesión demasiadas veces. Por favor, inténtalo de nuevo más tarde.",
    "auth/network-request-failed" := "Error de red. Por favor, comprueba tu conexión a internet.",
    "auth/popup-closed-by-user" := "El proceso de inicio de sesión fue cancelado.",
    "auth/account-exists-with-different-credential" := "Ya existe una cuenta con este email. Intenta iniciar sesión con otro método (ej: Google) y vincula tus cuentas desde tu perfil.",
    "auth/requires-recent-login" := "Esta acción es sensible y requiere un inicio de sesión reciente. Por favor, cierra sesión y vuelve a iniciarla.",
    "auth/credential-already-in-use" := "Esta credencial (ej: cuenta de Google) ya está vinculada a otro usuario.",
    "auth/user-disabled" := "Esta cuenta de usuario ha sido deshabilitada.",
    "auth/operation-not-allowed" := "El inicio de sesión con este método no está habilitado. Contacta al administrador."
  ]

  /** The message used when the code is unknown and the error carries no message. */
  const GenericMessage := "Ha ocurrido un error inesperado. Por favor, inténtalo de nuevo."

  /**
   * A known code (compared exactly) gives its message; any other code gives
   * `defaultMessage` unless that is empty, and then the generic message.
   */
  function MapErrorMessage(errorCode: string, defaultMessage: string): (message: string)
    ensures errorCode in KnownMessages ==> message == KnownMessages[errorCode]
    ensures errorCode !in KnownMessages && defaultMessage != "" ==> message == defaultMessage
    ensures errorCode !in KnownMessages && defaultMessage == "" ==> message == GenericMessage
  {
    if errorCode in KnownMessages then KnownMessages[errorCode]
    else if defaultMessage != "" then defaultMessage
    else GenericMessage
  }

  /** Every known code has a non-empty message. */
  lemma KnownMessagesNonEmpty(errorCode: string)
    requires errorCode in KnownMessages
    ensures KnownMessages[errorCode] != ""
  {
  }

  /** The user is never shown an empty message. */
  lemma MessageNeverEmpty(errorCode: string, defaultMessage: string)
    ensures MapErrorMessage(errorCode, defaultMessage) != ""
  {
    if errorCode in KnownMessages {
      KnownMessagesNonEmpty(errorCode);
    }
  }

  /** For a known code the error's own message plays no part. */
  lemma KnownCodeIgnoresDefault(errorCode: string, d1: string, d2: string)
    requires errorCode in KnownMessages
    ensures MapErrorMessage(errorCode, d1) == MapErrorMessage(errorCode, d2)
  {
  }

  /** Two of the mapped codes, spelled out. */
  lemma SampleMappings(defaultMessage: string)
    ensures MapErrorMessage("auth/wrong-password", defaultMessage) == "La contraseña es incorrecta. Por favor, inténtalo de nuevo."
    ensures MapErrorMessage("auth/user-disabled", defaultMessage) == "Esta cuenta de usuario ha sido deshabilitada."
  {
  }

  /** Matching is exact: a code differing only in case is not known. */
  lemma CodeMatchIsCaseSensitive()
    ensures MapErrorMessage("AUTH/USER-DISABLED", "") == GenericMessage
  {
    assert "AUTH/USER-DISABLED"[0] == 'A';
  }
}
