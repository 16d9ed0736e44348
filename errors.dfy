/** Every `Error` the core throws, with the exact message it carries. */
module Errors {

  datatype Error =
    // Email value object
    | EmailEmpty | EmailFormat | EmailTooLong
    // Password value object
    | PasswordEmpty | PasswordTooShort | PasswordNoUpper | PasswordNoLower
    | PasswordNoDigit | PasswordNoSpecial
    // Facture entity
    | CannotCancelPaid
    // repositories
    | ClientNotFound | FactureNotFound | RepositoryPaidUpdate | PaidDelete
    | ClientHasFactures | InvalidCredentials | EmailTaken
    // use cases
    | DueNotAfterIssue | NoLines | BadQuantity | NegativeUnitPrice | PaidUpdate
    | ClientNameRequired | ClientPhoneRequired | ClientNameEmpty
    | LoginFailed | RegisterFailed

  /** The message of the `Error` object the source throws. */
  function Message(e: Error): string
  {
    match e
    case EmailEmpty => "L'email ne peut pas être vide"
    case EmailFormat => "Format d'email invalide"
    case EmailTooLong => "L'email est trop long (max 254 caractères)"
    case PasswordEmpty => "Le mot de passe ne peut pas être vide"
    case PasswordTooShort => "Le mot de passe doit contenir au moins 8 caractères"
    case PasswordNoUpper => "Le mot de passe doit contenir au moins une majuscule"
    case PasswordNoLower => "Le mot de passe doit contenir au moins une minuscule"
    case PasswordNoDigit => "Le mot de passe doit contenir au moins un chiffre"
    case PasswordNoSpecial => "Le mot de passe doit contenir au moins un caractère spécial (@$!%*?&#)"
    case CannotCancelPaid => "Impossible d'annuler une facture déjà payée"
    case ClientNotFound => "Client introuvable"
    case FactureNotFound => "Facture introuvable"
    case RepositoryPaidUpdate => "Impossible de modifier une facture déjà payée"
    case PaidDelete => "Impossible de supprimer une facture payée"
    case ClientHasFactures => "Impossible de supprimer un client avec des factures associées"
    case InvalidCredentials => "Email ou mot de passe incorrect"
    case EmailTaken => "Cet email est déjà utilisé"
    case DueNotAfterIssue => "La date d'échéance doit être après la date d'émission"
    case NoLines => "La facture doit contenir au moins une ligne"
    case BadQuantity => "La quantité doit être supérieure à 0"
    case NegativeUnitPrice => "Le prix unitaire ne peut pas être négatif"
    case PaidUpdate => "Impossible de modifier une facture payée"
    case ClientNameRequired => "Le nom du client est obligatoire"
    case ClientPhoneRequired => "Le téléphone est obligatoire"
    case ClientNameEmpty => "Le nom du client ne peut pas être vide"
    case LoginFailed => "Erreur lors de la connexion"
    case RegisterFailed => "Erreur lors de l'inscription"
  }

  /** What a `catch` block receives: an `Error` object or any other thrown value. */
  datatype Thrown = ErrorObject(error: Error) | OtherValue

  /**
   * The catch blocks of the login and register use cases: an `Error` is
   * re-thrown unchanged, anything else becomes `fallback`.
   */
  function Rethrow(t: Thrown, fallback: Error): (e: Error)
    ensures t.ErrorObject? ==> e == t.error
    ensures t.OtherValue? ==> e == fallback
  {
    match t
    case ErrorObject(err) => err
    case OtherValue => fallback
  }
}
