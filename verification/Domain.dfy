/**
 * Values shared by the whole model.
 *
 * Identifiers (ULIDs, account UUIDs, app ids) are only compared, so they are natural
 * numbers here; the order on them stands for the text order of ULIDs. Instants are
 * milliseconds since the epoch.
 */
module Domain {
  type Id = nat
  type Time = int

  const SECOND_MS: int := 1000
  const DAY_MS: int := 24 * 60 * 60 * SECOND_MS

  /** What a step-up token that authorises a phone change is for. */
  const IDENTITI_AUDIENCE := "https://api.id.identiti.co.ke"
  const PHONE_CHANGE_OPERATION_KIND := "identiti.phone_change"

  datatype Option<+T> = None | Some(value: T)

  /** The error codes of the answers, by the words of their wire form. */
  datatype ErrorCode =
    | AuthChallengeExpired
    | AuthFactorFailed
    | AuthFactorRequired
    | AuthFactorUnsupported
    | AuthScopeInsufficient
    | ConsentGrantAlreadyOpen
    | ConsentGrantAlreadyRevoked
    | ConsentGrantNotFound
    | CustomerNotFound
    | ExpiryOutOfBounds
    | IatInFuture
    | InternalUnspecified
    | IssuerMismatch
    | KidUnknown
    | PhoneChangeCooldownActive
    | PhoneChangeNotFound
    | RiderKycCrossAccountCollision
    | ScopesEmpty
    | StateInvalidForAction
    | StepUpTokenAlreadyUsed
    | StepUpTokenSubjectMismatch
    | StepUpTokenUnknown
    | StepupTokenExpired
    | StepupTokenInvalid
    | TokenAudienceNotPermitted
    | ValidationConsentMissing
    | ValidationPhoneAlreadyRegistered
    | ValidationPhoneInvalid
    | ValidationRequestInvalid
    | WrongTokenClass

  /** What a handler answers: the HTTP status and, for an error, its code. */
  datatype Reply = Ok(status: nat) | Error(status: nat, code: ErrorCode)
}
