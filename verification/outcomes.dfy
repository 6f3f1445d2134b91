/** Option, Result and the error kinds the backend raises as HTTP exceptions. */
module Outcomes {

  datatype Option<+T> = None | Some(value: T) {
    function GetOr(default: T): T {
      match this
      case Some(v) => v
      case None => default
    }
  }

  /** A route either produces a value or raises one of the errors below. */
  datatype Result<+T> = Ok(value: T) | Err(error: Error)

  /**
   * How an awaited client request settles: resolved with the response body,
   * or rejected with an error whose message handleApiError has extracted.
   */
  datatype Settled<+T> = Resolved(body: T) | Rejected(message: string)

  /** One constructor per distinct HTTPException detail (status in the comment). */
  datatype Error =
    // backend/app/core/security.py
    | CouldNotValidateCredentials    // 401: token undecodable, or no usable subject
    | InvalidTokenType               // 401
    | TokenMissingExpiration         // 401
    | TokenExpired                   // 401
    | InvalidInvitationToken         // 400: verify_invitation_token
    // backend/app/api/deps.py
    | InactiveUser                   // 400
    | AdminAccessRequired            // 403
    | NotAMemberOfThisTeam           // 403
    // backend/app/api/auth.py
    | EmailAlreadyRegistered         // 400
    | RegistrationClosed             // 403
    | IncorrectEmailOrPassword       // 401
    | InvalidRefreshToken            // 401
    // backend/app/api/team.py
    | UserAlreadyExists              // 400
    | ActiveInvitationExists         // 400
    | TeamNotFound                   // 404
    | InvalidOrExpiredInvitation     // 400: token rejected on acceptance
    | InvitationNotFoundOrExpired    // 400
    | NotAuthorizedToViewMembers     // 403: listing another team's members
    | NotAuthorizedToModifyMember    // 403: changing the role of another team's user
    | NotAuthorizedToRemoveMember    // 403: removing another team's user
    | InvalidRole                    // 400
    | MemberNotFound                 // 404
    | CannotDemoteLastAdmin          // 400
    | CannotRemoveLastAdmin          // 400
    // an exception no handler catches (a failed int() conversion, a NULL column)
    | InternalServerError            // 500
}
