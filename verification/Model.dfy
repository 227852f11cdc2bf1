/** Entities shared by the components: rows, results and small helpers. */
module Model {
  datatype Option<+T> = None | Some(value: T)
  datatype Result<+T, +E> = Ok(value: T) | Err(error: E)

  const KYC_PASSED := "PASSED"
  const KYC_PENDING := "PENDING"
  const KYC_FAILED := "FAILED"
  const ROLE_USER := "user"

  /** A row of table `users`. */
  datatype User = User(id: int, name: string, market: string, language: string, segment: string,
                       kycStatus: string, riskLevel: string, createdAt: int)

  /** A row of table `user_auth_mapping`. */
  datatype UserAuthMapping = UserAuthMapping(id: int, clerkUserId: string, email: string,
                                             internalUserId: int, role: string)

  /** `UserProfileAggregate`: the join served to gRPC callers and kept in Redis. */
  datatype Profile = Profile(userId: int, email: string, name: string, market: string,
                             kycStatus: string, registeredAt: int)

  function Join(user: User, mapping: UserAuthMapping): Profile {
    Profile(user.id, mapping.email, user.name, user.market, user.kycStatus, user.createdAt)
  }

  /** What Singpass reports; a missing report reads as empty fields. */
  datatype UserInfo = UserInfo(name: string, email: string)

  function KycStatusOf(info: UserInfo): string {
    if info.name != "" then KYC_PASSED else KYC_FAILED
  }

  datatype KycError = InvalidOAuthState | TokenFailed | InfoFailed | EmailMismatch | WriteFailed | PublishFailed

  /** How `CreateUser` ends: nil without effect, nil because the user exists, an error, or nil
      with a new user whose event is published. */
  datatype Outcome = Skipped | Exists | Aborted | Created(userId: int)
}
