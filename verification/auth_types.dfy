/**
 The values that flow through the authentication service: what the caller
 sends, what the identity provider answers, what a failing step throws and
 what an operation finally returns or throws.
 */
module AuthTypes {

  datatype Option<+T> = None | Some(value: T)

  /** A UUID issued by the identity provider. */
  type UserId = string

  /**
   The value of a numeric field (`statusCode`, `status`) read from a caught
   error. JavaScript's `===` matches only a number of the same value, so a
   missing field and a string such as "400" are kept apart from `Num(400)`.
   */
  datatype FieldValue = Absent | Num(n: int) | NonNumeric(text: string)

  /**
   Whatever a step inside the `try` throws. The identity provider sets
   `statusCode`; framework exceptions (for instance a validator's) set
   `status`. Two failures with the same fields and message are the same
   thrown object as far as this model is concerned.
   */
  datatype Failure = Failure(statusCode: FieldValue, status: FieldValue, message: string)

  /**
   How a sign-up or sign-in call ends: it returns the provider's user id,
   throws one of the three domain exceptions with its message, or throws the
   caught error itself, unchanged.
   */
  datatype Outcome =
    | Ok(id: UserId)
    | Conflict(message: string)
    | NotFound(message: string)
    | Internal(message: string)
    | Rethrow(err: Failure)

  /** The body of a sign-up request. */
  datatype SignUpDto = SignUpDto(firstName: string, lastName: string, userName: string,
                                 email: string, password: string)

  /** The body of a sign-in request. */
  datatype SignInDto = SignInDto(email: string, password: string)

  /** The user object of a provider response; only its id is used here. */
  datatype ProviderUser = ProviderUser(id: UserId, email: string)

  /** The application registration the provider creates with the user. */
  datatype AppRegistration = AppRegistration(applicationId: string)

  /** The success payload of the provider's `register` call. */
  datatype RegistrationResponse = RegistrationResponse(user: ProviderUser, registration: AppRegistration,
                                                       token: string, refreshToken: string)

  /** The success payload of the provider's `login` call. */
  datatype LoginResponse = LoginResponse(user: ProviderUser, token: string, refreshToken: string)

  /** What a provider call resolves to, or the error it rejects with. */
  datatype ProviderReply<+T> = Resolved(response: T) | Rejected(error: Failure)

  /** The request sent to the provider's `register`. */
  datatype RegistrationRequest = RegistrationRequest(applicationId: string, firstName: string,
                                                     lastName: string, username: string,
                                                     email: string, password: string)

  /** The request sent to the provider's `login`. */
  datatype LoginRequest = LoginRequest(applicationId: string, loginId: string, password: string)

  /**
   The argument of `addUser`: the provider user and its registration, as
   handed to the user mapper (whose output shape is not part of this model).
   */
  datatype UserEntity = UserEntity(user: ProviderUser, registration: AppRegistration)

  /** One `res.cookie(name, value, options)` call that took effect. */
  datatype Cookie = Cookie(name: string, value: string)
}
