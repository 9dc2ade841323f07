/** Option and Result wrappers, and the errors the write path raises. */
module Outcomes {

  datatype Option<+T> = None | Some(value: T)

  /** Why a serializer raised `ValidationError`. */
  datatype Reason =
    | FieldTooLong       // a CharField/EmailField max_length was exceeded
    | ScoreOutOfRange    // Review.score failed MinValueValidator(1) / MaxValueValidator(10)
    | FutureYear         // TitleWriteSerializer.validate_year
    | DuplicateReview    // ReviewSerializer.validate on POST
    | ReservedUsername   // SignupSerializer.validate: username "me"
    | IdentityMismatch   // SignupSerializer.validate: username and email name different users
    | WrongCode          // TokenSerializer.create: confirmation code differs

  /** `ValidationError` (HTTP 400) or the `Http404` of `get_object_or_404`. */
  datatype Error = ValidationError(reason: Reason) | NotFound

  datatype Result<+T> = Ok(value: T) | Err(error: Error)
}
