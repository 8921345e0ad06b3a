/** The HTTP exceptions the controllers throw, and a result type for actions
    that either produce a value or throw one of them. */
module Http {

  datatype HttpError =
    | BadRequest(message: string)   // BadRequestHttpException, status 400
    | Forbidden(message: string)    // ForbiddenHttpException, status 403
    | NotFound(message: string)     // NotFoundHttpException, status 404
    | ServerError(message: string)  // ServerErrorHttpException, status 500
    | NullDereference               // a PHP fatal error: a method called on null

  datatype Result<T> = Ok(value: T) | Fail(error: HttpError)

  /** Message of `Request::getRequiredBodyParam` when the parameter is missing. */
  const MissingParam := "Request missing required body param"

  /** Message of `Controller::requirePermission` when the permission is not held. */
  const NotPermitted := "User is not permitted to perform this action"
}
