/** Option, result and error values shared by the product service model. */
module Common {

  /** An optional field of a request body: absent (None) or present (Some). */
  datatype Option<T> = None | Some(value: T)

  /** The message an exception carries, one constructor per message the service builds. */
  datatype Reason =
    | NoDataToUpdate                                          // "No data to update"
    | ProductIdNotFound(id: int)                              // "Product with ID ${id} not found"
    | ProductNotFound                                         // "Product not found"
    | UomNotFound(uomId: int, productId: int)                 // "UOM With ID ... not found For Product ..."
    | AddonNotFound(addonId: int, productId: int, uomId: int) // "Addon With ID ... not found For Product ... and UOM ..."
    | NameAlreadyExists                                       // "Product With That Name already exists"
    | DuplicateProductName                                    // the unique column on Product.name refuses the write

  /** The exception class thrown: BadRequestException, NotFoundException, or a failed query. */
  datatype Error =
    | BadRequest(reason: Reason)
    | NotFound(reason: Reason)
    | QueryFailed(reason: Reason)

  /** What an asynchronous service call resolves to, or the exception it rejects with. */
  datatype Result<T> = Success(value: T) | Failure(error: Error)

  /** The outcome of a check that either passes or throws. */
  datatype Outcome = Pass | Fail(error: Error)
}
