/**
 * Value types shared by the application: the uploaded file, an image job
 * (`ProcessedImage`), the signed-in user and the outcome of one call to the
 * external retouching service.
 */
module Types {

  datatype Option<+T> = None | Some(value: T)

  /** The part of a browser `File` the application reads: its name and MIME type. */
  datatype File = File(name: string, mimeType: string)

  /** `'pending'` is declared by the application but never assigned. */
  datatype Status = Pending | Processing | Completed | Error

  /** One uploaded image and its processing record. */
  datatype Job = Job(
    id: string,
    originalFile: File,
    originalUrl: string,
    retouchedUrl: Option<string>,
    status: Status,
    isUnlocked: bool,
    error: Option<string>)

  datatype User = User(uid: string, email: Option<string>)

  /**
   * How one asynchronous retouch call settled: the base64 image data, or the
   * message of the error it threw.
   */
  datatype TransformOutcome = Success(data: string) | Failure(message: string)
}
