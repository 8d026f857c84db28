/** Values shared by the extension's components. */
module Common {

  /** A value that may be absent (`null` or `undefined` in the source). */
  datatype Option<+T> = None | Some(value: T)

  /** The value of an operation that either returns or raises an error message. */
  datatype Result<+T, +E> = Ok(value: T) | Err(error: E)

  /** The outcome of a call into a browser API that may throw; what it throws is never inspected. */
  datatype Call<+T> = Returned(value: T) | Threw

  /** A snapshot of a page, as the content script produces it and the side panel receives it. */
  datatype PageContent = PageContent(textContent: string, title: string, url: string, timestamp: int)
}
