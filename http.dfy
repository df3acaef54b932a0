/** The answer of a backend call as the pages see it: the response's data,
    or a failure with the backend's `error` text when it sent one. */
module Http {
  import opened Js

  datatype Reply<T> = Ok(data: T) | Failed(message: Option<string>)
}
