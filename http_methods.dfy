/** The nine request methods of the HTTP client library (`reqwest::Method`). */
module HttpMethods {

  datatype Method = GET | POST | PUT | DELETE | HEAD | OPTIONS | CONNECT | PATCH | TRACE

  /** `Method::default()`. */
  const DefaultMethod: Method := GET
}
