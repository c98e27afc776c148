/** Values shared by the fetcher, the calendar builder and the web server. */
module Common {

  datatype Option<T> = None | Some(value: T)

  /** The (value, error) pair a Go function returns: exactly one of the two is meaningful. */
  datatype Result<T> = Ok(value: T) | Err(error: Error)

  /** The errors the pipeline can return, one constructor per distinct failure in the code. */
  datatype Error =
    | NetworkFailure              // http.Get or client.Do returned an error
    | StatusCode(code: int)       // "status code error: %d %s"
    | MarkerNotFound              // io.EOF: no element carrying the endpoint was found
    | BadUrl(text: string)        // url.Parse rejected the attribute value
    | DecodeFailed                // io.ReadAll or json.Unmarshal failed on the API's 200 body
    | BadDate(date: string)       // "could not parse date: %s"
    | BadMonth(name: string)      // "could not parse month: %s"
    | DayOutOfRange(digits: string) // strconv.Atoi: value out of range

  /** The options the core reads from the process configuration. */
  datatype Config = Config(
    apiElement: string,       // tag name of the element that carries the endpoint
    apiElementId: string,     // value of that element's id attribute
    apiPathAttr: string,      // attribute holding the endpoint path
    apiPostCodeArg: string,   // name of the query parameter carrying the postcode
    productId: string,
    summary: string,
    timezone: string,
    name: string)
}
