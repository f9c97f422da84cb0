/** The parts of Scrapy's request and response objects that the middlewares touch. */
module Http {

  /** A value stored in a request's `meta` dict: a boolean, a string, or anything else
      (None, a number, a list, ...). */
  datatype MetaValue = Bool(b: bool) | Str(s: string) | Other

  type Meta = map<string, MetaValue>

  /** Header names to header values. */
  type Headers = map<string, string>

  /** A request; the middlewares write its headers in place. */
  class Request {
    var url: string
    var headers: Headers
    var meta: Meta

    constructor (url: string, headers: Headers, meta: Meta)
      ensures this.url == url && this.headers == headers && this.meta == meta
    {
      this.url := url;
      this.headers := headers;
      this.meta := meta;
    }
  }

  /** A response; `replace` makes a changed copy, so it is a value. */
  datatype Response = Response(url: string, status: int, headers: Headers, body: string)
}
