/** The parsed request: the value the parser produces and the object that holds it. */
module HttpRequests {
  import opened Text

  datatype Method = GET | POST | HEAD | PUT | DELETE

  datatype Version = Http10 | Http11

  datatype Request = Request(
    verb: Method,
    version: Version,
    url: string,
    headers: map<string, string>,
    body: string)

  /** A request object as constructed: the "invalid" codes share their values with
      GET and HTTP 1.0. */
  const BLANK := Request(GET, Http10, "", map[], "")

  function MethodText(m: Method): (s: string)
    ensures s != "" && ' ' !in s && NoCR(s)
  {
    match m
    case GET => "GET"
    case POST => "POST"
    case HEAD => "HEAD"
    case PUT => "PUT"
    case DELETE => "DELETE"
  }

  /** Any name that is not one of the other four codes as GET. */
  function MethodOf(name: string): Method {
    if name == "GET" then GET
    else if name == "POST" then POST
    else if name == "HEAD" then HEAD
    else if name == "PUT" then PUT
    else if name == "DELETE" then DELETE
    else GET
  }

  /** Any version that is not HTTP/1.1 codes as 1.0. */
  function VersionOf(name: string): Version {
    if name == "HTTP/1.0" then Http10
    else if name == "HTTP/1.1" then Http11
    else Http10
  }

  lemma MethodRoundTrip(m: Method)
    ensures MethodOf(MethodText(m)) == m
  {
  }

  class HttpRequest {
    var verb: Method
    var version: Version
    var url: string
    var headers: map<string, string>
    var body: string

    constructor ()
      ensures View() == BLANK
    {
      verb, version, url, headers, body := GET, Http10, "", map[], "";
    }

    ghost function View(): Request
      reads this
    {
      Request(verb, version, url, headers, body)
    }

    method SetMethod(name: string)
      modifies this`verb
      ensures verb == MethodOf(name)
    {
      if name == "GET" {
        verb := GET;
      } else if name == "POST" {
        verb := POST;
      } else if name == "HEAD" {
        verb := HEAD;
      } else if name == "PUT" {
        verb := PUT;
      } else if name == "DELETE" {
        verb := DELETE;
      } else {
        verb := GET;
      }
    }

    method SetVersion(name: string)
      modifies this`version
      ensures version == VersionOf(name)
    {
      if name == "HTTP/1.0" {
        version := Http10;
      } else if name == "HTTP/1.1" {
        version := Http11;
      } else {
        version := Http10;
      }
    }

    method SetUrl(u: string)
      modifies this`url
      ensures url == u
    {
      url := u;
    }

    method SetHeader(key: string, value: string)
      modifies this`headers
      ensures headers == old(headers)[key := value]
    {
      headers := headers[key := value];
    }

    /** The value of a header, or the empty string. */
    function HeaderString(key: string): string
      reads this
    {
      if key in headers then headers[key] else ""
    }

    method SetBody(b: string)
      modifies this`body
      ensures body == b
    {
      body := b;
    }

    method AddBody(b: string)
      modifies this`body
      ensures body == old(body) + b
    {
      body := body + b;
    }
  }
}
