/** The caller-owned HTTPS / request option object that credentials are written into. */
module Options {
  import opened Wrappers
  import opened Records

  /** The two shapes `auth` takes: an object for `request`, a `user:password` string for `https`. */
  datatype Auth = AuthObject(username: string, password: Option<string>) | AuthString(text: string)

  class RequestOptions {
    var ca: Option<Bytes>
    var cert: Option<Bytes>
    var key: Option<Bytes>
    var headers: map<string, string>
    var auth: Option<Auth>
    var strictSSL: Option<bool>

    constructor (headers: map<string, string>)
      ensures this.headers == headers
      ensures ca == None && cert == None && key == None && auth == None && strictSSL == None
    {
      this.headers := headers;
      ca, cert, key, auth, strictSSL := None, None, None, None, None;
    }
  }
}
