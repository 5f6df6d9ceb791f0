/** What the client receives from the storage, execution and authentication services. */
module Remote {

  datatype Option<+T> = None | Some(value: T)

  /** How one request through the HTTP client ended. The client library throws for any
      non-2xx status and for a request that got no reply; the code then reads
      `error.response?.status` and `error.response?.data?.message`. */
  datatype Outcome<+T> =
    | Ok(data: T)                                   // 2xx reply whose envelope status is 'success'
    | NotOk(message: Option<string>)                // 2xx reply whose envelope has any other status
    | HttpErr(status: int, message: Option<string>) // thrown: a reply with a non-2xx status
    | NetErr                                        // thrown: no reply at all
  {
    /** The request threw, so the code runs its `catch` block. */
    predicate Threw() {
      HttpErr? || NetErr?
    }
  }

  /** JavaScript's `m || fallback` for a string that may be missing: the empty string is
      falsy as well, so both fall back. */
  function MessageOr(m: Option<string>, fallback: string): string {
    if m.Some? && m.value != "" then m.value else fallback
  }

  /** `error.response?.data?.message || fallback` inside a `catch` block. */
  function ThrownMessageOr<T>(o: Outcome<T>, fallback: string): (r: string)
    requires o.Threw()
    ensures fallback != "" ==> r != ""
    ensures o.NetErr? ==> r == fallback
    ensures o.HttpErr? && o.message.Some? && o.message.value != "" ==> r == o.message.value
    ensures o.HttpErr? && (o.message.None? || o.message.value == "") ==> r == fallback
  {
    if o.HttpErr? then MessageOr(o.message, fallback) else fallback
  }

  /** A signed-in user as the authentication service describes it. */
  datatype User = User(id: int, username: string, email: string)

  /** A stored snippet, with the fields the client reads. */
  datatype Snippet = Snippet(
    id: int,
    title: string,
    description: Option<string>,
    code: string,
    isPublic: bool,
    shareToken: string)

  const SharePrefix := "/share/"

  /** The link a snippet is shared by: the page's origin, then the shared-view route
      carrying the snippet's share token. */
  function ShareUrl(origin: string, shareToken: string): (url: string)
    ensures |url| == |origin| + |SharePrefix| + |shareToken|
    ensures url[..|origin|] == origin
    ensures url[|origin|..|origin| + |SharePrefix|] == SharePrefix
    ensures url[|origin| + |SharePrefix|..] == shareToken
  {
    origin + SharePrefix + shareToken
  }
}
