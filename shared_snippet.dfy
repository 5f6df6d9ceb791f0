/** The public view of a snippet opened by its share token, where anyone may run its code
    without signing in. */
module Shared {
  import opened Text
  import opened Remote
  import opened Execution

  const NotFound := "Snippet not found"
  const Gone := "Snippet not found or is no longer available"
  const LoadFailed := "Failed to load shared snippet"

  /** What the screen renders: loading first, then an error, then the snippet. With none of
      the three the page cannot render (it reads the title of a missing snippet). */
  datatype SharedView = LoadingView | ErrorView(message: string) | SnippetView(snippet: Snippet) | NoView

  /** The error `fetchSharedSnippet` reports for a reply that is not a success: a 404 is
      told apart from every other thrown request, and from a non-success envelope. */
  function FetchError<T>(o: Outcome<T>): (msg: string)
    requires !o.Ok?
    ensures msg != ""
    ensures o.NotOk? ==> msg == NotFound
    ensures o.Threw() ==> (msg == Gone <==> o.HttpErr? && o.status == 404)
    ensures o.Threw() && !(o.HttpErr? && o.status == 404) ==> msg == LoadFailed
  {
    if o.NotOk? then NotFound
    else if o.HttpErr? && o.status == 404 then Gone
    else LoadFailed
  }

  /** The path the snippet is requested from: no session is needed for it. */
  function SharePath(token: string): string {
    "/api/snippets/share/" + token
  }

  class SharedSnippet {
    const token: string
    var snippet: Option<Snippet>
    var loading: bool
    var error: string
    var output: string
    var isExecuting: bool
    var executionTime: Option<int>
    var hasError: bool

    function Shown(): Panel
      reads this
    {
      Panel(output, hasError, executionTime)
    }

    /** The screen for the `:token` of the route. */
    constructor (t: string)
      ensures token == t && snippet.None? && loading && error == ""
      ensures Shown() == Panel("", false, None) && !isExecuting
    {
      token := t;
      snippet, loading, error := None, true, "";
      output, isExecuting, executionTime, hasError := "", false, None, false;
    }

    /** The first step of `fetchSharedSnippet`: the path requested. */
    method BeginFetch() returns (path: string)
      modifies this
      ensures path == SharePath(token) && loading
      ensures snippet == old(snippet) && error == old(error)
      ensures Shown() == old(Shown()) && isExecuting == old(isExecuting)
    {
      loading := true;
      path := SharePath(token);
    }

    /** The rest of `fetchSharedSnippet` with the reply `o`: a success sets the snippet,
        anything else sets the error; loading ends in every case. Neither is reset first. */
    method CompleteFetch(o: Outcome<Snippet>)
      modifies this
      ensures o.Ok? ==> snippet == Some(o.data) && error == old(error)
      ensures !o.Ok? ==> snippet == old(snippet) && error == FetchError(o)
      ensures !loading
      ensures Shown() == old(Shown()) && isExecuting == old(isExecuting)
    {
      if o.Ok? {
        snippet := Some(o.data);
      } else {
        error := FetchError(o);
      }
      loading := false;
    }

    /** The synchronous part of `executeCode`: with no snippet, or code that trims empty,
        refuse with an error and send nothing; otherwise the request carries the code
        alone, never a snippet id. */
    method BeginExecute() returns (request: Option<ExecRequest>)
      modifies this
      ensures (old(snippet).None? || Blank(old(snippet).value.code)) ==>
                request.None? && Shown() == Refused(old(Shown())) && isExecuting == old(isExecuting)
      ensures old(snippet).Some? && !Blank(old(snippet).value.code) ==>
                request == Some(ExecRequest(old(snippet).value.code, None)) && isExecuting && Shown() == Running
      ensures snippet == old(snippet) && loading == old(loading) && error == old(error)
    {
      if snippet.None? || Blank(snippet.value.code) {
        output, hasError := NoCodeMessage, true;
        return None;
      }
      isExecuting := true;
      output, hasError, executionTime := RunningMessage, false, None;
      request := Some(ExecRequest(snippet.value.code, None));
    }

    /** The rest of `executeCode`, mapped exactly as in the editor. */
    method CompleteExecute(o: Outcome<ExecResult>)
      modifies this
      ensures Shown() == Settled(o, old(Shown())) && !isExecuting
      ensures snippet == old(snippet) && loading == old(loading) && error == old(error)
    {
      var p := Settled(o, Shown());
      output, hasError, executionTime := p.output, p.hasError, p.executionTime;
      isExecuting := false;
    }

    /** The screen: loading wins over an error, which wins over the snippet. */
    function View(): (v: SharedView)
      reads this
      ensures loading ==> v == LoadingView
      ensures !loading && error != "" ==> v == ErrorView(error)
      ensures !loading && error == "" && snippet.Some? ==> v == SnippetView(snippet.value)
      ensures v == NoView <==> !loading && error == "" && snippet.None?
    {
      if loading then LoadingView
      else if error != "" then ErrorView(error)
      else if snippet.Some? then SnippetView(snippet.value)
      else NoView
    }
  }

  /** Opening a shared link: from the initial state, one fetch leaves exactly one of the
      snippet and the error set, so the page shows the snippet or the error and never fails
      to render. */
  method Open(token: string, o: Outcome<Snippet>) returns (view: SharedView)
    ensures o.Ok? ==> view == SnippetView(o.data)
    ensures !o.Ok? ==> view == ErrorView(FetchError(o))
  {
    var page := new SharedSnippet(token);
    var path := page.BeginFetch();
    page.CompleteFetch(o);
    assert page.snippet.Some? != (page.error != "");
    view := page.View();
  }
}
