/** The editor screen: running the code, saving it as a snippet, clearing, loading and
    sharing. */
module Editor {
  import opened Text
  import opened Remote
  import opened Execution

  const WelcomeCode := "// Welcome to JavaScript Playground!\n// Write your JavaScript code here and click \"Run Code\" to execute\n\nconsole.log(\"Hello, World!\");"
  const NewCode := "// New code snippet\n\n"

  /** The request `saveSnippet` sends: a POST creating a snippet, or a PUT to the current
      snippet's id. */
  datatype SaveRequest =
    | Create(title: string, code: string, description: string, isPublic: bool)
    | Update(id: int, title: string, code: string, description: string, isPublic: bool)

  class CodeEditor {
    var code: string
    var output: string
    var isLoading: bool
    var executionTime: Option<int>
    var hasError: bool
    var title: string
    var description: string
    var showSaveForm: bool
    var current: Option<Snippet>

    /** The result panel as the three separate state variables show it. */
    function Shown(): Panel
      reads this
    {
      Panel(output, hasError, executionTime)
    }

    constructor ()
      ensures code == WelcomeCode && Shown() == Panel("", false, None) && !isLoading
      ensures title == "" && description == "" && !showSaveForm && current.None?
    {
      code, output, isLoading, executionTime, hasError := WelcomeCode, "", false, None, false;
      title, description, showSaveForm, current := "", "", false, None;
    }

    /** The synchronous part of `executeCode`. Code that trims empty is refused with an
        error and no request; otherwise the panel shows the run in flight and the request
        carries the code and the current snippet's id, if any. */
    method BeginExecute() returns (request: Option<ExecRequest>)
      modifies this
      ensures Blank(old(code)) ==> request.None? && Shown() == Refused(old(Shown())) && isLoading == old(isLoading)
      ensures !Blank(old(code)) ==> isLoading && Shown() == Running
      ensures !Blank(old(code)) ==> request.Some? && request.value.code == old(code)
      ensures !Blank(old(code)) && old(current).Some? ==> request.value.snippetId == Some(old(current).value.id)
      ensures !Blank(old(code)) && old(current).None? ==> request.value.snippetId.None?
      ensures code == old(code) && title == old(title) && description == old(description)
      ensures showSaveForm == old(showSaveForm) && current == old(current)
    {
      if Blank(code) {
        output, hasError := NoCodeMessage, true;
        return None;
      }
      isLoading := true;
      output, hasError, executionTime := RunningMessage, false, None;
      var snippetId := if current.Some? then Some(current.value.id) else None;
      request := Some(ExecRequest(code, snippetId));
    }

    /** The rest of `executeCode` once the reply `o` arrived. */
    method CompleteExecute(o: Outcome<ExecResult>)
      modifies this
      ensures Shown() == Settled(o, old(Shown())) && !isLoading
      ensures code == old(code) && title == old(title) && description == old(description)
      ensures showSaveForm == old(showSaveForm) && current == old(current)
    {
      var p := Settled(o, Shown());
      output, hasError, executionTime := p.output, p.hasError, p.executionTime;
      isLoading := false;
    }

    /** `saveSnippet`, with the reply `o` to the request it returns. A title that trims
        empty sends nothing. The snippet is always saved private. Only a success changes
        state: the server's snippet becomes the current one and the save form closes and
        empties, while the code stays. */
    method Save(o: Outcome<Snippet>) returns (request: Option<SaveRequest>)
      modifies this
      ensures Blank(old(title)) ==> request.None?
      ensures !Blank(old(title)) && old(current).None? ==>
                request == Some(Create(old(title), old(code), old(description), false))
      ensures !Blank(old(title)) && old(current).Some? ==>
                request == Some(Update(old(current).value.id, old(title), old(code), old(description), false))
      ensures request.Some? && o.Ok? ==>
                current == Some(o.data) && !showSaveForm && title == "" && description == ""
      ensures !(request.Some? && o.Ok?) ==>
                current == old(current) && showSaveForm == old(showSaveForm)
                && title == old(title) && description == old(description)
      ensures code == old(code) && Shown() == old(Shown()) && isLoading == old(isLoading)
    {
      if Blank(title) {
        return None;
      }
      if current.Some? {
        request := Some(Update(current.value.id, title, code, description, false));
      } else {
        request := Some(Create(title, code, description, false));
      }
      if o.Ok? {
        current := Some(o.data);
        showSaveForm := false;
        title, description := "", "";
      }
    }

    /** `clearEditor`: a fresh template, no current snippet and an empty panel. */
    method Clear()
      modifies this
      ensures code == NewCode && current.None? && Shown() == Panel("", false, None)
      ensures title == old(title) && description == old(description)
      ensures showSaveForm == old(showSaveForm) && isLoading == old(isLoading)
    {
      code := NewCode;
      output := "";
      current := None;
      hasError := false;
      executionTime := None;
    }

    /** `loadSnippet`: edit the given snippet's code with an empty panel. */
    method Load(s: Snippet)
      modifies this
      ensures code == s.code && current == Some(s) && Shown() == Panel("", false, None)
      ensures title == old(title) && description == old(description)
      ensures showSaveForm == old(showSaveForm) && isLoading == old(isLoading)
    {
      code := s.code;
      current := Some(s);
      output := "";
      hasError := false;
      executionTime := None;
    }

    /** The link `shareSnippet` copies: only a saved (current) snippet has one. */
    method ShareLink(origin: string) returns (url: Option<string>)
      ensures url.Some? <==> current.Some?
      ensures url.Some? ==> url.value == ShareUrl(origin, current.value.shareToken)
    {
      if current.None? {
        return None;
      }
      url := Some(ShareUrl(origin, current.value.shareToken));
    }
  }

  /** Saving a new snippet sends one create request and makes the server's snippet the
      current one. */
  method SaveNewSnippet(saved: Snippet) returns (request: Option<SaveRequest>, current: Option<Snippet>)
    ensures request == Some(Create("demo", "console.log(1)", "", false))
    ensures current == Some(saved)
  {
    var editor := new CodeEditor();
    editor.code := "console.log(1)";
    editor.title := "demo";
    assert !Blank(editor.title) by { assert !IsWhitespace(editor.title[0]); }
    request := editor.Save(Ok(saved));
    current := editor.current;
  }
}
