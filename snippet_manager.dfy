/** The list of the user's snippets: fetching, editing, deleting, sharing and the short
    preview of each snippet's code. */
module Snippets {
  import opened Remote

  /** The edit form: `title`, `description`, `code`, `is_public`. */
  datatype EditForm = EditForm(title: string, description: string, code: string, isPublic: bool)

  const EmptyEditForm := EditForm("", "", "", false)

  const LoadFailed := "Failed to load snippets"
  const UpdateFailed := "Failed to update snippet"
  const DeleteFailed := "Failed to delete snippet"

  const PreviewLength := 200
  const Ellipsis := "..."

  /** The code shown on a snippet's card: the first 200 characters and an ellipsis when
      the code is longer, the whole code otherwise. */
  function Preview(code: string): (r: string)
    ensures |r| <= PreviewLength + |Ellipsis|
    ensures |code| <= PreviewLength ==> r == code
    ensures |code| > PreviewLength ==> |r| == PreviewLength + |Ellipsis| && r[PreviewLength..] == Ellipsis
    ensures var shown := if |code| < PreviewLength then |code| else PreviewLength;
            r[..shown] == code[..shown]
  {
    if |code| > PreviewLength then code[..PreviewLength] + Ellipsis else code
  }

  /** The form `handleEdit` fills from a snippet; a missing description becomes empty. */
  function FormOf(s: Snippet): (f: EditForm)
    ensures f.title == s.title && f.code == s.code && f.isPublic == s.isPublic
    ensures s.description.Some? ==> f.description == s.description.value
    ensures s.description.None? ==> f.description == ""
  {
    EditForm(s.title, if s.description.Some? then s.description.value else "", s.code, s.isPublic)
  }

  /** `PUT /api/snippets/:id` with the whole form as its body. */
  datatype UpdateRequest = UpdateRequest(id: int, form: EditForm)

  class SnippetManager {
    var snippets: seq<Snippet>
    var loading: bool
    var error: string
    var editing: Option<Snippet>
    var form: EditForm

    constructor ()
      ensures snippets == [] && loading && error == "" && editing.None? && form == EmptyEditForm
    {
      snippets, loading, error, editing, form := [], true, "", None, EmptyEditForm;
    }

    /** The first step of `fetchSnippets`. */
    method BeginFetch()
      modifies this
      ensures loading
      ensures snippets == old(snippets) && error == old(error) && editing == old(editing) && form == old(form)
    {
      loading := true;
    }

    /** The rest of `fetchSnippets` with the reply `o`: a success replaces the list by the
        server's, in the server's order; a thrown request keeps the list and reports the
        error; loading ends in every case. */
    method CompleteFetch(o: Outcome<seq<Snippet>>)
      modifies this
      ensures snippets == if o.Ok? then o.data else old(snippets)
      ensures error == if o.Threw() then LoadFailed else old(error)
      ensures !loading
      ensures editing == old(editing) && form == old(form)
    {
      if o.Ok? {
        snippets := o.data;
      } else if o.Threw() {
        error := LoadFailed;
      }
      loading := false;
    }

    /** `handleEdit`: open the edit form on a snippet. */
    method Edit(s: Snippet)
      modifies this
      ensures editing == Some(s) && form == FormOf(s)
      ensures snippets == old(snippets) && loading == old(loading) && error == old(error)
    {
      editing := Some(s);
      form := FormOf(s);
    }

    /** `handleSave`, with the reply `put` to the update and the reply `list` to the
        re-fetch that follows a successful one. With no snippet being edited, reading its
        id throws inside the `try` and is reported like a failed update. A reply that is
        not a success but did not throw changes nothing. */
    method Save(put: Outcome<()>, list: Outcome<seq<Snippet>>) returns (request: Option<UpdateRequest>)
      modifies this
      ensures request.Some? <==> old(editing).Some?
      ensures request.Some? ==> request.value == UpdateRequest(old(editing).value.id, old(form))
      ensures request.Some? && put.Ok? ==>
                && snippets == (if list.Ok? then list.data else old(snippets))
                && error == (if list.Threw() then LoadFailed else old(error))
                && editing.None? && form == EmptyEditForm
      ensures request.Some? && put.NotOk? ==>
                snippets == old(snippets) && error == old(error) && editing == old(editing) && form == old(form)
      ensures (request.None? || put.Threw()) ==>
                snippets == old(snippets) && error == UpdateFailed && editing == old(editing) && form == old(form)
      ensures !(request.Some? && put.Ok?) ==> loading == old(loading)
      ensures request.Some? && put.Ok? ==> !loading
    {
      if editing.None? {
        error := UpdateFailed;
        return None;
      }
      request := Some(UpdateRequest(editing.value.id, form));
      if put.Ok? {
        BeginFetch();
        CompleteFetch(list);
        editing := None;
        form := EmptyEditForm;
      } else if put.Threw() {
        error := UpdateFailed;
      }
    }

    /** `handleDelete` for snippet `id`, with the answer to the confirmation, the reply
        `del` to the deletion and the reply `list` to the re-fetch. Declining sends nothing.
        The deletion only fails when it throws; any other reply re-fetches the list, which
        is never edited locally. */
    method Delete(id: int, confirmed: bool, del: Outcome<()>, list: Outcome<seq<Snippet>>)
      returns (request: Option<int>)
      modifies this
      ensures request == if confirmed then Some(id) else None
      ensures !confirmed ==>
                snippets == old(snippets) && loading == old(loading) && error == old(error)
      ensures confirmed && !del.Threw() ==>
                && snippets == (if list.Ok? then list.data else old(snippets))
                && error == (if list.Threw() then LoadFailed else old(error))
                && !loading
      ensures confirmed && del.Threw() ==>
                snippets == old(snippets) && error == DeleteFailed && loading == old(loading)
      ensures editing == old(editing) && form == old(form)
    {
      if !confirmed {
        return None;
      }
      request := Some(id);
      if del.Threw() {
        error := DeleteFailed;
      } else {
        BeginFetch();
        CompleteFetch(list);
      }
    }
  }
}
