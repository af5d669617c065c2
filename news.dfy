/** The topic-management screen: a local snapshot of the remote topic
    collection, the load/error flags, a multi-selection of topic ids for bulk
    deletion, and the form that creates or edits one topic. Each handler is
    one sequential transition; the outcome of its remote call (and of the
    reload that follows a successful mutation) is a parameter. */
module News {
  import opened Collections

  /** A topic record as the remote collection returns it. Missing and null
      fields are both `None`; the timestamps are opaque to the screen. */
  datatype Topic = Topic(id: Option<int>, title: Option<string>,
                         createdAt: Option<string>, updatedAt: Option<string>)

  /** What a `catch` clause receives: an `Error` object with its message, or
      some other thrown value. */
  datatype Thrown = ErrorObject(message: string) | OtherValue

  /** How an awaited remote call settles. */
  datatype Response<T> = Resolved(value: T) | Rejected(reason: Thrown)

  const LoadFallback: string := "Failed to load topics"
  const SaveFallback: string := "Saving failed"
  const DeleteFallback: string := "Deletion failed"

  /** `err instanceof Error ? err.message : fallback`. */
  function ErrorText(reason: Thrown, fallback: string): string
  {
    match reason
    case ErrorObject(message) => message
    case OtherValue => fallback
  }

  // ---------------------------------------------------------------------------
  // Drafts sent by the form

  /** `editingId || undefined`: a null id and the id 0 are both falsy, so
      both leave the id out; every other id is kept. */
  function DraftId(editingId: Option<int>): Option<int>
  {
    match editingId
    case Some(k) => if k != 0 then Some(k) else None
    case None => None
  }

  /** The record `handleSubmit` sends: the form's title and, when editing, the
      id being edited; no timestamps. A draft without an id asks the remote
      collection to create a topic, one with an id to update it. */
  function Draft(title: string, editingId: Option<int>): Topic
  {
    Topic(DraftId(editingId), Some(title), None, None)
  }

  // ---------------------------------------------------------------------------
  // Selection updates

  /** The predicate `id => !ids.includes(id)`. */
  function NotIn(ids: seq<int>): int -> bool {
    (x: int) => x !in ids
  }

  /** `selected.filter(id => !ids.includes(id))`. */
  function WithoutIds(selected: seq<int>, ids: seq<int>): (r: seq<int>)
    ensures forall x :: x in r <==> x in selected && x !in ids
    ensures (forall k :: 0 <= k < |selected| ==> selected[k] !in ids) ==> r == selected
  {
    Filter(selected, NotIn(ids))
  }

  /** `prev.includes(id) ? prev.filter(item => item !== id) : [...prev, id]`;
      the single-id filter is `WithoutIds` with the list `[id]`. */
  function Toggled(selected: seq<int>, id: int): (r: seq<int>)
    ensures id in r <==> id !in selected
    ensures forall x :: x != id ==> (x in r <==> x in selected)
    ensures id !in selected ==> r == selected + [id]
  {
    if id in selected then WithoutIds(selected, [id]) else selected + [id]
  }

  /** Toggling never creates a duplicate in a selection that had none. */
  lemma ToggledNoDuplicates(selected: seq<int>, id: int)
    requires NoDuplicates(selected)
    ensures NoDuplicates(Toggled(selected, id))
  {
    if id in selected {
      FilterNoDuplicates(selected, NotIn([id]));
    } else {
      var r := selected + [id];
      forall i, j | 0 <= i < j < |r| ensures r[i] != r[j] {
        if j == |selected| {
          assert r[i] == selected[i];
        } else {
          assert r[i] == selected[i] && r[j] == selected[j];
        }
      }
    }
  }

  /** Toggling twice gives back the same set of selected ids. */
  lemma ToggleTwiceSameSet(selected: seq<int>, id: int)
    ensures forall x :: x in Toggled(Toggled(selected, id), id) <==> x in selected
  {
  }

  /** Toggling an unselected id twice restores the selection exactly. */
  lemma ToggleTwiceRestores(selected: seq<int>, id: int)
    requires id !in selected
    ensures Toggled(Toggled(selected, id), id) == selected
  {
    FilterConcat(selected, [id], NotIn([id]));
    FilterSingleton(id, NotIn([id]));
  }

  /** Toggling a selected id twice removes its occurrences and puts it at the end. */
  lemma ToggleTwiceMovesToEnd(selected: seq<int>, id: int)
    requires id in selected
    ensures Toggled(Toggled(selected, id), id) == WithoutIds(selected, [id]) + [id]
  {
  }

  // ---------------------------------------------------------------------------
  // The component

  /** The `News` component's state cells and its handlers. */
  class NewsScreen {
    var topics: seq<Topic>
    var loading: bool
    var error: Option<string>
    var selectedIds: seq<int>
    var formTitle: string
    var editingId: Option<int>

    /** The initial values of the state cells. */
    constructor ()
      ensures topics == [] && loading && error == None
      ensures selectedIds == [] && formTitle == "" && editingId == None
    {
      topics := [];
      loading := true;
      error := None;
      selectedIds := [];
      formTitle := "";
      editingId := None;
    }

    /** `loadTopics`: a successful fetch replaces the snapshot wholesale and
        clears the error; a failed one keeps the snapshot and records the
        error. Loading is over either way; the form and selection are not
        touched. */
    method LoadTopics(response: Response<seq<Topic>>)
      modifies this
      ensures !loading
      ensures response.Resolved? ==> topics == response.value && error == None
      ensures response.Rejected? ==>
        topics == old(topics) && error == Some(ErrorText(response.reason, LoadFallback))
      ensures selectedIds == old(selectedIds)
      ensures formTitle == old(formTitle) && editingId == old(editingId)
    {
      loading := true;
      match response {
        case Resolved(data) =>
          topics := data;
          error := None;
        case Rejected(reason) =>
          error := Some(ErrorText(reason, LoadFallback));
      }
      loading := false;
    }

    /** `handleInputChange`: the form's title follows the input field. */
    method HandleInputChange(value: string)
      modifies this
      ensures formTitle == value
      ensures topics == old(topics) && loading == old(loading) && error == old(error)
      ensures selectedIds == old(selectedIds) && editingId == old(editingId)
    {
      formTitle := value;
    }

    /** `resetForm`: empty title, nothing being edited, nothing else changed. */
    method ResetForm()
      modifies this
      ensures formTitle == "" && editingId == None
      ensures topics == old(topics) && loading == old(loading) && error == old(error)
      ensures selectedIds == old(selectedIds)
    {
      formTitle := "";
      editingId := None;
    }

    /** `setupEdit`: a topic without an id changes nothing; otherwise the form
        takes its title (the empty string when it has none) and its id. */
    method SetupEdit(topic: Topic)
      modifies this
      ensures topic.id.None? ==>
        formTitle == old(formTitle) && editingId == old(editingId)
      ensures topic.id.Some? ==>
        formTitle == topic.title.GetOr("") && editingId == topic.id
      ensures topics == old(topics) && loading == old(loading) && error == old(error)
      ensures selectedIds == old(selectedIds)
    {
      if topic.id.None? {
        return;
      }
      formTitle := topic.title.GetOr("");
      editingId := topic.id;
    }

    /** `toggleSelection`: flips whether `id` is selected. */
    method ToggleSelection(id: int)
      modifies this
      ensures selectedIds == Toggled(old(selectedIds), id)
      ensures topics == old(topics) && loading == old(loading) && error == old(error)
      ensures formTitle == old(formTitle) && editingId == old(editingId)
    {
      selectedIds := Toggled(selectedIds, id);
    }

    /** `handleSubmit`: sends exactly one draft built from the form. When the
        save succeeds the form is reset and the snapshot is refreshed from
        `reload` (never patched locally); when it fails the error is recorded
        and the snapshot, form and selection stay as they were. */
    method HandleSubmit(save: Response<bool>, reload: Response<seq<Topic>>)
      returns (sent: seq<Topic>)
      modifies this
      ensures sent == [Draft(old(formTitle), old(editingId))]
      ensures selectedIds == old(selectedIds)
      ensures save.Resolved? ==>
        formTitle == "" && editingId == None && !loading
        && (reload.Resolved? ==> topics == reload.value && error == None)
        && (reload.Rejected? ==>
              topics == old(topics) && error == Some(ErrorText(reload.reason, LoadFallback)))
      ensures save.Rejected? ==>
        error == Some(ErrorText(save.reason, SaveFallback))
        && topics == old(topics) && loading == old(loading)
        && formTitle == old(formTitle) && editingId == old(editingId)
    {
      var topicToSave := Draft(formTitle, editingId);
      sent := [topicToSave];
      match save {
        case Resolved(_) =>
          ResetForm();
          LoadTopics(reload);
        case Rejected(reason) =>
          error := Some(ErrorText(reason, SaveFallback));
      }
    }

    /** `handleDelete`: when the deletion succeeds the deleted ids leave the
        selection (the others keep their order) and the snapshot is refreshed
        from `reload`; when it fails the error is recorded and the snapshot
        and selection stay as they were. The form is never touched. */
    method HandleDelete(ids: seq<int>, deletion: Response<bool>, reload: Response<seq<Topic>>)
      modifies this
      ensures formTitle == old(formTitle) && editingId == old(editingId)
      ensures deletion.Resolved? ==>
        selectedIds == WithoutIds(old(selectedIds), ids) && !loading
        && (reload.Resolved? ==> topics == reload.value && error == None)
        && (reload.Rejected? ==>
              topics == old(topics) && error == Some(ErrorText(reload.reason, LoadFallback)))
      ensures deletion.Rejected? ==>
        error == Some(ErrorText(deletion.reason, DeleteFallback))
        && topics == old(topics) && loading == old(loading)
        && selectedIds == old(selectedIds)
    {
      match deletion {
        case Resolved(_) =>
          selectedIds := WithoutIds(selectedIds, ids);
          LoadTopics(reload);
        case Rejected(reason) =>
          error := Some(ErrorText(reason, DeleteFallback));
      }
    }
  }

  // ---------------------------------------------------------------------------
  // Scenarios
  //
  // The screen renders its form and table only once a load has succeeded
  // (`loading` false, no `error`), so each scenario starts with a successful
  // `LoadTopics` of some snapshot `loaded`.

  /** Editing a stored topic, changing its title and saving submits the
      original id with the new title: an update, never a new record. */
  method EditThenSave(loaded: seq<Topic>, topic: Topic, newTitle: string,
                      save: Response<bool>, reload: Response<seq<Topic>>)
    returns (sent: seq<Topic>)
    requires topic.id.Some? && topic.id.value != 0
    ensures |sent| == 1 && sent[0].id == topic.id && sent[0].title == Some(newTitle)
  {
    var screen := new NewsScreen();
    screen.LoadTopics(Resolved(loaded));
    screen.SetupEdit(topic);
    screen.HandleInputChange(newTitle);
    sent := screen.HandleSubmit(save, reload);
  }

  /** Whatever topic is put into the form for editing, the submit that follows
      sends that topic's id exactly when it is a non-zero id, together with the
      topic's title when it has an id; a topic without an id leaves the form
      untouched, and a topic without a usable id is submitted as a new record. */
  method SubmitAfterEdit(loaded: seq<Topic>, topic: Topic,
                         save: Response<bool>, reload: Response<seq<Topic>>)
    returns (sent: seq<Topic>)
    ensures |sent| == 1
    ensures sent[0].id.Some? <==> topic.id.Some? && topic.id.value != 0
    ensures sent[0].id.Some? ==> sent[0].id == topic.id
    ensures topic.id.Some? ==> sent[0].title == Some(topic.title.GetOr(""))
  {
    var screen := new NewsScreen();
    screen.LoadTopics(Resolved(loaded));
    screen.SetupEdit(topic);
    sent := screen.HandleSubmit(save, reload);
  }

  /** Once an edit is abandoned with `resetForm`, the next submit never
      carries an id, whichever topic was being edited. */
  method SubmitAfterReset(loaded: seq<Topic>, topic: Topic, title: string,
                          save: Response<bool>, reload: Response<seq<Topic>>)
    returns (sent: seq<Topic>)
    ensures |sent| == 1 && sent[0].id.None? && sent[0].title == Some(title)
  {
    var screen := new NewsScreen();
    screen.LoadTopics(Resolved(loaded));
    screen.SetupEdit(topic);
    screen.ResetForm();
    screen.HandleInputChange(title);
    sent := screen.HandleSubmit(save, reload);
  }

  /** Saving a new title with nothing being edited submits a record without an
      id, and a successful save resets the form and refreshes the snapshot. */
  method CreateThenRefresh(title: string, refreshed: seq<Topic>)
    returns (sent: seq<Topic>, topics: seq<Topic>, formTitle: string, editingId: Option<int>)
    ensures sent == [Topic(None, Some(title), None, None)]
    ensures topics == refreshed && formTitle == "" && editingId == None
  {
    var screen := new NewsScreen();
    screen.LoadTopics(Resolved([]));
    screen.HandleInputChange(title);
    sent := screen.HandleSubmit(Resolved(true), Resolved(refreshed));
    topics, formTitle, editingId := screen.topics, screen.formTitle, screen.editingId;
  }

  /** A deletion of a selected id that the server refuses with a message shows
      that message verbatim and keeps both the snapshot and the selection. */
  method RefusedDeletion(loaded: seq<Topic>, id: int, message: string, reload: Response<seq<Topic>>)
    returns (error: Option<string>, selected: seq<int>, topics: seq<Topic>)
    ensures error == Some(message)
    ensures selected == [id] && topics == loaded
  {
    var screen := new NewsScreen();
    screen.LoadTopics(Resolved(loaded));
    screen.ToggleSelection(id);
    screen.HandleDelete([id], Rejected(ErrorObject(message)), reload);
    error, selected, topics := screen.error, screen.selectedIds, screen.topics;
  }
}
