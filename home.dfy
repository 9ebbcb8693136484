/** The notes page, mounted only while a user is signed in. It lists the
    user's notes, creates a note from a draft title and content, and
    deletes a note; every request to the table is scoped to the signed-in
    user's id, never to anything the user typed. */
module Home {
  import opened Js
  import opened Schemas
  import opened AuthContext
  import opened NoteStore

  /** `s.split(sep)[0]`: everything before the first `sep`. */
  function BeforeFirst(s: string, sep: char): (r: string)
    ensures |r| <= |s| && r == s[..|r|]
    ensures sep !in r
    ensures |r| == |s| || s[|r|] == sep
  {
    if s == [] || s[0] == sep then []
    else [s[0]] + BeforeFirst(s[1..], sep)
  }

  /** The greeting name: the metadata's full name, else its name, else the
      email up to its first '@', else "there". */
  function DisplayName(user: Option<User>): (r: string)
    ensures user.None? ==> r == "there"
    ensures user.Some? && Truthy(user.value.fullName) ==> r == user.value.fullName.value
    ensures user.Some? && !Truthy(user.value.fullName) && Truthy(user.value.name) ==> r == user.value.name.value
    ensures user.Some? && !Truthy(user.value.fullName) && !Truthy(user.value.name) && Truthy(user.value.email) ==>
      '@' !in r && |r| <= |user.value.email.value| && r == user.value.email.value[..|r|]
      && (r == user.value.email.value || user.value.email.value[|r|] == '@')
    ensures user.Some? && !Truthy(user.value.fullName) && !Truthy(user.value.name) && !Truthy(user.value.email) ==>
      r == "there"
  {
    var fullName := if user.Some? then user.value.fullName else None;
    var name := if user.Some? then user.value.name else None;
    var email := if user.Some? then user.value.email else None;
    if Truthy(fullName) then fullName.value
    else if Truthy(name) then name.value
    else if Truthy(email) then BeforeFirst(email.value, '@')
    else "there"
  }

  /** The local filter after a delete: `n.id !== id`. */
  function NotId(id: string): Note -> bool {
    (n: Note) => n.id != id
  }

  class HomePage {
    const user: User
    const store: Store
    var notes: seq<Note>
    var title: string
    var content: string
    var showComposer: bool
    var error: Option<string>
    var loading: bool
    /** The row the suspended `createNote` is inserting. */
    var pending: Option<NewNote>

    /** The list holds only the user's notes, most recent first, and an
        insert in flight carries the user's id. */
    ghost predicate Valid()
      reads this
    {
      (forall n :: n in notes ==> n.userId == user.id)
      && NewestFirst(notes)
      && (loading <==> pending.Some?)
      && (pending.Some? ==> pending.value.userId == user.id)
    }

    constructor (user: User, store: Store)
      ensures Valid() && this.user == user && this.store == store
      ensures notes == [] && title == "" && content == "" && !showComposer
      ensures error == None && !loading && pending == None
    {
      this.user, this.store := user, store;
      notes, title, content := [], "", "";
      showComposer, error, loading, pending := false, None, false, None;
    }

    method SetTitle(value: string)
      requires Valid()
      modifies this`title
      ensures Valid() && title == value
    {
      title := value;
    }

    method SetContent(value: string)
      requires Valid()
      modifies this`content
      ensures Valid() && content == value
    {
      content := value;
    }

    /** The "Create Note" button opens or closes the composer. */
    method ToggleComposer()
      requires Valid()
      modifies this`showComposer
      ensures Valid() && showComposer == !old(showComposer)
    {
      showComposer := !showComposer;
    }

    /** `fetchNotes`, given how the query request ended: the list is
        replaced wholesale by the user's rows, or kept on failure. */
    method FetchNotes(outcome: Outcome)
      requires Valid()
      modifies this`notes, this`error
      ensures Valid()
      ensures outcome.Ok? ==> notes == Select(store.rows, user.id) && error == None
      ensures outcome.Err? ==> notes == old(notes) && error == Some(outcome.message)
    {
      error := None;
      if outcome.Err? {
        error := Some(outcome.message);
        return;
      }
      notes := Select(store.rows, user.id);
    }

    /** `createNote` up to the insert's await. Its only caller is the "Add
        note" button, which is disabled while `loading`. A draft that fails
        validation reaches no one and changes only `error`. */
    method CreateNote() returns (row: Option<NewNote>)
      requires Valid() && !loading
      modifies this`error, this`loading, this`pending
      ensures Valid()
      ensures row == (if CheckNote(title, content) == None then Some(NewNote(title, content, user.id)) else None)
      ensures error == CheckNote(title, content)
      ensures loading == row.Some? && pending == row
    {
      error := None;
      var parsed := CheckNote(title, content);
      if parsed.Some? {
        error := parsed;
        return None;
      }
      loading := true;
      row := Some(NewNote(title, content, user.id));
      pending := row;
    }

    /** The rest of `createNote` once the insert answers (`inserted`; the
        server assigns `id` and `createdAt`) and, after a successful insert,
        the refetch answers (`fetched`). */
    method CreateSettled(inserted: Outcome, id: string, createdAt: int, fetched: Outcome)
      requires Valid() && pending.Some?
      modifies this`error, this`loading, this`pending, this`title, this`content
      modifies this`notes, this`showComposer, store
      ensures Valid() && !loading && pending == None
      ensures inserted.Err? ==>
        error == Some(inserted.message) && store.rows == old(store.rows) && notes == old(notes)
        && title == old(title) && content == old(content) && showComposer == old(showComposer)
      ensures inserted.Ok? ==>
        store.rows == old(store.rows) + [Note(id, old(pending.value.title), old(pending.value.content), user.id, createdAt)]
        && title == "" && content == "" && !showComposer
      ensures inserted.Ok? && fetched.Ok? ==>
        notes == Select(store.rows, user.id) && error == None
        && Note(id, old(pending.value.title), old(pending.value.content), user.id, createdAt) in notes
      ensures inserted.Ok? && fetched.Err? ==> notes == old(notes) && error == Some(fetched.message)
    {
      var row := pending.value;
      loading, pending := false, None;
      if inserted.Err? {
        error := Some(inserted.message);
        return;
      }
      var note := store.Insert(row, id, createdAt);
      title, content := "", "";
      FetchNotes(fetched);
      showComposer := false;
    }

    /** `deleteNote(id)`, given how the delete request ended: the store
        loses only the user's row with that id, and the list loses exactly
        its entries with that id, the rest keeping their order. */
    method DeleteNote(id: string, outcome: Outcome)
      requires Valid()
      modifies this`error, this`notes, store
      ensures Valid()
      ensures outcome.Ok? ==>
        store.rows == Filter(old(store.rows), Survives(id, user.id))
        && notes == Filter(old(notes), NotId(id)) && error == None
      ensures outcome.Err? ==>
        store.rows == old(store.rows) && notes == old(notes) && error == Some(outcome.message)
    {
      error := None;
      if outcome.Err? {
        error := Some(outcome.message);
        return;
      }
      store.Delete(id, user.id);
      FilterNewestFirst(notes, NotId(id));
      notes := Filter(notes, NotId(id));
    }
  }
}
