/** Clients of the pages' contracts: a whole sign-in as the user lives it,
    and a note draft from composer to list. Each step is proved from the
    methods' postconditions alone. */
module Journeys {
  import opened Js
  import opened Schemas
  import opened OtpFlow
  import opened AuthContext
  import opened Routing
  import opened NoteStore
  import opened Home

  /** A code is requested for `email`; a short code is refused locally,
      a wrong code by the provider, and the right one is accepted. */
  method OtpJourney(isEmail: string -> bool, email: string, short: string, wrong: string, right: string)
    returns (page: SignUpPage)
    requires isEmail(email)
    requires Length(short) < OtpDigits
    requires |wrong| == OtpDigits && AllDigits(wrong)
    requires |right| == OtpDigits && AllDigits(right)
    ensures page.Valid() && page.form.otpRequested && page.form.error == None && !page.form.loading
  {
    page := new SignUpPage(isEmail);
    page.form.SetEmail(email);
    var call := page.PressPrimary();
    assert call == Some(SignInWithOtp(email));
    call := page.PressPrimary();
    assert call == None;
    page.form.Settle(Ok);
    assert page.form.otpRequested && page.form.error == None;

    page.form.SetOtp(short);
    call := page.PressPrimary();
    assert call == None && page.form.error == Some(OtpLengthMessage);

    page.form.SetOtp(wrong);
    call := page.PressPrimary();
    assert call == Some(VerifyEmailOtp(email, wrong));
    page.form.Settle(Err("invalid code"));
    assert page.form.otpRequested && page.form.otp == wrong;
    assert page.form.error == Some("invalid code");

    page.form.SetOtp(right);
    call := page.PressPrimary();
    assert call == Some(VerifyEmailOtp(email, right));
    page.form.Settle(Ok);
  }

  /** The session holder and the gate around a sign-in: the sign-up page is
      shown until the provider announces a session, then the notes page. */
  method SessionJourney(session: Session)
  {
    var auth := new AuthProvider();
    assert AppScreen(auth, HomePath) == Loading;
    auth.SessionResolved(None);
    assert AppScreen(auth, HomePath) == Redirect(AuthPath);
    assert AppScreen(auth, AuthPath) == Render(AuthPage);

    auth.AuthStateChanged(Some(session));
    assert auth.user == Some(session.user);
    assert AppScreen(auth, AuthPath) == Redirect(HomePath);
    assert AppScreen(auth, HomePath) == Render(HomePage);

    auth.Teardown();
    auth.AuthStateChanged(None);
    assert auth.user == Some(session.user) && !auth.loading;
  }

  /** A draft with an empty title is refused before any request and
      keeps the draft as typed. */
  method EmptyTitleJourney(user: User)
  {
    var store := new Store([]);
    var home := new HomePage(user, store);
    home.ToggleComposer();
    home.SetTitle("");
    home.SetContent("hello");
    var row := home.CreateNote();
    assert row == None && home.error == Some(TitleRequired);
    assert home.title == "" && home.content == "hello" && store.rows == [];
    assert home.showComposer && !home.loading;
  }

  /** A first note created on a fresh page is the page's only note. */
  method FirstNoteJourney(user: User, first: NewNote) returns (home: HomePage)
    requires first.userId == user.id
    requires CheckNote(first.title, first.content) == None
    ensures fresh(home) && fresh(home.store)
    ensures home.Valid() && home.user == user && !home.loading
    ensures home.store.rows == [Note("a", first.title, first.content, user.id, 1)]
  {
    var store := new Store([]);
    home := new HomePage(user, store);
    home.SetTitle(first.title);
    home.SetContent(first.content);
    var row := home.CreateNote();
    assert row == Some(first);
    home.CreateSettled(Ok, "a", 1, Ok);
  }

  /** Two notes created one after the other come back newest first, each
      under the user's id. */
  method TwoNotesJourney(user: User, first: NewNote, second: NewNote) returns (home: HomePage)
    requires first.userId == user.id && second.userId == user.id
    requires CheckNote(first.title, first.content) == None
    requires CheckNote(second.title, second.content) == None
    ensures fresh(home) && fresh(home.store)
    ensures home.Valid() && home.user == user && !home.loading
    ensures home.notes == [Note("b", second.title, second.content, user.id, 2), Note("a", first.title, first.content, user.id, 1)]
  {
    home := FirstNoteJourney(user, first);
    var a := Note("a", first.title, first.content, user.id, 1);
    home.SetTitle(second.title);
    home.SetContent(second.content);
    var row := home.CreateNote();
    assert row == Some(second);
    home.CreateSettled(Ok, "b", 2, Ok);
    var b := Note("b", second.title, second.content, user.id, 2);
    assert home.store.rows == [a, b];
    NewerFirst(a, b, user.id);
    assert home.notes == [b, a];
  }

  /** Deleting the newer of the two leaves the older in the list. */
  method DeleteJourney(user: User, first: NewNote, second: NewNote)
    requires first.userId == user.id && second.userId == user.id
    requires CheckNote(first.title, first.content) == None
    requires CheckNote(second.title, second.content) == None
  {
    var home := TwoNotesJourney(user, first, second);
    var a := Note("a", first.title, first.content, user.id, 1);
    var b := Note("b", second.title, second.content, user.id, 2);
    home.DeleteNote(b.id, Ok);
    DropFirst(b, a);
    assert home.notes == [a];
  }

  /** Two of a user's rows, the second newer, are listed newer first. */
  lemma NewerFirst(older: Note, newer: Note, uid: string)
    requires older.userId == uid && newer.userId == uid
    requires older.createdAt < newer.createdAt
    ensures Select([older, newer], uid) == [newer, older]
  {
    assert [older, newer][1..] == [newer];
    assert [newer][1..] == [];
    assert Filter([older, newer], OwnedBy(uid)) == [older, newer];
    assert SortByDate([newer]) == [newer];
  }

  /** Removing the first of two rows with distinct ids leaves the second. */
  lemma DropFirst(x: Note, y: Note)
    requires x.id != y.id
    ensures Filter([x, y], NotId(x.id)) == [y]
  {
    assert [x, y][1..] == [y];
    assert [y][1..] == [];
  }
}
