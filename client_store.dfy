/**
 * The client's synchronisation store: one mutable record holding the signed-in
 * user, the cached notes, a loading flag, an initialisation flag and the last
 * error, changed only by its actions. Each remote action first marks the store
 * as loading and then settles on the server's outcome, which is given to the
 * action instead of being fetched.
 */
module ClientStore {
  import opened Wrappers

  /** A user object as the client holds it. Every key is optional: the object
      is whatever the server sent, and the profile merge can build one from a
      partial object. */
  datatype User = User(id: Option<string>, username: Option<string>, email: Option<string>)

  /** A note as the server sends it; `id` is its `_id`. */
  datatype Note = Note(id: string, title: string, content: string)

  /** How a request failed, as its catch block sees it: with no response at all
      (the network failed), or with a response whose body may carry a message. */
  datatype Failure = NoResponse | Response(message: Option<string>)

  /** The settled outcome of one request. */
  datatype Outcome<T> = Ok(payload: T) | Fail(failure: Failure)

  const LoginFallback := "An error occurred during login"

  /** `error.response?.data?.message || 'An error occurred during login'`. */
  function LoginError(f: Failure): (e: string)
    ensures e != ""
    ensures e == LoginFallback <==> f.NoResponse? || f.message.None? || f.message.value in {"", LoginFallback}
    ensures e != LoginFallback ==> f == Response(Some(e))
  {
    match f
    case Response(Some(message)) => if message != "" then message else LoginFallback
    case _ => LoginFallback
  }

  /** `[...notes, note]`. */
  function Appended(notes: seq<Note>, note: Note): (r: seq<Note>)
    ensures |r| == |notes| + 1
    ensures r[..|notes|] == notes && r[|notes|] == note
  {
    notes + [note]
  }

  /** `notes.map(note => note._id === id ? replacement : note)`. */
  function ReplaceById(notes: seq<Note>, id: string, replacement: Note): (r: seq<Note>)
    ensures |r| == |notes|
    ensures forall i :: 0 <= i < |notes| ==> r[i] == if notes[i].id == id then replacement else notes[i]
  {
    if notes == [] then []
    else [if notes[0].id == id then replacement else notes[0]] + ReplaceById(notes[1..], id, replacement)
  }

  /** `notes.filter(note => note._id !== id)`. */
  function RemoveById(notes: seq<Note>, id: string): (r: seq<Note>)
    ensures |r| <= |notes|
    ensures forall n :: n in r <==> n in notes && n.id != id
  {
    if notes == [] then []
    else (if notes[0].id == id then [] else [notes[0]]) + RemoveById(notes[1..], id)
  }

  /** Removal keeps the relative order: it works piece by piece. */
  lemma {:induction false} RemoveByIdConcat(a: seq<Note>, b: seq<Note>, id: string)
    ensures RemoveById(a + b, id) == RemoveById(a, id) + RemoveById(b, id)
  {
    if a != [] {
      assert (a + b)[1..] == a[1..] + b;
      RemoveByIdConcat(a[1..], b, id);
    } else {
      assert a + b == b;
    }
  }

  /** Removal leaves the list as it was exactly when no note has that id. */
  lemma {:induction false} RemoveByIdUnchanged(notes: seq<Note>, id: string)
    ensures RemoveById(notes, id) == notes <==> forall n :: n in notes ==> n.id != id
  {
    if notes != [] {
      RemoveByIdUnchanged(notes[1..], id);
      if notes[0].id == id {
        assert |RemoveById(notes, id)| < |notes| by {
          assert RemoveById(notes, id) == RemoveById(notes[1..], id);
        }
      } else {
        assert forall n :: n in notes <==> n == notes[0] || n in notes[1..];
      }
    }
  }

  /** Replacing leaves the list as it was when no note has that id. */
  lemma ReplaceByIdUnchanged(notes: seq<Note>, id: string, replacement: Note)
    requires forall n :: n in notes ==> n.id != id
    ensures ReplaceById(notes, id, replacement) == notes
  {
  }

  /** Deleting a note that was just updated in place is deleting it. */
  lemma {:induction false} RemoveAfterReplace(notes: seq<Note>, id: string, replacement: Note)
    requires replacement.id == id
    ensures RemoveById(ReplaceById(notes, id, replacement), id) == RemoveById(notes, id)
  {
    if notes != [] {
      var r := ReplaceById(notes, id, replacement);
      assert r[1..] == ReplaceById(notes[1..], id, replacement);
      RemoveAfterReplace(notes[1..], id, replacement);
    }
  }

  function Override(current: Option<string>, patch: Option<string>): Option<string>
  {
    if patch.Some? then patch else current
  }

  /** `{ ...current, ...patch }`: the keys of `patch` win, the others are kept;
      spreading `null` contributes no key. */
  function Merge(current: Option<User>, patch: User): (r: User)
    ensures patch.id.Some? ==> r.id == patch.id
    ensures patch.username.Some? ==> r.username == patch.username
    ensures patch.email.Some? ==> r.email == patch.email
    ensures current.Some? && patch.id.None? ==> r.id == current.value.id
    ensures current.Some? && patch.username.None? ==> r.username == current.value.username
    ensures current.Some? && patch.email.None? ==> r.email == current.value.email
    ensures current.None? ==> r == patch
  {
    var base := if current.Some? then current.value else User(None, None, None);
    User(Override(base.id, patch.id), Override(base.username, patch.username), Override(base.email, patch.email))
  }

  /** A patch carrying every key replaces the user outright, and merging the
      same patch again changes nothing. */
  lemma MergeProperties(current: Option<User>, patch: User)
    ensures patch.id.Some? && patch.username.Some? && patch.email.Some? ==> Merge(current, patch) == patch
    ensures Merge(Some(Merge(current, patch)), patch) == Merge(current, patch)
  {
  }

  class Store {
    var user: Option<User>
    var notes: seq<Note>
    var isLoading: bool
    var isInitialized: bool
    var error: Option<string>

    constructor ()
      ensures user == None && notes == [] && !isLoading && !isInitialized && error == None
    {
      user, notes, isLoading, isInitialized, error := None, [], false, false, None;
    }

    /** The state a failed action leaves. With a response, its message (or its
        absence) becomes the error and loading stops. Without one, reading
        `error.response.data` throws inside the catch block, so the state stays
        as the action's first step left it. */
    ghost predicate FailedWith(f: Failure)
      reads this
    {
      match f
      case Response(message) => !isLoading && error == message
      case NoResponse => isLoading && error == None
    }

    /** The first step of every remote action except `initialize`. */
    method Begin()
      modifies this
      ensures isLoading && error == None
      ensures user == old(user) && notes == old(notes) && isInitialized == old(isInitialized)
    {
      isLoading, error := true, None;
    }

    /** The catch block of every action except `login` and `initialize`.
        `rejected` tells whether the action's promise rejects. */
    method Reject(f: Failure) returns (rejected: bool)
      requires isLoading && error == None
      modifies this
      ensures rejected <==> f.NoResponse?
      ensures FailedWith(f)
      ensures user == old(user) && notes == old(notes) && isInitialized == old(isInitialized)
    {
      match f
      case NoResponse =>
        rejected := true;
      case Response(message) =>
        error, isLoading := message, false;
        rejected := false;
    }

    /** Resolve an existing session once: a no-op when already initialised;
        otherwise adopt the user of `/me`, or keep everything on failure, and
        end initialised and not loading either way. The error is never touched. */
    method Initialize(outcome: Outcome<User>)
      modifies this
      ensures notes == old(notes) && error == old(error)
      ensures old(isInitialized) ==> user == old(user) && isLoading == old(isLoading) && isInitialized
      ensures !old(isInitialized) ==>
        && isInitialized && !isLoading
        && user == (if outcome.Ok? then Some(outcome.payload) else old(user))
    {
      if isInitialized {
        return;
      }
      isLoading := true;
      match outcome
      case Ok(u) =>
        user, isInitialized, isLoading := Some(u), true, false;
      case Fail(_) =>
        isInitialized, isLoading := true, false;
    }

    /** Sign in: adopt the returned user, or record the server's message or
        the fallback text. The login catch block never throws. */
    method Login(outcome: Outcome<User>)
      modifies this
      ensures notes == old(notes) && isInitialized == old(isInitialized) && !isLoading
      ensures outcome.Ok? ==> user == Some(outcome.payload) && error == None
      ensures outcome.Fail? ==> user == old(user) && error == Some(LoginError(outcome.failure))
    {
      Begin();
      match outcome
      case Ok(u) =>
        user, isLoading := Some(u), false;
      case Fail(f) =>
        error, isLoading := Some(LoginError(f)), false;
    }

    /** Sign up: on success only loading stops; the new user is not recorded. */
    method Register(outcome: Outcome<()>) returns (rejected: bool)
      modifies this
      ensures user == old(user) && notes == old(notes) && isInitialized == old(isInitialized)
      ensures rejected <==> outcome == Fail(NoResponse)
      ensures outcome.Ok? ==> !isLoading && error == None
      ensures outcome.Fail? ==> FailedWith(outcome.failure)
    {
      Begin();
      match outcome
      case Ok(_) =>
        isLoading, rejected := false, false;
      case Fail(f) =>
        rejected := Reject(f);
    }

    /** Sign out: on success forget the user and every cached note. */
    method Logout(outcome: Outcome<()>) returns (rejected: bool)
      modifies this
      ensures isInitialized == old(isInitialized)
      ensures rejected <==> outcome == Fail(NoResponse)
      ensures outcome.Ok? ==> user == None && notes == [] && !isLoading && error == None
      ensures outcome.Fail? ==> user == old(user) && notes == old(notes) && FailedWith(outcome.failure)
    {
      Begin();
      match outcome
      case Ok(_) =>
        user, notes, isLoading, rejected := None, [], false, false;
      case Fail(f) =>
        rejected := Reject(f);
    }

    /** Replace the cache with the server's list. */
    method FetchNotes(outcome: Outcome<seq<Note>>) returns (rejected: bool)
      modifies this
      ensures user == old(user) && isInitialized == old(isInitialized)
      ensures rejected <==> outcome == Fail(NoResponse)
      ensures outcome.Ok? ==> notes == outcome.payload && !isLoading && error == None
      ensures outcome.Fail? ==> notes == old(notes) && FailedWith(outcome.failure)
    {
      Begin();
      match outcome
      case Ok(fetched) =>
        notes, isLoading, rejected := fetched, false, false;
      case Fail(f) =>
        rejected := Reject(f);
    }

    /** Append the created note at the end of the cache. */
    method AddNote(outcome: Outcome<Note>) returns (rejected: bool)
      modifies this
      ensures user == old(user) && isInitialized == old(isInitialized)
      ensures rejected <==> outcome == Fail(NoResponse)
      ensures outcome.Ok? ==> notes == Appended(old(notes), outcome.payload) && !isLoading && error == None
      ensures outcome.Fail? ==> notes == old(notes) && FailedWith(outcome.failure)
    {
      Begin();
      match outcome
      case Ok(created) =>
        notes, isLoading, rejected := Appended(notes, created), false, false;
      case Fail(f) =>
        rejected := Reject(f);
    }

    /** Put the server's copy in place of every cached note with that id. */
    method UpdateNote(id: string, outcome: Outcome<Note>) returns (rejected: bool)
      modifies this
      ensures user == old(user) && isInitialized == old(isInitialized)
      ensures rejected <==> outcome == Fail(NoResponse)
      ensures outcome.Ok? ==> notes == ReplaceById(old(notes), id, outcome.payload) && !isLoading && error == None
      ensures outcome.Fail? ==> notes == old(notes) && FailedWith(outcome.failure)
    {
      Begin();
      match outcome
      case Ok(updated) =>
        notes, isLoading, rejected := ReplaceById(notes, id, updated), false, false;
      case Fail(f) =>
        rejected := Reject(f);
    }

    /** Drop every cached note with that id. */
    method DeleteNote(id: string, outcome: Outcome<()>) returns (rejected: bool)
      modifies this
      ensures user == old(user) && isInitialized == old(isInitialized)
      ensures rejected <==> outcome == Fail(NoResponse)
      ensures outcome.Ok? ==> notes == RemoveById(old(notes), id) && !isLoading && error == None
      ensures outcome.Fail? ==> notes == old(notes) && FailedWith(outcome.failure)
    {
      Begin();
      match outcome
      case Ok(_) =>
        notes, isLoading, rejected := RemoveById(notes, id), false, false;
      case Fail(f) =>
        rejected := Reject(f);
    }

    /** Merge the returned user over the current one, key by key. */
    method UpdateProfile(outcome: Outcome<User>) returns (rejected: bool)
      modifies this
      ensures notes == old(notes) && isInitialized == old(isInitialized)
      ensures rejected <==> outcome == Fail(NoResponse)
      ensures outcome.Ok? ==> user == Some(Merge(old(user), outcome.payload)) && !isLoading && error == None
      ensures outcome.Fail? ==> user == old(user) && FailedWith(outcome.failure)
    {
      Begin();
      match outcome
      case Ok(patch) =>
        user, isLoading, rejected := Some(Merge(user, patch)), false, false;
      case Fail(f) =>
        rejected := Reject(f);
    }
  }

  /** Initialising twice consults the server once: the second outcome is ignored. */
  method InitializeTwice(first: Outcome<User>, second: Outcome<User>) returns (store: Store)
    ensures store.isInitialized && !store.isLoading && store.error == None
    ensures store.user == (if first.Ok? then Some(first.payload) else None)
  {
    store := new Store();
    store.Initialize(first);
    store.Initialize(second);
  }

  /** Fetch a cache, then create a note, update it and delete it: the cache
      ends as the fetched one without the notes that had that id. */
  method CreateUpdateDelete(before: seq<Note>, created: Note, updated: Note) returns (notes: seq<Note>)
    requires updated.id == created.id
    ensures notes == RemoveById(before, created.id)
  {
    var store := new Store();
    var rejected := store.FetchNotes(Ok(before));
    rejected := store.AddNote(Ok(created));
    rejected := store.UpdateNote(created.id, Ok(updated));
    rejected := store.DeleteNote(created.id, Ok(()));
    notes := store.notes;
    RemoveAfterReplace(before + [created], created.id, updated);
    RemoveByIdConcat(before, [created], created.id);
    assert RemoveById([created], created.id) == [];
  }
}
