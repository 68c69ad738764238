# Note app: session and client synchronisation model

This project models the core of a notes application in Dafny:

- The client's synchronisation store (`frontend/src/store/useStore.tsx`) is the class `ClientStore.Store`. It has five fields: `user`, `notes`, `isLoading`, `isInitialized` and `error`. It has nine actions. Each remote action is given the settled outcome of its request instead of performing it. Each remote action except `initialize` starts with `Begin` (loading on, error cleared), then commits the payload or runs the failure path. `initialize` first returns at once if the store is already initialised; otherwise it turns loading on without clearing the error, and then settles.
- The list and object updates applied on success are pure functions: `Appended`, `ReplaceById`, `RemoveById` and `Merge`. Lemmas state the properties that the store's callers rely on.
- The auth router (`backend/routes/auth.js`) decides, for register, login, logout and "me", the status, the JSON body and the cookie. It works over a modelled user store (`UserStore.UserCollection`). Register inserts into that store and is a method. Login, logout and "me" are functions.
- The users router (`backend/routes/users.js`) applies a partial profile update to the caller's own record and answers with the public fields.

Three behaviours of the client are kept as the code has them:

- Only `login` has a fallback message. Every other remote action's catch block (useStore.tsx lines 70, 80, 90, 100, 113, 126 and 139) reads `error.response.data.message` without optional chaining. When the request failed with no response at all, that read throws inside the catch block. The action's promise then rejects, and the state stays as `Begin` left it: `isLoading` true and `error` absent. `Store.FailedWith` and the `rejected` out-parameter state this.
- A successful `register` records no user.
- A failed `initialize` keeps `user` as it was.

External collaborators are parameters:

- `comparePassword` is a parameter of type `AuthRoutes.PasswordCheck`.
- `jwt.sign` is represented by the token's content, `Token(userId, "30d")`. The signature, the secret and the issued-at time that the signer adds are not modelled, so two signings for the same id give equal tokens here.
- The store's generated id and its validation verdict are arguments of `Create`.
- An exception thrown by the store is an optional `fault` message.

## Model

| member | source | states |
|---|---|---|
| `UserStore.FindByEmail` | backend/routes/auth.js:23 | the lookup by email returns a stored record with that email, and returns nothing exactly when no record has it |
| `UserStore.FindByEmailUnique` | backend/routes/auth.js:23 | when emails are distinct, the lookup by email finds the one record that has that email |
| `UserStore.IndexOfId` | backend/routes/users.js:12 | the lookup by id finds the position of a record with that id, and finds nothing exactly when no record has it |
| `UserStore.UserCollection.Create` | backend/routes/auth.js:11 | creation either rejects with the validation message and leaves the store unchanged, or appends exactly the new record; ids and emails stay distinct |
| `UserStore.UserCollection.Save` | backend/routes/users.js:17 | saving a loaded record replaces that record only; ids and emails stay distinct |
| `UserStore.Public` | backend/routes/auth.js:14 | the public projection of a record keeps its id, username and email; the reply type has no place for the password |
| `Responses.ErrorReply` | backend/routes/auth.js:16 | an error answer has the given status, carries only the message and sets no cookie (the same shape answers at auth.js lines 29 and 32 and users.js line 21) |
| `AuthRoutes.Sign` | backend/routes/auth.js:12 | the token carries the user id as its only payload, with a lifetime of 30 days (the same call is at line 25) |
| `UserRoutes.Truthy` | backend/routes/users.js:14-15 | a submitted field counts as given exactly when it is present and not the empty string |
| `AuthRoutes.SessionCookie` | backend/routes/auth.js:12-13 | the session cookie is named `token`, carries a token holding only the user id with a 30-day lifetime, and is httpOnly, sameSite strict and secure, with maxAge 2,592,000,000 ms |
| `AuthRoutes.ClearedCookie` | backend/routes/auth.js:37 | the logout cookie overwrites `token` with an empty value that expires at the epoch; it is httpOnly only, with no sameSite or secure attribute |
| `AuthRoutes.Register` | backend/routes/auth.js:8-18 | success inserts the user and answers 201 with `{id, username, email}` and the session cookie; a creation error answers 400 with its message, sets no cookie and leaves the store unchanged |
| `AuthRoutes.Login` | backend/routes/auth.js:20-34 | a store fault answers 400 with its message; otherwise the reply is 200 exactly when the email is known and the password matches, with that user's public fields and the session cookie; every other case is the one 401 `Invalid email or password`; a cookie is set exactly on 200 |
| `AuthRoutes.UnknownEmailLikeWrongPassword` | backend/routes/auth.js:23-29 | an unknown email and a wrong password for a known email get the identical 401 reply |
| `AuthRoutes.LoginSucceedsIff` | backend/routes/auth.js:23-24 | when emails are distinct, login succeeds exactly when some record has the email and accepts the password |
| `AuthRoutes.Logout` | backend/routes/auth.js:36-39 | logout always answers 200 `Logged out successfully` with the clearing cookie, and consults no store |
| `AuthRoutes.Me` | backend/routes/auth.js:41-43 | the identity route answers 200 with exactly the user the session gate attached |
| `UserRoutes.Patched` | backend/routes/users.js:14-15 | username and password are overwritten only by truthy submitted values; id and email never change |
| `UserRoutes.PatchedIdempotent` | backend/routes/users.js:14-15 | submitting nothing truthy leaves the record unchanged, and applying the same update twice equals applying it once |
| `UserRoutes.UpdateProfile` | backend/routes/users.js:9-23 | only the caller's own record is replaced, by its patched version; the reply is 200 `Profile updated successfully` with `{id, username, email}` only; a store fault answers 400 with its message and saves nothing |
| `ClientStore.LoginError` | frontend/src/store/useStore.tsx:60 | the login error is the server's message when that message is non-empty, and otherwise `An error occurred during login`; it is never empty |
| `ClientStore.Appended` | frontend/src/store/useStore.tsx:98 | adding a note grows the list by one, keeps the earlier notes in order and puts the new note last |
| `ClientStore.ReplaceById` | frontend/src/store/useStore.tsx:109 | updating keeps the length, puts the replacement at every position whose id matches, and keeps every other note in place |
| `ClientStore.ReplaceByIdUnchanged` | frontend/src/store/useStore.tsx:109 | updating an id that no cached note has leaves the list unchanged |
| `ClientStore.RemoveById` | frontend/src/store/useStore.tsx:122 | after deleting, a note is in the list exactly when it was there before and has a different id |
| `ClientStore.RemoveByIdConcat` | frontend/src/store/useStore.tsx:122 | deletion works piece by piece over a concatenation, so the remaining notes keep their relative order |
| `ClientStore.RemoveByIdUnchanged` | frontend/src/store/useStore.tsx:122 | deletion leaves the list unchanged exactly when no note has that id |
| `ClientStore.RemoveAfterReplace` | frontend/src/store/useStore.tsx:108-124 | deleting an id right after updating it in place gives the same list as deleting it directly |
| `ClientStore.Merge` | frontend/src/store/useStore.tsx:135 | in the profile merge, every key the response carries wins, every other key keeps the current value, and a missing current user contributes no key |
| `ClientStore.MergeProperties` | frontend/src/store/useStore.tsx:135 | a response carrying every key replaces the user outright, and merging the same response again changes nothing |
| `ClientStore.Store.constructor` | frontend/src/store/useStore.tsx:37-41 | the store starts with no user, no notes, not loading, not initialised and no error |
| `ClientStore.Store.Begin` | frontend/src/store/useStore.tsx:55 | an action's first step turns loading on and clears the error, and changes nothing else (the same step is at lines 65, 75, 85, 95, 105, 118 and 131) |
| `ClientStore.Store.Reject` | frontend/src/store/useStore.tsx:69-71 | a failure with a response records its message (absent if the body has none) and stops loading; a failure with no response throws, leaving loading on and no error; user, notes and initialisation are untouched |
| `ClientStore.Store.Initialize` | frontend/src/store/useStore.tsx:43-52 | a no-op when already initialised; otherwise it ends initialised and not loading on both branches, adopts the `/me` user on success, keeps the user on failure, and never touches the error or the notes |
| `ClientStore.Store.Login` | frontend/src/store/useStore.tsx:54-62 | success sets the user to the returned user; failure keeps the user and records the server's message or the fallback; loading ends either way |
| `ClientStore.Store.Register` | frontend/src/store/useStore.tsx:64-72 | success only stops loading and records no user; failure follows the shared catch block |
| `ClientStore.Store.Logout` | frontend/src/store/useStore.tsx:74-82 | success clears the user and every cached note; failure keeps both |
| `ClientStore.Store.FetchNotes` | frontend/src/store/useStore.tsx:84-92 | success replaces the cache with the server's list; failure keeps it |
| `ClientStore.Store.AddNote` | frontend/src/store/useStore.tsx:94-102 | success appends the created note to the cache; failure keeps it |
| `ClientStore.Store.UpdateNote` | frontend/src/store/useStore.tsx:104-115 | success replaces every cached note with that id by the server's copy; failure keeps the cache |
| `ClientStore.Store.DeleteNote` | frontend/src/store/useStore.tsx:117-128 | success drops every cached note with that id; failure keeps the cache |
| `ClientStore.Store.UpdateProfile` | frontend/src/store/useStore.tsx:130-141 | success merges the returned user over the current one, key by key; failure keeps the user; the notes never change |
| `ClientStore.InitializeTwice` | frontend/src/store/useStore.tsx:43-52 | on a new store, a second `initialize` ignores its outcome: the user is the one from the first attempt (none if it failed), initialised, not loading, no error |
| `ClientStore.CreateUpdateDelete` | frontend/src/store/useStore.tsx:84-128 | after fetching any cache, adding a note, updating it and then deleting it, all successful, leaves the fetched cache without the notes that had that id |

## Left out

- HTTP transport: the axios calls, URLs and `withCredentials`, the express wiring, cookie parsing, CORS and the port. Each request is an outcome argument and each response a `Reply` value.
- Persistence of the client state in browser storage under `user-storage`. This is storage I/O. Because the whole state is persisted, including `isInitialized`, a restored store would make `initialize` a no-op.
- Overlapping actions. Actions run one after another, each from its first step to its settlement. Interleavings of two pending actions on `isLoading` and `error` are a concurrency concern.
- The notes router and the session gate middleware are not part of this model. The notes ownership check and token validation are therefore not modelled. The gate appears only as the caller id and the attached user that the handlers receive.
- Password hashing (the schema's save hook), token signing and verification with the secret, and the document store's own implementation are left out. They are external libraries: `comparePassword` is a parameter, and a token is represented by its payload and lifetime.
- `AuthRoutes.Register`: signing is assumed not to throw. When the secret is missing, the user is created but the reply is 400; that case is not modelled.
- `AuthRoutes.Login`: signing is assumed not to throw. When the secret is missing, a reply that would be 200 becomes a 400 and nothing is created; that case is not modelled.
- `AuthRoutes.Login`: request-body fields are assumed to be strings, so an absent `email` or `password` is not modelled (the lookup of an undefined email depends on the store library), and `comparePassword` is assumed to answer without throwing. A JSON object as `email` would act as a query operator in the store's lookup, which `FindByEmail` cannot express. A missing password reaches `comparePassword` only when the email is known. If that call throws, the reply is a 400, not the shared 401, so `UnknownEmailLikeWrongPassword` holds only under these assumptions.
- `UserRoutes.Patched`: submitted fields are assumed to be strings or absent. For other JSON values JavaScript truthiness differs from `Truthy`: `[]` and `{}` are truthy, `0` and `false` are falsy.
- `ClientStore.Merge`: a JSON `null` value is not distinguished from an absent key. In the spread merge, a key present with value `null` overrides the current value, while `Merge` keeps the current value whenever the response field is `None`. Likewise `Failure` has no case for a response whose body is `null`, on which reading the message also throws.
- `UserRoutes.UpdateProfile`: requires the caller's record to exist. The session gate attached that user from the store and no route deletes users. A record missing at lookup would throw a JavaScript TypeError into the 400 branch, and that error text is not modelled.
- `UserStore.UserCollection.Create`: the store's generated id is an argument required to be fresh, and the validation verdict is an argument required to reject an email already present. These stand for the schema and its unique index, which are not part of this model.
- React pages and components, routing guards and the form validation schemas. These are rendering and library declarations.
