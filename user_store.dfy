/**
 * The credential store the routes talk to (the `User` collection): its records,
 * the two lookups the routes use, insertion and saving. The store itself is an
 * external collaborator; only the behaviour the routes rely on is modelled.
 */
module UserStore {
  import opened Wrappers

  /** A user document. `password` holds whatever was assigned to the field;
      the hashing done by the schema's save hook is not part of this model. */
  datatype StoredUser = StoredUser(id: string, username: string, email: string, password: string)

  /** The three fields the routes ever send back about a user. */
  datatype PublicUser = PublicUser(id: string, username: string, email: string)

  /** The verdict of `User.create`. */
  datatype Creation = Created(user: StoredUser) | Rejected(message: string)

  function Public(u: StoredUser): (p: PublicUser)
    ensures p.id == u.id && p.username == u.username && p.email == u.email
  {
    PublicUser(u.id, u.username, u.email)
  }

  /** No two records share an id (the document key) or an email (the unique index). */
  ghost predicate DistinctKeys(records: seq<StoredUser>)
  {
    forall i, j :: 0 <= i < j < |records| ==>
      records[i].id != records[j].id && records[i].email != records[j].email
  }

  /** `User.findOne({ email })`: a record with that email (the only one, under the store's invariant). */
  function FindByEmail(records: seq<StoredUser>, email: string): (r: Option<StoredUser>)
    ensures r.Some? ==> r.value in records && r.value.email == email
    ensures r.None? <==> forall u :: u in records ==> u.email != email
  {
    if records == [] then None
    else if records[0].email == email then Some(records[0])
    else FindByEmail(records[1..], email)
  }

  /** Where `User.findById(id)` finds its record. */
  function IndexOfId(records: seq<StoredUser>, id: string): (r: Option<nat>)
    ensures r.Some? ==> r.value < |records| && records[r.value].id == id
    ensures r.None? <==> forall u :: u in records ==> u.id != id
  {
    if records == [] then None
    else if records[0].id == id then Some(0)
    else match IndexOfId(records[1..], id)
      case None => None
      case Some(k) => Some(k + 1)
  }

  /** With distinct emails, the lookup by email finds the one record that has it. */
  lemma FindByEmailUnique(records: seq<StoredUser>, u: StoredUser)
    requires DistinctKeys(records)
    requires u in records
    ensures FindByEmail(records, u.email) == Some(u)
  {
  }

  class UserCollection {
    var records: seq<StoredUser>

    ghost predicate Valid()
      reads this
    {
      DistinctKeys(records)
    }

    constructor ()
      ensures Valid() && records == []
    {
      records := [];
    }

    /**
     * `User.create`. `newId` is the key the store generates and `rejection`
     * is the message of the schema's validation error, if it raises one; the
     * unique index on email makes it raise one for an email already present.
     */
    method Create(username: string, email: string, password: string, newId: string, rejection: Option<string>)
      returns (r: Creation)
      requires Valid()
      requires forall u :: u in records ==> u.id != newId
      requires (exists u :: u in records && u.email == email) ==> rejection.Some?
      modifies this
      ensures Valid()
      ensures rejection.Some? ==> r == Rejected(rejection.value) && records == old(records)
      ensures rejection.None? ==>
        && r == Created(StoredUser(newId, username, email, password))
        && records == old(records) + [r.user]
    {
      if rejection.Some? {
        r := Rejected(rejection.value);
      } else {
        var u := StoredUser(newId, username, email, password);
        r := Created(u);
        forall i | 0 <= i < |records|
          ensures records[i].id != newId && records[i].email != email
        {
          assert records[i] in records;
        }
        records := records + [u];
      }
    }

    /** `user.save()` of a loaded record whose key and email were left alone. */
    method Save(at: nat, u: StoredUser)
      requires Valid()
      requires at < |records| && records[at].id == u.id && records[at].email == u.email
      modifies this
      ensures Valid()
      ensures records == old(records)[at := u]
    {
      records := records[at := u];
    }
  }
}
