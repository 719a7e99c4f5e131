/**
 * The ownership policy for job applications: one predicate per ability.
 * Listing and creating are open to every authenticated user; viewing,
 * updating and deleting a record are open to its owner only.
 */
module Policy {
  import opened Model

  datatype User = User(id: int)

  function ViewAny(user: User): (allowed: bool)
    ensures allowed
  {
    true
  }

  function View(user: User, app: JobApplication): (allowed: bool)
    ensures allowed <==> "user_id" in app.attrs && app.attrs["user_id"] == Num(user.id)
  {
    OwnedBy(app, user.id)
  }

  function Create(user: User): (allowed: bool)
    ensures allowed
  {
    true
  }

  function Update(user: User, app: JobApplication): (allowed: bool)
    ensures allowed <==> "user_id" in app.attrs && app.attrs["user_id"] == Num(user.id)
  {
    OwnedBy(app, user.id)
  }

  function Delete(user: User, app: JobApplication): (allowed: bool)
    ensures allowed <==> "user_id" in app.attrs && app.attrs["user_id"] == Num(user.id)
  {
    OwnedBy(app, user.id)
  }

  /** The three record-level abilities agree on every user and record. */
  lemma RecordAbilitiesAgree(user: User, app: JobApplication)
    ensures View(user, app) == Update(user, app) == Delete(user, app)
  {
  }

  /** No record lets two users with different ids through. */
  lemma AtMostOneOwner(u: User, v: User, app: JobApplication)
    requires u.id != v.id
    ensures !(View(u, app) && View(v, app))
    ensures !(Update(u, app) && Update(v, app))
    ensures !(Delete(u, app) && Delete(v, app))
  {
  }

  /** A record whose owner is stored as something other than an integer is nobody's. */
  lemma NonIntegerOwnerDeniesAll(user: User, app: JobApplication)
    requires "user_id" in app.attrs && !app.attrs["user_id"].Num?
    ensures !View(user, app) && !Update(user, app) && !Delete(user, app)
  {
  }
}
