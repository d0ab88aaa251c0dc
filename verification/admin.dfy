/**
 * The save path of the admin site (`BaseModelAdmin.save_model` in
 * core/admin.py): when the request's user is authenticated it becomes the
 * owner of the object, replacing whatever owner it had; then the object is
 * saved by the model's own `save`.
 */
module Admin {
  import opened Wrappers
  import opened Lifecycle
  import opened Models
  import opened Database

  /** The user behind an admin request. */
  datatype RequestUser = Anonymous | Authenticated(user: UserId)

  /** The owner override; the object is otherwise handed on as it came. */
  function AssignOwner(req: RequestUser, o: Instance<Entity>): (r: Instance<Entity>)
    ensures r.pk == o.pk && r.status == o.status && r.data == o.data
    ensures req.Authenticated? ==> r.owner == req.user
    ensures req.Anonymous? ==> r == o
  {
    if req.Authenticated? then o.(owner := req.user) else o
  }

  /**
   * `save_model`: the override, then `save()`. The admin save fails exactly
   * when the model save of the re-owned object would, and for the same
   * reason; when it succeeds, the users and the other tables are unchanged
   * and the entity's table holds the re-owned object as `BaseModel.save`
   * stores it.
   */
  function SaveModel(s: Store, req: RequestUser, o: Instance<Entity>, now: Clock)
    : (r: Result<(Store, Id), SaveError>)
    ensures r.Failure? <==>
      !RowFits(AssignOwner(req, o)) || KeyTaken(s, o) || !ReferencesExist(s, AssignOwner(req, o))
    ensures r.Failure? ==> (r.error == DataError <==> !RowFits(AssignOwner(req, o)))
    ensures r.Failure? ==>
      (r.error == UniqueViolation <==> RowFits(AssignOwner(req, o)) && KeyTaken(s, o))
    ensures req.Authenticated? && req.user !in s.users ==> r.Failure?
    ensures r.Success? ==>
      && r.value.0.users == s.users
      && (forall k | k != KindOf(o.data) :: TableOf(r.value.0, k) == TableOf(s, k))
      && r.value.1 == TargetId(TableOf(s, KindOf(o.data)), o)
      && Saved(TableOf(s, KindOf(o.data)), TableOf(r.value.0, KindOf(o.data)),
               AssignOwner(req, o), now, r.value.1)
    ensures r.Success? ==>
      TableOf(r.value.0, KindOf(o.data)).rows[r.value.1].audit.owner
        == (if req.Authenticated? then req.user else o.owner)
  {
    SaveObject(s, AssignOwner(req, o), now)
  }

  /** With no authenticated user the admin save is exactly the model save. */
  lemma AnonymousAdminSaveIsModelSave(s: Store, o: Instance<Entity>, now: Clock)
    ensures SaveModel(s, Anonymous, o, now) == SaveObject(s, o, now)
  {
  }

  /**
   * An admin edit of a stored row at a reading later than its creation leaves
   * the stored status `False`, keeps `created_at`, and reassigns the row to
   * the acting user, whoever owned it before.
   */
  lemma AdminEditClearsStatus(s: Store, req: RequestUser, o: Instance<Entity>, now: Clock)
    requires o.pk.Some? && o.pk.value in TableOf(s, KindOf(o.data)).rows
    requires TableOf(s, KindOf(o.data)).rows[o.pk.value].audit.createdAt < now
    ensures var r := SaveModel(s, req, o, now);
      r.Success? ==>
        var row := TableOf(r.value.0, KindOf(o.data)).rows[o.pk.value];
        && r.value.1 == o.pk.value
        && !row.audit.status
        && row.audit.createdAt == TableOf(s, KindOf(o.data)).rows[o.pk.value].audit.createdAt
        && (req.Authenticated? ==> row.audit.owner == req.user)
  {
  }

  /** An admin save keeps the store valid. */
  lemma AdminSaveKeepsValid(s: Store, req: RequestUser, o: Instance<Entity>, now: Clock)
    requires Valid(s)
    ensures SaveModel(s, req, o, now).Success? ==> Valid(SaveModel(s, req, o, now).value.0)
  {
    SaveKeepsValid(s, AssignOwner(req, o), now);
  }
}
