/**
 * The audited-record contract shared by every entity (`BaseModel` in
 * core/models.py): each row carries a status flag, a creation stamp, an
 * update stamp and an owning user, and `save` is two writes. The first is an
 * ordinary write that refreshes `updated_at` (and sets `created_at` on
 * insert); the second, only for an instance that already had a primary key,
 * is a targeted update that sets the stored status to
 * `created_at == updated_at` and touches no other column.
 *
 * The table is generic in the row's business fields; unique constraints are
 * given as a function from fields to a key.
 */
module Lifecycle {
  import opened Wrappers

  /** A primary key. */
  type Id = nat
  /** The primary key of a user of the authentication layer. */
  type UserId = nat
  /** An abstract clock reading; every write is given the current reading. */
  type Clock = nat

  /** The owner an instance gets when none is given (`default=1`). */
  const DefaultOwner: UserId := 1

  /** The four columns every entity inherits. */
  datatype Audit = Audit(status: bool, createdAt: Clock, updatedAt: Clock, owner: UserId)

  /** A stored row: the inherited columns and the entity's own fields. */
  datatype Row<T> = Row(audit: Audit, data: T)

  /** One table: rows by primary key, and the next key the id sequence hands out. */
  datatype Table<T> = Table(rows: map<Id, Row<T>>, nextId: Id)

  /**
   * The in-memory model instance handed to `save`: its primary key (`None`
   * until it has been stored), the status and owner the caller left on it,
   * and its business fields. `created_at` and `updated_at` are not editable
   * and are therefore not part of what a caller supplies.
   */
  datatype Instance<T> = Instance(pk: Option<Id>, status: bool, owner: UserId, data: T)

  /** A freshly constructed instance: no key, status `True`, owner the default user. */
  function NewInstance<T>(data: T): Instance<T> {
    Instance(None, true, DefaultOwner, data)
  }

  /** One column of a unique key. */
  datatype Component = Text(text: string) | Ref(ref: Id) | Day(day: nat)

  /** The columns of a unique constraint, in order; `None` is a NULL column. */
  type Key = seq<Option<Component>>

  /**
   * Two rows violate a unique constraint when their key columns are equal and
   * none of them is NULL: PostgreSQL never treats NULL as equal to NULL.
   */
  predicate Collide(a: Key, b: Key) {
    a == b && forall n | 0 <= n < |a| :: a[n].Some?
  }

  /**
   * Why a write was rejected: a value its column cannot hold (PostgreSQL's
   * data errors, and a decimal Django cannot fit to the column), or a broken
   * unique or foreign-key constraint (both `IntegrityError` in Django).
   */
  datatype SaveError = DataError | UniqueViolation | ForeignKeyViolation

  /** Writing `data` at `id` would duplicate the key of another stored row. */
  predicate Clashes<T>(t: Table<T>, id: Id, data: T, key: T -> Key) {
    exists j | j in t.rows && j != id :: Collide(key(data), key(t.rows[j].data))
  }

  /**
   * An insert would reuse the primary key of a stored row: the id sequence is
   * not ahead of the stored keys. PostgreSQL rejects it as a duplicate key.
   */
  predicate KeyReused<T>(t: Table<T>, inst: Instance<T>) {
    inst.pk.None? && t.nextId in t.rows
  }

  /** No two stored rows violate the unique constraint. */
  ghost predicate Unique<T>(t: Table<T>, key: T -> Key) {
    forall i, j | i in t.rows && j in t.rows && i != j ::
      !Collide(key(t.rows[i].data), key(t.rows[j].data))
  }

  /** Every stored key was handed out before the next one. */
  ghost predicate Issued<T>(t: Table<T>) {
    forall i | i in t.rows :: i < t.nextId
  }

  /** The primary key a save writes: the instance's own, or the next sequence value. */
  function TargetId<T>(t: Table<T>, inst: Instance<T>): Id {
    if inst.pk.Some? then inst.pk.value else t.nextId
  }

  /**
   * The first, ordinary write (`super().save()`). `updated_at` is the current
   * reading; `created_at` is kept from the stored row, or set to the current
   * reading when the row is inserted; status, owner and fields are stored as
   * the instance holds them. A key with no row behind it is inserted there.
   */
  function WriteRow<T>(t: Table<T>, inst: Instance<T>, now: Clock): Table<T> {
    var id := TargetId(t, inst);
    var created := if id in t.rows then t.rows[id].audit.createdAt else now;
    Table(t.rows[id := Row(Audit(inst.status, created, now, inst.owner), inst.data)],
          if id < t.nextId then t.nextId else id + 1)
  }

  /**
   * The second, targeted write (`filter(pk=...).update(status=Case(...))`):
   * the stored status becomes whether the stored stamps are equal. It matches
   * no row when `id` is not stored, and never touches another column.
   */
  function RecomputeStatus<T>(t: Table<T>, id: Id): (r: Table<T>)
    ensures r.rows.Keys == t.rows.Keys && r.nextId == t.nextId
    ensures forall j | j in t.rows && j != id :: r.rows[j] == t.rows[j]
    ensures id in t.rows ==>
      && r.rows[id].data == t.rows[id].data
      && r.rows[id].audit.createdAt == t.rows[id].audit.createdAt
      && r.rows[id].audit.updatedAt == t.rows[id].audit.updatedAt
      && r.rows[id].audit.owner == t.rows[id].audit.owner
    ensures id in t.rows ==>
      (r.rows[id].audit.status <==> t.rows[id].audit.createdAt == t.rows[id].audit.updatedAt)
  {
    if id !in t.rows then t
    else
      var a := t.rows[id].audit;
      t.(rows := t.rows[id := t.rows[id].(audit := a.(status := a.createdAt == a.updatedAt))])
  }

  /**
   * What a successful save leaves in the table at `id`: every other row as it
   * was; the instance's fields and owner; `updated_at` the current reading;
   * `created_at` the stored one, or the current reading on insert; and the
   * status the caller set on an insert, or `created_at == updated_at` after
   * saving an instance that already had a key.
   */
  ghost predicate Saved<T>(t: Table<T>, t': Table<T>, inst: Instance<T>, now: Clock, id: Id) {
    && t'.rows.Keys == t.rows.Keys + {id}
    && (forall j | j in t.rows && j != id :: t'.rows[j] == t.rows[j])
    && id in t'.rows
    && t'.rows[id].data == inst.data
    && t'.rows[id].audit.owner == inst.owner
    && t'.rows[id].audit.updatedAt == now
    && t'.rows[id].audit.createdAt == (if id in t.rows then t.rows[id].audit.createdAt else now)
    && (if inst.pk.None? then t'.rows[id].audit.status == inst.status
        else t'.rows[id].audit.status == (t'.rows[id].audit.createdAt == t'.rows[id].audit.updatedAt))
  }

  /**
   * `BaseModel.save`: reject a write that duplicates another row's unique key
   * or an insert that reuses a stored primary key, and leave the table as it
   * was; otherwise write the row, then recompute the status if the instance
   * already had a key.
   */
  function Save<T>(t: Table<T>, inst: Instance<T>, now: Clock, key: T -> Key)
    : (r: Result<(Table<T>, Id), SaveError>)
    ensures r.Failure? <==> KeyReused(t, inst) || Clashes(t, TargetId(t, inst), inst.data, key)
    ensures r.Failure? ==> r.error == UniqueViolation
    ensures r.Success? && inst.pk.None? ==> r.value.1 !in t.rows
    ensures r.Success? ==> r.value.1 == TargetId(t, inst) && Saved(t, r.value.0, inst, now, r.value.1)
  {
    var id := TargetId(t, inst);
    if KeyReused(t, inst) || Clashes(t, id, inst.data, key) then Failure(UniqueViolation)
    else
      var written := WriteRow(t, inst, now);
      if inst.pk.None? then Success((written, id))
      else Success((RecomputeStatus(written, id), id))
  }

  /** A successful save keeps the unique constraint and the id sequence ahead of every key. */
  lemma SaveKeepsTableValid<T>(t: Table<T>, inst: Instance<T>, now: Clock, key: T -> Key)
    requires Unique(t, key) && Issued(t)
    ensures Save(t, inst, now, key).Success? ==>
      Unique(Save(t, inst, now, key).value.0, key) && Issued(Save(t, inst, now, key).value.0)
  {
  }

  /** Inserting a freshly constructed instance stores status `True`, the default owner and equal stamps. */
  lemma NewInstanceStoredActive<T>(t: Table<T>, data: T, now: Clock, key: T -> Key)
    ensures var r := Save(t, NewInstance(data), now, key);
      r.Success? ==>
        && r.value.1 !in t.rows
        && r.value.0.rows[r.value.1].audit == Audit(true, now, now, DefaultOwner)
  {
  }

  /**
   * Saving an instance that already had a row, at a reading later than the
   * row's creation, always leaves the stored status `False`, whatever status
   * the caller set.
   */
  lemma EditWithLaterClockClearsStatus<T>(t: Table<T>, inst: Instance<T>, now: Clock, key: T -> Key)
    requires inst.pk.Some? && inst.pk.value in t.rows
    requires t.rows[inst.pk.value].audit.createdAt < now
    ensures var r := Save(t, inst, now, key);
      r.Success? ==>
        && r.value.0.rows[inst.pk.value].audit.createdAt == t.rows[inst.pk.value].audit.createdAt
        && !r.value.0.rows[inst.pk.value].audit.status
  {
  }

  /** Saves applied in order; a save that is rejected leaves the table as it was. */
  function SaveAll<T>(t: Table<T>, insts: seq<Instance<T>>, clocks: seq<Clock>, key: T -> Key): Table<T>
    requires |insts| == |clocks|
    decreases |insts|
  {
    if |insts| == 0 then t
    else
      var r := Save(t, insts[0], clocks[0], key);
      SaveAll(if r.Success? then r.value.0 else t, insts[1..], clocks[1..], key)
  }

  /**
   * Any series of edits of one row at readings later than its creation keeps
   * `created_at`, and the row can still have status `True` only if none of
   * the edits went through: the status never comes back.
   */
  lemma {:induction false} EditsNeverRestoreStatus<T>(
    t: Table<T>, id: Id, insts: seq<Instance<T>>, clocks: seq<Clock>, key: T -> Key)
    requires |insts| == |clocks|
    requires id in t.rows
    requires forall n | 0 <= n < |insts| :: insts[n].pk == Some(id)
    requires forall n | 0 <= n < |clocks| :: t.rows[id].audit.createdAt < clocks[n]
    ensures id in SaveAll(t, insts, clocks, key).rows
    ensures SaveAll(t, insts, clocks, key).rows[id].audit.createdAt == t.rows[id].audit.createdAt
    ensures SaveAll(t, insts, clocks, key).rows[id].audit.status ==>
      SaveAll(t, insts, clocks, key).rows[id] == t.rows[id]
    decreases |insts|
  {
    if |insts| > 0 {
      var r := Save(t, insts[0], clocks[0], key);
      var next := if r.Success? then r.value.0 else t;
      EditWithLaterClockClearsStatus(t, insts[0], clocks[0], key);
      assert id in next.rows && next.rows[id].audit.createdAt == t.rows[id].audit.createdAt;
      EditsNeverRestoreStatus(next, id, insts[1..], clocks[1..], key);
      assert SaveAll(t, insts, clocks, key) == SaveAll(next, insts[1..], clocks[1..], key);
    }
  }
}
