/**
 * The stored state: the users of the authentication layer and one table per
 * entity. A save runs `BaseModel.save` on the entity's table, then checks the
 * foreign keys the row holds (its owner and its parent); a write that breaks
 * a unique constraint or a foreign key is rejected and changes nothing.
 */
module Database {
  import opened Wrappers
  import opened Lifecycle
  import opened Models

  /** The store: user ids, and the rows of each entity's table. */
  datatype Store = Store(
    users: set<UserId>,
    groups: Table<Entity>,
    plants: Table<Entity>,
    weather: Table<Entity>,
    loggers: Table<Entity>,
    powerGen: Table<Entity>,
    utilityIds: Table<Entity>,
    revenue: Table<Entity>,
    expense: Table<Entity>,
    production: Table<Entity>,
    curtailment: Table<Entity>,
    mail: Table<Entity>)

  const AllKinds: set<Kind> :=
    {GroupKind, PlantKind, WeatherKind, LoggerKind, PowerGenKind, UtilityIdKind,
     RevenueKind, ExpenseKind, ProductionKind, CurtailmentKind, MailKind}

  /** The table of one entity. */
  function TableOf(s: Store, k: Kind): Table<Entity> {
    match k
    case GroupKind => s.groups
    case PlantKind => s.plants
    case WeatherKind => s.weather
    case LoggerKind => s.loggers
    case PowerGenKind => s.powerGen
    case UtilityIdKind => s.utilityIds
    case RevenueKind => s.revenue
    case ExpenseKind => s.expense
    case ProductionKind => s.production
    case CurtailmentKind => s.curtailment
    case MailKind => s.mail
  }

  /** Replaces one entity's table; users and every other table are untouched. */
  function WithTable(s: Store, k: Kind, t: Table<Entity>): (r: Store)
    ensures TableOf(r, k) == t && r.users == s.users
    ensures forall k' | k' != k :: TableOf(r, k') == TableOf(s, k')
  {
    match k
    case GroupKind => s.(groups := t)
    case PlantKind => s.(plants := t)
    case WeatherKind => s.(weather := t)
    case LoggerKind => s.(loggers := t)
    case PowerGenKind => s.(powerGen := t)
    case UtilityIdKind => s.(utilityIds := t)
    case RevenueKind => s.(revenue := t)
    case ExpenseKind => s.(expense := t)
    case ProductionKind => s.(production := t)
    case CurtailmentKind => s.(curtailment := t)
    case MailKind => s.(mail := t)
  }

  /** Each table holds only its own entity. */
  ghost predicate Typed(s: Store) {
    forall k, i | i in TableOf(s, k).rows :: KindOf(TableOf(s, k).rows[i].data) == k
  }

  /** No table holds two rows that its unique constraint forbids. */
  ghost predicate KeysUnique(s: Store) {
    forall k :: Unique(TableOf(s, k), EntityKey)
  }

  /** Every table's id sequence is ahead of its stored keys. */
  ghost predicate IdsIssued(s: Store) {
    forall k :: Issued(TableOf(s, k))
  }

  /** The row an entity's foreign key points to is stored (or it has no foreign key). */
  predicate ParentPresent(s: Store, e: Entity) {
    Parent(e).None? || Parent(e).value.1 in TableOf(s, Parent(e).value.0).rows
  }

  /** No foreign key of a stored row, the owner included, points to a missing row. */
  ghost predicate RefClosed(s: Store) {
    forall k, i | i in TableOf(s, k).rows ::
      TableOf(s, k).rows[i].audit.owner in s.users && ParentPresent(s, TableOf(s, k).rows[i].data)
  }

  /** Every stored value, the owner included, fits its column. */
  ghost predicate Fitted(s: Store) {
    forall k, i | i in TableOf(s, k).rows ::
      ColumnsFit(TableOf(s, k).rows[i].data) && KeyFits(TableOf(s, k).rows[i].audit.owner)
  }

  /** The invariant every reachable store keeps. */
  ghost predicate Valid(s: Store) {
    Typed(s) && KeysUnique(s) && IdsIssued(s) && RefClosed(s) && Fitted(s)
  }

  /**
   * Every value a write sends fits its column: the fields, the parent key,
   * the owner key and an explicit primary key. The user model is not part of
   * this model; its key is taken to be `bigint` like the others.
   */
  predicate RowFits(o: Instance<Entity>) {
    ColumnsFit(o.data) && KeyFits(o.owner) && (o.pk.None? || KeyFits(o.pk.value))
  }

  /** The foreign keys a write must satisfy: its owner and its parent are stored. */
  predicate ReferencesExist(s: Store, o: Instance<Entity>) {
    o.owner in s.users && ParentPresent(s, o.data)
  }

  /**
   * The write would duplicate another row's unique key in the entity's table,
   * or insert at a primary key that is already stored.
   */
  predicate KeyTaken(s: Store, o: Instance<Entity>) {
    var t := TableOf(s, KindOf(o.data));
    KeyReused(t, o) || Clashes(t, TargetId(t, o), o.data, EntityKey)
  }

  /**
   * `save()` on any entity. A value its column cannot hold is rejected when
   * the row is formed, the unique constraint when the row is written, and the
   * foreign keys when the write commits (Django declares them deferrable).
   * Any failure rejects the whole write. `save()` runs no validation of its
   * own first.
   */
  function SaveObject(s: Store, o: Instance<Entity>, now: Clock)
    : (r: Result<(Store, Id), SaveError>)
    ensures r.Failure? <==> !RowFits(o) || KeyTaken(s, o) || !ReferencesExist(s, o)
    ensures r.Failure? ==> (r.error == DataError <==> !RowFits(o))
    ensures r.Failure? ==> (r.error == UniqueViolation <==> RowFits(o) && KeyTaken(s, o))
    ensures r.Success? ==>
      && r.value.0.users == s.users
      && (forall k | k != KindOf(o.data) :: TableOf(r.value.0, k) == TableOf(s, k))
      && r.value.1 == TargetId(TableOf(s, KindOf(o.data)), o)
      && Saved(TableOf(s, KindOf(o.data)), TableOf(r.value.0, KindOf(o.data)), o, now, r.value.1)
  {
    var k := KindOf(o.data);
    if !RowFits(o) then Failure(DataError)
    else
      var w :- Save(TableOf(s, k), o, now, EntityKey);
      if !ReferencesExist(s, o) then Failure(ForeignKeyViolation)
      else Success((WithTable(s, k, w.0), w.1))
  }

  /** A parent that was stored stays stored when no table loses a row. */
  lemma ParentPresentWhenTablesGrow(s: Store, s': Store, e: Entity)
    requires forall k :: TableOf(s, k).rows.Keys <= TableOf(s', k).rows.Keys
    requires ParentPresent(s, e)
    ensures ParentPresent(s', e)
  {
  }

  /**
   * Every successful save keeps the store valid: keys unique, ids issued, no
   * dangling reference, every value within its column.
   */
  lemma SaveKeepsValid(s: Store, o: Instance<Entity>, now: Clock)
    requires Valid(s)
    ensures SaveObject(s, o, now).Success? ==> Valid(SaveObject(s, o, now).value.0)
  {
    var r := SaveObject(s, o, now);
    if r.Success? {
      var s', id, k := r.value.0, r.value.1, KindOf(o.data);
      var t, t' := TableOf(s, k), TableOf(s', k);
      assert Unique(t, EntityKey) && Issued(t);
      SaveKeepsTableValid(t, o, now, EntityKey);
      assert Save(t, o, now, EntityKey).value.0 == t';
      forall k' ensures TableOf(s, k').rows.Keys <= TableOf(s', k').rows.Keys {
        if k' != k {
          assert TableOf(s', k') == TableOf(s, k');
        }
      }
      forall k', i | i in TableOf(s', k').rows
        ensures KindOf(TableOf(s', k').rows[i].data) == k'
        ensures TableOf(s', k').rows[i].audit.owner in s'.users
        ensures ParentPresent(s', TableOf(s', k').rows[i].data)
        ensures ColumnsFit(TableOf(s', k').rows[i].data)
        ensures KeyFits(TableOf(s', k').rows[i].audit.owner)
      {
        if k' == k && i == id {
          ParentPresentWhenTablesGrow(s, s', o.data);
        } else {
          assert TableOf(s', k').rows[i] == TableOf(s, k').rows[i];
          ParentPresentWhenTablesGrow(s, s', TableOf(s, k').rows[i].data);
        }
      }
      forall k' ensures Unique(TableOf(s', k'), EntityKey) && Issued(TableOf(s', k')) {
        if k' != k {
          assert TableOf(s', k') == TableOf(s, k');
        }
      }
    }
  }

  /**
   * In a store whose tables hold their own entities and whose keys are
   * unique, no two rows of one table have the same unique key in the
   * field-by-field sense of `SameUniqueKey`: no shared `group_name`,
   * `logger_name` or `plant_id`; no two plants with the same (system_name,
   * system_id, group); no two weather, generation, daily-production or
   * curtailment rows with the same parent and the same present date; no two
   * revenue rows with the same plant, contract and period, nor expense rows
   * with the same plant and period, when those are present; no two mails with
   * the same present date-time text and body.
   */
  lemma StoredKeysDistinct(s: Store, k: Kind, i: Id, j: Id)
    requires Typed(s) && KeysUnique(s)
    requires i in TableOf(s, k).rows && j in TableOf(s, k).rows && i != j
    ensures !SameUniqueKey(TableOf(s, k).rows[i].data, TableOf(s, k).rows[j].data)
  {
    var a, b := TableOf(s, k).rows[i].data, TableOf(s, k).rows[j].data;
    assert Unique(TableOf(s, k), EntityKey);
    KeyCollisionIsSameUniqueKey(a, b);
  }

  /**
   * A write goes through exactly when its values fit their columns, its
   * owner and parent are stored, it does not insert at a stored primary key,
   * and no other row of the same table has the same unique key in the
   * field-by-field sense.
   */
  lemma SaveRejectsExactlyDuplicates(s: Store, o: Instance<Entity>, now: Clock)
    requires Typed(s)
    ensures var t := TableOf(s, KindOf(o.data));
      SaveObject(s, o, now).Success? <==>
        && RowFits(o)
        && ReferencesExist(s, o)
        && !KeyReused(t, o)
        && forall j | j in t.rows && j != TargetId(t, o) :: !SameUniqueKey(o.data, t.rows[j].data)
  {
    var t := TableOf(s, KindOf(o.data));
    forall j | j in t.rows && j != TargetId(t, o)
      ensures Collide(EntityKey(o.data), EntityKey(t.rows[j].data))
          <==> SameUniqueKey(o.data, t.rows[j].data)
    {
      KeyCollisionIsSameUniqueKey(o.data, t.rows[j].data);
    }
  }

  /**
   * `save` never runs `clean`: whether a curtailment is stored does not
   * depend on its time window, so one whose end is not after its start is
   * stored like any other.
   */
  lemma SaveIgnoresCurtailmentTimes(
    s: Store, o: Instance<Entity>, start: Option<TimeOfDay>, end: Option<TimeOfDay>, now: Clock)
    requires o.data.Curtailment?
    ensures
      var o' := o.(data := Curtailment(o.data.curtailment.(startTime := start, endTime := end)));
      SaveObject(s, o, now).Success? <==> SaveObject(s, o', now).Success?
  {
  }

  /**
   * A curtailment that `clean` rejects is stored by `save` exactly when the
   * same row without a time window, which `clean` accepts, would be: the
   * validator's verdict never reaches the database.
   */
  lemma SaveStoresWhatCleanRejects(s: Store, o: Instance<Entity>, now: Clock)
    requires o.data.Curtailment? && Clean(o.data.curtailment).Fail?
    ensures
      var o' := o.(data := Curtailment(o.data.curtailment.(startTime := None, endTime := None)));
      && Clean(o'.data.curtailment).Pass?
      && (SaveObject(s, o, now).Success? <==> SaveObject(s, o', now).Success?)
  {
    SaveIgnoresCurtailmentTimes(s, o, None, None, now);
  }
}
