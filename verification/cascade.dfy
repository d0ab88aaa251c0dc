/**
 * Deletion along the `on_delete=CASCADE` foreign keys. Deleting a row
 * deletes every row whose foreign key points to a deleted row, and deleting a
 * user deletes every row that user owns, transitively. The foreign-key tree
 * is three levels deep (group, then plant / logger / utility id, then their
 * measurement and billing rows), so the deleted set is built level by level.
 */
module Cascade {
  import opened Wrappers
  import opened Lifecycle
  import opened Models
  import opened Database

  /** A row, named by its table and primary key. */
  type RowRef = (Kind, Id)

  /** A stored row goes when its owner goes or when the row its foreign key points to goes. */
  predicate Falls(row: Row<Entity>, d: set<RowRef>, gone: set<UserId>) {
    row.audit.owner in gone || (Parent(row.data).Some? && Parent(row.data).value in d)
  }

  /** The stored rows at one level of the tree that fall with `d` and the users in `gone`. */
  function Dependents(s: Store, level: nat, d: set<RowRef>, gone: set<UserId>): set<RowRef> {
    set k, i | k in AllKinds && i in TableOf(s, k).rows && Level(k) == level
                 && Falls(TableOf(s, k).rows[i], d, gone)
      :: (k, i)
  }

  /** The rows deleted down to level `n`: the roots, then each level's dependents in turn. */
  function Layer(s: Store, n: nat, roots: set<RowRef>, gone: set<UserId>): set<RowRef>
    decreases n
  {
    if n == 0 then roots + Dependents(s, 0, roots, gone)
    else
      var above := Layer(s, n - 1, roots, gone);
      above + Dependents(s, n, above, gone)
  }

  /** Every row the cascade deletes. */
  function Closure(s: Store, roots: set<RowRef>, gone: set<UserId>): set<RowRef> {
    Layer(s, 2, roots, gone)
  }

  /**
   * The reference reading of a cascade: a row is deleted when it is a root,
   * or it is stored and its owner is deleted, or it is stored and the row its
   * foreign key points to is deleted.
   */
  ghost predicate Reaches(s: Store, k: Kind, i: Id, roots: set<RowRef>, gone: set<UserId>)
    decreases Level(k)
  {
    || (k, i) in roots
    || (&& i in TableOf(s, k).rows
        && var row := TableOf(s, k).rows[i];
        || row.audit.owner in gone
        || (&& Parent(row.data).Some?
            && Level(Parent(row.data).value.0) < Level(k)
            && Reaches(s, Parent(row.data).value.0, Parent(row.data).value.1, roots, gone)))
  }

  /** Keeps the rows of one table that the cascade does not delete. */
  function Keep(t: Table<Entity>, k: Kind, d: set<RowRef>): Table<Entity> {
    t.(rows := map i | i in t.rows && (k, i) !in d :: t.rows[i])
  }

  /**
   * Deletes the `roots` and the users in `gone`, with everything that
   * cascades from them. Surviving rows are untouched and the id sequences are
   * not rewound.
   */
  function Delete(s: Store, roots: set<RowRef>, gone: set<UserId>): (r: Store)
    ensures r.users == s.users - gone
    ensures forall k :: TableOf(r, k).nextId == TableOf(s, k).nextId
    ensures forall k :: TableOf(r, k).rows.Keys <= TableOf(s, k).rows.Keys
    ensures forall k, i | i in TableOf(r, k).rows :: TableOf(r, k).rows[i] == TableOf(s, k).rows[i]
    ensures forall k, i | (k, i) in roots :: i !in TableOf(r, k).rows
  {
    var d := Closure(s, roots, gone);
    assert roots <= d by { LayerGrows(s, 0, 2, roots, gone); }
    var r := Store(
      s.users - gone,
      Keep(s.groups, GroupKind, d),
      Keep(s.plants, PlantKind, d),
      Keep(s.weather, WeatherKind, d),
      Keep(s.loggers, LoggerKind, d),
      Keep(s.powerGen, PowerGenKind, d),
      Keep(s.utilityIds, UtilityIdKind, d),
      Keep(s.revenue, RevenueKind, d),
      Keep(s.expense, ExpenseKind, d),
      Keep(s.production, ProductionKind, d),
      Keep(s.curtailment, CurtailmentKind, d),
      Keep(s.mail, MailKind, d));
    assert forall k :: TableOf(r, k) == Keep(TableOf(s, k), k, d);
    r
  }

  /** `delete()` on one stored row of any entity. */
  function DeleteRow(s: Store, k: Kind, id: Id): (r: Store)
    ensures id !in TableOf(r, k).rows && r.users == s.users
  {
    Delete(s, {(k, id)}, {})
  }

  /** Deleting a user: every row it owns goes, and everything below those rows. */
  function DeleteUser(s: Store, u: UserId): (r: Store)
    ensures u !in r.users
    ensures forall k, i | i in TableOf(r, k).rows :: TableOf(r, k).rows[i].audit.owner != u
  {
    var r := Delete(s, {}, {u});
    forall k, i | i in TableOf(r, k).rows
      ensures TableOf(r, k).rows[i].audit.owner != u
    {
      if TableOf(s, k).rows[i].audit.owner == u {
        assert k in AllKinds;
        assert (k, i) in Dependents(s, Level(k), Layer(s, Level(k), {}, {u}), {u}) by {
          if Level(k) > 0 {
            assert (k, i) in Dependents(s, Level(k), Layer(s, Level(k) - 1, {}, {u}), {u});
          }
        }
        LayerGrows(s, Level(k), 2, {}, {u});
      }
    }
    r
  }

  /** Layers only grow. */
  lemma {:induction false} LayerGrows(s: Store, m: nat, n: nat, roots: set<RowRef>, gone: set<UserId>)
    requires m <= n
    ensures Layer(s, m, roots, gone) <= Layer(s, n, roots, gone)
    decreases n
  {
    if m < n {
      LayerGrows(s, m, n - 1, roots, gone);
    }
  }

  /** Every row the levels collect is reached by the reference reading. */
  lemma {:induction false} LayerSound(s: Store, n: nat, roots: set<RowRef>, gone: set<UserId>, k: Kind, i: Id)
    requires Typed(s)
    requires (k, i) in Layer(s, n, roots, gone)
    ensures Reaches(s, k, i, roots, gone)
    decreases n
  {
    if (k, i) in roots {
    } else if n > 0 && (k, i) in Layer(s, n - 1, roots, gone) {
      LayerSound(s, n - 1, roots, gone, k, i);
    } else {
      var d := if n == 0 then roots else Layer(s, n - 1, roots, gone);
      assert (k, i) in Dependents(s, n, d, gone);
      var row := TableOf(s, k).rows[i];
      if row.audit.owner !in gone {
        var p := Parent(row.data).value;
        ParentIsOneLevelUp(row.data);
        assert KindOf(row.data) == k;
        if n == 0 {
          assert false;
        } else {
          LayerSound(s, n - 1, roots, gone, p.0, p.1);
        }
      }
    }
  }

  /** Every row the reference reading reaches is collected by its own level. */
  lemma {:induction false} LayerComplete(s: Store, roots: set<RowRef>, gone: set<UserId>, k: Kind, i: Id)
    requires Reaches(s, k, i, roots, gone)
    ensures (k, i) in Layer(s, Level(k), roots, gone)
    decreases Level(k)
  {
    assert k in AllKinds;
    if (k, i) in roots {
      LayerGrows(s, 0, Level(k), roots, gone);
    } else {
      var row := TableOf(s, k).rows[i];
      if row.audit.owner in gone {
        if Level(k) > 0 {
          assert (k, i) in Dependents(s, Level(k), Layer(s, Level(k) - 1, roots, gone), gone);
        }
      } else {
        var p := Parent(row.data).value;
        LayerComplete(s, roots, gone, p.0, p.1);
        LayerGrows(s, Level(p.0), Level(k) - 1, roots, gone);
        assert (k, i) in Dependents(s, Level(k), Layer(s, Level(k) - 1, roots, gone), gone);
      }
    }
  }

  /** The cascade deletes exactly the rows the reference reading reaches. */
  lemma ClosureIsReaches(s: Store, roots: set<RowRef>, gone: set<UserId>, k: Kind, i: Id)
    requires Typed(s)
    ensures (k, i) in Closure(s, roots, gone) <==> Reaches(s, k, i, roots, gone)
  {
    if (k, i) in Closure(s, roots, gone) {
      LayerSound(s, 2, roots, gone, k, i);
    }
    if Reaches(s, k, i, roots, gone) {
      LayerComplete(s, roots, gone, k, i);
      LayerGrows(s, Level(k), 2, roots, gone);
    }
  }

  /**
   * A delete removes exactly the stored rows that are a root, are owned by a
   * deleted user, or transitively reference such a row; every other row stays.
   */
  lemma DeleteRemovesExactlyDependents(s: Store, roots: set<RowRef>, gone: set<UserId>, k: Kind, i: Id)
    requires Typed(s)
    ensures i in TableOf(Delete(s, roots, gone), k).rows <==>
      i in TableOf(s, k).rows && !Reaches(s, k, i, roots, gone)
  {
    ClosureIsReaches(s, roots, gone, k, i);
    var r := Delete(s, roots, gone);
    var d := Closure(s, roots, gone);
    assert TableOf(r, k) == Keep(TableOf(s, k), k, d);
  }

  /**
   * A delete keeps the store valid; in particular no foreign key of a
   * surviving row, owner included, points to a deleted row.
   */
  lemma DeleteKeepsValid(s: Store, roots: set<RowRef>, gone: set<UserId>)
    requires Valid(s)
    ensures Valid(Delete(s, roots, gone))
  {
    var r := Delete(s, roots, gone);
    forall k, i | i in TableOf(r, k).rows
      ensures TableOf(r, k).rows[i].audit.owner in r.users
      ensures ParentPresent(r, TableOf(r, k).rows[i].data)
    {
      var row := TableOf(s, k).rows[i];
      DeleteRemovesExactlyDependents(s, roots, gone, k, i);
      assert !Reaches(s, k, i, roots, gone);
      if Parent(row.data).Some? {
        var p := Parent(row.data).value;
        ParentIsOneLevelUp(row.data);
        assert KindOf(row.data) == k;
        DeleteRemovesExactlyDependents(s, roots, gone, p.0, p.1);
      }
    }
    forall k ensures Unique(TableOf(r, k), EntityKey) && Issued(TableOf(r, k)) {
      assert Unique(TableOf(s, k), EntityKey) && Issued(TableOf(s, k));
    }
  }
}
