/**
 * The embedded store (src/db/db.ts): eight tables, each a map from key to record,
 * the guarded first-run seeding `initializeDefaultData`, and the `initDB` recovery path.
 * Keys that the source draws from `uuidv4()` or from the `++id` generator are supplied
 * by the caller.
 */
module Db {
  import opened Base
  import opened Schema

  /** The contents of the store at one moment. */
  datatype Tables = Tables(
    users: map<string, User>,
    categories: map<string, Category>,
    products: map<string, Product>,
    customers: map<string, Customer>,
    suppliers: map<string, Supplier>,
    sales: map<string, Sale>,
    purchases: map<string, Purchase>,
    settings: map<int, Settings>)

  const EmptyTables: Tables := Tables(map[], map[], map[], map[], map[], map[], map[], map[])

  /** The errors the store can raise; `add` on a key already present raises a constraint error. */
  datatype StoreError = ConstraintError(table: string) | UpgradeError | OtherError(name: string)

  datatype Outcome = Ok | Err(error: StoreError)

  /** The keys one seeding run hands out: one uuid for the admin, the settings key, one uuid per category. */
  datatype SeedIds = SeedIds(adminId: string, settingsKey: int, categoryIds: seq<string>)

  const DefaultCategoryNames: seq<string> :=
    ["Electronics", "Clothing", "Groceries", "Stationery", "Home Appliances"]

  function AdminUser(id: string, now: Instant): (u: User)
  {
    User(id, "Admin", "admin", "admin123", "admin@example.com", Admin, true, Some(now), now, now)
  }

  function DefaultSettings(key: int, now: Instant): (s: Settings)
  {
    Settings(key, "HAYY ERP", "123 Business Street", "+91 98765 43210", "info@hayy-erp.com",
             18.0, "INR", "\U{00E2}\U{201A}\U{00B9}", now, now)
  }

  function DefaultCategory(id: string, name: string, now: Instant): (c: Category)
  {
    Category(id, name, name + " category", true, now, now)
  }

  /** The ids handed out are usable for a whole run: one per default category. */
  predicate WellFormedIds(ids: SeedIds)
  {
    |ids.categoryIds| == |DefaultCategoryNames|
  }

  /**
   * The category loop from position `i` on: each iteration adds one category; the first
   * key already present stops the run with a constraint error, keeping what was added.
   */
  function AddCategoriesFrom(cats: map<string, Category>, ids: seq<string>, i: nat, now: Instant)
    : (r: (map<string, Category>, Outcome))
    requires |ids| == |DefaultCategoryNames| && i <= |ids|
    decreases |ids| - i
  {
    if i == |ids| then (cats, Ok)
    else if ids[i] in cats then (cats, Err(ConstraintError("categories")))
    else AddCategoriesFrom(cats[ids[i] := DefaultCategory(ids[i], DefaultCategoryNames[i], now)], ids, i + 1, now)
  }

  /** `initializeDefaultData` as a function of the store it starts from. */
  function Seed(t: Tables, ids: SeedIds, now: Instant): (r: (Tables, Outcome))
    requires WellFormedIds(ids)
  {
    if |t.users| > 0 then (t, Ok)
    else if ids.adminId in t.users then (t, Err(ConstraintError("users")))
    else
      var t1 := t.(users := t.users[ids.adminId := AdminUser(ids.adminId, now)]);
      if ids.settingsKey in t1.settings then (t1, Err(ConstraintError("settings")))
      else
        var t2 := t1.(settings := t1.settings[ids.settingsKey := DefaultSettings(ids.settingsKey, now)]);
        var (cats, out) := AddCategoriesFrom(t2.categories, ids.categoryIds, 0, now);
        (t2.(categories := cats), out)
  }

  /** The category loop never removes or changes a category that was there, and never touches other keys. */
  lemma {:induction false} AddCategoriesGrows(cats: map<string, Category>, ids: seq<string>, i: nat, now: Instant)
    requires |ids| == |DefaultCategoryNames| && i <= |ids|
    ensures forall k :: k in cats ==> k in AddCategoriesFrom(cats, ids, i, now).0 &&
                                      AddCategoriesFrom(cats, ids, i, now).0[k] == cats[k]
    ensures forall k :: k in AddCategoriesFrom(cats, ids, i, now).0 ==> k in cats || k in ids[i..]
    ensures AddCategoriesFrom(cats, ids, i, now).1 in {Ok, Err(ConstraintError("categories"))}
    decreases |ids| - i
  {
    if i < |ids| && ids[i] !in cats {
      AddCategoriesGrows(cats[ids[i] := DefaultCategory(ids[i], DefaultCategoryNames[i], now)], ids, i + 1, now);
    }
  }

  /**
   * Rows added before a failing insert are not undone: every category whose id, and the ids
   * before it, were free is in the store afterwards, whether or not a later insert failed.
   */
  lemma {:induction false} AddCategoriesKeepsEarlier(cats: map<string, Category>, ids: seq<string>, i: nat, j: nat, now: Instant)
    requires |ids| == |DefaultCategoryNames| && i <= j <= |ids|
    requires forall k :: i <= k < j ==> ids[k] !in cats
    requires forall k, l :: i <= k < l < j ==> ids[k] != ids[l]
    ensures forall k :: i <= k < j ==>
      ids[k] in AddCategoriesFrom(cats, ids, i, now).0 &&
      AddCategoriesFrom(cats, ids, i, now).0[ids[k]] == DefaultCategory(ids[k], DefaultCategoryNames[k], now)
    decreases |ids| - i
  {
    if i < j {
      var cats' := cats[ids[i] := DefaultCategory(ids[i], DefaultCategoryNames[i], now)];
      AddCategoriesKeepsEarlier(cats', ids, i + 1, j, now);
      AddCategoriesGrows(cats', ids, i + 1, now);
    }
  }

  /** With every id free and distinct, the loop succeeds and adds exactly the five categories. */
  lemma {:induction false} AddCategoriesSucceeds(cats: map<string, Category>, ids: seq<string>, i: nat, now: Instant)
    requires |ids| == |DefaultCategoryNames| && i <= |ids|
    requires forall k :: i <= k < |ids| ==> ids[k] !in cats
    requires forall k, l :: i <= k < l < |ids| ==> ids[k] != ids[l]
    ensures AddCategoriesFrom(cats, ids, i, now).1 == Ok
    ensures AddCategoriesFrom(cats, ids, i, now).0.Keys == cats.Keys + set k | i <= k < |ids| :: ids[k]
    decreases |ids| - i
  {
    if i < |ids| {
      var cats' := cats[ids[i] := DefaultCategory(ids[i], DefaultCategoryNames[i], now)];
      AddCategoriesSucceeds(cats', ids, i + 1, now);
      assert (set k | i <= k < |ids| :: ids[k]) == {ids[i]} + set k | i + 1 <= k < |ids| :: ids[k];
    }
  }

  /** Seeding does nothing when the users table already holds a row, whatever the other tables hold. */
  lemma SeedGuard(t: Tables, ids: SeedIds, now: Instant)
    requires WellFormedIds(ids)
    requires |t.users| > 0
    ensures Seed(t, ids, now) == (t, Ok)
  {
  }

  /**
   * Seeding is idempotent: the admin insert cannot fail on an empty users table, so after
   * any first run the users table is non-empty and a second run is a no-op, even when the
   * first run failed part-way (a partial seed is never completed by running it again).
   */
  lemma {:induction false} SeedIdempotent(t: Tables, ids1: SeedIds, ids2: SeedIds, now1: Instant, now2: Instant)
    requires WellFormedIds(ids1) && WellFormedIds(ids2)
    ensures Seed(Seed(t, ids1, now1).0, ids2, now2) == (Seed(t, ids1, now1).0, Ok)
  {
    var t' := Seed(t, ids1, now1).0;
    if |t.users| == 0 {
      assert ids1.adminId in t'.users;
    }
    assert |t'.users| > 0 by {
      var u :| u in t'.users;
    }
  }

  /** Ids that collide neither with the store nor with each other. */
  predicate FreshIds(t: Tables, ids: SeedIds)
  {
    && WellFormedIds(ids)
    && ids.adminId !in t.users
    && ids.settingsKey !in t.settings
    && (forall k :: 0 <= k < |ids.categoryIds| ==> ids.categoryIds[k] !in t.categories)
    && (forall k, l :: 0 <= k < l < |ids.categoryIds| ==> ids.categoryIds[k] != ids.categoryIds[l])
  }

  /**
   * On a store with no users and fresh ids, seeding succeeds and adds exactly one active
   * admin user, exactly one settings row (tax rate 18, currency INR) and exactly the five
   * default categories, each under its own id, "<name> category", active. Nothing else changes.
   */
  lemma SeedFresh(t: Tables, ids: SeedIds, now: Instant)
    requires |t.users| == 0
    requires FreshIds(t, ids)
    ensures Seed(t, ids, now).1 == Ok
    ensures Seed(t, ids, now).0.users == map[ids.adminId := AdminUser(ids.adminId, now)]
    ensures Seed(t, ids, now).0.settings == t.settings[ids.settingsKey := DefaultSettings(ids.settingsKey, now)]
    ensures Seed(t, ids, now).0.categories.Keys == t.categories.Keys + set k | 0 <= k < 5 :: ids.categoryIds[k]
    ensures forall k :: 0 <= k < 5 ==>
      Seed(t, ids, now).0.categories[ids.categoryIds[k]] == DefaultCategory(ids.categoryIds[k], DefaultCategoryNames[k], now)
    ensures forall c :: c in t.categories ==> Seed(t, ids, now).0.categories[c] == t.categories[c]
    ensures Seed(t, ids, now).0.(users := t.users, settings := t.settings, categories := t.categories) == t
  {
    SeedShape(t, ids, now);
    FreshCategories(t.categories, ids.categoryIds, now);
  }

  /** The category loop over fresh, distinct ids: it succeeds, adds those five and keeps the rest. */
  lemma FreshCategories(cats: map<string, Category>, ids: seq<string>, now: Instant)
    requires |ids| == |DefaultCategoryNames|
    requires forall k :: 0 <= k < |ids| ==> ids[k] !in cats
    requires forall k, l :: 0 <= k < l < |ids| ==> ids[k] != ids[l]
    ensures AddCategoriesFrom(cats, ids, 0, now).1 == Ok
    ensures AddCategoriesFrom(cats, ids, 0, now).0.Keys == cats.Keys + set k | 0 <= k < 5 :: ids[k]
    ensures forall k :: 0 <= k < 5 ==>
      AddCategoriesFrom(cats, ids, 0, now).0[ids[k]] == DefaultCategory(ids[k], DefaultCategoryNames[k], now)
    ensures forall c :: c in cats ==> AddCategoriesFrom(cats, ids, 0, now).0[c] == cats[c]
  {
    AddCategoriesSucceeds(cats, ids, 0, now);
    AddCategoriesKeepsEarlier(cats, ids, 0, 5, now);
    AddCategoriesGrows(cats, ids, 0, now);
  }

  /** Past both guards, a run is the admin row, the settings row and the category loop over the store. */
  lemma SeedShape(t: Tables, ids: SeedIds, now: Instant)
    requires |t.users| == 0
    requires FreshIds(t, ids)
    ensures var added := AddCategoriesFrom(t.categories, ids.categoryIds, 0, now);
      Seed(t, ids, now) ==
        (t.(users := t.users[ids.adminId := AdminUser(ids.adminId, now)],
            settings := t.settings[ids.settingsKey := DefaultSettings(ids.settingsKey, now)],
            categories := added.0),
         added.1)
  {
  }

  /** What a seeded empty store holds, row for row. */
  predicate IsSeededStore(t: Tables, ids: SeedIds, now: Instant)
    requires WellFormedIds(ids)
  {
    && t.users == map[ids.adminId := AdminUser(ids.adminId, now)]
    && t.settings == map[ids.settingsKey := DefaultSettings(ids.settingsKey, now)]
    && |t.categories| == 5
    && (forall k :: 0 <= k < 5 ==>
          ids.categoryIds[k] in t.categories &&
          t.categories[ids.categoryIds[k]] == DefaultCategory(ids.categoryIds[k], DefaultCategoryNames[k], now))
    && t.products == map[] && t.customers == map[] && t.suppliers == map[]
    && t.sales == map[] && t.purchases == map[]
  }

  /** Seeding the empty store with distinct ids yields exactly the seed rows. */
  lemma SeedEmptyStore(ids: SeedIds, now: Instant)
    requires FreshIds(EmptyTables, ids)
    ensures Seed(EmptyTables, ids, now).1 == Ok
    ensures IsSeededStore(Seed(EmptyTables, ids, now).0, ids, now)
  {
    SeedFresh(EmptyTables, ids, now);
    var cats := Seed(EmptyTables, ids, now).0.categories;
    var keys := set k | 0 <= k < 5 :: ids.categoryIds[k];
    assert cats.Keys == keys;
    CardinalityOfDistinct(ids.categoryIds);
  }

  lemma {:induction false} CardinalityOfDistinct(s: seq<string>)
    requires forall k, l :: 0 <= k < l < |s| ==> s[k] != s[l]
    ensures |set k | 0 <= k < |s| :: s[k]| == |s|
  {
    if s != [] {
      var p := s[..|s| - 1];
      CardinalityOfDistinct(p);
      assert (set k | 0 <= k < |s| :: s[k]) == (set k | 0 <= k < |p| :: p[k]) + {s[|s| - 1]};
    }
  }

  /**
   * A failing insert is surfaced as an error and nothing is rolled back: when the settings
   * key is taken, the admin user added just before stays; when a category id is taken, the
   * admin, the settings row and every category before it stay.
   */
  lemma SeedFailureKeepsEarlierRows(t: Tables, ids: SeedIds, now: Instant, j: nat)
    requires |t.users| == 0 && WellFormedIds(ids)
    requires ids.settingsKey !in t.settings
    requires j < 5 && ids.categoryIds[j] in t.categories
    requires forall k :: 0 <= k < j ==> ids.categoryIds[k] !in t.categories
    requires forall k, l :: 0 <= k < l <= j ==> ids.categoryIds[k] != ids.categoryIds[l]
    ensures Seed(t, ids, now).1 == Err(ConstraintError("categories"))
    ensures Seed(t, ids, now).0.users == map[ids.adminId := AdminUser(ids.adminId, now)]
    ensures Seed(t, ids, now).0.settings == t.settings[ids.settingsKey := DefaultSettings(ids.settingsKey, now)]
    ensures forall k :: 0 <= k < j ==>
      ids.categoryIds[k] in Seed(t, ids, now).0.categories &&
      Seed(t, ids, now).0.categories[ids.categoryIds[k]] == DefaultCategory(ids.categoryIds[k], DefaultCategoryNames[k], now)
  {
    AddCategoriesKeepsEarlier(t.categories, ids.categoryIds, 0, j, now);
    AddCategoriesFailsAt(t.categories, ids.categoryIds, 0, j, now);
  }

  lemma {:induction false} AddCategoriesFailsAt(cats: map<string, Category>, ids: seq<string>, i: nat, j: nat, now: Instant)
    requires |ids| == |DefaultCategoryNames| && i <= j < |ids|
    requires ids[j] in cats
    requires forall k :: i <= k < j ==> ids[k] !in cats
    requires forall k :: i <= k < j ==> ids[k] != ids[j]
    requires forall k, l :: i <= k < l < j ==> ids[k] != ids[l]
    ensures AddCategoriesFrom(cats, ids, i, now).1 == Err(ConstraintError("categories"))
    decreases j - i
  {
    if i < j {
      var cats' := cats[ids[i] := DefaultCategory(ids[i], DefaultCategoryNames[i], now)];
      AddCategoriesFailsAt(cats', ids, i + 1, j, now);
    }
  }

  /** Seeding fails only with a constraint error, never with an upgrade error. */
  lemma SeedRaisesOnlyConstraintErrors(t: Tables, ids: SeedIds, now: Instant)
    requires WellFormedIds(ids)
    ensures Seed(t, ids, now).1.Err? ==> Seed(t, ids, now).1.error.ConstraintError?
  {
    if |t.users| == 0 && ids.adminId !in t.users {
      var t1 := t.(users := t.users[ids.adminId := AdminUser(ids.adminId, now)]);
      if ids.settingsKey !in t1.settings {
        AddCategoriesGrows(t1.categories, ids.categoryIds, 0, now);
      }
    }
  }

  /** The outcome of opening the store, which the browser decides. */
  datatype OpenResult = Opened | OpenFailed(error: StoreError)

  /** The store object the application shares; every table is a field updated in place. */
  class AppDatabase {
    var users: map<string, User>
    var categories: map<string, Category>
    var products: map<string, Product>
    var customers: map<string, Customer>
    var suppliers: map<string, Supplier>
    var sales: map<string, Sale>
    var purchases: map<string, Purchase>
    var settings: map<int, Settings>

    function Contents(): (t: Tables)
      reads this
    {
      Tables(users, categories, products, customers, suppliers, sales, purchases, settings)
    }

    constructor ()
      ensures Contents() == EmptyTables
    {
      users, categories, products, customers := map[], map[], map[], map[];
      suppliers, sales, purchases, settings := map[], map[], map[], map[];
    }

    /** `db.delete()`: the whole store is dropped; reopening it gives empty tables. */
    method Delete()
      modifies this
      ensures Contents() == EmptyTables
    {
      users, categories, products, customers := map[], map[], map[], map[];
      suppliers, sales, purchases, settings := map[], map[], map[], map[];
    }

    /** `initializeDefaultData`: the guard on the users table, then one insert after another. */
    method InitializeDefaultData(ids: SeedIds, now: Instant) returns (r: Outcome)
      requires WellFormedIds(ids)
      modifies this
      ensures (Contents(), r) == Seed(old(Contents()), ids, now)
    {
      if |users| > 0 {
        return Ok;
      }
      if ids.adminId in users {
        return Err(ConstraintError("users"));
      }
      users := users[ids.adminId := AdminUser(ids.adminId, now)];
      if ids.settingsKey in settings {
        return Err(ConstraintError("settings"));
      }
      settings := settings[ids.settingsKey := DefaultSettings(ids.settingsKey, now)];
      ghost var start := categories;
      var i := 0;
      while i < |DefaultCategoryNames|
        invariant 0 <= i <= |DefaultCategoryNames|
        invariant AddCategoriesFrom(categories, ids.categoryIds, i, now) == AddCategoriesFrom(start, ids.categoryIds, 0, now)
        invariant users == old(users)[ids.adminId := AdminUser(ids.adminId, now)]
        invariant settings == old(settings)[ids.settingsKey := DefaultSettings(ids.settingsKey, now)]
        invariant products == old(products) && customers == old(customers) && suppliers == old(suppliers)
        invariant sales == old(sales) && purchases == old(purchases)
      {
        var id := ids.categoryIds[i];
        if id in categories {
          return Err(ConstraintError("categories"));
        }
        categories := categories[id := DefaultCategory(id, DefaultCategoryNames[i], now)];
        i := i + 1;
      }
      r := Ok;
    }
  }

  /**
   * `initDB`: open and seed; if that raises an upgrade error, delete the store, reopen it and
   * seed it again (errors on that second path propagate); any other error is rethrown.
   */
  method InitDB(db: AppDatabase, firstOpen: OpenResult, ids: SeedIds,
                secondOpen: OpenResult, retryIds: SeedIds, now: Instant) returns (r: Outcome)
    requires WellFormedIds(ids) && WellFormedIds(retryIds)
    modifies db
    ensures firstOpen == Opened ==> (db.Contents(), r) == Seed(old(db.Contents()), ids, now)
    ensures firstOpen.OpenFailed? && firstOpen.error != UpgradeError ==>
      db.Contents() == old(db.Contents()) && r == Err(firstOpen.error)
    ensures firstOpen == OpenFailed(UpgradeError) && secondOpen.OpenFailed? ==>
      db.Contents() == EmptyTables && r == Err(secondOpen.error)
    ensures firstOpen == OpenFailed(UpgradeError) && secondOpen == Opened ==>
      (db.Contents(), r) == Seed(EmptyTables, retryIds, now)
  {
    var e: StoreError;
    if firstOpen.OpenFailed? {
      e := firstOpen.error;
    } else {
      ghost var before := db.Contents();
      var seeded := db.InitializeDefaultData(ids, now);
      SeedRaisesOnlyConstraintErrors(before, ids, now);
      if seeded.Ok? {
        return Ok;
      }
      e := seeded.error;
    }
    if e == UpgradeError {
      db.Delete();
      if secondOpen.OpenFailed? {
        return Err(secondOpen.error);
      }
      r := db.InitializeDefaultData(retryIds, now);
      return;
    }
    r := Err(e);
  }
}
