/**
 * Category commands: create, rename and delete a user's categories, and seed a new user's
 * categories from the default-category table. Names are unique per user and type; a category
 * that transactions still use cannot be deleted.
 */
module CategoryRules {
  import opened Wrappers
  import opened ErrorCodes
  import opened Entities

  /** The response after a create or a rename. */
  datatype CategoryView = CategoryView(id: Id, name: string, kind: CategoryType)

  /** Some category other than `exclude` already has this owner, name and type. */
  predicate DuplicateName(categories: map<Id, CategoryRecord>, owner: Email, name: string, kind: CategoryType,
                          exclude: Option<Id>)
  {
    exists c :: c in categories && Some(c) != exclude
      && categories[c].owner == owner && categories[c].name == name && categories[c].kind == kind
  }

  /** No two categories share owner, name and type. */
  ghost predicate UniqueNames(categories: map<Id, CategoryRecord>)
  {
    forall c1, c2 :: c1 in categories && c2 in categories && c1 != c2 ==>
      !(categories[c1].owner == categories[c2].owner && categories[c1].name == categories[c2].name
        && categories[c1].kind == categories[c2].kind)
  }

  /** Some transaction is filed under category `id`. */
  predicate HasTransactions(s: Store, id: Id)
  {
    exists t :: t in s.transactions && s.transactions[t].category == id
  }

  /** Every transaction is filed under an existing category. */
  ghost predicate CategoriesResolve(s: Store)
  {
    forall t :: t in s.transactions ==> s.transactions[t].category in s.categories
  }

  /**
   * createCategory. The duplicate check comes first, before the user lookup; on success the new row
   * takes the next category key.
   */
  function CreateCategory(s: Store, owner: Email, name: string, kind: CategoryType, now: Instant)
    : (r: Step<CategoryView>)
    ensures r.result.Err? ==> r.store == s
    ensures r.result == Err(CATEGORY_DUPLICATE_NAME) <==> DuplicateName(s.categories, owner, name, kind, None)
    ensures r.result == Err(USER_NOT_FOUND) <==> !DuplicateName(s.categories, owner, name, kind, None) && owner !in s.users
    ensures r.result.Ok? <==> !DuplicateName(s.categories, owner, name, kind, None) && owner in s.users
    ensures r.result.Ok? ==>
      && r.result.value == CategoryView(s.nextCategoryId, name, kind)
      && r.store == s.(categories := s.categories[s.nextCategoryId := CategoryRecord(owner, name, kind, now)],
                       nextCategoryId := s.nextCategoryId + 1)
  {
    if DuplicateName(s.categories, owner, name, kind, None) then Step(Err(CATEGORY_DUPLICATE_NAME), s)
    else if owner !in s.users then Step(Err(USER_NOT_FOUND), s)
    else
      var id := s.nextCategoryId;
      Step(Ok(CategoryView(id, name, kind)),
           s.(categories := s.categories[id := CategoryRecord(owner, name, kind, now)], nextCategoryId := id + 1))
  }

  /**
   * updateCategory. Checks existence, owner, then that no other category of the owner has the new
   * name with this category's type; only the name changes.
   */
  function UpdateCategory(s: Store, owner: Email, id: Id, name: string): (r: Step<CategoryView>)
    ensures r.result.Err? ==> r.store == s
    ensures r.result == Err(CATEGORY_NOT_FOUND) <==> id !in s.categories
    ensures r.result == Err(ACCESS_DENIED) <==> id in s.categories && s.categories[id].owner != owner
    ensures r.result == Err(CATEGORY_DUPLICATE_NAME) <==>
      id in s.categories && s.categories[id].owner == owner
      && DuplicateName(s.categories, owner, name, s.categories[id].kind, Some(id))
    ensures r.result.Ok? <==>
      id in s.categories && s.categories[id].owner == owner
      && !DuplicateName(s.categories, owner, name, s.categories[id].kind, Some(id))
    ensures r.result.Ok? ==>
      && id in s.categories
      && r.result.value == CategoryView(id, name, s.categories[id].kind)
      && r.store == s.(categories := s.categories[id := s.categories[id].(name := name)])
  {
    if id !in s.categories then Step(Err(CATEGORY_NOT_FOUND), s)
    else
      var category := s.categories[id];
      if category.owner != owner then Step(Err(ACCESS_DENIED), s)
      else if DuplicateName(s.categories, owner, name, category.kind, Some(id)) then
        Step(Err(CATEGORY_DUPLICATE_NAME), s)
      else
        Step(Ok(CategoryView(id, name, category.kind)), s.(categories := s.categories[id := category.(name := name)]))
  }

  /** deleteCategory. Checks existence, owner and that no transaction uses it; removes only that row. */
  function DeleteCategory(s: Store, owner: Email, id: Id): (r: Step<()>)
    ensures r.result.Err? ==> r.store == s
    ensures r.result == Err(CATEGORY_NOT_FOUND) <==> id !in s.categories
    ensures r.result == Err(ACCESS_DENIED) <==> id in s.categories && s.categories[id].owner != owner
    ensures r.result == Err(CATEGORY_HAS_TRANSACTIONS) <==>
      id in s.categories && s.categories[id].owner == owner && HasTransactions(s, id)
    ensures r.result.Ok? <==> id in s.categories && s.categories[id].owner == owner && !HasTransactions(s, id)
    ensures r.result.Ok? ==> r.store == s.(categories := s.categories - {id})
    ensures r.result.Ok? ==> forall t :: t in s.transactions ==> s.transactions[t].category != id
  {
    if id !in s.categories then Step(Err(CATEGORY_NOT_FOUND), s)
    else if s.categories[id].owner != owner then Step(Err(ACCESS_DENIED), s)
    else if HasTransactions(s, id) then Step(Err(CATEGORY_HAS_TRANSACTIONS), s)
    else Step(Ok(()), s.(categories := s.categories - {id}))
  }

  /** The row a default category becomes for `owner`. */
  function FromDefault(owner: Email, d: DefaultCategory, now: Instant): CategoryRecord
  {
    CategoryRecord(owner, d.name, d.kind, now)
  }

  /**
   * The category table after saving one row per default, in order, with keys `next`, `next + 1`, ...
   * Rows outside those keys are kept.
   */
  function SeedCategories(categories: map<Id, CategoryRecord>, next: Id, owner: Email,
                          defaults: seq<DefaultCategory>, now: Instant): (r: map<Id, CategoryRecord>)
    ensures forall k :: next <= k < next + |defaults| ==> k in r && r[k] == FromDefault(owner, defaults[k - next], now)
    ensures forall k :: k in categories && !(next <= k < next + |defaults|) ==> k in r && r[k] == categories[k]
    ensures forall k :: k in r ==> k in categories || next <= k < next + |defaults|
    decreases |defaults|
  {
    if defaults == [] then categories
    else
      var r := SeedCategories(categories[next := FromDefault(owner, defaults[0], now)], next + 1, owner, defaults[1..], now);
      r
  }

  /**
   * createDefaultCategories: copies every default to the user, in order, with no user or duplicate
   * check; the existing categories are kept.
   */
  function CreateDefaultCategories(s: Store, owner: Email, now: Instant): (r: Store)
    ensures r == s.(categories := r.categories, nextCategoryId := s.nextCategoryId + |s.defaultCategories|)
    ensures forall k :: s.nextCategoryId <= k < s.nextCategoryId + |s.defaultCategories| ==>
      k in r.categories && r.categories[k] == FromDefault(owner, s.defaultCategories[k - s.nextCategoryId], now)
    ensures forall k :: k in s.categories && k < s.nextCategoryId ==> k in r.categories && r.categories[k] == s.categories[k]
    ensures forall k :: k in r.categories ==>
      k in s.categories || s.nextCategoryId <= k < s.nextCategoryId + |s.defaultCategories|
  {
    var seeded := SeedCategories(s.categories, s.nextCategoryId, owner, s.defaultCategories, now);
    s.(categories := seeded, nextCategoryId := s.nextCategoryId + |s.defaultCategories|)
  }

  // ---------------------------------------------------------------------------------------------
  // Properties

  /** A successful create keeps names unique per owner and type. */
  lemma CreateKeepsUniqueNames(s: Store, owner: Email, name: string, kind: CategoryType, now: Instant)
    requires WellFormed(s) && UniqueNames(s.categories)
    ensures UniqueNames(CreateCategory(s, owner, name, kind, now).store.categories)
  {
    var r := CreateCategory(s, owner, name, kind, now);
    if r.result.Ok? {
      var id := s.nextCategoryId;
      assert !DuplicateName(s.categories, owner, name, kind, None);
    }
  }

  /** A successful rename keeps names unique per owner and type. */
  lemma UpdateKeepsUniqueNames(s: Store, owner: Email, id: Id, name: string)
    requires UniqueNames(s.categories)
    ensures UniqueNames(UpdateCategory(s, owner, id, name).store.categories)
  {
    var r := UpdateCategory(s, owner, id, name);
    if r.result.Ok? {
      var kind := s.categories[id].kind;
      assert !DuplicateName(s.categories, owner, name, kind, Some(id));
    }
  }

  /** With unique names, renaming a category of the caller to its current name succeeds and changes nothing. */
  lemma RenameToCurrentNameSucceeds(s: Store, owner: Email, id: Id)
    requires UniqueNames(s.categories)
    requires id in s.categories && s.categories[id].owner == owner
    ensures var r := UpdateCategory(s, owner, id, s.categories[id].name);
            r.result.Ok? && r.store == s
  {
    var c := s.categories[id];
    assert s.categories[id := c.(name := c.name)] == s.categories;
  }

  /** Deleting a category never leaves a transaction filed under a missing category. */
  lemma DeleteKeepsCategoriesResolved(s: Store, owner: Email, id: Id)
    requires CategoriesResolve(s)
    ensures CategoriesResolve(DeleteCategory(s, owner, id).store)
  {
  }

  /** Seeding a user without categories from a default table without repeated name and type keeps names unique. */
  lemma SeedKeepsUniqueNames(s: Store, owner: Email, now: Instant)
    requires WellFormed(s) && UniqueNames(s.categories)
    requires forall c :: c in s.categories ==> s.categories[c].owner != owner
    requires forall i, j :: 0 <= i < j < |s.defaultCategories| ==> s.defaultCategories[i] != s.defaultCategories[j]
    ensures UniqueNames(CreateDefaultCategories(s, owner, now).categories)
  {
    var r := CreateDefaultCategories(s, owner, now).categories;
    var n, d := s.nextCategoryId, s.defaultCategories;
    forall c1, c2 | c1 in r && c2 in r && c1 != c2
      ensures !(r[c1].owner == r[c2].owner && r[c1].name == r[c2].name && r[c1].kind == r[c2].kind)
    {
      if n <= c1 < n + |d| && n <= c2 < n + |d| {
        var i, j := c1 - n, c2 - n;
        assert r[n + i] == FromDefault(owner, d[i], now);
        assert r[n + j] == FromDefault(owner, d[j], now);
        if i < j { assert d[i] != d[j]; } else { assert d[j] != d[i]; }
      } else if n <= c1 < n + |d| {
        assert r[n + (c1 - n)] == FromDefault(owner, d[c1 - n], now);
      } else if n <= c2 < n + |d| {
        assert r[n + (c2 - n)] == FromDefault(owner, d[c2 - n], now);
      }
    }
  }

  /** Seeding a user who already has a default's name and type produces a duplicate. */
  lemma SeedTwiceDuplicates()
    ensures var s := Store({"u"}, map[], map[1 := CategoryRecord("u", "food", EXPENSE, 0)], map[],
                           [DefaultCategory("food", EXPENSE)], 1, 2, 1);
            !UniqueNames(CreateDefaultCategories(s, "u", 0).categories)
  {
    var s := Store({"u"}, map[], map[1 := CategoryRecord("u", "food", EXPENSE, 0)], map[],
                   [DefaultCategory("food", EXPENSE)], 1, 2, 1);
    var r := CreateDefaultCategories(s, "u", 0).categories;
    assert r[2 + 0] == FromDefault("u", s.defaultCategories[0], 0);
    assert r[1] == s.categories[1];
  }
}
