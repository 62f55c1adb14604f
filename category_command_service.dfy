/**
 * The category command service over the mutable tables. Each method checks in the source's order,
 * returns at the first failure without touching the tables, and its postcondition ties the outcome
 * and the new tables to the corresponding function of module CategoryRules.
 */
module CategoryCommands {
  import opened Wrappers
  import opened ErrorCodes
  import opened Entities
  import opened CategoryRules
  import CategoryEntity
  import Persistence

  class CategoryCommandService {
    const db: Persistence.Db

    constructor (db: Persistence.Db)
      ensures this.db == db
    {
      this.db := db;
    }

    method CreateCategory(owner: Email, name: string, kind: CategoryType, now: Instant)
      returns (r: Result<CategoryView, ErrorCode>)
      modifies db
      ensures Step(r, db.State()) == CategoryRules.CreateCategory(old(db.State()), owner, name, kind, now)
    {
      if DuplicateName(db.categories, owner, name, kind, None) {
        return Err(CATEGORY_DUPLICATE_NAME);
      }
      if owner !in db.users {
        return Err(USER_NOT_FOUND);
      }
      var id := db.nextCategoryId;
      db.categories := db.categories[id := CategoryRecord(owner, name, kind, now)];
      db.nextCategoryId := id + 1;
      r := Ok(CategoryView(id, name, kind));
    }

    method UpdateCategory(owner: Email, id: Id, name: string) returns (r: Result<CategoryView, ErrorCode>)
      modifies db
      ensures Step(r, db.State()) == CategoryRules.UpdateCategory(old(db.State()), owner, id, name)
    {
      if id !in db.categories {
        return Err(CATEGORY_NOT_FOUND);
      }
      var category := new CategoryEntity.Category.Load(id, db.categories[id]);
      if category.user != owner {
        return Err(ACCESS_DENIED);
      }
      if DuplicateName(db.categories, owner, name, category.kind, Some(id)) {
        return Err(CATEGORY_DUPLICATE_NAME);
      }
      category.UpdateName(name);
      db.categories := db.categories[id := category.Row()];
      r := Ok(CategoryView(category.id, category.name, category.kind));
    }

    method DeleteCategory(owner: Email, id: Id) returns (r: Result<(), ErrorCode>)
      modifies db
      ensures Step(r, db.State()) == CategoryRules.DeleteCategory(old(db.State()), owner, id)
    {
      if id !in db.categories {
        return Err(CATEGORY_NOT_FOUND);
      }
      if db.categories[id].owner != owner {
        return Err(ACCESS_DENIED);
      }
      if HasTransactions(db.State(), id) {
        return Err(CATEGORY_HAS_TRANSACTIONS);
      }
      db.categories := db.categories - {id};
      r := Ok(());
    }

    /** Saves one category per default row, in the table's order. */
    method CreateDefaultCategories(owner: Email, now: Instant)
      modifies db
      ensures db.State() == CategoryRules.CreateDefaultCategories(old(db.State()), owner, now)
    {
      var defaults := db.defaultCategories;
      var i := 0;
      while i < |defaults|
        invariant 0 <= i <= |defaults|
        invariant db.nextCategoryId == old(db.nextCategoryId) + i
        invariant SeedCategories(db.categories, db.nextCategoryId, owner, defaults[i..], now)
                  == SeedCategories(old(db.categories), old(db.nextCategoryId), owner, defaults, now)
        invariant db.State() == old(db.State()).(categories := db.categories, nextCategoryId := db.nextCategoryId)
      {
        assert defaults[i..][1..] == defaults[i + 1..];
        db.categories := db.categories[db.nextCategoryId := FromDefault(owner, defaults[i], now)];
        db.nextCategoryId := db.nextCategoryId + 1;
        i := i + 1;
      }
      assert defaults[i..] == [];
    }
  }
}
