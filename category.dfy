/**
 * The category entity. Key, owner, type and creation time have no mutator, so a category's type is
 * fixed once it is built; only the name can change.
 */
module CategoryEntity {
  import opened Entities

  class Category {
    const id: Id
    const user: Email
    var name: string
    const kind: CategoryType
    const createdAt: Instant

    /** Materialises a stored row as a managed entity. */
    constructor Load(id: Id, row: CategoryRecord)
      ensures this.id == id && Row() == row
    {
      this.id := id;
      user := row.owner;
      name := row.name;
      kind := row.kind;
      createdAt := row.createdAt;
    }

    function Row(): CategoryRecord
      reads this
    {
      CategoryRecord(user, name, kind, createdAt)
    }

    /** Renames the category and changes nothing else. */
    method UpdateName(name: string)
      modifies this`name
      ensures this.name == name
      ensures Row() == old(Row()).(name := name)
    {
      this.name := name;
    }
  }
}
