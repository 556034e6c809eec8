/**
 * The /categories router: create, list the requester's categories, read,
 * update and delete. The name setters (lowercase, trim) run on saves and on
 * `findByIdAndUpdate` alike; the schema validators run only on saves.
 */
module CategoryRoutes {
  import opened Wrappers
  import opened External
  import opened Strings
  import opened CategorySchema
  import opened Database
  import opened Http

  const NameRequired := "Name is required"

  /**
   * POST /categories as written: the schema declares `_id` itself, so a new
   * document gets none, and the handler sets none. Saving it fails, which
   * ends in a 500, whatever the store holds: no category is ever created.
   */
  method CreateAsWritten(db: Store, userId: ObjectId, name: string) returns (resp: Response)
    requires db.Valid()
    modifies db
    ensures db.Valid()
    ensures db.users == old(db.users) && db.tasks == old(db.tasks) && db.categories == old(db.categories)
    ensures name == "" ==> resp == Response(400, Errors([NameRequired]))
    ensures name != "" ==> resp == ServerError
  {
    if name == "" {
      return Response(400, Errors([NameRequired]));
    }
    var normal := Normalize(name);
    // the required validator runs first, on the set value
    if normal == "" {
      return ServerError;
    }
    var saved := db.InsertCategory(None, normal, userId);
    if saved.None? {
      return ServerError;
    }
    resp := Response(200, CategoryReply("Category created", saved));
  }

  /**
   * POST /categories with the `_id` set to a fresh ObjectId, as the task
   * handler does. A name that is blank once trimmed fails the required
   * validator and a (name, owner) pair already present fails the unique
   * index; both end in a 500.
   */
  method Create(db: Store, userId: ObjectId, name: string) returns (resp: Response)
    requires db.Valid()
    modifies db
    ensures db.Valid()
    ensures db.users == old(db.users) && db.tasks == old(db.tasks)
    ensures
      var normal := Normalize(name);
      var id := NewObjectId(old(db.categories).Keys);
      if name == "" then
        resp == Response(400, Errors([NameRequired])) && db.categories == old(db.categories)
      else if normal == "" || old(db.NameTaken(normal, userId, id)) then
        resp == ServerError && db.categories == old(db.categories)
      else
        && resp.status == 200 && resp.body == CategoryReply("Category created", Some(Category(id, normal, userId, [])))
        && id !in old(db.categories)
        && db.categories == old(db.categories)[id := Category(id, normal, userId, [])]
  {
    if name == "" {
      return Response(400, Errors([NameRequired]));
    }
    var normal := Normalize(name);
    if normal == "" {
      return ServerError;
    }
    var saved := db.InsertCategory(Some(NewObjectId(db.categories.Keys)), normal, userId);
    if saved.None? {
      return ServerError;
    }
    resp := Response(200, CategoryReply("Category created", saved));
  }

  /** Two users may each have a category of the same name; one user may not have it twice. */
  method NamesAreUniquePerOwner(alice: ObjectId, bob: ObjectId, name: string)
    returns (first: Response, second: Response, again: Response)
    requires alice != bob && Normalize(name) != ""
    ensures first.status == 200 && second.status == 200
    ensures again == ServerError
  {
    var db := new Store();
    assert name != "" by { assert Normalize("") == ""; }
    first := Create(db, alice, name);
    second := Create(db, bob, name);
    var c := first.body.category.value;
    assert c.id in db.categories && db.categories[c.id] == c && c.name == Normalize(name) && c.user == alice;
    again := Create(db, alice, name);
  }

  /** GET /categories/categories: every category the requester owns, and no other; always 200. */
  method List(db: Store, userId: ObjectId) returns (resp: Response)
    ensures resp.status == 200 && resp.body.CategoryList? && resp.body.text == "Categories fetched"
    ensures forall id :: id in resp.body.categories <==> id in db.categories && db.categories[id].user == userId
    ensures forall id :: id in resp.body.categories ==> resp.body.categories[id] == db.categories[id]
  {
    var owned := map id | id in db.categories && db.categories[id].user == userId :: db.categories[id];
    resp := Response(200, CategoryList("Categories fetched", owned));
  }

  /** GET /categories/:id: the category with that id, whoever owns it. */
  method Get(db: Store, libs: Libraries, id: string) returns (resp: Response)
    ensures
      if libs.castObjectId(id).None? then
        resp == ServerError
      else if libs.castObjectId(id).value !in db.categories then
        resp == Response(404, Message("Category not found"))
      else
        resp == Response(200, CategoryReply("Category fetched", Some(db.categories[libs.castObjectId(id).value])))
  {
    var key := libs.castObjectId(id);
    if key.None? {
      return ServerError;
    }
    if key.value !in db.categories {
      return Response(404, Message("Category not found"));
    }
    resp := Response(200, CategoryReply("Category fetched", Some(db.categories[key.value])));
  }

  /**
   * PUT /categories/:id. The new name is normalised but not validated, and
   * the owner becomes the requester. An unknown id is answered with 200 and
   * a null category; a (name, owner) pair taken by another category fails
   * the unique index, which ends in a 500.
   */
  method Put(db: Store, libs: Libraries, userId: ObjectId, id: string, name: string) returns (resp: Response)
    requires db.Valid()
    modifies db
    ensures db.Valid()
    ensures db.users == old(db.users) && db.tasks == old(db.tasks)
    ensures
      var key := libs.castObjectId(id);
      var normal := Normalize(name);
      if name == "" then
        resp == Response(400, Errors([NameRequired])) && db.categories == old(db.categories)
      else if key.None? then
        resp == ServerError && db.categories == old(db.categories)
      else if key.value !in old(db.categories) then
        resp == Response(200, CategoryReply("Category updated", None)) && db.categories == old(db.categories)
      else if old(db.NameTaken(normal, userId, key.value)) then
        resp == ServerError && db.categories == old(db.categories)
      else
        var c := old(db.categories)[key.value].(name := normal, user := userId);
        && resp == Response(200, CategoryReply("Category updated", Some(c)))
        && db.categories == old(db.categories)[key.value := c]
  {
    if name == "" {
      return Response(400, Errors([NameRequired]));
    }
    var key := libs.castObjectId(id);
    if key.None? {
      return ServerError;
    }
    var ok, updated := db.UpdateCategory(key.value, Normalize(name), userId);
    if !ok {
      return ServerError;
    }
    resp := Response(200, CategoryReply("Category updated", updated));
  }

  /** DELETE /categories/:id. No remove hook runs: the category's tasks stay. */
  method Delete(db: Store, libs: Libraries, id: string) returns (resp: Response)
    requires db.Valid()
    modifies db
    ensures db.Valid()
    ensures db.users == old(db.users) && db.tasks == old(db.tasks)
    ensures
      var key := libs.castObjectId(id);
      if key.None? then
        resp == ServerError && db.categories == old(db.categories)
      else if key.value !in old(db.categories) then
        resp == Response(404, Message("Category not found")) && db.categories == old(db.categories)
      else
        && resp == Response(200, CategoryReply("Category deleted", Some(old(db.categories)[key.value])))
        && db.categories == old(db.categories) - {key.value}
  {
    var key := libs.castObjectId(id);
    if key.None? {
      return ServerError;
    }
    var deleted := db.DeleteCategory(key.value);
    if deleted.None? {
      return Response(404, Message("Category not found"));
    }
    resp := Response(200, CategoryReply("Category deleted", deleted));
  }
}
