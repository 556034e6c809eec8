/**
 * The three MongoDB collections the handlers use, as tables keyed by id,
 * with the operations of Mongoose the handlers call on them. A unique-index
 * violation (MongoDB error E11000) is reported as `ok == false`.
 */
module Database {
  import opened Wrappers
  import opened External
  import opened Strings
  import opened UserSchema
  import opened TaskSchema
  import opened CategorySchema

  /** The largest element of a non-empty set of ids. */
  function Max(s: set<ObjectId>): (m: ObjectId)
    requires s != {}
    ensures m in s && forall x :: x in s ==> x <= m
  {
    MaxExists(s);
    var m :| m in s && forall x :: x in s ==> x <= m;
    m
  }

  lemma {:induction false} MaxExists(s: set<ObjectId>)
    requires s != {}
    ensures exists m :: m in s && forall x :: x in s ==> x <= m
  {
    var y :| y in s;
    if s != {y} {
      MaxExists(s - {y});
      var m :| m in s - {y} && forall x :: x in s - {y} ==> x <= m;
      var top := if y <= m then m else y;
      forall x | x in s
        ensures x <= top
      {
        if x != y {
          assert x in s - {y};
        }
      }
      assert top in s;
    } else {
      assert forall x :: x in s ==> x <= y;
    }
  }

  /** `new mongoose.Types.ObjectId()`: an id no document of the table has. */
  function NewObjectId(used: set<ObjectId>): (id: ObjectId)
    ensures id !in used
  {
    if used == {} then 0 else Max(used) + 1
  }

  /** Every category's `tasks` list is empty: no handler ever adds to it. */
  ghost predicate TaskListsEmpty(categories: map<ObjectId, Category>) {
    forall id :: id in categories ==> categories[id].tasks == []
  }

  class Store {
    var users: map<ObjectId, User>
    var tasks: map<ObjectId, Task>
    var categories: map<ObjectId, Category>

    ghost predicate Valid()
      reads this
    {
      UsersValid(users) && TasksValid(tasks) && CategoriesValid(categories) && TaskListsEmpty(categories)
    }

    constructor ()
      ensures Valid()
      ensures users == map[] && tasks == map[] && categories == map[]
    {
      users, tasks, categories := map[], map[], map[];
    }

    predicate HasUsername(name: string)
      reads this
    {
      exists id :: id in users && users[id].username == name
    }

    predicate HasEmail(email: string)
      reads this
    {
      exists id :: id in users && users[id].email == email
    }

    /** The one user with that (normalised) username. */
    ghost function UserNamed(name: string): (u: User)
      reads this
      requires UniqueUsers(users) && HasUsername(name)
      ensures u.id in users && users[u.id] == u && u.username == name
    {
      var id :| id in users && users[id].username == name;
      users[id]
    }

    /** User.findOne({ username }): the user with that username, or null. */
    method FindUserByUsername(name: string) returns (u: Option<User>)
      requires UniqueUsers(users)
      ensures u.Some? <==> HasUsername(name)
      ensures u.Some? ==> u.value == UserNamed(name)
    {
      if HasUsername(name) {
        var id :| id in users && users[id].username == name;
        u := Some(users[id]);
      } else {
        u := None;
      }
    }

    /** User.findOne({ email }): the user with that (normalised) email, or null. */
    method FindUserByEmail(email: string) returns (u: Option<User>)
      requires UniqueUsers(users)
      ensures u.Some? <==> HasEmail(email)
      ensures u.Some? ==> u.value.id in users && users[u.value.id] == u.value && u.value.email == email
    {
      if HasEmail(email) {
        var id :| id in users && users[id].email == email;
        u := Some(users[id]);
      } else {
        u := None;
      }
    }

    /** User.findById(id): the user with that id, or null. */
    function FindUserById(id: ObjectId): (u: Option<User>)
      reads this
      requires UniqueUsers(users)
      ensures u.Some? <==> id in users
      ensures u.Some? ==> u.value == users[id] && u.value.id == id
    {
      if id in users then Some(users[id]) else None
    }

    /** Saving a new user: the unique indexes on _id, username and email must hold. */
    method InsertUser(u: User) returns (ok: bool)
      requires Valid() && IsNormal(u.username) && IsNormal(u.email)
      modifies this
      ensures Valid()
      ensures ok <==> u.id !in old(users) && !old(HasUsername(u.username)) && !old(HasEmail(u.email))
      ensures users == if ok then old(users)[u.id := u] else old(users)
      ensures tasks == old(tasks) && categories == old(categories)
    {
      ok := u.id !in users && !HasUsername(u.username) && !HasEmail(u.email);
      if ok {
        InsertKeepsUsersValid(users, u);
        users := users[u.id := u];
      }
    }

    /** Saving a new task: only the _id index is unique. */
    method InsertTask(t: Task) returns (ok: bool)
      requires Valid() && ContentValid(t.content)
      modifies this
      ensures Valid()
      ensures ok <==> t.id !in old(tasks)
      ensures tasks == if ok then old(tasks)[t.id := t] else old(tasks)
      ensures users == old(users) && categories == old(categories)
    {
      ok := t.id !in tasks;
      if ok {
        tasks := tasks[t.id := t];
      }
    }

    /** Saving a task that was read from the table. */
    method ReplaceTask(t: Task)
      requires Valid() && t.id in tasks && ContentValid(t.content)
      modifies this
      ensures Valid()
      ensures tasks == old(tasks)[t.id := t]
      ensures users == old(users) && categories == old(categories)
    {
      tasks := tasks[t.id := t];
    }

    /** Task.findByIdAndDelete(id): the deleted task, or null. */
    method DeleteTask(id: ObjectId) returns (deleted: Option<Task>)
      requires Valid()
      modifies this
      ensures Valid()
      ensures deleted.Some? <==> id in old(tasks)
      ensures deleted.Some? ==> deleted.value == old(tasks)[id]
      ensures tasks == old(tasks) - {id}
      ensures users == old(users) && categories == old(categories)
    {
      deleted := if id in tasks then Some(tasks[id]) else None;
      tasks := tasks - {id};
    }

    /** Another category than `except` already has this (name, user) pair. */
    predicate NameTaken(name: string, user: ObjectId, except: ObjectId)
      reads this
    {
      exists id :: id in categories && id != except && categories[id].name == name && categories[id].user == user
    }

    /**
     * Saving a new category with the given `_id`, or with none. Mongoose
     * refuses a new document without an `_id` when the schema declares the
     * path itself; MongoDB refuses a second (name, user) pair.
     */
    method InsertCategory(id: Option<ObjectId>, name: string, user: ObjectId) returns (saved: Option<Category>)
      requires Valid() && IsNormal(name)
      modifies this
      ensures Valid()
      ensures saved.Some? <==> id.Some? && id.value !in old(categories) && !old(NameTaken(name, user, id.value))
      ensures saved.Some? ==> saved.value == Category(id.value, name, user, [])
      ensures categories == if saved.Some? then old(categories)[id.value := saved.value] else old(categories)
      ensures users == old(users) && tasks == old(tasks)
    {
      if id.None? || id.value in categories || NameTaken(name, user, id.value) {
        saved := None;
      } else {
        var c := Category(id.value, name, user, []);
        categories := categories[id.value := c];
        saved := Some(c);
      }
    }

    /**
     * Category.findByIdAndUpdate(id, { name, user }, { new: true }): the
     * updated category, or null when there is none; `ok` is false when the
     * new pair collides with another category's.
     */
    method UpdateCategory(id: ObjectId, name: string, user: ObjectId) returns (ok: bool, updated: Option<Category>)
      requires Valid() && IsNormal(name)
      modifies this
      ensures Valid()
      ensures ok <==> id !in old(categories) || !old(NameTaken(name, user, id))
      ensures updated.Some? <==> ok && id in old(categories)
      ensures updated.Some? ==> updated.value == old(categories)[id].(name := name, user := user)
      ensures categories == if updated.Some? then old(categories)[id := updated.value] else old(categories)
      ensures users == old(users) && tasks == old(tasks)
    {
      if id !in categories {
        ok, updated := true, None;
      } else if NameTaken(name, user, id) {
        ok, updated := false, None;
      } else {
        var c := categories[id].(name := name, user := user);
        categories := categories[id := c];
        ok, updated := true, Some(c);
      }
    }

    /** Category.findByIdAndDelete(id): the deleted category, or null. No hook runs. */
    method DeleteCategory(id: ObjectId) returns (deleted: Option<Category>)
      requires Valid()
      modifies this
      ensures Valid()
      ensures deleted.Some? <==> id in old(categories)
      ensures deleted.Some? ==> deleted.value == old(categories)[id]
      ensures categories == old(categories) - {id}
      ensures users == old(users) && tasks == old(tasks)
    {
      deleted := if id in categories then Some(categories[id]) else None;
      categories := categories - {id};
    }

    /**
     * `category.remove()` on a document: the pre('remove') hook deletes the
     * tasks the category lists, then the category goes. No handler calls it.
     */
    method RemoveCategory(c: Category)
      requires Valid()
      modifies this
      ensures Valid()
      ensures tasks == Cascade(old(tasks), c)
      ensures categories == old(categories) - {c.id}
      ensures users == old(users)
    {
      tasks := Cascade(tasks, c);
      categories := categories - {c.id};
    }
  }

  /** The hook deletes nothing when it runs on a stored category, since no list is ever filled. */
  lemma CascadeOfStoredIsEmpty(db: Store, id: ObjectId)
    requires db.Valid() && id in db.categories
    ensures Cascade(db.tasks, db.categories[id]) == db.tasks
  {
    assert db.categories[id].tasks == [];
  }
}
