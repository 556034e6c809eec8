/**
 * The Category schema: the normalised name, the owner, the unique index on
 * (name, user) and the pre('remove') hook that deletes the listed tasks.
 */
module CategorySchema {
  import opened External
  import opened Strings
  import opened TaskSchema

  datatype Category = Category(id: ObjectId, name: string, user: ObjectId, tasks: seq<ObjectId>)

  /** The category table's invariant: ids are the keys, names are normal, (name, user) is unique. */
  ghost predicate CategoriesValid(categories: map<ObjectId, Category>) {
    && (forall id :: id in categories ==> categories[id].id == id && IsNormal(categories[id].name))
    && (forall a, b ::
          a in categories && b in categories && categories[a].name == categories[b].name &&
          categories[a].user == categories[b].user
          ==> a == b)
  }

  /**
   * The pre('remove') hook, `Task.remove({ _id: { $in: this.tasks } })`:
   * the task table without the tasks the category lists.
   */
  function Cascade(tasks: map<ObjectId, Task>, c: Category): (r: map<ObjectId, Task>)
    ensures forall id :: id in r <==> id in tasks && id !in c.tasks
    ensures forall id :: id in r ==> r[id] == tasks[id]
  {
    map id | id in tasks && id !in c.tasks :: tasks[id]
  }
}
