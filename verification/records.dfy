/** The shape of a stored activity row. */
module Records {
  import opened Categories

  /** One row of the `activities` table. `points` is a snapshot taken when
      the row was created and is not recomputed from the category table;
      `createdAt` is the creation instant in milliseconds since the epoch. */
  datatype Activity = Activity(
    id: string,
    userId: string,
    activityName: string,
    category: Category,
    points: int,
    createdAt: int)

  /** Every activity in the list carries a non-negative point value. */
  ghost predicate AllNonNegative(acts: seq<Activity>) {
    forall a :: a in acts ==> a.points >= 0
  }
}
