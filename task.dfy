/** The one entity of the service (go-app/models.go). */
module TaskModel {

  /** A task row. Timestamps are integer clock readings; `id` is assigned by
      the store's SERIAL column, and whatever a client sends in it is
      ignored on create. */
  datatype Task = Task(
    id: int,
    title: string,
    description: string,
    status: string,
    createdAt: int,
    updatedAt: int
  )
}
