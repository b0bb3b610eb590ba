/** The single entity of the service: a row of the `users` table (db/models.go). */
module Models {
  /** `id` and `age` are 64-bit in the source; here they are unbounded integers. */
  datatype User = User(id: int, name: string, email: string, age: int)

  /** The zero value `User{}` that the storage layer scans into. */
  const ZeroUser := User(0, "", "", 0)
}
