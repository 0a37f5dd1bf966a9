// The User entity as the DAO and the service use it: an identity that the
// store assigns on creation, a name, an email and an optional age.

module Entity {

  /** Java's nullable references (`Long id`, `Integer age`, `Optional<User>`). */
  datatype Option<+T> = None | Some(value: T)

  /**
   * One user record. `id` is None until the store has persisted the record.
   * The creation timestamp is not part of this model.
   */
  datatype User = User(id: Option<int>, name: string, email: string, age: Option<int>)
}
