/** The records and enumeration shared by the classifier and the simulation. */
module Types {
  import opened Vectors

  /** A value that may be absent (`null` or `undefined` in the source). */
  datatype Option<T> = None | Some(value: T)

  /** All six members of the source's enumeration, including the two that no
      code path produces. */
  datatype GestureType = Idle | OpenPalm | Fist | Pointing | Vortex | Merge

  /** One detected hand as the simulation sees it. The raw landmark list the
      source also stores here is never read by the simulation. */
  datatype HandData = HandData(gesture: GestureType, palmCenter: Vec3, direction: Vec3)
}
