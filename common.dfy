/** Small types shared by the models of the two Linux composition roots. */
module Common {

  /** A nullable value: `None` stands for a null pointer or an absent result. */
  datatype Option<+T> = None | Some(value: T)

  /** A C `int` / `int32_t`. */
  type int32 = x: int | -0x8000_0000 <= x < 0x8000_0000
}
