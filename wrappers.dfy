/** Small value wrappers shared by the wizard model. */
module Wrappers {

  /** Python's `None` or a value. */
  datatype Option<+T> = None | Some(value: T)

  /** One key of a Python dict: absent, or stored with a value (which may itself be `None`). */
  datatype Entry<+T> = Absent | Stored(value: T)
}
