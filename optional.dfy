/** Python's `None`-or-value, as used for `selected_skill`, `skill_level` and backend replies. */
module Optional {

  datatype Option<+T> = None | Some(value: T)
}
