/** An optional value: a missing player, an absent key binding, a tab with no list. */
module Optional {
  datatype Option<T> = None | Some(value: T)
}
