module Optional {
  datatype Maybe<+T> = Nothing | Just(value: T)
}
