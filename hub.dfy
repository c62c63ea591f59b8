/** What the two hub menus share of `pybricks.parameters`. */
module Hub {
  /** `Button`: the hub buttons the menus poll. */
  datatype Button = Left | Right | Center | Bluetooth
}
