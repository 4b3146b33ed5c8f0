/** Records of the lucky-money widget and its one configuration constant. */
module Types {

  /** An optional value: `undefined`/`null` in the widget becomes `None`. */
  datatype Option<+T> = None | Some(value: T)

  /**
   * One revealed amount. `id` is the random base-36 string, `timestamp` the
   * millisecond clock reading at the reveal; both are supplied by the caller.
   * `amount` is any integer: the widget casts the generated amount past its
   * denomination type, so no restriction to a fixed set of notes applies.
   */
  datatype Session = Session(id: string, amount: int, timestamp: int)

  /** A gift bag on the grid; `content` is present once the bag has been opened. */
  datatype Bag = Bag(id: int, isOpened: bool, content: Option<Session>)

  /** Number of bags created when the widget mounts. */
  const InitialBagsCount: nat := 12

  /** The note values named by the widget's denomination type. */
  const Denominations: set<int> := {10000, 20000, 30000, 50000}
}
