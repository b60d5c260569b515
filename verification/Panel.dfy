/** What the panel hands out. */
module Panel {
  datatype UserInfo = UserInfo(id: int, uuid: string, speedLimit: int, deviceLimit: int)

  /** The destinations and protocols a node refuses; destinations are given as regular expressions. */
  datatype Rules = Rules(expressions: seq<string>, protocols: seq<string>)

  /** A node description; `settings` stands for everything the cores make of it. */
  datatype NodeInfo = NodeInfo(settings: string, rules: Rules, pullInterval: int, pushInterval: int)
}
