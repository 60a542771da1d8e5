/** What the plugin sees of, and does to, the game server hosting it.
    Every call into the host's action services is recorded as an `Effect`
    appended to a trace; what the host reports back is passed in as a `HostView`. */
module Host {

  /** C `unsigned char`: the block type handed to the block-placement hook. */
  newtype byte = b: int | 0 <= b < 256

  /** C `char` taken as signed, as on x86 builds (its signedness depends on
      the platform): the Y coordinate. */
  newtype sbyte = b: int | -128 <= b < 128

  datatype Option<T> = None | Some(value: T)

  /** A block position, already truncated to integers. */
  datatype Pos = Pos(x: int, y: int, z: int)

  /** What the host answers when asked: the (integer) position of each online
      user, and the world spawn point. A user missing from `positions` is one
      for whom `user.getPosition` fails. */
  datatype HostView = HostView(positions: map<string, Pos>, spawn: Pos)

  /** One call into the host's action services. */
  datatype Effect =
    | Log(text: string)                                  // screen.log
    | SendMsg(user: string, text: string)                // chat.sendmsgTo
    | SetBlock(x: int, y: int, z: int, block: byte, meta: int)   // map.setBlock
    | Spawn(x: int, y: int, z: int, item: int, amount: int, meta: int, user: string) // map.createPickupSpawn
    | SetWorldTime(ticks: int)                           // map.setTime
    | Teleport(user: string, x: int, y: int, z: int)     // user.teleport
}
