/** The records of include/my_ndbm.h and include/server.h, and how a request ends. */
module Records {

  const MAX_CLIENTS := 255
  const NAME_LIMIT := 20
  const PASSWORD_LIMIT := 30
  const LIST_SIZE := 64
  const MESSAGE_LIMIT := 973
  const ADMIN := "admin"
  const ADMIN_UUID := "00000000-0000-0000-0000-000000000000"
  const OFFLINE_IP := "0"

  datatype Login = Login(token: string, password: string, uuid: string)

  datatype Account = Account(id: string, name: string, ip: string, online: bool, privilege: int)

  /** A cache entry (`connected_user`), without its access time. */
  datatype Entry = Entry(fd: int, name: string, ip: string, token: string, uuid: string, privilege: int)

  datatype Channel = Channel(
    id: string, creator: string,
    users: seq<string>, admins: seq<string>, banned: seq<string>,
    name: string, publicity: bool)

  /** A stored message, without its text and time stamp. */
  datatype Message = Message(id: string, author: string, channel: string)

  /**
   `Reply(code)` is the handler's result code. `Fault` is the end of the run: a failed assertion, a
   NULL dereference, or a write outside a buffer.
   */
  datatype Outcome = Reply(code: int) | Fault

  /** The privilege that account records are given. */
  function PrivilegeOf(name: string): int {
    if name == ADMIN then 1 else 0
  }
}
