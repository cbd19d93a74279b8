/** model/user.go and the server's records. A user key is the 16 octets of a parsed UUID. */
module Model {
  import opened Wrappers
  import opened Bytes

  type UserKey = Bytes
  type ConnId = nat

  datatype User = User(id: string, email: string, upLimit: int, downLimit: int)

  /** One traffic delta, as reported to the manager. */
  datatype UserTraffic = UserTraffic(email: string, node: string, up: nat, down: nat)

  /** One /usage entry: the effective cap (-1 is unlimited) and the manager's used total. */
  datatype UserUsage = UserUsage(email: string, quota: int, used: int)

  datatype TrafficKey = TrafficKey(uuid: UserKey, node: string)

  datatype TrafficStat = TrafficStat(email: string, up: nat, down: nat)

  datatype QuotaState = QuotaState(quota: int, base: int, accrual: int, cut: bool)

  /** A token bucket as UpdateUsers sees it: its identity and the rate it was built for. */
  datatype Bucket = Bucket(id: nat, rate: int)
}
