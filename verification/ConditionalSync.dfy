/**
 * api/client.go and the pulling half of cmd/root.go's sync: a node that pulls with ETags ends up
 * like a node that pulls the full bodies every time.
 */
module ConditionalSync {
  import opened Wrappers
  import opened Model
  import C = Config
  import S = State
  import Server
  import Users

  /** The current version of a resource at the manager; an empty etag is no ETag header. */
  datatype Resource<T> = Resource(etag: string, body: T)

  datatype Reply<T> = NotModified | Fault | Full(etag: string, body: T)

  /** What a manager may answer to If-None-Match (sections 13.1.2 and 15.4.5 of RFC 9110). */
  predicate Allowed<T(==)>(r: Reply<T>, cur: Resource<T>, ifNoneMatch: string) {
    match r
    case NotModified => ifNoneMatch != "" && ifNoneMatch == cur.etag
    case Fault => true
    case Full(etag, body) => etag == cur.etag && body == cur.body
  }

  datatype Fetched<T> = Unchanged | Error | Body(body: T)

  class Client {
    var configETag: string
    var usersETag: string

    constructor ()
      ensures configETag == "" && usersETag == ""
    {
      configETag, usersETag := "", "";
    }

    method FetchConfig(reply: Reply<C.Config>) returns (r: Fetched<C.Config>)
      modifies this`configETag
      ensures (r, configETag) == Fetch(old(configETag), reply)
    {
      match reply {
        case NotModified => r := Unchanged;
        case Fault => r := Error;
        case Full(etag, body) =>
          configETag := etag;
          r := Body(body);
      }
    }

    method FetchUsers(reply: Reply<seq<User>>) returns (r: Fetched<seq<User>>)
      modifies this`usersETag
      ensures (r, usersETag) == Fetch(old(usersETag), reply)
    {
      match reply {
        case NotModified => r := Unchanged;
        case Fault => r := Error;
        case Full(etag, body) =>
          usersETag := etag;
          r := Body(body);
      }
    }
  }

  /** The result of a fetch and the ETag kept after it. */
  function Fetch<T>(etag: string, reply: Reply<T>): (Fetched<T>, string) {
    match reply
    case NotModified => (Unchanged, etag)
    case Fault => (Error, etag)
    case Full(e, body) => (Body(body), e)
  }

  /** One sync: the manager's versions at the two pulls, and its answers. */
  datatype Round = Round(
    config: Resource<C.Config>, configReply: Reply<C.Config>,
    users: Resource<seq<User>>, usersReply: Reply<seq<User>>)

  datatype Node = Node(view: C.View, server: S.State)

  function SetConfig(n: Node, f: Fetched<C.Config>): Node {
    if f.Body? then n.(view := C.Configure(n.view, f.body)) else n
  }

  function SetUsers(n: Node, f: Fetched<seq<User>>): Node {
    if f.Body? then n.(server := S.UpdateUsers(n.server, f.body)) else n
  }

  datatype Conditional = Conditional(node: Node, configETag: string, usersETag: string)

  const FRESH := Conditional(Node(C.INITIAL, S.INITIAL), "", "")

  predicate Answered(c: Conditional, r: Round) {
    Allowed(r.configReply, r.config, c.configETag) && Allowed(r.usersReply, r.users, c.usersETag)
  }

  /** The node as it is: it keeps ETags and takes 304 for an answer. */
  function Pull(c: Conditional, r: Round): Conditional {
    var (cfg, configETag) := Fetch(c.configETag, r.configReply);
    var (users, usersETag) := Fetch(c.usersETag, r.usersReply);
    Conditional(SetUsers(SetConfig(c.node, cfg), users), configETag, usersETag)
  }

  function Whole<T>(reply: Reply<T>, cur: Resource<T>): Fetched<T> {
    if reply.Fault? then Error else Body(cur.body)
  }

  /** The reference: a node that gets the full body whenever the manager answers at all. */
  function PullWhole(n: Node, r: Round): Node {
    SetUsers(SetConfig(n, Whole(r.configReply, r.config)), Whole(r.usersReply, r.users))
  }

  function After(rs: seq<Round>): Conditional {
    if rs == [] then FRESH else Pull(After(rs[..|rs| - 1]), rs[|rs| - 1])
  }

  function AfterWhole(rs: seq<Round>): Node {
    if rs == [] then FRESH.node else PullWhole(AfterWhole(rs[..|rs| - 1]), rs[|rs| - 1])
  }

  /** The manager's answers fit the requests, and equal ETags mean equal bodies. */
  ghost predicate Honest(rs: seq<Round>) {
    (rs == [] || (Honest(rs[..|rs| - 1]) && Answered(After(rs[..|rs| - 1]), rs[|rs| - 1]))) &&
    (forall i, j :: 0 <= i < |rs| && 0 <= j < |rs| && rs[i].config.etag == rs[j].config.etag != "" ==>
      rs[i].config.body == rs[j].config.body) &&
    (forall i, j :: 0 <= i < |rs| && 0 <= j < |rs| && rs[i].users.etag == rs[j].users.etag != "" ==>
      rs[i].users.body == rs[j].users.body)
  }

  /** A kept ETag belongs to a version pulled earlier, and the node reflects that version. */
  ghost predicate ConfigKept(c: Conditional, rs: seq<Round>) {
    c.configETag != "" ==>
      exists i :: 0 <= i < |rs| && rs[i].config.etag == c.configETag &&
                  C.Configure(c.node.view, rs[i].config.body) == c.node.view
  }

  ghost predicate UsersKept(c: Conditional, rs: seq<Round>) {
    c.usersETag != "" ==>
      exists i :: 0 <= i < |rs| && rs[i].users.etag == c.usersETag &&
                  c.node.server.users == Users.UsersOf(rs[i].users.body, |rs[i].users.body|)
  }

  lemma ConfigStep(c: Conditional, n: Node, rs: seq<Round>, r: Round)
    requires ConfigKept(c, rs) && Answered(c, r) && c.node.view == n.view
    requires forall i :: 0 <= i < |rs| && rs[i].config.etag == r.config.etag != "" ==>
             rs[i].config.body == r.config.body
    ensures Pull(c, r).node.view == PullWhole(n, r).view
    ensures ConfigKept(Pull(c, r), rs + [r])
  {
    var after, all := Pull(c, r), rs + [r];
    if r.configReply.Full? {
      C.ConfigureIdempotent(c.node.view, r.config.body);
      assert all[|rs|] == r;
    } else if c.configETag != "" {
      var i :| 0 <= i < |rs| && rs[i].config.etag == c.configETag &&
               C.Configure(c.node.view, rs[i].config.body) == c.node.view;
      assert all[i] == rs[i];
    }
  }

  lemma UsersStep(c: Conditional, n: Node, rs: seq<Round>, r: Round)
    requires UsersKept(c, rs) && Answered(c, r) && c.node.server.users == n.server.users
    requires forall i :: 0 <= i < |rs| && rs[i].users.etag == r.users.etag != "" ==> rs[i].users.body == r.users.body
    ensures Pull(c, r).node.server.users == PullWhole(n, r).server.users
    ensures UsersKept(Pull(c, r), rs + [r])
  {
    var list, all := r.users.body, rs + [r];
    Users.FoldUsers(c.node.server, list, |list|);
    Users.FoldUsers(n.server, list, |list|);
    if r.usersReply.Full? {
      assert all[|rs|] == r;
    } else if c.usersETag != "" {
      var i :| 0 <= i < |rs| && rs[i].users.etag == c.usersETag &&
               c.node.server.users == Users.UsersOf(rs[i].users.body, |rs[i].users.body|);
      assert all[i] == rs[i];
    }
  }

  lemma {:induction false} Kept(rs: seq<Round>)
    requires Honest(rs)
    ensures After(rs).node.view == AfterWhole(rs).view
    ensures After(rs).node.server.users == AfterWhole(rs).server.users
    ensures ConfigKept(After(rs), rs) && UsersKept(After(rs), rs)
  {
    if rs != [] {
      var init, r := rs[..|rs| - 1], rs[|rs| - 1];
      assert rs == init + [r] && forall i :: 0 <= i < |init| ==> init[i] == rs[i];
      Kept(init);
      ConfigStep(After(init), AfterWhole(init), init, r);
      UsersStep(After(init), AfterWhole(init), init, r);
    }
  }

  lemma {:induction false} BothAgree(rs: seq<Round>)
    ensures Users.Agree(After(rs).node.server) && Users.Agree(AfterWhole(rs).server)
  {
    if rs != [] {
      var init, r := rs[..|rs| - 1], rs[|rs| - 1];
      BothAgree(init);
      PullAgrees(After(init), r);
      PullWholeAgrees(AfterWhole(init), r);
    }
  }

  lemma PullAgrees(c: Conditional, r: Round)
    requires Users.Agree(c.node.server)
    ensures Users.Agree(Pull(c, r).node.server)
  {
    if r.usersReply.Full? {
      Users.UpdateUsersAgrees(c.node.server, r.usersReply.body);
    }
  }

  lemma PullWholeAgrees(n: Node, r: Round)
    requires Users.Agree(n.server)
    ensures Users.Agree(PullWhole(n, r).server)
  {
    Users.UpdateUsersAgrees(n.server, r.users.body);
  }

  /** The ETag of the last full answer; none before the first. */
  function LastETag<T>(replies: seq<Reply<T>>): string {
    if replies == [] then ""
    else if replies[|replies| - 1].Full? then replies[|replies| - 1].etag
    else LastETag(replies[..|replies| - 1])
  }

  function ConfigReplies(rs: seq<Round>): (replies: seq<Reply<C.Config>>)
    ensures |replies| == |rs| && forall i :: 0 <= i < |rs| ==> replies[i] == rs[i].configReply
  {
    seq(|rs|, i requires 0 <= i < |rs| => rs[i].configReply)
  }

  function UsersReplies(rs: seq<Round>): (replies: seq<Reply<seq<User>>>)
    ensures |replies| == |rs| && forall i :: 0 <= i < |rs| ==> replies[i] == rs[i].usersReply
  {
    seq(|rs|, i requires 0 <= i < |rs| => rs[i].usersReply)
  }

  /**
   * The ETags kept are those of the last full answers, so a manager whose version is still that one may
   * answer 304, and neither 304 nor an error loses them.
   */
  lemma {:induction false} ETagsKept(rs: seq<Round>)
    ensures After(rs).configETag == LastETag(ConfigReplies(rs)) && After(rs).usersETag == LastETag(UsersReplies(rs))
    ensures forall body: C.Config :: After(rs).configETag != "" ==>
              Allowed(NotModified, Resource(LastETag(ConfigReplies(rs)), body), After(rs).configETag)
  {
    if rs != [] {
      var init := rs[..|rs| - 1];
      ETagsKept(init);
      assert ConfigReplies(rs)[..|rs| - 1] == ConfigReplies(init);
      assert UsersReplies(rs)[..|rs| - 1] == UsersReplies(init);
    }
  }

  function Rates(table: map<UserKey, Option<Bucket>>): map<UserKey, Option<int>> {
    map u | u in table :: if table[u].Some? then Some(table[u].value.rate) else None
  }

  /**
   * After every sync the conditional node equals the unconditional one in port, stream, vless,
   * decryption settings, short-ID table, global rates, user set, and every user's rates.
   */
  lemma ConditionalRefinesWhole(rs: seq<Round>)
    requires Honest(rs)
    ensures After(rs).node.view == AfterWhole(rs).view
    ensures After(rs).node.server.users == AfterWhole(rs).server.users
    ensures Rates(After(rs).node.server.upLimiters) == Rates(AfterWhole(rs).server.upLimiters)
    ensures Rates(After(rs).node.server.downLimiters) == Rates(AfterWhole(rs).server.downLimiters)
  {
    Kept(rs);
    BothAgree(rs);
    var s, t := After(rs).node.server, AfterWhole(rs).server;
    SameRates(s.upLimiters, t.upLimiters, s.users, Users.UpLimit(), s.nextBucket, t.nextBucket);
    SameRates(s.downLimiters, t.downLimiters, s.users, Users.DownLimit(), s.nextBucket, t.nextBucket);
  }

  /** The rates of a table that fits a user set are determined by the user set. */
  lemma SameRates(a: map<UserKey, Option<Bucket>>, b: map<UserKey, Option<Bucket>>, users: map<UserKey, User>,
                  rate: User -> int, m: nat, n: nat)
    requires Users.Limits(a, users, rate, m) && Users.Limits(b, users, rate, n)
    ensures Rates(a) == Rates(b)
  {
    assert Rates(a).Keys == a.Keys == b.Keys == Rates(b).Keys;
    forall u | u in a ensures Rates(a)[u] == Rates(b)[u] {
      assert u in b;
    }
  }

  // The pulling half of sync, over the objects it works on.

  /** What the client, the inbound and the server hold together. */
  ghost function Held(client: Client, inbound: C.Inbound, server: Server.Server): Conditional
    reads client, inbound, server
  {
    Conditional(Node(inbound.State(), server.State()), client.configETag, client.usersETag)
  }

  /** The configuration pull: a full answer is applied, 304 and errors leave everything as it is. */
  method PullConfig(client: Client, inbound: C.Inbound, reply: Reply<C.Config>)
    modifies client`configETag, inbound, inbound.ln
    ensures var (f, etag) := Fetch(old(client.configETag), reply);
            client.configETag == etag &&
            inbound.State() == if f.Body? then C.Configure(old(inbound.State()), f.body) else old(inbound.State())
    ensures inbound.ln == old(inbound.ln)
  {
    var cfg := client.FetchConfig(reply);
    match cfg {
      case Unchanged =>
      case Error =>
      case Body(body) => inbound.UpdateConfig(body);
    }
  }

  /** The user pull. */
  method PullUsers(client: Client, server: Server.Server, reply: Reply<seq<User>>) returns (users: Fetched<seq<User>>)
    modifies client`usersETag, server
    ensures (users, client.usersETag) == Fetch(old(client.usersETag), reply)
    ensures server.State() ==
            if users.Body? then S.UpdateUsers(old(server.State()), users.body) else old(server.State())
  {
    users := client.FetchUsers(reply);
    match users {
      case Unchanged =>
      case Error =>
      case Body(body) => server.UpdateUsers(body);
    }
  }

  /** Both pulls of a sync, when nothing else reaches the server: exactly Pull. */
  method PullBoth(client: Client, inbound: C.Inbound, server: Server.Server, r: Round)
    modifies client, inbound, inbound.ln, server
    ensures Held(client, inbound, server) == Pull(old(Held(client, inbound, server)), r)
    ensures inbound.ln == old(inbound.ln)
  {
    PullConfig(client, inbound, r.configReply);
    var users := PullUsers(client, server, r.usersReply);
  }

  // Other things do reach the server between and after the pulls, but not the tables they set.

  ghost predicate SameTables(s: S.State, t: S.State) {
    s.users == t.users && s.upLimiters == t.upLimiters && s.downLimiters == t.downLimiters &&
    s.nextBucket == t.nextBucket
  }

  /** The objects hold this node's ETags, configuration, users and limiters. */
  ghost predicate Reflects(c: Conditional, client: Client, inbound: C.Inbound, server: S.State)
    reads client, inbound
  {
    c.configETag == client.configETag && c.usersETag == client.usersETag &&
    c.node.view == inbound.State() && SameTables(c.node.server, server)
  }

  lemma {:induction false} FoldSame(s: S.State, t: S.State, list: seq<User>, n: nat)
    requires n <= |list| && SameTables(s, t)
    ensures S.Fold(s, list, n) == S.Fold(t, list, n)
  {
    if n > 0 {
      FoldSame(s, t, list, n - 1);
    }
  }

  lemma UpdateSame(s: S.State, t: S.State, list: seq<User>)
    requires SameTables(s, t)
    ensures SameTables(S.UpdateUsers(s, list), S.UpdateUsers(t, list))
  {
    FoldSame(s, t, list, |list|);
  }
}
