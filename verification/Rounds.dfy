/**
 * Two copying goroutines that take turns: handleTCP of proxy/vless/handler.go and handleUDP of
 * proxy/vless/udp.go start one for each direction and return when the first of them ends.
 */
module Rounds {
  import opened Streams

  /**
   * How many rounds a direction takes: one for each piece that its receiver, with this much room,
   * accepts in full, and a last one that finds no more pieces or fails to write.
   */
  function Needed<T>(pieces: seq<seq<T>>, room: nat): nat {
    if pieces == [] || |pieces[0]| > room then 1 else 1 + Needed(pieces[1..], room - |pieces[0]|)
  }

  /** What the first k rounds take up. */
  function Taken<T>(pieces: seq<seq<T>>, k: nat): seq<T> {
    Flatten(pieces[..Min(k, |pieces|)])
  }

  /** How many of the first n turns are this direction's. */
  function Turned(turns: seq<bool>, n: nat, up: bool): nat
    requires n <= |turns|
  {
    if n == 0 then 0 else Turned(turns, n - 1, up) + if turns[n - 1] == up then 1 else 0
  }

  /** k rounds have gone well, with these pieces and this room left. */
  ghost predicate Going<T>(pieces: seq<seq<T>>, start: nat, k: nat, left: seq<seq<T>>, room: nat) {
    && k <= |pieces| && left == pieces[k..]
    && start == room + |Flatten(pieces[..k])|
    && Needed(pieces, start) == k + Needed(left, room)
  }

  lemma {:induction false} FlattenPush<T>(pieces: seq<seq<T>>, p: seq<T>)
    ensures Flatten(pieces + [p]) == Flatten(pieces) + p
  {
    if pieces == [] {
      assert Flatten([p]) == p + Flatten([]);
      assert [] + [p] == [p];
    } else {
      FlattenPush(pieces[1..], p);
      assert (pieces + [p])[1..] == pieces[1..] + [p];
      Associate(pieces[0], Flatten(pieces[1..]), p);
    }
  }

  lemma {:induction false} FlattenSplit<T>(pieces: seq<seq<T>>, k: nat)
    requires k <= |pieces|
    ensures Flatten(pieces) == Flatten(pieces[..k]) + Flatten(pieces[k..])
  {
    if k == 0 {
      assert pieces[0..] == pieces && pieces[..0] == [];
    } else {
      FlattenSplit(pieces[1..], k - 1);
      assert pieces[..k][1..] == pieces[1..][..k - 1] && pieces[1..][k - 1..] == pieces[k..];
      Associate(pieces[0], Flatten(pieces[1..][..k - 1]), Flatten(pieces[k..]));
    }
  }

  lemma NoneTaken<T>(pieces: seq<seq<T>>, room: nat)
    ensures Going(pieces, room, 0, pieces, room) && Taken(pieces, 0) == []
  {
    assert pieces[0..] == pieces && pieces[..0] == [];
  }

  /** One more round that goes well. */
  lemma OneTaken<T>(pieces: seq<seq<T>>, start: nat, k: nat, left: seq<seq<T>>, room: nat)
    requires Going(pieces, start, k, left, room) && left != [] && |left[0]| <= room
    ensures Going(pieces, start, k + 1, left[1..], room - |left[0]|)
    ensures Taken(pieces, k + 1) == Taken(pieces, k) + left[0]
  {
    assert pieces[..k + 1] == pieces[..k] + [left[0]];
    FlattenPush(pieces[..k], left[0]);
    assert left[1..] == pieces[k + 1..];
  }

  /** The last round: it takes up all the receiver still accepts. */
  lemma LastTaken<T>(pieces: seq<seq<T>>, start: nat, k: nat, left: seq<seq<T>>, room: nat)
    requires Going(pieces, start, k, left, room) && (left == [] || |left[0]| > room)
    ensures Needed(pieces, start) == k + 1
    ensures Accepted(Taken(pieces, k + 1), start) == Accepted(Flatten(pieces), start)
    ensures Accepted(Taken(pieces, k + 1), start) == Taken(pieces, k) + Accepted(Flatten(left), room)
  {
    FlattenSplit(pieces, k);
    AcceptedAfter(Taken(pieces, k), Flatten(left), start);
    if left == [] {
      assert pieces[..k] == pieces;
    } else {
      assert pieces[..k + 1] == pieces[..k] + [left[0]];
      FlattenPush(pieces[..k], left[0]);
      AcceptedAfter(Taken(pieces, k), left[0], start);
      assert Accepted(Flatten(left), room) == left[0][..room];
    }
  }

  lemma AcceptedAfter<T>(x: seq<T>, y: seq<T>, room: nat)
    requires |x| <= room
    ensures Accepted(x + y, room) == x + Accepted(y, room - |x|)
  {
  }

  /** A prefix of what there is fills the receiver as all of it would iff it is long enough. */
  lemma Covers<T>(taken: seq<T>, rest: seq<T>, room: nat)
    ensures Accepted(taken, room) == Accepted(taken + rest, room) <==> |taken| >= Min(|taken + rest|, room)
  {
    if |taken| < Min(|taken + rest|, room) {
      assert |Accepted(taken, room)| < |Accepted(taken + rest, room)|;
    }
  }

  /**
   * A direction that has had k rounds is complete, as far as its receiver takes it, exactly if the
   * pieces of those rounds cover all there is or fill the receiver.
   */
  lemma CompleteExactly<T>(pieces: seq<seq<T>>, k: nat, room: nat)
    ensures Accepted(Taken(pieces, k), room) == Accepted(Flatten(pieces), room) <==>
            |Taken(pieces, k)| >= Min(|Flatten(pieces)|, room)
  {
    var n := Min(k, |pieces|);
    FlattenSplit(pieces, n);
    Covers(Taken(pieces, k), Flatten(pieces[n..]), room);
  }

  /** The same, seen from what is left over when k rounds have gone well. */
  lemma LeftExactly<T>(pieces: seq<seq<T>>, start: nat, k: nat, left: seq<seq<T>>, room: nat)
    requires Going(pieces, start, k, left, room)
    ensures Accepted(Taken(pieces, k), start) == Taken(pieces, k)
    ensures Accepted(Flatten(pieces), start) == Taken(pieces, k) + Accepted(Flatten(left), room)
    ensures Accepted(Taken(pieces, k), start) == Accepted(Flatten(pieces), start) <==> Flatten(left) == [] || room == 0
  {
    FlattenSplit(pieces, k);
    AcceptedAfter(Taken(pieces, k), Flatten(left), start);
    if Flatten(left) != [] && room > 0 {
      assert |Accepted(Flatten(left), room)| > 0;
    }
  }

  // One direction, round by round.

  /** A round ends its direction if there is no piece or the receiver does not take all of it. */
  predicate Ends<T>(pieces: seq<seq<T>>, room: nat) {
    pieces == [] || |pieces[0]| > room
  }

  /** What the receiver gets in one round. */
  function Given<T>(pieces: seq<seq<T>>, room: nat): seq<T> {
    if pieces == [] then [] else Accepted(pieces[0], room)
  }

  /** Where a direction stands: what its receiver got, what is left, its room, and has it ended? */
  datatype Progress<T> = Progress(got: seq<T>, left: seq<seq<T>>, room: nat, ended: bool)

  function Round<T>(p: Progress<T>): Progress<T> {
    var g := Given(p.left, p.room);
    Progress(p.got + g, if p.left == [] then [] else p.left[1..], p.room - |g|, Ends(p.left, p.room))
  }

  function Begin<T>(pieces: seq<seq<T>>, room: nat): Progress<T> {
    Progress([], pieces, room, false)
  }

  /** After k rounds, with these pieces and this much room to begin with. */
  function After<T>(pieces: seq<seq<T>>, room: nat, k: nat): Progress<T> {
    if k == 0 then Begin(pieces, room) else Round(After(pieces, room, k - 1))
  }

  /**
   * Where one direction stands after k rounds: what its receiver got, whether it has ended, and, if
   * not, what is left.
   */
  ghost predicate Stands<T>(pieces: seq<seq<T>>, room: nat, k: nat, ended: bool, got: seq<T>, left: seq<seq<T>>,
                            now: nat) {
    && k <= Needed(pieces, room) && (ended <==> k == Needed(pieces, room))
    && got == Accepted(Taken(pieces, k), room) && now == room - |got|
    && (!ended ==> Going(pieces, room, k, left, now))
    && (got == Accepted(Flatten(pieces), room) <==> Flatten(left) == [] || now == 0)
  }

  lemma StandsFirst<T>(pieces: seq<seq<T>>, room: nat)
    ensures Stands(pieces, room, 0, false, [], pieces, room)
  {
    NoneTaken(pieces, room);
    LeftExactly(pieces, room, 0, pieces, room);
  }

  lemma StandsNext<T>(pieces: seq<seq<T>>, room: nat, k: nat, got: seq<T>, left: seq<seq<T>>, now: nat)
    requires Stands(pieces, room, k, false, got, left, now)
    ensures var g := Given(left, now);
            Stands(pieces, room, k + 1, Ends(left, now), got + g, if left == [] then [] else left[1..], now - |g|)
  {
    LeftExactly(pieces, room, k, left, now);
    if Ends(left, now) {
      LastTaken(pieces, room, k, left, now);
      assert Accepted(Flatten(left), now) == Given(left, now);
    } else {
      OneTaken(pieces, room, k, left, now);
      LeftExactly(pieces, room, k + 1, left[1..], now - |left[0]|);
    }
  }

  lemma {:induction false} AfterStands<T>(pieces: seq<seq<T>>, room: nat, k: nat)
    requires k <= Needed(pieces, room)
    ensures var p := After(pieces, room, k); Stands(pieces, room, k, p.ended, p.got, p.left, p.room)
  {
    if k == 0 {
      StandsFirst(pieces, room);
    } else {
      var p := After(pieces, room, k - 1);
      AfterStands(pieces, room, k - 1);
      StandsNext(pieces, room, k - 1, p.got, p.left, p.room);
    }
  }

  /** p is what k rounds deliver, and complete, as far as the receiver takes it, under which conditions. */
  ghost predicate Delivers<T>(pieces: seq<seq<T>>, room: nat, k: nat, p: Progress<T>) {
    && p.got == Accepted(Taken(pieces, k), room)
    && (p.got == Accepted(Flatten(pieces), room) <==> |Taken(pieces, k)| >= Min(|Flatten(pieces)|, room))
    && (p.got == Accepted(Flatten(pieces), room) <==> Flatten(p.left) == [] || p.room == 0)
    && (p.ended ==> p.got == Accepted(Flatten(pieces), room))
  }

  lemma ArrivedExactly<T>(pieces: seq<seq<T>>, room: nat, k: nat)
    requires k <= Needed(pieces, room)
    ensures Delivers(pieces, room, k, After(pieces, room, k))
    ensures After(pieces, room, k).ended <==> k == Needed(pieces, room)
  {
    AfterStands(pieces, room, k);
    CompleteExactly(pieces, k, room);
    if k == Needed(pieces, room) {
      AfterStands(pieces, room, k - 1);
      var p := After(pieces, room, k - 1);
      LastTaken(pieces, room, k - 1, p.left, p.room);
    }
  }

  // Both, turn by turn.

  /** Both directions' progress, and the number of turns they took. */
  datatype Outcome<T, U> = Outcome(up: Progress<T>, down: Progress<U>, turns: nat)

  /** The turns from the i-th on (true for the upload), until one direction has ended. */
  function Run<T, U>(turns: seq<bool>, i: nat, up: Progress<T>, down: Progress<U>): Outcome<T, U>
    requires i <= |turns|
    decreases |turns| - i
  {
    if i == |turns| || up.ended || down.ended then Outcome(up, down, i)
    else if turns[i] then Run(turns, i + 1, Round(up), down)
    else Run(turns, i + 1, up, Round(down))
  }

  /** From the start, with these pieces and this much room in either direction. */
  function RunAll<T, U>(turns: seq<bool>, up: seq<seq<T>>, upRoom: nat, down: seq<seq<U>>,
                        downRoom: nat): Outcome<T, U> {
    Run(turns, 0, Begin(up, upRoom), Begin(down, downRoom))
  }

  /** n turns have been taken, no direction has had more than it needs, and not both have ended. */
  ghost predicate InTime<T, U>(turns: seq<bool>, up: seq<seq<T>>, upRoom: nat, down: seq<seq<U>>, downRoom: nat,
                               o: Outcome<T, U>) {
    && o.turns <= |turns| && !(o.up.ended && o.down.ended)
    && Turned(turns, o.turns, true) <= Needed(up, upRoom) && Turned(turns, o.turns, false) <= Needed(down, downRoom)
    && o.up == After(up, upRoom, Turned(turns, o.turns, true))
    && o.down == After(down, downRoom, Turned(turns, o.turns, false))
  }

  lemma MoreNeeded<T>(pieces: seq<seq<T>>, room: nat, k: nat)
    requires k <= Needed(pieces, room) && !After(pieces, room, k).ended
    ensures k < Needed(pieces, room) && After(pieces, room, k + 1) == Round(After(pieces, room, k))
  {
    ArrivedExactly(pieces, room, k);
  }

  lemma TurnInTime<T, U>(turns: seq<bool>, up: seq<seq<T>>, upRoom: nat, down: seq<seq<U>>, downRoom: nat,
                         o: Outcome<T, U>)
    requires InTime(turns, up, upRoom, down, downRoom, o) && o.turns < |turns| && !o.up.ended && !o.down.ended
    ensures turns[o.turns] ==> InTime(turns, up, upRoom, down, downRoom, Outcome(Round(o.up), o.down, o.turns + 1))
    ensures !turns[o.turns] ==> InTime(turns, up, upRoom, down, downRoom, Outcome(o.up, Round(o.down), o.turns + 1))
  {
    if turns[o.turns] {
      MoreNeeded(up, upRoom, Turned(turns, o.turns, true));
    } else {
      MoreNeeded(down, downRoom, Turned(turns, o.turns, false));
    }
  }

  lemma {:induction false} RunInTime<T, U>(turns: seq<bool>, up: seq<seq<T>>, upRoom: nat, down: seq<seq<U>>,
                                           downRoom: nat, o: Outcome<T, U>)
    requires InTime(turns, up, upRoom, down, downRoom, o)
    ensures var end := Run(turns, o.turns, o.up, o.down);
            InTime(turns, up, upRoom, down, downRoom, end) && (end.turns < |turns| ==> end.up.ended || end.down.ended)
    decreases |turns| - o.turns
  {
    if o.turns < |turns| && !o.up.ended && !o.down.ended {
      TurnInTime(turns, up, upRoom, down, downRoom, o);
      var next := if turns[o.turns] then Outcome(Round(o.up), o.down, o.turns + 1)
                  else Outcome(o.up, Round(o.down), o.turns + 1);
      RunInTime(turns, up, upRoom, down, downRoom, next);
    }
  }

  /**
   * What a relay delivers, as a condition on its inputs. Each direction is complete, as far as its
   * receiver takes it, exactly if the pieces of its turns before the stop cover all there is or fill
   * the receiver; that is, if nothing is left or there is no room. One that has ended always is, and
   * never have both.
   */
  lemma DeliveredExactly<T, U>(turns: seq<bool>, up: seq<seq<T>>, upRoom: nat, down: seq<seq<U>>, downRoom: nat)
    ensures var o := RunAll(turns, up, upRoom, down, downRoom);
            && o.turns <= |turns| && !(o.up.ended && o.down.ended)
            && (o.turns < |turns| ==> o.up.ended || o.down.ended)
            && Delivers(up, upRoom, Turned(turns, o.turns, true), o.up)
            && Delivers(down, downRoom, Turned(turns, o.turns, false), o.down)
  {
    RunInTime(turns, up, upRoom, down, downRoom, Outcome(Begin(up, upRoom), Begin(down, downRoom), 0));
    var o := RunAll(turns, up, upRoom, down, downRoom);
    ArrivedExactly(up, upRoom, Turned(turns, o.turns, true));
    ArrivedExactly(down, downRoom, Turned(turns, o.turns, false));
  }

  /**
   * The loss is real, in both directions: when one has nothing to copy and the first turn is its
   * own, the relay stops after one turn, and nothing has arrived of the other, whatever there is.
   */
  lemma OtherLost<T, U>(turns: seq<bool>, up: seq<seq<T>>, upRoom: nat, down: seq<seq<U>>, downRoom: nat)
    requires turns != []
    ensures var o := RunAll(turns, up, upRoom, down, downRoom);
            && (turns[0] && up == [] ==> o.turns == 1 && o.up.ended && o.down == Begin(down, downRoom))
            && (!turns[0] && down == [] ==> o.turns == 1 && o.down.ended && o.up == Begin(up, upRoom))
    ensures Flatten(down) != [] && downRoom > 0 ==> Begin(down, downRoom).got != Accepted(Flatten(down), downRoom)
    ensures Flatten(up) != [] && upRoom > 0 ==> Begin(up, upRoom).got != Accepted(Flatten(up), upRoom)
  {
    if turns[0] && up == [] {
      assert Run(turns, 1, Round(Begin(up, upRoom)), Begin(down, downRoom)).turns == 1;
    } else if !turns[0] && down == [] {
      assert Run(turns, 1, Begin(up, upRoom), Round(Begin(down, downRoom))).turns == 1;
    }
  }
}
