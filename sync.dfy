/**
 * What of the multiplayer plumbing is not a foreign call: which database
 * slot each side writes and which it reads, and how a room code is drawn.
 * The database itself, its listeners and its writes are not modelled.
 */
module Sync {
  import opened Wrappers

  /** The two player slots under `gameState/` in a room. */
  datatype PlayerSlot = Player1 | Player2

  /** The slot a side writes its own state to: the host is player 1. */
  function OwnSlot(isHost: bool): (s: PlayerSlot)
    ensures s == Player1 <==> isHost
  {
    if isHost then Player1 else Player2
  }

  /** The slot a side listens to for its opponent's state. */
  function OpponentSlot(isHost: bool): (s: PlayerSlot)
    ensures s != OwnSlot(isHost)
  {
    if isHost then Player2 else Player1
  }

  /** Each side reads exactly the slot the other side writes. */
  lemma SlotsCross(isHost: bool)
    ensures OpponentSlot(isHost) == OwnSlot(!isHost)
    ensures OwnSlot(isHost) == OpponentSlot(!isHost)
  {
  }

  /** The database path of a slot. */
  function SlotPath(s: PlayerSlot): (p: string)
    ensures |p| == 17 && p[..10] == "gameState/"
  {
    "gameState/" + (if s == Player1 then "player1" else "player2")
  }

  /** The two slots never share a path, so the two sides never overwrite each other. */
  lemma SlotPathsDiffer()
    ensures SlotPath(Player1) != SlotPath(Player2)
  {
    assert SlotPath(Player1)[16] == '1';
    assert SlotPath(Player2)[16] == '2';
  }

  /**
   * Where a tick's state is written: nowhere unless the game is a
   * multiplayer one connected to a room, and then to the side's own slot.
   */
  function SyncSlot(isMultiplayer: bool, connected: bool, isHost: bool): (r: Option<PlayerSlot>)
    ensures r.Some? <==> isMultiplayer && connected
    ensures r.Some? ==> r.value == OwnSlot(isHost) && r.value != OpponentSlot(isHost)
  {
    if isMultiplayer && connected then Some(OwnSlot(isHost)) else None
  }

  // ---------------------------------------------------------------------
  // Room codes.

  /** The room-code alphabet: 26 capital letters and 10 digits. */
  const RoomCodeChars: string := "ABCDEFGHIJKLMNOPQRSTUVWXYZ0123456789"

  /** `String.prototype.charAt`: the one-character string at i, or "" when i is out of range. */
  function CharAt(s: string, i: int): (r: string)
    ensures 0 <= i < |s| ==> r == [s[i]]
    ensures !(0 <= i < |s|) ==> r == ""
  {
    if 0 <= i < |s| then [s[i]] else ""
  }

  /** `Math.floor(draw * chars.length)`. */
  function DrawIndex(draw: real): int {
    (draw * |RoomCodeChars| as real).Floor
  }

  /** A draw of `Math.random()`, in [0, 1), picks an index of the alphabet. */
  lemma DrawIndexInRange(draw: real)
    requires 0.0 <= draw < 1.0
    ensures 0 <= DrawIndex(draw) < |RoomCodeChars|
  {
  }

  /** The code the draws spell, one `charAt` per draw, in order. */
  function RoomCode(draws: seq<real>): string
    decreases |draws|
  {
    if draws == [] then ""
    else RoomCode(draws[..|draws| - 1]) + CharAt(RoomCodeChars, DrawIndex(draws[|draws| - 1]))
  }

  /** Whatever the draws, the code uses only the alphabet and has at most one character per draw. */
  lemma {:induction false} RoomCodeOverAlphabet(draws: seq<real>)
    ensures |RoomCode(draws)| <= |draws|
    ensures forall k :: 0 <= k < |RoomCode(draws)| ==> RoomCode(draws)[k] in RoomCodeChars
    decreases |draws|
  {
    if draws != [] {
      RoomCodeOverAlphabet(draws[..|draws| - 1]);
    }
  }

  /** With every draw in [0, 1) each draw spells exactly one character. */
  lemma {:induction false} RoomCodeLength(draws: seq<real>)
    requires forall k :: 0 <= k < |draws| ==> 0.0 <= draws[k] < 1.0
    ensures |RoomCode(draws)| == |draws|
    decreases |draws|
  {
    if draws != [] {
      var n := |draws| - 1;
      assert forall k :: 0 <= k < n ==> draws[..n][k] == draws[k];
      RoomCodeLength(draws[..n]);
      DrawIndexInRange(draws[n]);
    }
  }

  /** With every draw in [0, 1) the k-th character comes from the k-th draw. */
  lemma {:induction false} RoomCodeAt(draws: seq<real>, k: nat)
    requires forall m :: 0 <= m < |draws| ==> 0.0 <= draws[m] < 1.0
    requires k < |draws|
    ensures 0 <= DrawIndex(draws[k]) < |RoomCodeChars|
    ensures |RoomCode(draws)| == |draws| && RoomCode(draws)[k] == RoomCodeChars[DrawIndex(draws[k])]
    decreases |draws|
  {
    var n := |draws| - 1;
    var front := draws[..n];
    assert forall m :: 0 <= m < n ==> front[m] == draws[m];
    RoomCodeLength(draws);
    RoomCodeLength(front);
    DrawIndexInRange(draws[k]);
    DrawIndexInRange(draws[n]);
    if k < n {
      RoomCodeAt(front, k);
    }
  }

  /** With every draw in [0, 1) the code has one alphabet character per draw, the k-th from the k-th draw. */
  lemma RoomCodeOfDraws(draws: seq<real>)
    requires forall k :: 0 <= k < |draws| ==> 0.0 <= draws[k] < 1.0
    ensures |RoomCode(draws)| == |draws|
    ensures forall k :: 0 <= k < |draws| ==>
      0 <= DrawIndex(draws[k]) < |RoomCodeChars| && RoomCode(draws)[k] == RoomCodeChars[DrawIndex(draws[k])]
  {
    RoomCodeLength(draws);
    forall k | 0 <= k < |draws|
      ensures 0 <= DrawIndex(draws[k]) < |RoomCodeChars| && RoomCode(draws)[k] == RoomCodeChars[DrawIndex(draws[k])]
    {
      RoomCodeAt(draws, k);
    }
  }

  /** `generateRoomCode`, with the six draws of `Math.random()` given. */
  method GenerateRoomCode(draws: seq<real>) returns (code: string)
    requires |draws| == 6
    ensures code == RoomCode(draws)
    ensures |code| <= 6 && forall k :: 0 <= k < |code| ==> code[k] in RoomCodeChars
    ensures (forall k :: 0 <= k < 6 ==> 0.0 <= draws[k] < 1.0) ==>
      |code| == 6 && forall k :: 0 <= k < 6 ==> code[k] == RoomCodeChars[DrawIndex(draws[k])]
  {
    code := "";
    var i := 0;
    while i < 6
      invariant 0 <= i <= 6
      invariant code == RoomCode(draws[..i])
    {
      assert draws[..i + 1][..i] == draws[..i];
      code := code + CharAt(RoomCodeChars, DrawIndex(draws[i]));
      i := i + 1;
    }
    assert draws[..6] == draws;
    RoomCodeOverAlphabet(draws);
    if forall k :: 0 <= k < 6 ==> 0.0 <= draws[k] < 1.0 {
      RoomCodeOfDraws(draws);
    }
  }
}
