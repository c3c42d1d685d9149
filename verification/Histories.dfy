/** Steps of a shared state as one request sees them, and as the whole gateway does. */
module Histories {

  /** A move of the request itself, or of another at one of its awaits. */
  datatype Event<+M> = Mine(move: M) | Theirs(move: M)

  /** A move of the whole gateway: request `id` made it. */
  datatype Tagged<+M> = By(id: nat, move: M)

  function Own<M>(moves: seq<M>): (log: seq<Event<M>>)
    ensures |log| == |moves|
    ensures forall i | 0 <= i < |moves| :: log[i] == Mine(moves[i])
  {
    seq(|moves|, i requires 0 <= i < |moves| => Mine(moves[i]))
  }

  function Others<M>(moves: seq<M>): (log: seq<Event<M>>)
    ensures |log| == |moves|
    ensures forall i | 0 <= i < |moves| :: log[i] == Theirs(moves[i])
  {
    seq(|moves|, i requires 0 <= i < |moves| => Theirs(moves[i]))
  }

  function Moves<M>(log: seq<Event<M>>): (moves: seq<M>)
    ensures |moves| == |log|
    ensures forall i | 0 <= i < |log| :: moves[i] == log[i].move
  {
    seq(|log|, i requires 0 <= i < |log| => log[i].move)
  }

  function AllMoves<M>(h: seq<Tagged<M>>): (moves: seq<M>)
    ensures |moves| == |h|
    ensures forall i | 0 <= i < |h| :: moves[i] == h[i].move
  {
    seq(|h|, i requires 0 <= i < |h| => h[i].move)
  }
}
