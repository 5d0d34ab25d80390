/** The bubble-pop mini-game: a 30-second round in which bubbles appear once
    a second and each pop scores one point. */
module BubblePop {
  import Seqs

  const RoundSeconds: nat := 30

  /** A bubble with its id and its position in percent of the play area. */
  datatype Bubble = Bubble(id: int, x: real, y: real)

  /** The bubbles left after popping the one(s) with this id. */
  function WithoutId(bubbles: seq<Bubble>, id: int): (r: seq<Bubble>)
    ensures |r| <= |bubbles|
    ensures forall b :: b in r <==> b in bubbles && b.id != id
    ensures forall b :: multiset(r)[b] == if b.id != id then multiset(bubbles)[b] else 0
  {
    Seqs.Filter(bubbles, (b: Bubble) => b.id != id)
  }

  /** Popping an id no bubble has leaves the list exactly as it was. */
  lemma PopAbsentIdKeepsAll(bubbles: seq<Bubble>, id: int)
    requires forall i :: 0 <= i < |bubbles| ==> bubbles[i].id != id
    ensures WithoutId(bubbles, id) == bubbles
  {
    Seqs.FilterKeepsAll(bubbles, (b: Bubble) => b.id != id);
  }

  class BubblePopGame {
    var bubbles: seq<Bubble>
    var score: nat
    var isPlaying: bool
    var timeLeft: int

    ghost predicate Valid()
      reads this
    {
      0 <= timeLeft <= RoundSeconds
    }

    constructor ()
      ensures Valid() && bubbles == [] && score == 0 && !isPlaying && timeLeft == RoundSeconds
    {
      bubbles, score, isPlaying, timeLeft := [], 0, false, RoundSeconds;
    }

    method StartGame()
      requires Valid()
      modifies this
      ensures Valid() && score == 0 && timeLeft == RoundSeconds && bubbles == [] && isPlaying
    {
      score := 0;
      timeLeft := RoundSeconds;
      bubbles := [];
      isPlaying := true;
    }

    method PopBubble(id: int)
      requires Valid()
      modifies this
      ensures Valid()
      ensures bubbles == WithoutId(old(bubbles), id)
      ensures score == old(score) + 1
      ensures isPlaying == old(isPlaying) && timeLeft == old(timeLeft)
    {
      bubbles := Seqs.Filter(bubbles, (b: Bubble) => b.id != id);
      score := score + 1;
    }

    /** The countdown interval: one second off while a round runs. */
    method Tick()
      requires Valid()
      modifies this
      ensures Valid()
      ensures timeLeft == if old(isPlaying && timeLeft > 0) then old(timeLeft) - 1 else old(timeLeft)
      ensures bubbles == old(bubbles) && score == old(score) && isPlaying == old(isPlaying)
    {
      if isPlaying && timeLeft > 0 {
        timeLeft := timeLeft - 1;
      }
    }

    /** The bubble generator interval: while a round runs one bubble is added at
        the end; its id and position stand for the clock and random values. */
    method SpawnBubble(id: int, x: real, y: real)
      requires Valid()
      modifies this
      ensures Valid()
      ensures bubbles == if old(isPlaying && timeLeft > 0) then old(bubbles) + [Bubble(id, x, y)] else old(bubbles)
      ensures score == old(score) && isPlaying == old(isPlaying) && timeLeft == old(timeLeft)
    {
      if isPlaying && timeLeft > 0 {
        bubbles := bubbles + [Bubble(id, x, y)];
      }
    }

    /** The round-over branch of the effect: at zero the round stops and the
        remaining bubbles disappear; the score is kept. */
    method EndIfTimeUp()
      requires Valid()
      modifies this
      ensures Valid()
      ensures old(timeLeft) == 0 ==> !isPlaying && bubbles == []
      ensures old(timeLeft) != 0 ==> isPlaying == old(isPlaying) && bubbles == old(bubbles)
      ensures score == old(score) && timeLeft == old(timeLeft)
    {
      if isPlaying && timeLeft > 0 {
        // both intervals are scheduled
      } else if timeLeft == 0 {
        isPlaying := false;
        bubbles := [];
      }
    }
  }
}
