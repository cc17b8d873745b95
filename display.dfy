/**
 * The per-candidate display state. A card's class list holds at most one of
 * `highlight` (shown while a run is switching), `active` (the winner) and
 * `loser`; the abstract state names which one, Idle meaning none.
 * The four loops over the two cards work in place on the array of cards:
 * the reset, the highlight loop (once at the start and again at every
 * switch, both `ShowHighlight`) and the unhighlight loop of the finish.
 */
module Display {
  import opened Scheduler

  datatype CandidateState = Idle | Highlighted | Winner | Loser

  /** classList.remove('highlight') */
  function Unhighlight(s: CandidateState): (t: CandidateState)
    ensures t != Highlighted
    ensures s == Highlighted ==> t == Idle
    ensures s != Highlighted ==> t == s
  {
    if s == Highlighted then Idle else s
  }

  /** How many candidates are in state `st`. */
  function Count(cards: seq<CandidateState>, st: CandidateState): (n: nat)
    ensures n <= |cards|
  {
    if cards == [] then 0
    else (if cards[0] == st then 1 else 0) + Count(cards[1..], st)
  }

  /** While a run switches: the candidate k is highlighted, all others are idle. */
  ghost predicate Highlighting(cards: seq<CandidateState>, k: int) {
    forall i :: 0 <= i < |cards| ==> cards[i] == (if i == k then Highlighted else Idle)
  }

  /** After a Left/Right run: w is the winner, the other card the loser. */
  ghost predicate Committed(cards: seq<CandidateState>, w: int) {
    |cards| == 2 && 0 <= w < 2 && cards[w] == Winner && cards[Other(w)] == Loser
  }

  /** A highlighting display shows exactly one highlighted candidate, and no result. */
  lemma {:induction false} HighlightingShowsOne(cards: seq<CandidateState>, k: int)
    requires Highlighting(cards, k) && 0 <= k < |cards|
    ensures Count(cards, Highlighted) == 1
    ensures Count(cards, Winner) == 0 && Count(cards, Loser) == 0
  {
    if k == 0 {
      NoneInState(cards[1..], Highlighted);
      NoneInState(cards[1..], Winner);
      NoneInState(cards[1..], Loser);
    } else {
      assert Highlighting(cards[1..], k - 1) by {
        forall i | 0 <= i < |cards| - 1
          ensures cards[1..][i] == (if i == k - 1 then Highlighted else Idle)
        {
          assert cards[1..][i] == cards[i + 1];
        }
      }
      HighlightingShowsOne(cards[1..], k - 1);
    }
  }

  /** A sequence of idle candidates holds none in any other state. */
  lemma {:induction false} NoneInState(cards: seq<CandidateState>, st: CandidateState)
    requires st != Idle
    requires forall i :: 0 <= i < |cards| ==> cards[i] == Idle
    ensures Count(cards, st) == 0
  {
    if cards != [] {
      NoneInState(cards[1..], st);
    }
  }

  /**
   * At commit: exactly one winner, exactly one loser, and nothing is left
   * highlighted; winner and loser are different cards.
   */
  lemma CommittedShowsResult(cards: seq<CandidateState>, w: int)
    requires Committed(cards, w)
    ensures Count(cards, Winner) == 1 && Count(cards, Loser) == 1
    ensures Count(cards, Highlighted) == 0
    ensures w != Other(w)
  {
  }

  /** Reset at the start of a Left/Right run: active, highlight and loser removed from every card. */
  method ResetCards(cards: array<CandidateState>)
    modifies cards
    ensures forall i :: 0 <= i < cards.Length ==> cards[i] == Idle
  {
    for i := 0 to cards.Length
      invariant forall j :: 0 <= j < i ==> cards[j] == Idle
    {
      cards[i] := Idle;
    }
  }

  /** Highlight card k and remove the highlight from every other card. */
  method ShowHighlight(cards: array<CandidateState>, k: int)
    modifies cards
    ensures forall i :: 0 <= i < cards.Length ==>
      cards[i] == (if i == k then Highlighted else Unhighlight(old(cards[i])))
  {
    for i := 0 to cards.Length
      invariant forall j :: 0 <= j < i ==>
        cards[j] == (if j == k then Highlighted else Unhighlight(old(cards[j])))
      invariant forall j :: i <= j < cards.Length ==> cards[j] == old(cards[j])
    {
      cards[i] := if i == k then Highlighted else Unhighlight(cards[i]);
    }
  }

  /** The Left/Right finish: unhighlight every card, then mark winner and loser. */
  method MarkResult(cards: array<CandidateState>, w: int)
    requires cards.Length == 2 && 0 <= w < 2
    modifies cards
    ensures Committed(cards[..], w)
  {
    for i := 0 to cards.Length
      invariant forall j :: 0 <= j < i ==> cards[j] == Unhighlight(old(cards[j]))
      invariant forall j :: i <= j < cards.Length ==> cards[j] == old(cards[j])
    {
      cards[i] := Unhighlight(cards[i]);
    }
    cards[w] := Winner;
    cards[Other(w)] := Loser;
  }
}
