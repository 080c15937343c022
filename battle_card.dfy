/** The slang battle card: two terms side by side, and one vote for either of them. */
module BattleCard {
  import opened Results
  import Votes

  /** The card's state: the term voted for, if any, and whether a vote is in flight. */
  datatype BattleState = BattleState(selectedTermId: Option<string>, isVoting: bool)

  /** The state a card starts in. */
  const Initial := BattleState(None, false)

  /** A vote is refused while a term is selected (a non-empty id, as JavaScript tests it) or a
      vote is in flight. */
  predicate Blocked(s: BattleState) {
    Votes.Truthy(s.selectedTermId) || s.isVoting
  }

  /** Both term buttons are disabled while a vote is in flight or a term is selected. */
  predicate Disabled(s: BattleState) {
    s.isVoting || Votes.Truthy(s.selectedTermId)
  }

  /** The state while the vote for `termId` is awaited. */
  function Started(s: BattleState, termId: string): (r: BattleState)
    ensures r.isVoting && r.selectedTermId == Some(termId)
  {
    BattleState(Some(termId), true)
  }

  /** The state once the awaited vote settles: a rejected vote drops the selection, and either
      way the vote is no longer in flight. */
  function Settled(s: BattleState, succeeded: bool): (r: BattleState)
    ensures !r.isVoting
    ensures r.selectedTermId == if succeeded then s.selectedTermId else None
  {
    BattleState(if succeeded then s.selectedTermId else None, false)
  }

  /** The whole `handleVote` for `termId`, with `succeeded` saying whether the vote call
      resolved. */
  function Vote(s: BattleState, termId: string, succeeded: bool): (r: BattleState)
    ensures Blocked(s) ==> r == s
    ensures !Blocked(s) ==> !r.isVoting
    ensures !Blocked(s) ==> r.selectedTermId == if succeeded then Some(termId) else None
  {
    if Blocked(s) then s else Settled(Started(s, termId), succeeded)
  }

  /** The buttons are disabled exactly when the handler would refuse a click. */
  lemma DisabledExactlyWhenBlocked(s: BattleState)
    ensures Disabled(s) <==> Blocked(s)
  {
  }

  /** While a vote is awaited, a second click is refused and the buttons are disabled. */
  lemma InFlightBlocksSecondVote(s: BattleState, termId: string)
    requires !Blocked(s)
    ensures Blocked(Started(s, termId)) && Disabled(Started(s, termId))
  {
  }

  /** A vote that went through for a term with a non-empty id is the card's only one: every later
      click, for either term and whatever its outcome would be, changes nothing. */
  lemma VoteIsOneShot(s: BattleState, termId: string, laterTermId: string, laterSucceeded: bool)
    requires !Blocked(s) && termId != ""
    ensures Vote(s, termId, true).selectedTermId == Some(termId)
    ensures Vote(Vote(s, termId, true), laterTermId, laterSucceeded) == Vote(s, termId, true)
  {
  }

  /** A rejected vote puts the card back in its initial state, so a new vote can be cast. */
  lemma FailedVoteAllowsRetry(s: BattleState, termId: string)
    requires !Blocked(s)
    ensures Vote(s, termId, false) == Initial
    ensures !Blocked(Vote(s, termId, false))
  {
  }

  /** The call the card makes to cast a vote: the battle and the chosen term. */
  datatype VoteRequest = VoteRequest(battleId: string, termId: string)

  /** The card component with its two state fields. */
  class Card {
    const battleId: string
    var selectedTermId: Option<string>
    var isVoting: bool

    /** The state fields as one value. */
    function State(): BattleState
      reads this
    {
      BattleState(selectedTermId, isVoting)
    }

    /** A fresh card for the battle `battleId`: nothing selected, nothing in flight. */
    constructor(battleId: string)
      ensures this.battleId == battleId
      ensures State() == Initial
    {
      this.battleId := battleId;
      selectedTermId := None;
      isVoting := false;
    }

    /** The part of `handleVote` before the `await`: a refused click changes nothing and sends
        nothing; otherwise the vote is marked in flight, the term selected, and the vote call
        issued for this battle. */
    method BeginVote(termId: string) returns (request: Option<VoteRequest>)
      modifies this
      ensures Blocked(old(State())) ==> State() == old(State()) && request == None
      ensures !Blocked(old(State())) ==>
        State() == Started(old(State()), termId) && request == Some(VoteRequest(battleId, termId))
    {
      if Votes.Truthy(selectedTermId) || isVoting {
        return None;
      }
      isVoting := true;
      selectedTermId := Some(termId);
      request := Some(VoteRequest(battleId, termId));
    }

    /** The part after the `await`: the `catch` drops the selection, the `finally` ends the
        vote. */
    method CompleteVote(succeeded: bool)
      modifies this
      ensures State() == Settled(old(State()), succeeded)
    {
      if !succeeded {
        selectedTermId := None;
      }
      isVoting := false;
    }

    /** `handleVote`, with the awaited vote call's outcome given as `succeeded`. */
    method HandleVote(termId: string, succeeded: bool) returns (request: Option<VoteRequest>)
      modifies this
      ensures State() == Vote(old(State()), termId, succeeded)
      ensures request.Some? <==> !Blocked(old(State()))
      ensures request.Some? ==> request.value == VoteRequest(battleId, termId)
    {
      request := BeginVote(termId);
      if request.Some? {
        CompleteVote(succeeded);
      }
    }
  }
}
