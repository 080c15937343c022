/**
 * The main page's vote handling: one vote adds one to one counter of an entry or of one of its
 * community definitions, and never touches AI-generated entries.
 */
module Votes {
  import opened Results
  import opened SlangTypes

  /** The direction of a vote. */
  datatype VoteType = Upvote | Downvote

  /** What a vote is about: the entry itself or one of its community definitions. */
  datatype VoteTarget = TermTarget | DefinitionTarget

  /** JavaScript truthiness of an optional string: present and non-empty. */
  predicate Truthy(s: Option<string>) {
    s.Some? && s.value != ""
  }

  /** The entry with the counter named by `vote` one higher. */
  function CountEntryVote(e: SlangEntry, vote: VoteType): (r: SlangEntry)
    ensures r.upvotes + r.downvotes == e.upvotes + e.downvotes + 1
    ensures r.upvotes >= e.upvotes && r.downvotes >= e.downvotes
    ensures (r.upvotes > e.upvotes) <==> vote == Upvote
    ensures r == e.(upvotes := r.upvotes, downvotes := r.downvotes)
  {
    match vote
    case Upvote => e.(upvotes := e.upvotes + 1)
    case Downvote => e.(downvotes := e.downvotes + 1)
  }

  /** The definition with the counter named by `vote` one higher. */
  function CountDefinitionVote(d: DefinitionDetail, vote: VoteType): (r: DefinitionDetail)
    ensures r.upvotes + r.downvotes == d.upvotes + d.downvotes + 1
    ensures r.upvotes >= d.upvotes && r.downvotes >= d.downvotes
    ensures (r.upvotes > d.upvotes) <==> vote == Upvote
    ensures r == d.(upvotes := r.upvotes, downvotes := r.downvotes)
  {
    match vote
    case Upvote => d.(upvotes := d.upvotes + 1)
    case Downvote => d.(downvotes := d.downvotes + 1)
  }

  /** Some definition in the list has the identifier. */
  predicate HasDefinition(defs: seq<DefinitionDetail>, definitionId: string) {
    exists j :: 0 <= j < |defs| && defs[j].id == definitionId
  }

  /** The definitions after a vote: those with the identifier are counted, the rest are kept. */
  function VoteDefinitions(defs: seq<DefinitionDetail>, definitionId: string, vote: VoteType): (r: seq<DefinitionDetail>)
    ensures |r| == |defs|
    ensures forall j :: 0 <= j < |r| && defs[j].id != definitionId ==> r[j] == defs[j]
    ensures !HasDefinition(defs, definitionId) ==> r == defs
  {
    seq(|defs|, j requires 0 <= j < |defs| =>
      if defs[j].id == definitionId then CountDefinitionVote(defs[j], vote) else defs[j])
  }

  /** The per-entry step of the vote: the new entry and whether a counter was changed.
      Entries with another identifier are returned as they are. */
  function VoteEntry(e: SlangEntry, id: string, vote: VoteType, target: VoteTarget, definitionId: Option<string>): (SlangEntry, bool)
  {
    if e.id != id then (e, false)
    else if e.isAIGenerated && target == TermTarget then (e, false)
    else if target == TermTarget then (CountEntryVote(e, vote), true)
    else if Truthy(definitionId) && e.communityDefinitions.Some? then
      if e.isAIGenerated then (e, false)
      else
        var defs := e.communityDefinitions.value;
        (e.(communityDefinitions := Some(VoteDefinitions(defs, definitionId.value, vote))),
         HasDefinition(defs, definitionId.value))
    else (e, false)
  }

  /** The store after a vote. */
  function VotedStore(store: seq<SlangEntry>, id: string, vote: VoteType, target: VoteTarget, definitionId: Option<string>): (r: seq<SlangEntry>)
    ensures |r| == |store|
  {
    seq(|store|, i requires 0 <= i < |store| => VoteEntry(store[i], id, vote, target, definitionId).0)
  }

  /** Whether the vote changed a counter anywhere in the store. */
  predicate VoteApplied(store: seq<SlangEntry>, id: string, vote: VoteType, target: VoteTarget, definitionId: Option<string>) {
    exists i :: 0 <= i < |store| && VoteEntry(store[i], id, vote, target, definitionId).1
  }

  /** `handleVote`'s update of the store: every entry is passed through the per-entry step while a
      flag records whether any counter changed. */
  method ApplyVote(store: seq<SlangEntry>, id: string, vote: VoteType, target: VoteTarget, definitionId: Option<string>)
    returns (newStore: seq<SlangEntry>, updated: bool)
    ensures newStore == VotedStore(store, id, vote, target, definitionId)
    ensures updated == VoteApplied(store, id, vote, target, definitionId)
  {
    newStore := [];
    updated := false;
    var i := 0;
    while i < |store|
      invariant 0 <= i <= |store|
      invariant |newStore| == i
      invariant forall k :: 0 <= k < i ==> newStore[k] == VoteEntry(store[k], id, vote, target, definitionId).0
      invariant updated <==> exists k :: 0 <= k < i && VoteEntry(store[k], id, vote, target, definitionId).1
    {
      var (item, changed) := VoteEntry(store[i], id, vote, target, definitionId);
      newStore := newStore + [item];
      updated := updated || changed;
      i := i + 1;
    }
  }

  /** A term vote on a non-AI entry adds one to exactly the counter the vote names and changes no
      other field; the vote is applied. */
  lemma TermVoteCountsOnce(store: seq<SlangEntry>, i: nat, vote: VoteType)
    requires i < |store| && !store[i].isAIGenerated
    ensures var r := VotedStore(store, store[i].id, vote, TermTarget, None);
      && r[i] == store[i].(upvotes := r[i].upvotes, downvotes := r[i].downvotes)
      && (vote == Upvote ==> r[i].upvotes == store[i].upvotes + 1 && r[i].downvotes == store[i].downvotes)
      && (vote == Downvote ==> r[i].downvotes == store[i].downvotes + 1 && r[i].upvotes == store[i].upvotes)
    ensures VoteApplied(store, store[i].id, vote, TermTarget, None)
  {
    assert VoteEntry(store[i], store[i].id, vote, TermTarget, None).1;
  }

  /** A vote never changes an entry with another identifier. */
  lemma OtherEntriesUnchanged(store: seq<SlangEntry>, id: string, vote: VoteType, target: VoteTarget, definitionId: Option<string>, k: nat)
    requires k < |store| && store[k].id != id
    ensures VotedStore(store, id, vote, target, definitionId)[k] == store[k]
  {
  }

  /** Votes of any kind on an AI-generated entry are refused: when every entry with the identifier is
      AI-generated, the store is unchanged and the vote is not applied. */
  lemma AIEntriesRefuseVotes(store: seq<SlangEntry>, id: string, vote: VoteType, target: VoteTarget, definitionId: Option<string>)
    requires forall k :: 0 <= k < |store| && store[k].id == id ==> store[k].isAIGenerated
    ensures VotedStore(store, id, vote, target, definitionId) == store
    ensures !VoteApplied(store, id, vote, target, definitionId)
  {
    assert forall k :: 0 <= k < |store| ==> VoteEntry(store[k], id, vote, target, definitionId) == (store[k], false);
  }

  /** A definition vote without a usable definition identifier, on an entry without community
      definitions, or naming no definition of the entry leaves the store as it was and is not applied. */
  lemma DefinitionVoteWithoutTarget(store: seq<SlangEntry>, id: string, vote: VoteType, definitionId: Option<string>)
    requires forall k :: 0 <= k < |store| && store[k].id == id ==>
      || !Truthy(definitionId)
      || store[k].communityDefinitions.None?
      || !HasDefinition(store[k].communityDefinitions.value, definitionId.value)
    ensures VotedStore(store, id, vote, DefinitionTarget, definitionId) == store
    ensures !VoteApplied(store, id, vote, DefinitionTarget, definitionId)
  {
    assert forall k :: 0 <= k < |store| ==> VoteEntry(store[k], id, vote, DefinitionTarget, definitionId) == (store[k], false);
  }

  /** A definition vote on a non-AI entry counts once for each definition with the identifier, and
      changes nothing else of the entry. */
  lemma DefinitionVoteCountsMatch(store: seq<SlangEntry>, i: nat, vote: VoteType, definitionId: string, j: nat)
    requires i < |store| && !store[i].isAIGenerated && definitionId != ""
    requires store[i].communityDefinitions.Some? && j < |store[i].communityDefinitions.value|
    ensures var r := VotedStore(store, store[i].id, vote, DefinitionTarget, Some(definitionId));
      var before := store[i].communityDefinitions.value[j];
      && r[i] == store[i].(communityDefinitions := r[i].communityDefinitions)
      && r[i].communityDefinitions.Some?
      && |r[i].communityDefinitions.value| == |store[i].communityDefinitions.value|
      && r[i].communityDefinitions.value[j] ==
           (if before.id == definitionId then CountDefinitionVote(before, vote) else before)
    ensures VoteApplied(store, store[i].id, vote, DefinitionTarget, Some(definitionId)) ==
      exists k :: 0 <= k < |store| && store[k].id == store[i].id && !store[k].isAIGenerated &&
        store[k].communityDefinitions.Some? && HasDefinition(store[k].communityDefinitions.value, definitionId)
  {
  }

  /** A vote leaves the store exactly as it was if and only if it is not applied. */
  lemma UnchangedIffNotApplied(store: seq<SlangEntry>, id: string, vote: VoteType, target: VoteTarget, definitionId: Option<string>)
    ensures VotedStore(store, id, vote, target, definitionId) == store <==> !VoteApplied(store, id, vote, target, definitionId)
  {
    var r := VotedStore(store, id, vote, target, definitionId);
    if VoteApplied(store, id, vote, target, definitionId) {
      var i :| 0 <= i < |store| && VoteEntry(store[i], id, vote, target, definitionId).1;
      if target == TermTarget {
        assert r[i].upvotes + r[i].downvotes == store[i].upvotes + store[i].downvotes + 1;
      } else {
        var defs := store[i].communityDefinitions.value;
        var j :| 0 <= j < |defs| && defs[j].id == definitionId.value;
        var newDefs := r[i].communityDefinitions.value;
        assert newDefs[j].upvotes + newDefs[j].downvotes == defs[j].upvotes + defs[j].downvotes + 1;
        assert r[i] != store[i];
      }
    } else {
      forall k | 0 <= k < |store| ensures r[k] == store[k] {
        assert !VoteEntry(store[k], id, vote, target, definitionId).1;
      }
    }
  }

  /** The entry whose community definitions hold the identifier, first in store order: the parent
      a definition vote is sent to. */
  function ParentIndex(store: seq<SlangEntry>, definitionId: string): (r: Option<nat>)
    ensures r.Some? ==>
      && r.value < |store| && store[r.value].communityDefinitions.Some?
      && HasDefinition(store[r.value].communityDefinitions.value, definitionId)
    ensures r.Some? ==> forall k :: 0 <= k < r.value ==>
      !(store[k].communityDefinitions.Some? && HasDefinition(store[k].communityDefinitions.value, definitionId))
    ensures r.None? ==> forall k :: 0 <= k < |store| ==>
      !(store[k].communityDefinitions.Some? && HasDefinition(store[k].communityDefinitions.value, definitionId))
  {
    if store == [] then None
    else if store[0].communityDefinitions.Some? && HasDefinition(store[0].communityDefinitions.value, definitionId) then Some(0)
    else
      match ParentIndex(store[1..], definitionId)
      case None => None
      case Some(k) => Some(k + 1)
  }

  /** A definition vote routed through its parent is applied whenever the identifier is non-empty and
      the parent is not AI-generated. */
  lemma ParentVoteApplies(store: seq<SlangEntry>, definitionId: string, vote: VoteType)
    requires ParentIndex(store, definitionId).Some? && definitionId != ""
    requires !store[ParentIndex(store, definitionId).value].isAIGenerated
    ensures VoteApplied(store, store[ParentIndex(store, definitionId).value].id, vote, DefinitionTarget, Some(definitionId))
  {
    var k := ParentIndex(store, definitionId).value;
    assert VoteEntry(store[k], store[k].id, vote, DefinitionTarget, Some(definitionId)).1;
  }

  /** Votes never decrease a counter. */
  lemma VotesNeverDecrease(store: seq<SlangEntry>, id: string, vote: VoteType, target: VoteTarget, definitionId: Option<string>, k: nat)
    requires k < |store|
    ensures var r := VotedStore(store, id, vote, target, definitionId);
      r[k].upvotes >= store[k].upvotes && r[k].downvotes >= store[k].downvotes
  {
  }

  /** The store after `n` votes of the same kind on the same entry. */
  function RepeatTermVote(store: seq<SlangEntry>, id: string, vote: VoteType, n: nat): (r: seq<SlangEntry>)
    ensures |r| == |store|
  {
    if n == 0 then store else VotedStore(RepeatTermVote(store, id, vote, n - 1), id, vote, TermTarget, None)
  }

  /** After `n` upvotes on a non-AI entry its upvote count is `n` higher and its downvotes are as before. */
  lemma {:induction false} RepeatedUpvotes(store: seq<SlangEntry>, i: nat, n: nat)
    requires i < |store| && !store[i].isAIGenerated
    ensures var r := RepeatTermVote(store, store[i].id, Upvote, n);
      && r[i].upvotes == store[i].upvotes + n
      && r[i].downvotes == store[i].downvotes
      && r[i].id == store[i].id && !r[i].isAIGenerated
  {
    if n > 0 {
      RepeatedUpvotes(store, i, n - 1);
      var prev := RepeatTermVote(store, store[i].id, Upvote, n - 1);
      TermVoteCountsOnce(prev, i, Upvote);
    }
  }
}
