// The player the session asks for a decision is the one the rules let act.

module Decisions {
  import opened Board
  import opened Bags
  import opened GameModel
  import opened SeededRandom
  import opened Assertions
  import opened Engine
  import opened Invariants
  import opened Frames
  import opened TurnSafety
  import opened Reachability
  import opened Rulebook
  import opened EngineRules
  import opened OnlineGame

  // Nobody but the one who has to decide can act; only discards may come in any order, and of those
  // the first in player order who still owes one is asked.
  lemma OnlyTheDeciderActs(s: GameState, env: Envelope)
    requires Reachable(s) && Execute(s, env).Accepted?
    ensures NextDecisionActor(s) == Some(env.actor) || (env.command.Discard? && OwesCards(s, env.actor))
    ensures env.command.Discard? ==>
              exists i :: 0 <= i < |s.playerOrder| && NextDecisionActor(s) == Some(s.playerOrder[i]) && OwesCards(s, s.playerOrder[i])
                          && forall j :: 0 <= j < i ==> !OwesCards(s, s.playerOrder[j])
  {
    hide Reachable, Inv, Execute, Follows, ValidRandomState, Allowed, Coherent;
    ReachableInv(s);
    EngineFollowsTheRules(s, env);
    NotOver(s, env);
    PendingFits(s);
    AllowedDecides(s, env);
    if env.command.Discard? {
      assert env.actor in s.playerOrder;
      FirstOwingIs(s.playerOrder, s.pending.value.required, s.pending.value.completed, env.actor);
    }
  }

  lemma NotOver(s: GameState, env: Envelope)
    requires Reachable(s) && Allowed(s, env.actor, env.command)
    ensures s.winner.None? && env.actor in s.playerOrder
  {
    hide Reachable, Inv, IsPlayable;
    ReachableInv(s);
    InvAsserts(s);
    PlayersAre(s);
  }

  lemma AllowedDecides(s: GameState, env: Envelope)
    requires hide *; Coherent(s) && Allowed(s, env.actor, env.command)
    ensures NextDecisionActor(s) == Some(env.actor) || (env.command.Discard? && OwesCards(s, env.actor))
    ensures env.command.Discard? ==> OwesCards(s, env.actor)
  {
    hide FirstOwing, IsPlayable, IsOpenSite, IsOpenEdge, IsHalf, Holds, HasRoadTo, IsOwnOffer, IsFairOffer, IsCounterTo, Rate;
  }

  lemma {:induction false} FirstOwingIs(order: seq<PlayerId>, required: map<PlayerId, int>, completed: seq<PlayerId>, p: PlayerId)
    requires p in order && p in required && p !in completed
    ensures exists i :: 0 <= i < |order| && FirstOwing(order, required, completed) == Some(order[i])
                        && order[i] in required && order[i] !in completed
                        && forall j :: 0 <= j < i ==> order[j] !in required || order[j] in completed
  {
    if order[0] in required && order[0] !in completed {
      assert FirstOwing(order, required, completed) == Some(order[0]);
    } else {
      FirstOwingIs(order[1..], required, completed, p);
      var i :| 0 <= i < |order[1..]| && FirstOwing(order[1..], required, completed) == Some(order[1..][i])
               && order[1..][i] in required && order[1..][i] !in completed
               && forall j :: 0 <= j < i ==> order[1..][j] !in required || order[1..][j] in completed;
      assert order[i + 1] == order[1..][i];
      forall j | 0 <= j < i + 1 ensures order[j] !in required || order[j] in completed {
        if j > 0 {
          assert order[j] == order[1..][j - 1];
        }
      }
    }
  }
}
