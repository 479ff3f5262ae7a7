// An online game is played by the rules: every command the server has ever applied was allowed,
// and did what the rulebook says.

module OnlinePlay {
  import opened Board
  import opened GameModel
  import opened SeededRandom
  import opened Engine
  import opened Invariants
  import opened Safety
  import opened Reachability
  import opened Progress
  import opened Rulebook
  import opened Stages
  import opened EngineRules
  import opened OnlineGame
  import S = Sessions
  import R = SessionRuns

  lemma StaysReachable(s: GameState, env: Envelope)
    requires hide *; Reachable(s) && Execute(s, env).Accepted?
    ensures Reachable(Execute(s, env).state)
  {
    hide Execute, NewGame, ValidStart;
    var board, order, deck, random, envs :| ReachedFrom(s, board, order, deck, random, envs);
    assert (envs + [env])[..|envs + [env]| - 1] == envs;
    assert ReachedFrom(Execute(s, env).state, board, order, deck, random, envs + [env]);
  }

  lemma NewIsReachable(board: BoardState, order: seq<PlayerId>, deck: seq<CardDefinition>, random: RandomState)
    requires hide *; |order| == 4 && ValidStart(board, order, deck, random)
    ensures Reachable(NewGame(board, order, deck, random))
  {
    hide NewGame, EmptyBoard, StandardDeck, ValidRandomState;
    assert ReachedFrom(NewGame(board, order, deck, random), board, order, deck, random, []);
  }

  // What the session authority gets from the rules it is given.
  lemma ExecutedByTheRules(s: GameState, env: Envelope)
    requires Reachable(s)
    ensures var result := CoreRules().execute(s, env);
            && !result.Threw?
            && (result.Accepted? <==> env.expectedStateVersion == s.stateVersion && Allowed(s, env.actor, env.command))
            && (result.Accepted? ==> Follows(s, env.actor, env.command, result.state) && Leads(s, env.actor, env.command, result.state)
                                     && Reachable(result.state))
  {
    hide Reachable, Execute, Allowed, Follows, Leads, Inv;
    EngineFollowsTheRules(s, env);
    ReachableInv(s);
    StepIsSafe(s, env);
    if Execute(s, env).Accepted? {
      StaysReachable(s, env);
    }
  }

  // The game is over for the authority exactly if nobody can do anything any more.
  lemma FinishedIsFinal(s: GameState)
    requires Reachable(s)
    ensures CoreRules().finished(s) <==> forall env :: !CoreRules().execute(s, env).Accepted?
  {
    hide Reachable, Execute;
    if s.winner.Some? {
      forall env ensures !CoreRules().execute(s, env).Accepted? {
        FinishedGameIsFinal(s, env);
      }
    } else {
      var env := NoStateIsStuck(s);
      assert CoreRules().execute(s, env).Accepted?;
    }
  }

  // A history that has raised the version by one for each of its commands has had none rejected.
  lemma {:induction false} AllAccepted(start: GameState, history: seq<S.Applied>)
    requires hide *; Reachable(start)
    ensures Reachable(R.Replay(CoreRules(), start, history))
    ensures R.Replay(CoreRules(), start, history).stateVersion <= start.stateVersion + |history|
    ensures R.Replay(CoreRules(), start, history).stateVersion == start.stateVersion + |history| && history != [] ==>
              var before := R.Replay(CoreRules(), start, history[..|history| - 1]);
              && before.stateVersion == start.stateVersion + |history| - 1
              && CoreRules().execute(before, history[|history| - 1].env).Accepted?
    decreases |history|
  {
    hide Reachable, Execute, Inv;
    if history != [] {
      var rest, env := history[..|history| - 1], history[|history| - 1].env;
      AllAccepted(start, rest);
      var before := R.Replay(CoreRules(), start, rest);
      if Execute(before, env).Accepted? {
        StaysReachable(before, env);
        ReachableInv(before);
        StepIsSafe(before, env);
      }
    }
  }

  lemma {:induction false} PrefixAccepted(start: GameState, history: seq<S.Applied>, i: nat)
    requires hide *; Reachable(start) && i < |history|
    requires R.Replay(CoreRules(), start, history).stateVersion == start.stateVersion + |history|
    ensures Reachable(R.Replay(CoreRules(), start, history[..i]))
    ensures CoreRules().execute(R.Replay(CoreRules(), start, history[..i]), history[i].env).Accepted?
    ensures R.Replay(CoreRules(), start, history[..i + 1])
         == CoreRules().execute(R.Replay(CoreRules(), start, history[..i]), history[i].env).state
    decreases |history|
  {
    hide Reachable, CoreRules;
    var n := |history| - 1;
    AllAccepted(start, history);
    AllAccepted(start, history[..n]);
    if i < n {
      PrefixAccepted(start, history[..n], i);
      assert history[..n][..i] == history[..i] && history[..n][..i + 1] == history[..i + 1];
    } else {
      assert history[..i + 1] == history;
    }
  }

  lemma FourPlay(board: BoardState, order: seq<PlayerId>, deck: seq<CardDefinition>, random: RandomState)
    requires ValidStart(board, order, deck, random)
    ensures |order| == 4
  {
    hide EmptyBoard, StandardDeck, ValidRandomState;
  }

  // In an online game that starts new, whatever requests, AI moves, commits, crashes and
  // recoveries follow: each command of the durable history was allowed to the player in whose
  // name it was executed, did what the rulebook says, and led where it says.
  lemma PlayedByTheRules(
    roomCode: string, gameId: string, cacheLimit: nat, advanceLimit: nat, maxAiCommands: nat, g: S.Game<GameState>,
    board: BoardState, order: seq<PlayerId>, deck: seq<CardDefinition>, random: RandomState, actions: seq<R.Action>, i: nat)
    requires ValidStart(board, order, deck, random) && g.state == NewGame(board, order, deck, random)
    requires g.cache == map[] && cacheLimit >= 1
    requires var w := R.Run(S.Config(roomCode, gameId, cacheLimit, advanceLimit, maxAiCommands, CoreRules()), R.Opened(g), actions);
             i < |w.durableTrail.applied|
    ensures var w := R.Run(S.Config(roomCode, gameId, cacheLimit, advanceLimit, maxAiCommands, CoreRules()), R.Opened(g), actions);
            var history := w.durableTrail.applied;
            var before, after := R.Replay(CoreRules(), g.state, history[..i]), R.Replay(CoreRules(), g.state, history[..i + 1]);
            var env := history[i].env;
            && Reachable(before) && env.expectedStateVersion == before.stateVersion && Allowed(before, env.actor, env.command)
            && Follows(before, env.actor, env.command, after) && Leads(before, env.actor, env.command, after)
            && w.durable.state == R.Replay(CoreRules(), g.state, history)
  {
    hide *;
    FourPlay(board, order, deck, random);
    var c := S.Config(roomCode, gameId, cacheLimit, advanceLimit, maxAiCommands, CoreRules());
    NewIsReachable(board, order, deck, random);
    HistoryIsWhole(c, g, board, order, deck, random, actions);
    var history := R.Run(c, R.Opened(g), actions).durableTrail.applied;
    PrefixAccepted(g.state, history, i);
    ExecutedByTheRules(R.Replay(CoreRules(), g.state, history[..i]), history[i].env);
  }

  lemma HistoryIsWhole(c: S.Config<GameState>, g: S.Game<GameState>, board: BoardState, order: seq<PlayerId>, deck: seq<CardDefinition>,
                       random: RandomState, actions: seq<R.Action>)
    requires hide *; c.rules == CoreRules() && c.cacheLimit >= 1 && g.cache == map[] && |order| == 4
    requires ValidStart(board, order, deck, random) && g.state == NewGame(board, order, deck, random)
    ensures var w := R.Run(c, R.Opened(g), actions);
            && w.durable.state == R.Replay(CoreRules(), g.state, w.durableTrail.applied)
            && w.durable.state.stateVersion == g.state.stateVersion + |w.durableTrail.applied|
  {
    hide Inv, ValidStart, NewGame, R.Run, R.Replay;
    NewGameInv(board, order, deck, random);
    CoreIsLawful();
    R.AtMostOnce(c, GoodState(), g, actions);
  }
}
