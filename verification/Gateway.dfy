// The client's view of an online game under lost, repeated and reordered updates.

module Gateway {
  import opened Board

  // A delivered update: the viewer's state version, the publication revision, and the rest.
  datatype Update<P> = Update(stateVersion: int, publicationRevision: int, payload: P)

  predicate AtMost<P>(u: Update<P>, v: Update<P>) {
    u.stateVersion <= v.stateVersion && u.publicationRevision <= v.publicationRevision
  }

  predicate SameStamp<P>(u: Update<P>, v: Update<P>) {
    u.stateVersion == v.stateVersion && u.publicationRevision == v.publicationRevision
  }

  // Stale and repeated updates are dropped.
  predicate IsStale<P>(previous: Update<P>, update: Update<P>) {
    || update.stateVersion < previous.stateVersion
    || update.publicationRevision < previous.publicationRevision
    || SameStamp(update, previous)
  }

  function View<P>(wire: Option<Update<P>>, update: Update<P>): Option<Update<P>> {
    if wire.Some? && IsStale(wire.value, update) then wire else Some(update)
  }

  // A hole in front of an update calls for a snapshot.
  predicate HasGap<P>(previous: Option<Update<P>>, update: Update<P>) {
    previous.Some? && (update.stateVersion > previous.value.stateVersion + 1
                       || update.publicationRevision > previous.value.publicationRevision + 1)
  }

  predicate IsBetween<P>(u: Update<P>, missed: Update<P>, v: Update<P>) {
    || u.stateVersion < missed.stateVersion < v.stateVersion
    || u.publicationRevision < missed.publicationRevision < v.publicationRevision
  }

  // There is a hole exactly if some update may have been missed.
  lemma GapIs<P(!new)>(previous: Update<P>, update: Update<P>)
    ensures HasGap(Some(previous), update) <==> exists missed :: IsBetween(previous, missed, update)
  {
    if HasGap(Some(previous), update) {
      var missed := previous.(stateVersion := previous.stateVersion + 1, publicationRevision := previous.publicationRevision + 1);
      assert IsBetween(previous, missed, update);
    }
  }

  class ClientView<P> {
    var wire: Option<Update<P>>

    constructor ()
      ensures wire.None?
    {
      wire := None;
    }

    // Returns whether the update was taken, and whether a fresh snapshot must be requested.
    method Accept(update: Update<P>, fromEvent: bool) returns (taken: bool, snapshotNeeded: bool)
      modifies this
      ensures wire == View(old(wire), update)
      ensures taken <==> old(wire).None? || (AtMost(old(wire).value, update) && !SameStamp(old(wire).value, update))
      ensures old(wire).Some? ==> wire.Some? && AtMost(old(wire).value, wire.value)
      ensures snapshotNeeded <==> taken && fromEvent && HasGap(old(wire), update)
    {
      taken, snapshotNeeded := false, false;
      var previous := wire;
      if previous.Some? {
        if || update.stateVersion < previous.value.stateVersion
           || update.publicationRevision < previous.value.publicationRevision
           || (update.stateVersion == previous.value.stateVersion && update.publicationRevision == previous.value.publicationRevision)
        {
          return;
        }
      }
      var gap := previous.Some? && (update.stateVersion > previous.value.stateVersion + 1
                                    || update.publicationRevision > previous.value.publicationRevision + 1);
      wire := Some(update);
      taken, snapshotNeeded := true, fromEvent && gap;
    }
  }

  // Deliveries in the order they arrive.
  function ViewAfter<P>(wire: Option<Update<P>>, arrivals: seq<Update<P>>): Option<Update<P>>
    decreases |arrivals|
  {
    if arrivals == [] then wire else ViewAfter(View(wire, arrivals[0]), arrivals[1..])
  }

  // What a client shows never falls back in either stamp, whatever arrives.
  lemma {:induction false} NeverFallsBack<P>(wire: Option<Update<P>>, arrivals: seq<Update<P>>)
    requires wire.Some?
    ensures ViewAfter(wire, arrivals).Some? && AtMost(wire.value, ViewAfter(wire, arrivals).value)
    decreases |arrivals|
  {
    if arrivals != [] {
      NeverFallsBack(View(wire, arrivals[0]), arrivals[1..]);
    }
  }

  // A server's updates form a chain: of any two, one is at most the other, and a stamp
  // stands for one update.
  ghost predicate IsChain<P(!new)>(sent: set<Update<P>>) {
    forall u, v :: u in sent && v in sent ==> (AtMost(u, v) || AtMost(v, u)) && (SameStamp(u, v) ==> u == v)
  }

  ghost predicate IsLatest<P(!new)>(wire: Option<Update<P>>, arrivals: seq<Update<P>>, view: Update<P>) {
    && (view in arrivals || wire == Some(view))
    && (forall i :: 0 <= i < |arrivals| ==> AtMost(arrivals[i], view))
    && (wire.Some? ==> AtMost(wire.value, view))
  }

  // After any arrivals, lost, repeated or reordered, the view is the latest update that arrived.
  lemma {:induction false} ShowsTheLatest<P(!new)>(sent: set<Update<P>>, wire: Option<Update<P>>, arrivals: seq<Update<P>>)
    requires IsChain(sent)
    requires wire.Some? ==> wire.value in sent
    requires forall i :: 0 <= i < |arrivals| ==> arrivals[i] in sent
    requires arrivals != [] || wire.Some?
    ensures ViewAfter(wire, arrivals).Some? && IsLatest(wire, arrivals, ViewAfter(wire, arrivals).value)
    decreases |arrivals|
  {
    if arrivals != [] {
      var first, rest := arrivals[0], arrivals[1..];
      var next := View(wire, first);
      ShowsTheLatest(sent, next, rest);
      var view := ViewAfter(next, rest).value;
      assert AtMost(first, next.value);
      forall i | 0 <= i < |arrivals| ensures AtMost(arrivals[i], view) {
        if i > 0 {
          assert arrivals[i] == rest[i - 1];
        }
      }
      if view in rest {
        assert view in arrivals;
      }
    }
  }

  // Hence the order and the repetitions do not matter: the same arrivals give the same view.
  lemma OrderDoesNotMatter<P(!new)>(sent: set<Update<P>>, arrivals: seq<Update<P>>, others: seq<Update<P>>)
    requires IsChain(sent) && arrivals != [] && others != []
    requires forall i :: 0 <= i < |arrivals| ==> arrivals[i] in sent
    requires forall u :: u in arrivals <==> u in others
    ensures ViewAfter(None, arrivals) == ViewAfter(None, others)
  {
    forall i | 0 <= i < |others| ensures others[i] in sent {
      assert others[i] in arrivals;
    }
    ShowsTheLatest(sent, None, arrivals);
    ShowsTheLatest(sent, None, others);
    var u, v := ViewAfter(None, arrivals).value, ViewAfter(None, others).value;
    assert u in arrivals && u in others && v in others && v in arrivals;
  }
}

// From the server's log to the client's view.
module Delivery {
  import opened Board
  import opened Sessions
  import opened SessionRuns
  import opened Gateway

  // The game, who is present, and the lifecycle that follows from both.
  datatype Content<S> = Content(state: S, presence: Presence, lifecycle: Lifecycle)

  function UpdateOf<S>(rules: Rules<S>, shown: Shown<S>): Update<Content<S>> {
    Update(rules.version(shown.state), shown.revision,
           Content(shown.state, shown.presence, LifecycleOf(rules, shown.state, shown.presence)))
  }

  ghost function Sent<S(!new)>(rules: Rules<S>, shown: seq<Shown<S>>): set<Update<Content<S>>> {
    set i | 0 <= i < |shown| :: UpdateOf(rules, shown[i])
  }

  // Whatever happens on the server, the updates that leave it form a chain: their two stamps
  // agree on the order, and updates with the same stamps have the same content, lifecycle and
  // presence included.
  lemma ServerUpdatesFormAChain<S(!new)>(c: Config<S>, good: S -> bool, g: Game<S>, actions: seq<Action>)
    requires Lawful(c.rules, good) && c.cacheLimit >= 1 && good(g.state) && g.cache == map[]
    ensures IsChain(Sent(c.rules, Run(c, Opened(g), actions).shown))
  {
    hide Lawful, Next, Run, Opened, Replay, GameInv, ProcessInv;
    OnlyCommittedStateIsShown(c, good, g, actions);
    var w := Run(c, Opened(g), actions);
    var sent := Sent(c.rules, w.shown);
    forall u, v | u in sent && v in sent ensures (AtMost(u, v) || AtMost(v, u)) && (SameStamp(u, v) ==> u == v) {
      var i :| 0 <= i < |w.shown| && u == UpdateOf(c.rules, w.shown[i]);
      var j :| 0 <= j < |w.shown| && v == UpdateOf(c.rules, w.shown[j]);
      assert ShownInv(c.rules, g.state, w.durable, w.durableTrail.applied, w.shown[i]);
      assert ShownInv(c.rules, g.state, w.durable, w.durableTrail.applied, w.shown[j]);
    }
  }

  lemma SentAt<S(!new)>(rules: Rules<S>, shown: seq<Shown<S>>, u: Update<Content<S>>) returns (i: nat)
    requires u in Sent(rules, shown)
    ensures i < |shown| && u == UpdateOf(rules, shown[i])
  {
    i :| i < |shown| && u == UpdateOf(rules, shown[i]);
  }

  // A client that gets any of them, in any order, shows the state after some prefix of the
  // durable history, and never an older one than it showed before.
  lemma ClientsConverge<S(!new)>(c: Config<S>, good: S -> bool, g: Game<S>, actions: seq<Action>, arrivals: seq<Update<Content<S>>>)
    requires Lawful(c.rules, good) && c.cacheLimit >= 1 && good(g.state) && g.cache == map[]
    requires arrivals != []
    requires forall i :: 0 <= i < |arrivals| ==> arrivals[i] in Sent(c.rules, Run(c, Opened(g), actions).shown)
    ensures var view := ViewAfter(None, arrivals);
            var history := Run(c, Opened(g), actions).durableTrail.applied;
            && view.Some? && IsLatest(None, arrivals, view.value)
            && 0 <= view.value.stateVersion - c.rules.version(g.state) <= |history|
            && view.value.payload.state == Replay(c.rules, g.state, history[..view.value.stateVersion - c.rules.version(g.state)])
  {
    hide Lawful, Next, Run, Opened, Replay, GameInv, ProcessInv, ViewAfter, Sent, IsChain, AtMost;
    ServerUpdatesFormAChain(c, good, g, actions);
    OnlyCommittedStateIsShown(c, good, g, actions);
    var w := Run(c, Opened(g), actions);
    var sent := Sent(c.rules, w.shown);
    ShowsTheLatest(sent, None, arrivals);
    var view := ViewAfter(None, arrivals).value;
    assert view in arrivals;
    var k :| 0 <= k < |arrivals| && arrivals[k] == view;
    var i := SentAt(c.rules, w.shown, view);
    assert ShownInv(c.rules, g.state, w.durable, w.durableTrail.applied, w.shown[i]);
  }
}
