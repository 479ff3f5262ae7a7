// How a client gets one command through: bounded retries of the same request, with a fresh
// snapshot before each of them and after the answer.

module CommandDelivery {
  import opened Board
  import opened Sessions
  import opened SessionRuns
  import opened Gateway
  import opened Delivery

  // A snapshot request: answered, overtaken by a change of session, or failed.
  datatype Snapshot<P> = Fresh(update: Update<P>) | Overtaken | Failed

  datatype Readiness = Ready | TimedOut | Aborted

  // What one attempt meets: the wait for the connection, whether a snapshot is already on its
  // way, the snapshot before sending if one is due, a cancellation in the pause before a retry,
  // the wait for a connection lost by then and the snapshot after it, updates pushed meanwhile,
  // the answer (None if there is none in time or it is not well formed), a cancellation while
  // waiting for it, the connection when it is read, and the snapshot that completes the command.
  datatype Exchange<P> = Exchange(
    readiness: Readiness, awaited: bool, opening: Snapshot<P>, interrupted: bool, lost: Option<Readiness>, reopening: Snapshot<P>,
    pushed: seq<Update<P>>, answer: Option<Acknowledgement>, cancelled: bool, attached: bool, closing: Snapshot<P>)

  datatype Failure = Cancelled | ReconnectTimedOut | SnapshotFailed | Denied(code: ErrorCode) | InvalidResponse | Uncertain

  datatype Response<P> = Resolved(result: CommandResult, shown: Update<P>) | Failing(failure: Failure)

  // Nothing is known about the command after this answer, so it is sent again.
  predicate Retryable<P>(x: Exchange<P>, request: Request) {
    && !x.cancelled
    && match x.answer
       case None => true
       case Some(Done(result)) => result.commandId != request.commandId
       case Some(Refused(code)) => code == GameBusy || (code == NotRoomMember && !x.attached)
  }

  predicate Goes<P>(x: Exchange<P>, due: bool) {
    && x.readiness == Ready && (due || x.awaited ==> !x.opening.Failed?) && !x.interrupted
    && (x.lost.Some? ==> x.lost.value == Ready && !x.reopening.Failed?)
  }

  // What a snapshot leaves in the view.
  function Taken<P>(wire: Option<Update<P>>, snapshot: Snapshot<P>): Option<Update<P>> {
    if snapshot.Fresh? then View(wire, snapshot.update) else wire
  }

  // The view when the request goes out, and when it is answered.

  function ViewAtSending<P>(wire: Option<Update<P>>, x: Exchange<P>, due: bool): Option<Update<P>> {
    var seen := if due || x.awaited then Taken(wire, x.opening) else wire;
    if x.lost.Some? then Taken(seen, x.reopening) else seen
  }

  function ViewAtAnswer<P>(wire: Option<Update<P>>, x: Exchange<P>, due: bool): Option<Update<P>> {
    ViewAfter(ViewAtSending(wire, x, due), x.pushed)
  }

  // A final answer to the request.
  predicate Answers<P>(x: Exchange<P>, request: Request, result: CommandResult) {
    !x.cancelled && x.answer == Some(Done(result)) && result.commandId == request.commandId
  }

  predicate NoEarlier<P>(before: Option<Update<P>>, after: Option<Update<P>>) {
    before.Some? ==> after.Some? && AtMost(before.value, after.value)
  }

  // What a response owes to the attempt that ended the delivery, and to the view.
  ghost predicate SettledBy<P>(response: Response<P>, request: Request, x: Exchange<P>, wire: Option<Update<P>>) {
    match response
    case Resolved(result, shown) => Answers(x, request, result) && wire == Some(shown) && shown.stateVersion >= result.stateVersion
    case Failing(Denied(code)) => x.answer == Some(Refused(code)) && !Retryable(x, request)
    case Failing(Uncertain) => false
    case Failing(_) => true
  }

  lemma NotUncertain<P>(response: Response<P>, request: Request, x: Exchange<P>, wire: Option<Update<P>>)
    requires SettledBy(response, request, x, wire)
    ensures response != Failing(Uncertain)
  {
  }

  lemma ViewStays<P>(wire: Option<Update<P>>)
    ensures NoEarlier(wire, wire)
  {
  }

  lemma ViewMoves<P>(first: Option<Update<P>>, second: Option<Update<P>>, third: Option<Update<P>>)
    requires NoEarlier(first, second) && NoEarlier(second, third)
    ensures NoEarlier(first, third)
  {
  }

  class SocketGameGateway<P> {
    const maxRetries: nat
    const view: ClientView<P>
    var attempt: nat
    var resyncRequired: bool
    ghost var sent: seq<Request>

    constructor (maxRetries: nat)
      ensures this.maxRetries == maxRetries && fresh(view) && view.wire.None? && !resyncRequired && sent == []
    {
      this.maxRetries := maxRetries;
      view := new ClientView();
      attempt, resyncRequired, sent := 0, false, [];
    }

    method RequestSnapshot(snapshot: Snapshot<P>) returns (ok: bool)
      modifies this`resyncRequired, view
      ensures ok == !snapshot.Failed?
      ensures resyncRequired == (snapshot.Failed? || (snapshot.Overtaken? && old(resyncRequired)))
      ensures view.wire == Taken(old(view.wire), snapshot) && NoEarlier(old(view.wire), view.wire)
      ensures sent == old(sent) && attempt == old(attempt)
    {
      ok := !snapshot.Failed?;
      if snapshot.Fresh? {
        var taken, gap := view.Accept(snapshot.update, false);
        resyncRequired := false;
      } else if snapshot.Failed? {
        resyncRequired := true;
      }
    }

    // Updates that arrive while an answer is awaited.
    method TakePushed(pushed: seq<Update<P>>)
      modifies view
      ensures view.wire == ViewAfter(old(view.wire), pushed) && NoEarlier(old(view.wire), view.wire)
    {
      for i := 0 to |pushed|
        invariant NoEarlier(old(view.wire), view.wire)
        invariant ViewAfter(view.wire, pushed[i..]) == ViewAfter(old(view.wire), pushed)
      {
        assert pushed[i..][1..] == pushed[i + 1..];
        var taken, gap := view.Accept(pushed[i], true);
      }
    }

    // An attempt up to the moment of sending.
    method Prepare(number: nat, x: Exchange<P>) returns (failure: Option<Failure>)
      modifies this, view
      ensures NoEarlier(old(view.wire), view.wire) && attempt == number && sent == old(sent)
      ensures failure.None? <==> Goes(x, number > 1 || old(resyncRequired))
      ensures failure.None? ==> view.wire == ViewAtSending(old(view.wire), x, number > 1 || old(resyncRequired))
      ensures failure.Some? ==> !failure.value.Denied? && !failure.value.Uncertain?
    {
      attempt := number;
      if x.readiness != Ready {
        return Some(if x.readiness == TimedOut then ReconnectTimedOut else Cancelled);
      }
      if attempt > 1 || resyncRequired || x.awaited {
        var ready := RequestSnapshot(x.opening);
        if !ready {
          return Some(SnapshotFailed);
        }
      }
      if x.interrupted {
        return Some(Cancelled);
      }
      if x.lost.Some? {
        if x.lost.value != Ready {
          return Some(if x.lost.value == TimedOut then ReconnectTimedOut else Cancelled);
        }
        var ready := RequestSnapshot(x.reopening);
        if !ready {
          return Some(SnapshotFailed);
        }
      }
      failure := None;
    }

    // One attempt: None if it decides nothing.
    method Attempt(number: nat, request: Request, x: Exchange<P>) returns (response: Option<Response<P>>)
      modifies this, view
      ensures NoEarlier(old(view.wire), view.wire) && attempt == number
      ensures var gone := Goes(x, number > 1 || old(resyncRequired));
              && sent == (if gone then old(sent) + [request] else old(sent))
              && (response.None? <==> gone && Retryable(x, request))
              && (response.Some? ==> gone || response.value.Failing?)
      ensures response.Some? ==> SettledBy(response.value, request, x, view.wire)
      ensures var arrived := ViewAtAnswer(old(view.wire), x, number > 1 || old(resyncRequired));
              && (response.None? ==> view.wire == arrived && resyncRequired)
              && (response.Some? && response.value.Resolved? ==> view.wire == Taken(arrived, x.closing))
    {
      hide Goes, ViewAtSending;
      var failure := Prepare(number, x);
      if failure.Some? {
        return Some(Failing(failure.value));
      }
      sent := sent + [request];
      TakePushed(x.pushed);
      if x.cancelled {
        return Some(Failing(Cancelled));
      }
      if x.answer.None? || (x.answer.value.Done? && x.answer.value.result.commandId != request.commandId) {
        resyncRequired := true;
        return None;
      }
      if x.answer.value.Refused? {
        var code := x.answer.value.error;
        if code == GameBusy || (code == NotRoomMember && !x.attached) {
          resyncRequired := true;
          return None;
        }
        return Some(Failing(Denied(code)));
      }
      var refreshed := RequestSnapshot(x.closing);
      if !refreshed {
        return Some(Failing(SnapshotFailed));
      }
      if view.wire.None? || view.wire.value.stateVersion < x.answer.value.result.stateVersion {
        return Some(Failing(InvalidResponse));
      }
      response := Some(Resolved(x.answer.value.result, view.wire.value));
    }

    // The attempts. Each sends the same request; only an answer that decides nothing leads to
    // another one. A command resolves when its own answer has arrived and the view has caught
    // up with it.
    method Attempts(request: Request, exchanges: seq<Exchange<P>>) returns (response: Response<P>)
      requires |exchanges| == maxRetries + 1
      modifies this, view
      ensures NoEarlier(old(view.wire), view.wire)
      ensures 1 <= attempt <= maxRetries + 1
      ensures sent == old(sent) + seq(attempt - 1, _ => request) || sent == old(sent) + seq(attempt, _ => request)
      ensures forall k :: 0 <= k < attempt - 1 ==> Retryable(exchanges[k], request)
      ensures response == Failing(Uncertain) || SettledBy(response, request, exchanges[attempt - 1], view.wire)
      ensures response.Resolved? ==> sent == old(sent) + seq(attempt, _ => request)
      ensures response == Failing(Uncertain) <==>
                forall k :: 0 <= k <= maxRetries ==>
                  Goes(exchanges[k], k > 0 || old(resyncRequired)) && Retryable(exchanges[k], request)
    {
      hide Goes, Retryable, SettledBy, NoEarlier;
      ViewStays(view.wire);
      attempt := 0;
      for i := 0 to maxRetries + 1
        invariant NoEarlier(old(view.wire), view.wire)
        invariant attempt == i && sent == old(sent) + seq(i, _ => request)
        invariant i == 0 ==> resyncRequired == old(resyncRequired)
        invariant forall k :: 0 <= k < i ==>
                    Goes(exchanges[k], k > 0 || old(resyncRequired)) && Retryable(exchanges[k], request)
      {
        ghost var before := view.wire;
        var outcome := Attempt(i + 1, request, exchanges[i]);
        ViewMoves(old(view.wire), before, view.wire);
        assert old(sent) + seq(i + 1, _ => request) == old(sent) + seq(i, _ => request) + [request];
        if outcome.Some? {
          NotUncertain(outcome.value, request, exchanges[i], view.wire);
          return outcome.value;
        }
      }
      response := Failing(Uncertain);
    }

    // After a failure that is not a cancellation the client must resynchronize before it plays on.
    method Deliver(request: Request, exchanges: seq<Exchange<P>>, repair: Snapshot<P>) returns (response: Response<P>)
      requires |exchanges| == maxRetries + 1
      modifies this, view
      ensures NoEarlier(old(view.wire), view.wire)
      ensures 1 <= attempt <= maxRetries + 1
      ensures sent == old(sent) + seq(attempt - 1, _ => request) || sent == old(sent) + seq(attempt, _ => request)
      ensures response.Resolved? ==> SettledBy(response, request, exchanges[attempt - 1], view.wire)
      ensures response.Failing? && response.failure != Cancelled ==> resyncRequired == !repair.Fresh?
    {
      response := Attempts(request, exchanges);
      if response.Failing? && response.failure != Cancelled {
        resyncRequired := true;
        var repaired := RequestSnapshot(repair);
      }
    }
  }

  // End to end. A command that resolves as accepted, over any number of retries, crashes and
  // recoveries, has been applied exactly once, and the state the client then shows has it.
  lemma ResolvedOnceAndShown<S(!new)>(c: Config<S>, good: S -> bool, g: Game<S>, actions: seq<Action>, arrivals: seq<Update<Content<S>>>,
                                      session: SessionId, request: Request, result: CommandResult)
    requires Lawful(c.rules, good) && c.cacheLimit >= 1 && good(g.state) && g.cache == map[]
    requires Reply(session, request, result) in Run(c, Opened(g), actions).replies && result.accepted
    requires arrivals != []
    requires forall i :: 0 <= i < |arrivals| ==> arrivals[i] in Sent(c.rules, Run(c, Opened(g), actions).shown)
    requires ViewAfter(None, arrivals).Some? ==> ViewAfter(None, arrivals).value.stateVersion >= result.stateVersion
    ensures var view, history, base := ViewAfter(None, arrivals), Run(c, Opened(g), actions).durableTrail.applied, c.rules.version(g.state);
            var at := result.stateVersion - base - 1;
            && view.Some? && 0 <= at < view.value.stateVersion - base <= |history|
            && view.value.payload.state == Replay(c.rules, g.state, history[..view.value.stateVersion - base])
            && history[at].origin == Some(Origin(session, request))
            && (forall j :: 0 <= j < |history| && j != at && history[j].origin.Some? ==> history[j].origin.value.request != request)
  {
    hide Lawful, Run, Opened, Replay, ViewAfter, IsLatest, Sent;
    var w := Run(c, Opened(g), actions);
    var i :| 0 <= i < |w.replies| && w.replies[i] == Reply(session, request, result);
    RepliesAreDurable(c, good, g, actions, i);
    AtMostOnce(c, good, g, actions);
    ClientsConverge(c, good, g, actions, arrivals);
  }
}
