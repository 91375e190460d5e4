/** The Java helper service with its table of pending requests, event by event. */
module JavaHelper {
  import opened Collections
  import opened HelperQueue

  class JavaHelperService {
    var running: bool
    var ready: bool
    var requestCounter: nat
    /** Pending request numbers; the table keeps insertion order. */
    var pendingRequests: seq<nat>
    /** Requests whose timer has neither fired nor been cleared. */
    var timers: set<nat>
    /** What the helper process still has to answer. */
    ghost var wire: seq<nat>
    ghost var settled: seq<Settlement>

    ghost function View(): State
      reads this
    {
      State(running, ready, requestCounter, pendingRequests, timers, wire, settled)
    }

    constructor ()
      ensures View() == Run([])
    {
      running, ready, requestCounter, pendingRequests, timers := false, false, 0, [], {};
      wire, settled := [], [];
    }

    /** `jarFound`: whether the path of the helper could be resolved. */
    method StartProcess(jarFound: bool)
      modifies this
      ensures View() == if jarFound then Step(old(View()), Start) else old(View())
    {
      if running || !jarFound {
        return;
      }
      running := true;
    }

    method OnLine(isReady: bool, answersRequest: bool, isError: bool)
      requires !isReady && answersRequest ==> wire != []
      modifies this
      ensures View() == Step(old(View()),
                             if isReady then Ready else if answersRequest then Answer(isError) else Stray(isError))
    {
      if isReady {
        ready := true;
        return;
      }
      ghost var answerTo := None;
      if answersRequest {
        answerTo := Some(wire[0]);
        wire := wire[1..];
      }
      HandleResponse(answerTo, isError);
    }

    /** None where the code throws because the process is not running. */
    method SendCommand(writable: bool) returns (request: Option<nat>)
      modifies this
      ensures View() == Step(old(View()), Send(writable))
      ensures request == if old(running) && writable then Some(old(requestCounter) + 1) else None
    {
      if !(running && writable) {
        return None;
      }
      requestCounter := requestCounter + 1;
      var requestId := requestCounter;
      timers := timers + {requestId};
      pendingRequests := pendingRequests + [requestId];
      wire := wire + [requestId];
      return Some(requestId);
    }

    method OnTimeout(requestId: nat)
      modifies this
      ensures View() == Step(old(View()), Timeout(requestId))
    {
      if requestId in timers {
        timers := timers - {requestId};
        Delete(requestId);
        settled := settled + [ByTimeout(requestId)];
      }
    }

    /** Removes one key from the table and keeps the order of the others. */
    method Delete(requestId: nat)
      modifies this`pendingRequests
      ensures pendingRequests == Without(old(pendingRequests), requestId)
    {
      var kept: seq<nat> := [];
      for i := 0 to |pendingRequests|
        invariant pendingRequests == old(pendingRequests)
        invariant kept == Without(pendingRequests[..i], requestId)
      {
        assert pendingRequests[..i + 1][..i] == pendingRequests[..i];
        if pendingRequests[i] != requestId {
          kept := kept + [pendingRequests[i]];
        }
      }
      assert pendingRequests[..|pendingRequests|] == pendingRequests;
      pendingRequests := kept;
    }

    /** Settles the first entry of the table, whatever the message answers. */
    method HandleResponse(ghost answerTo: Option<nat>, isError: bool)
      modifies this
      ensures View() == SettleOldest(old(View()), answerTo, isError)
    {
      if |pendingRequests| > 0 {
        var id := pendingRequests[0];
        timers := timers - {id};
        pendingRequests := pendingRequests[1..];
        settled := settled + [ByMessage(id, answerTo, isError)];
      }
    }

    method RejectAllPending()
      modifies this
      ensures View() == RejectAll(old(View()))
    {
      var i := 0;
      while i < |pendingRequests|
        invariant 0 <= i <= |pendingRequests|
        invariant View() == old(View()).(timers := timers, settled := settled)
        invariant timers == old(timers) - (set id | id in pendingRequests[..i])
        invariant settled == old(settled) + Rejections(pendingRequests[..i])
      {
        timers := timers - {pendingRequests[i]};
        settled := settled + [ByRejection(pendingRequests[i])];
        assert pendingRequests[..i + 1] == pendingRequests[..i] + [pendingRequests[i]];
        i := i + 1;
      }
      assert pendingRequests[..i] == pendingRequests;
      pendingRequests := [];
    }

    /** `arriving` answers are still in the pipe when the process ends. */
    method OnExit(ghost arriving: nat)
      requires running
      modifies this
      ensures View() == Step(old(View()), Exit(arriving))
    {
      ready, running := false, false;
      wire := wire[..Min(arriving, |wire|)];
      RejectAllPending();
    }

    /** Kills the process, whose exit event comes later. */
    method OnModuleDestroy()
      modifies this
      ensures View() == Step(old(View()), Destroy)
    {
      RejectAllPending();
    }
  }
}
