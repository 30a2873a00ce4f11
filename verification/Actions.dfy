/** Waiting for the cloud to finish an action (pkg/hcloud/hcloud.go, WaitForActionCompletion). */
module Actions {
  import opened Wrappers

  /** Nanoseconds, as in Go's time.Duration. */
  const SECOND := 1_000_000_000
  const MINUTE := 60 * SECOND

  datatype Action = Action(id: int)

  /** One answer of the cloud to "how is this action doing".  `Missing` is a nil action without an
      error, which the SDK returns for an id it does not know. */
  datatype Poll = Running | Success | Error | Unreachable | Missing

  datatype Waited = Completed | TimedOut | ActionFailed | PollFailed | NilAction

  predicate IsBad(poll: Poll) {
    poll != Running && poll != Success
  }

  /** The polls made while waiting for one action, and how the waiting then ended. */
  ghost predicate Explains(polls: seq<Poll>, result: Waited) {
    var n := |polls|;
    && (forall i | 0 <= i < n - 1 :: polls[i] == Running)
    && match result
       case TimedOut => n > 0 ==> polls[n - 1] == Running
       case Completed => n > 0 && polls[n - 1] == Success
       case ActionFailed => n > 0 && polls[n - 1] == Error
       case PollFailed => n > 0 && polls[n - 1] == Unreachable
       case NilAction => n > 0 && polls[n - 1] == Missing
  }

  /** The most polls that fit into `timeout`: one for each whole second. */
  function MaxPolls(timeout: int): nat {
    if timeout < 0 then 0 else timeout / SECOND
  }

  /** How long to wait: the first timeout given, or else a minute. */
  function Limit(timeout: seq<int>): (limit: int)
    ensures timeout == [] ==> limit == MINUTE
    ensures timeout != [] ==> limit == timeout[0]
  {
    if timeout == [] then MINUTE else timeout[0]
  }

  /** The part of the cloud that is polled, and the clock the polling loop reads. */
  class ActionApi {
    var clock: int
    /** Ids of the actions that end well; the others fail or never end. */
    var successful: set<int>
    /** Every poll made so far. */
    ghost var polls: seq<Poll>
    /** How often the cloud has let a caller down: a call that failed although there was nothing wrong
        with it, an action that did not end well, a deadline that passed. */
    ghost var faults: nat
    /** By how much the clock has run on beyond the sleeps that were asked for. */
    ghost var drift: nat

    constructor ()
      ensures polls == [] && faults == 0 && drift == 0
    {
      clock, successful, polls, faults, drift := 0, {}, [], 0, 0;
    }

    /** There was a fault exactly when `failed`. */
    twostate predicate Counts(failed: bool)
      reads this
    {
      if failed then faults > old(faults) else faults == old(faults)
    }

    /** Any request may fail. */
    method Call() returns (failed: bool)
      modifies this`faults
      ensures Counts(failed)
    {
      failed := *;
      if failed {
        faults := faults + 1;
      }
    }

    /** time.Sleep lasts at least as long as asked. */
    method Sleep(duration: nat)
      modifies this`clock, this`drift
      ensures drift >= old(drift) && clock == old(clock) + duration + (drift - old(drift))
    {
      var late: int := *;
      if late < 0 {
        late := 0;
      }
      clock := clock + duration + late;
      drift := drift + late;
    }

    /** time.Now: the clock moves on by itself as well. */
    method Now() returns (now: int)
      modifies this`clock, this`drift
      ensures drift >= old(drift) && now == clock == old(clock) + (drift - old(drift))
    {
      Sleep(0);
      now := clock;
    }

    /** Action.GetByID.  Success is only reported for an action that has ended well. */
    method GetByID(id: int) returns (poll: Poll)
      modifies this`polls, this`faults
      ensures Counts(IsBad(poll))
      ensures polls == old(polls) + [poll]
      ensures poll == Success ==> id in successful
    {
      poll := *;
      if poll == Success && id !in successful {
        poll := Running;
      }
      polls := polls + [poll];
      if IsBad(poll) {
        faults := faults + 1;
      }
    }

    /** A request that starts actions.  It is refused or its reply is lost (`failed`), or it is
        accepted and hands out actions.  Its effect is settled by then: it is complete when the
        request is accepted and every action ends well, and otherwise possibly partial or nothing. */
    method Start() returns (failed: bool, actions: seq<Action>, complete: bool)
      modifies this`successful, this`faults
      ensures Counts(failed)
      ensures !failed && (forall a | a in actions :: a.id in successful) ==> complete
    {
      failed := Call();
      actions, complete, successful := *, *, *;
      if !failed && forall a | a in actions :: a.id in successful {
        complete := true;
      }
    }

    /** A timeout is owed to the action or to the clock: one poll a second did not fit into the limit any
        more.  Within the default timeout it counts as a fault; a shorter one is the caller's choice. */
    method WaitForActionCompletion(action: Option<Action>, timeout: seq<int>) returns (result: Waited)
      modifies this`clock, this`drift, this`polls, this`faults
      ensures drift >= old(drift)
      ensures Counts(result != Completed && (result == TimedOut ==> Limit(timeout) >= MINUTE))
      ensures action.None? ==> result == Completed && polls == old(polls)
      ensures action.Some? ==>
                && old(polls) <= polls
                && Explains(polls[|old(polls)|..], result)
                && |polls| - |old(polls)| <= MaxPolls(Limit(timeout))
      ensures result == TimedOut ==>
                Limit(timeout) < (|polls| - |old(polls)| + 1) * SECOND + (drift - old(drift))
      ensures action.Some? && result == Completed ==> action.value.id in successful
    {
      if action == None {
        return Completed;
      }
      var limit := Limit(timeout);
      var startTime := Now();
      var timeoutTime := startTime + limit;
      ghost var before := polls;
      while true
        invariant before <= polls && clock >= startTime >= old(clock) && faults == old(faults)
        invariant drift >= old(drift)
        invariant clock == old(clock) + (|polls| - |before|) * SECOND + (drift - old(drift))
        invariant forall i | |before| <= i < |polls| :: polls[i] == Running
        invariant (|polls| - |before|) * SECOND <= clock - startTime
        invariant |polls| > |before| ==> (|polls| - |before|) * SECOND <= limit
        decreases timeoutTime - clock
      {
        Sleep(SECOND);
        var now := Now();
        if now > timeoutTime {
          if limit >= MINUTE {
            faults := faults + 1;
          }
          return TimedOut;
        }
        var status := GetByID(action.value.id);
        assert (|polls| - |before|) * SECOND <= clock - startTime <= limit;
        match status {
          case Running =>
          case Success => return Completed;
          case Error => return ActionFailed;
          case Unreachable => return PollFailed;
          case Missing => return NilAction;
        }
      }
    }
  }

  /** Waits for one action after the other with the default timeout, stopping at the first that does
      not complete; without a fault all of them complete. */
  method WaitForAll(api: ActionApi, actions: seq<Action>) returns (outcome: Outcome)
    modifies api`clock, api`drift, api`polls, api`faults
    ensures api.Counts(outcome != Ok)
    ensures outcome == Ok ==> forall a | a in actions :: a.id in api.successful
    ensures |api.polls| - |old(api.polls)| <= 60 * |actions|
    ensures old(api.polls) <= api.polls && api.drift >= old(api.drift)
    ensures outcome != Ok ==>
              || (|api.polls| > |old(api.polls)| && IsBad(api.polls[|api.polls| - 1]))
              || MINUTE < (|api.polls| - |old(api.polls)| + 1) * SECOND + (api.drift - old(api.drift))
  {
    for i := 0 to |actions|
      invariant forall j | 0 <= j < i :: actions[j].id in api.successful
      invariant old(api.polls) <= api.polls && api.drift >= old(api.drift) && api.faults == old(api.faults)
      invariant |api.polls| - |old(api.polls)| <= 60 * i
    {
      var waited := api.WaitForActionCompletion(Some(actions[i]), []);
      if waited != Completed {
        return if waited == NilAction then Panicked else Failed;
      }
    }
    outcome := Ok;
  }
}
