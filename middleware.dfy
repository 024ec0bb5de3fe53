/** The dispatch-timing stage `action => …` built by `createPerfMiddleware`
    (packages/core/src/middleware.ts). The stage has no state; what it does
    to the world (calling `next`, warning on the console, emitting on the
    bus) is returned as an ordered trace next to its result. */
module Middleware {
  import opened Topics

  /** A dispatched action; only `type` is read by the stage. */
  datatype Action = Action(actionType: string, body: nat)

  /** The fixed frame budget of the slow-action check; it is not a setting. */
  const SlowActionBudget: nat := 16

  datatype Effect =
    | NextCalled(action: Action)
    | SlowActionWarning(actionType: string, duration: nat)
    | Emitted(topic: string, payload: Payload)

  datatype StageRun<R> = StageRun(effects: seq<Effect>, result: R)

  predicate IsNextCall(e: Effect) { e.NextCalled? }
  predicate IsWarning(e: Effect) { e.SlowActionWarning? }
  predicate IsEmit(e: Effect) { e.Emitted? }

  /** How many effects of the trace satisfy `p`. */
  function CountOf(effects: seq<Effect>, p: Effect -> bool): nat
    decreases |effects|
  {
    if effects == [] then 0 else (if p(effects[0]) then 1 else 0) + CountOf(effects[1..], p)
  }

  /** One pass of `action` through the stage, when `next(action)` takes
      `duration` time units and `Date.now()` reads `timestamp`. */
  function PerfStage<R>(action: Action, next: Action -> R, duration: nat, timestamp: int): (r: StageRun<R>)
    ensures r.result == next(action)
    ensures 2 <= |r.effects| <= 3 && r.effects[0] == NextCalled(action)
    ensures r.effects[|r.effects| - 1].Emitted? && r.effects[|r.effects| - 1].topic == ActionTopic
  {
    var warning := if duration > SlowActionBudget
                   then [SlowActionWarning(action.actionType, duration)] else [];
    StageRun([NextCalled(action)] + warning
             + [Emitted(ActionTopic, ActionPayload(action.actionType, duration, timestamp))],
             next(action))
  }

  /** The stage calls `next` exactly once, first, with the very action it
      received, and returns what `next` returned. */
  lemma PassThrough<R>(action: Action, next: Action -> R, duration: nat, timestamp: int)
    ensures var run := PerfStage(action, next, duration, timestamp);
      && run.result == next(action)
      && run.effects[0] == NextCalled(action)
      && CountOf(run.effects, IsNextCall) == 1
  {
    var run := PerfStage(action, next, duration, timestamp);
    CountTail(run.effects, IsNextCall);
  }

  /** Exactly one action-timing event is emitted, whatever the duration; it
      carries the action's type and the measured duration, and it is the
      last thing the stage does, after the slow-action check. */
  lemma EmitsOneActionEvent<R>(action: Action, next: Action -> R, duration: nat, timestamp: int)
    ensures var run := PerfStage(action, next, duration, timestamp);
      && CountOf(run.effects, IsEmit) == 1
      && run.effects[|run.effects| - 1]
         == Emitted(ActionTopic, ActionPayload(action.actionType, duration, timestamp))
      && Conforms(ActionTopic, ActionPayload(action.actionType, duration, timestamp))
  {
    var run := PerfStage(action, next, duration, timestamp);
    CountTail(run.effects, IsEmit);
  }

  /** A slow-action warning is given iff the duration exceeds 16, and then
      it comes between the call of `next` and the emit. */
  lemma WarnsIffSlow<R>(action: Action, next: Action -> R, duration: nat, timestamp: int)
    ensures var run := PerfStage(action, next, duration, timestamp);
      && (CountOf(run.effects, IsWarning) == 1 <==> duration > 16)
      && (CountOf(run.effects, IsWarning) == 0 <==> duration <= 16)
      && (duration > 16 ==> run.effects[1] == SlowActionWarning(action.actionType, duration))
      && |run.effects| == (if duration > 16 then 3 else 2)
  {
    var run := PerfStage(action, next, duration, timestamp);
    CountTail(run.effects, IsWarning);
  }

  /** Counting over a concrete trace of at most three effects. */
  lemma CountTail(effects: seq<Effect>, p: Effect -> bool)
    requires |effects| <= 3
    ensures CountOf(effects, p)
      == (if |effects| > 0 && p(effects[0]) then 1 else 0)
       + (if |effects| > 1 && p(effects[1]) then 1 else 0)
       + (if |effects| > 2 && p(effects[2]) then 1 else 0)
  {
    if |effects| > 0 {
      var t := effects[1..];
      if |t| > 0 {
        assert t[1..] == effects[2..];
      }
    }
  }
}
