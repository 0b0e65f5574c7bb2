/**
 * Sequences of `open` and `close` calls on one server. `open` is protected:
 * the parent connection drives it, and an exception it throws leaves the
 * object usable, so the parent may call it any number of times, and `close`
 * may be called at any point. These lemmas say what the handles are afterwards.
 */
module Lifecycle {
  import opened Wrappers
  import opened ServerFlags
  import opened ConnectionServer

  /** One call on the server, with the platform's answers for it. */
  datatype Call =
    | OpenCall(streamName: string, context: Option<StreamContext>,
               bind: BindRequest -> BindReply, accept: ResourceId -> Option<ResourceId>)
    | CloseCall(release: ResourceId -> bool)

  /** The handles after one call; `close` resets neither of them. */
  function Step(flag: Flag, s: ServerState, c: Call): ServerState {
    match c
    case OpenCall(name, context, bind, accept) => OpenStep(flag, s, name, context, bind, accept).0
    case CloseCall(_) => s
  }

  /** The handles after a sequence of calls. */
  function Run(flag: Flag, s: ServerState, calls: seq<Call>): ServerState
    decreases |calls|
  {
    if calls == [] then s else Run(flag, Step(flag, s, calls[0]), calls[1..])
  }

  /** The handle that the bind of an `open` call leaves in `_server`. */
  function BoundHandle(flag: Flag, c: Call): Handle
    requires c.OpenCall?
  {
    HandleOf(c.bind(BindRequest(c.streamName, flag, c.context)).server)
  }

  /** Running two sequences one after the other is running their concatenation. */
  lemma {:induction false} RunAppend(flag: Flag, s: ServerState, a: seq<Call>, b: seq<Call>)
    ensures Run(flag, s, a + b) == Run(flag, Run(flag, s, a), b)
    decreases |a|
  {
    if a != [] {
      assert (a + b)[0] == a[0];
      assert (a + b)[1..] == a[1..] + b;
      RunAppend(flag, Step(flag, s, a[0]), a[1..], b);
    } else {
      assert a + b == b;
    }
  }

  /** Any number of `close` calls leaves both handles as they were. */
  lemma {:induction false} ClosesKeepState(flag: Flag, s: ServerState, calls: seq<Call>)
    requires forall i :: 0 <= i < |calls| ==> calls[i].CloseCall?
    ensures Run(flag, s, calls) == s
    decreases |calls|
  {
    if calls != [] {
      ClosesKeepState(flag, s, calls[1..]);
    }
  }

  /**
   * After the last `open` of a sequence, `_server` holds what that open's bind
   * returned, whether or not its accept succeeded and whatever closes follow.
   */
  lemma {:induction false} ServerIsLastBind(flag: Flag, s: ServerState, calls: seq<Call>, i: nat)
    requires i < |calls| && calls[i].OpenCall?
    requires forall j :: i < j < |calls| ==> calls[j].CloseCall?
    ensures Run(flag, s, calls).server == BoundHandle(flag, calls[i])
  {
    var before, rest := calls[..i], calls[i + 1..];
    assert calls == before + [calls[i]] + rest;
    RunAppend(flag, s, before + [calls[i]], rest);
    RunAppend(flag, s, before, [calls[i]]);
    var t := Run(flag, s, before);
    assert Run(flag, t, [calls[i]]) == Step(flag, t, calls[i]);
    ClosesKeepState(flag, Run(flag, s, before + [calls[i]]), rest);
  }

  /** Once any `open` has been called, `_server` is never `null` again. */
  lemma {:induction false} OpenedServerNotNull(flag: Flag, s: ServerState, calls: seq<Call>)
    requires exists i :: 0 <= i < |calls| && calls[i].OpenCall?
    ensures Run(flag, s, calls).server != Null
    decreases |calls|
  {
    var i :| 0 <= i < |calls| && calls[i].OpenCall?;
    if i == 0 {
      var t := Step(flag, s, calls[0]);
      assert t.server != Null;
      KeepsNonNullServer(flag, t, calls[1..]);
    } else {
      assert calls[1..][i - 1].OpenCall?;
      OpenedServerNotNull(flag, Step(flag, s, calls[0]), calls[1..]);
    }
  }

  /** A server handle that is not `null` never becomes `null`. */
  lemma {:induction false} KeepsNonNullServer(flag: Flag, s: ServerState, calls: seq<Call>)
    requires s.server != Null
    ensures Run(flag, s, calls).server != Null
    decreases |calls|
  {
    if calls != [] {
      KeepsNonNullServer(flag, Step(flag, s, calls[0]), calls[1..]);
    }
  }

  /**
   * A second `close` reports failure: the first released every handle that
   * was a resource, and a released resource cannot be released again.
   */
  lemma SecondCloseFails(flag: Flag, s: ServerState, first: ResourceId -> bool, second: ResourceId -> bool)
    requires forall id :: first(id) ==> !second(id)
    requires s.server.Resource? ==> first(s.server.id)
    requires s.stream.Resource? ==> first(s.stream.id)
    ensures CloseResult(s, first) <==> s.server.Resource? || s.stream.Resource?
    ensures !CloseResult(Run(flag, s, [CloseCall(first)]), second)
  {
  }
}
