/**
 * The dispatch chain of MiraiHttpSession: an event goes first to the
 * registered plugins that accept its channel, in registration order, then to
 * the channel's handlers, in subscription order; the first one that reports
 * the event handled ends delivery. Also the copy-on-write plugin list and
 * the handler lists of the events.
 */
module Dispatch {
  import opened Events

  /**
   * What a plugin or handler does with an event: handles it, passes it on,
   * throws while being invoked, or returns a task that later faults. An
   * awaited call stops at both kinds of exception; an invocation that does
   * not await the returned task stops only at the first.
   */
  datatype Reaction = Handled | Declined | Throws | Faults

  /** A plugin: the channels whose event-args interface it implements, and its reaction. */
  datatype Plugin = Plugin(id: nat, accepts: set<Channel>, reaction: Reaction)

  /** A subscribed event handler. */
  datatype Handler = Handler(id: nat, reaction: Reaction)

  /** One invocation made while delivering an event. */
  datatype Call = PluginCall(plugin: Plugin) | HandlerCall(handler: Handler)

  // ---------------------------------------------------------------------------
  // The chain as functions

  /** The plugin calls made for `ch`: non-accepting plugins are skipped; a plugin that does not decline ends the walk. */
  function PluginPhase(plugins: seq<Plugin>, ch: Channel): seq<Call>
  {
    if plugins == [] then []
    else if ch !in plugins[0].accepts then PluginPhase(plugins[1..], ch)
    else [PluginCall(plugins[0])] + (if plugins[0].reaction == Declined then PluginPhase(plugins[1..], ch) else [])
  }

  /** Some accepting plugin handles the event or throws, so no handler runs. */
  predicate PluginsStop(plugins: seq<Plugin>, ch: Channel)
  {
    plugins != [] &&
    ((ch in plugins[0].accepts && plugins[0].reaction != Declined) || PluginsStop(plugins[1..], ch))
  }

  /** The handler calls: each in order until one does not decline. */
  function HandlerPhase(handlers: seq<Handler>): seq<Call>
  {
    if handlers == [] then []
    else [HandlerCall(handlers[0])] + (if handlers[0].reaction == Declined then HandlerPhase(handlers[1..]) else [])
  }

  /** Everything one delivery invokes, in order. */
  function Chain(plugins: seq<Plugin>, handlers: seq<Handler>, ch: Channel): seq<Call>
  {
    PluginPhase(plugins, ch) + (if PluginsStop(plugins, ch) then [] else HandlerPhase(handlers))
  }

  function ReactionOf(c: Call): Reaction
  {
    match c
    case PluginCall(p) => p.reaction
    case HandlerCall(h) => h.reaction
  }

  // ---------------------------------------------------------------------------
  // Reference definitions: filter the accepting plugins, then cut at the first stop

  /** The plugins that implement the channel's interface, in registration order. */
  function Accepting(plugins: seq<Plugin>, ch: Channel): (r: seq<Plugin>)
    ensures forall p :: p in r ==> p in plugins && ch in p.accepts
    ensures forall i :: 0 <= i < |plugins| && ch in plugins[i].accepts ==> plugins[i] in r
  {
    if plugins == [] then []
    else
      var rest := Accepting(plugins[1..], ch);
      assert forall i :: 1 <= i < |plugins| ==> plugins[i] == plugins[1..][i - 1];
      if ch in plugins[0].accepts then [plugins[0]] + rest else rest
  }

  /** The prefix of `ps` through its first plugin that does not decline. */
  function UpToStop(ps: seq<Plugin>): seq<Plugin>
  {
    if ps == [] then []
    else [ps[0]] + (if ps[0].reaction == Declined then UpToStop(ps[1..]) else [])
  }

  function PluginCalls(ps: seq<Plugin>): seq<Call>
  {
    if ps == [] then [] else [PluginCall(ps[0])] + PluginCalls(ps[1..])
  }

  /** The plugin phase invokes exactly the accepting plugins, in order, through the first that does not decline. */
  lemma {:induction false} PluginPhaseIsAcceptingUpToStop(plugins: seq<Plugin>, ch: Channel)
    ensures PluginPhase(plugins, ch) == PluginCalls(UpToStop(Accepting(plugins, ch)))
  {
    if plugins != [] {
      PluginPhaseIsAcceptingUpToStop(plugins[1..], ch);
      if ch in plugins[0].accepts {
        var rest := Accepting(plugins[1..], ch);
        assert Accepting(plugins, ch) == [plugins[0]] + rest;
        assert ([plugins[0]] + rest)[1..] == rest;
        if plugins[0].reaction == Declined {
          assert UpToStop([plugins[0]] + rest) == [plugins[0]] + UpToStop(rest);
          assert PluginCalls([plugins[0]] + UpToStop(rest)) == [PluginCall(plugins[0])] + PluginCalls(UpToStop(rest)) by {
            assert ([plugins[0]] + UpToStop(rest))[1..] == UpToStop(rest);
          }
        } else {
          assert UpToStop([plugins[0]] + rest) == [plugins[0]];
          assert PluginCalls([plugins[0]]) == [PluginCall(plugins[0])] by {
            assert [plugins[0]][1..] == [];
          }
        }
      }
    }
  }

  /** The plugins stop the chain exactly when some accepting plugin does not decline. */
  lemma {:induction false} PluginsStopIffSomeAcceptingStops(plugins: seq<Plugin>, ch: Channel)
    ensures PluginsStop(plugins, ch) <==>
      exists i :: 0 <= i < |plugins| && ch in plugins[i].accepts && plugins[i].reaction != Declined
  {
    if plugins != [] {
      PluginsStopIffSomeAcceptingStops(plugins[1..], ch);
      if PluginsStop(plugins[1..], ch) {
        var i :| 0 <= i < |plugins[1..]| && ch in plugins[1..][i].accepts && plugins[1..][i].reaction != Declined;
        assert plugins[i + 1] == plugins[1..][i];
      }
      if exists i :: 0 <= i < |plugins| && ch in plugins[i].accepts && plugins[i].reaction != Declined {
        var i :| 0 <= i < |plugins| && ch in plugins[i].accepts && plugins[i].reaction != Declined;
        if i > 0 {
          assert plugins[1..][i - 1] == plugins[i];
        }
      }
    }
  }

  /** Every plugin call is to a registered plugin that accepts the channel. */
  lemma {:induction false} PluginPhaseCallsAccepting(plugins: seq<Plugin>, ch: Channel)
    ensures forall c :: c in PluginPhase(plugins, ch) ==> c.PluginCall? && c.plugin in plugins && ch in c.plugin.accepts
  {
    if plugins != [] {
      PluginPhaseCallsAccepting(plugins[1..], ch);
    }
  }

  /** Every plugin call but the last one declined. */
  lemma {:induction false} PluginPhaseAllButLastDeclined(plugins: seq<Plugin>, ch: Channel)
    ensures forall k :: 0 <= k < |PluginPhase(plugins, ch)| - 1 ==> ReactionOf(PluginPhase(plugins, ch)[k]) == Declined
  {
    if plugins != [] {
      PluginPhaseAllButLastDeclined(plugins[1..], ch);
      if ch in plugins[0].accepts && plugins[0].reaction == Declined {
        var tail := PluginPhase(plugins[1..], ch);
        assert PluginPhase(plugins, ch) == [PluginCall(plugins[0])] + tail;
      }
    }
  }

  /** The plugins stop the chain exactly when the last plugin call did not decline. */
  lemma {:induction false} PluginsStopIffLastCallStops(plugins: seq<Plugin>, ch: Channel)
    ensures PluginsStop(plugins, ch) <==>
      PluginPhase(plugins, ch) != [] && ReactionOf(PluginPhase(plugins, ch)[|PluginPhase(plugins, ch)| - 1]) != Declined
  {
    if plugins != [] {
      PluginsStopIffLastCallStops(plugins[1..], ch);
      var tail := PluginPhase(plugins[1..], ch);
      if ch in plugins[0].accepts && plugins[0].reaction == Declined {
        assert PluginPhase(plugins, ch) == [PluginCall(plugins[0])] + tail;
        if tail != [] {
          assert PluginPhase(plugins, ch)[|PluginPhase(plugins, ch)| - 1] == tail[|tail| - 1];
        }
      }
    }
  }

  /** Handlers run in order; only the last one may have handled the event or thrown. */
  lemma {:induction false} HandlerPhaseInOrder(handlers: seq<Handler>)
    ensures |HandlerPhase(handlers)| <= |handlers|
    ensures forall k :: 0 <= k < |HandlerPhase(handlers)| ==> HandlerPhase(handlers)[k] == HandlerCall(handlers[k])
    ensures forall k :: 0 <= k < |HandlerPhase(handlers)| - 1 ==> handlers[k].reaction == Declined
    ensures |HandlerPhase(handlers)| < |handlers| ==>
      HandlerPhase(handlers) != [] && handlers[|HandlerPhase(handlers)| - 1].reaction != Declined
    ensures (forall k :: 0 <= k < |handlers| ==> handlers[k].reaction == Declined) ==> |HandlerPhase(handlers)| == |handlers|
  {
    if handlers != [] {
      HandlerPhaseInOrder(handlers[1..]);
      if handlers[0].reaction == Declined {
        var tail := HandlerPhase(handlers[1..]);
        assert HandlerPhase(handlers) == [HandlerCall(handlers[0])] + tail;
        forall k | 1 <= k < |tail| + 1
          ensures HandlerPhase(handlers)[k] == HandlerCall(handlers[k])
        {
          assert handlers[1..][k - 1] == handlers[k];
        }
        forall k | 1 <= k < |tail|
          ensures handlers[k].reaction != Throws
        {
          assert handlers[1..][k - 1] == handlers[k];
        }
        if forall k :: 0 <= k < |handlers| ==> handlers[k].reaction == Declined {
          assert forall k :: 0 <= k < |handlers[1..]| ==> handlers[1..][k].reaction == Declined by {
            forall k | 0 <= k < |handlers[1..]| ensures handlers[1..][k].reaction == Declined {
              assert handlers[1..][k] == handlers[k + 1];
            }
          }
        }
      }
    }
  }

  /** Short circuit: once a plugin stops the chain, no handler is invoked at all. */
  lemma ChainShortCircuits(plugins: seq<Plugin>, handlers: seq<Handler>, ch: Channel, i: nat)
    requires i < |plugins| && ch in plugins[i].accepts && plugins[i].reaction != Declined
    ensures Chain(plugins, handlers, ch) == PluginPhase(plugins, ch)
    ensures forall c :: c in Chain(plugins, handlers, ch) ==> c.PluginCall?
  {
    PluginsStopIffSomeAcceptingStops(plugins, ch);
    PluginPhaseCallsAccepting(plugins, ch);
  }

  /** When no accepting plugin stops it, every accepting plugin runs, then the handlers. */
  lemma NoPluginStopsThenHandlers(plugins: seq<Plugin>, handlers: seq<Handler>, ch: Channel)
    requires forall i :: 0 <= i < |plugins| && ch in plugins[i].accepts ==> plugins[i].reaction == Declined
    ensures Chain(plugins, handlers, ch) == PluginCalls(Accepting(plugins, ch)) + HandlerPhase(handlers)
  {
    PluginsStopIffSomeAcceptingStops(plugins, ch);
    PluginPhaseIsAcceptingUpToStop(plugins, ch);
    AllDeclinedUpToStop(Accepting(plugins, ch), plugins, ch);
  }

  lemma {:induction false} AllDeclinedUpToStop(ps: seq<Plugin>, plugins: seq<Plugin>, ch: Channel)
    requires forall p :: p in ps ==> p in plugins && ch in p.accepts
    requires forall i :: 0 <= i < |plugins| && ch in plugins[i].accepts ==> plugins[i].reaction == Declined
    ensures UpToStop(ps) == ps
  {
    if ps != [] {
      assert ps[0] in plugins;
      AllDeclinedUpToStop(ps[1..], plugins, ch);
      assert ps == [ps[0]] + ps[1..];
    }
  }

  // ---------------------------------------------------------------------------
  // The two foreach loops of InvokeAsync

  /**
   * InvokeAsync: walk the plugin snapshot, skipping those that do not accept
   * the channel and returning at the first that does not decline; then walk
   * the handlers, stopping at the first that does not decline.
   */
  method InvokeAsync(plugins: seq<Plugin>, handlers: seq<Handler>, ch: Channel) returns (calls: seq<Call>)
    ensures calls == Chain(plugins, handlers, ch)
  {
    var stopped;
    calls, stopped := InvokePlugins(plugins, ch);
    if stopped {
      return;
    }
    var handlerCalls := InvokeHandlers(handlers);
    calls := calls + handlerCalls;
  }

  /** The first foreach loop of InvokeAsync; `stopped` is its early return. */
  method InvokePlugins(plugins: seq<Plugin>, ch: Channel) returns (calls: seq<Call>, stopped: bool)
    ensures calls == PluginPhase(plugins, ch)
    ensures stopped == PluginsStop(plugins, ch)
  {
    calls := [];
    var i := 0;
    while i < |plugins|
      invariant 0 <= i <= |plugins|
      invariant PluginPhase(plugins, ch) == calls + PluginPhase(plugins[i..], ch)
      invariant PluginsStop(plugins, ch) == PluginsStop(plugins[i..], ch)
    {
      var plugin := plugins[i];
      PluginStep(plugins, i, ch);
      if ch in plugin.accepts {
        calls := calls + [PluginCall(plugin)];
        if plugin.reaction != Declined {
          return calls, true;
        }
      }
      i := i + 1;
    }
    assert plugins[i..] == [];
    stopped := false;
  }

  /** The second foreach loop of InvokeAsync. */
  method InvokeHandlers(handlers: seq<Handler>) returns (calls: seq<Call>)
    ensures calls == HandlerPhase(handlers)
  {
    calls := [];
    var j := 0;
    while j < |handlers|
      invariant 0 <= j <= |handlers|
      invariant HandlerPhase(handlers) == calls + HandlerPhase(handlers[j..])
    {
      var handler := handlers[j];
      HandlerStep(handlers, j, calls);
      calls := calls + [HandlerCall(handler)];
      if handler.reaction != Declined {
        break;
      }
      j := j + 1;
    }
    if j == |handlers| {
      assert handlers[j..] == [];
    }
  }

  /** One iteration of the plugin loop of InvokeAsync, on what remains of the snapshot. */
  lemma PluginStep(plugins: seq<Plugin>, i: nat, ch: Channel)
    requires i < |plugins|
    ensures PluginPhase(plugins[i..], ch) ==
      if ch !in plugins[i].accepts then PluginPhase(plugins[i + 1..], ch)
      else [PluginCall(plugins[i])] + (if plugins[i].reaction == Declined then PluginPhase(plugins[i + 1..], ch) else [])
    ensures PluginsStop(plugins[i..], ch) ==
      ((ch in plugins[i].accepts && plugins[i].reaction != Declined) || PluginsStop(plugins[i + 1..], ch))
  {
    assert plugins[i..][1..] == plugins[i + 1..];
  }

  /** One iteration of the handler loop of InvokeAsync. */
  lemma HandlerStep(handlers: seq<Handler>, j: nat, calls: seq<Call>)
    requires j < |handlers|
    requires HandlerPhase(handlers) == calls + HandlerPhase(handlers[j..])
    ensures handlers[j].reaction == Declined ==>
      HandlerPhase(handlers) == (calls + [HandlerCall(handlers[j])]) + HandlerPhase(handlers[j + 1..])
    ensures handlers[j].reaction != Declined ==> HandlerPhase(handlers) == calls + [HandlerCall(handlers[j])]
  {
    var rest := handlers[j..];
    assert rest[0] == handlers[j];
    assert rest[1..] == handlers[j + 1..];
    var tail := if handlers[j].reaction == Declined then HandlerPhase(handlers[j + 1..]) else [];
    assert HandlerPhase(rest) == [HandlerCall(handlers[j])] + tail;
    assert calls + ([HandlerCall(handlers[j])] + tail) == (calls + [HandlerCall(handlers[j])]) + tail;
  }

  // ---------------------------------------------------------------------------
  // The Disconnected notification: a plain multicast invocation

  /**
   * DisconnectedEvt?.Invoke: a multicast invocation that does not await the
   * handlers' tasks. Every handler runs in order whatever its task yields, a
   * faulting task included; only a handler that throws while being invoked
   * ends the invocation list (the exception is then discarded by the caller).
   * No plugin sees it.
   */
  function NotifyAll(handlers: seq<Handler>): (calls: seq<Call>)
  {
    if handlers == [] then []
    else [HandlerCall(handlers[0])] + (if handlers[0].reaction == Throws then [] else NotifyAll(handlers[1..]))
  }

  /** Unlike the chain, the notification does not stop at a handler that reports the event handled. */
  lemma {:induction false} NotifyAllReachesEveryHandlerUntilThrow(handlers: seq<Handler>)
    ensures |NotifyAll(handlers)| <= |handlers|
    ensures forall k :: 0 <= k < |NotifyAll(handlers)| ==> NotifyAll(handlers)[k] == HandlerCall(handlers[k])
    ensures (forall k :: 0 <= k < |handlers| ==> handlers[k].reaction != Throws) ==> |NotifyAll(handlers)| == |handlers|
    ensures |NotifyAll(handlers)| < |handlers| ==> handlers[|NotifyAll(handlers)| - 1].reaction == Throws
    ensures forall k :: 0 <= k < |NotifyAll(handlers)| - 1 ==> handlers[k].reaction != Throws
  {
    if handlers != [] {
      NotifyAllReachesEveryHandlerUntilThrow(handlers[1..]);
      if handlers[0].reaction != Throws {
        var tail := NotifyAll(handlers[1..]);
        forall k | 1 <= k < |tail| + 1
          ensures NotifyAll(handlers)[k] == HandlerCall(handlers[k])
        {
          assert handlers[1..][k - 1] == handlers[k];
        }
        forall k | 1 <= k < |tail|
          ensures handlers[k].reaction != Throws
        {
          assert handlers[1..][k - 1] == handlers[k];
        }
        if forall k :: 0 <= k < |handlers| ==> handlers[k].reaction != Throws {
          forall k | 0 <= k < |handlers[1..]| ensures handlers[1..][k].reaction != Throws {
            assert handlers[1..][k] == handlers[k + 1];
          }
        }
      }
    }
  }

  // ---------------------------------------------------------------------------
  // The plugin list and the handler lists

  /** ImmutableList.Remove: drops the first occurrence, if any. */
  function RemoveFirst<T(==)>(s: seq<T>, x: T): seq<T>
  {
    if s == [] then []
    else if s[0] == x then s[1..]
    else [s[0]] + RemoveFirst(s[1..], x)
  }

  function IndexOf<T(==)>(s: seq<T>, x: T): (i: nat)
    requires x in s
    ensures i < |s| && s[i] == x && x !in s[..i]
  {
    if s[0] == x then 0 else 1 + IndexOf(s[1..], x)
  }

  /** Without an occurrence, removal changes nothing. */
  lemma {:induction false} RemoveFirstAbsent<T>(s: seq<T>, x: T)
    requires x !in s
    ensures RemoveFirst(s, x) == s
  {
    if s != [] {
      RemoveFirstAbsent(s[1..], x);
      assert s == [s[0]] + s[1..];
    }
  }

  /** Removal takes out exactly the first occurrence and keeps the others in order. */
  lemma {:induction false} RemoveFirstCutsAtFirstOccurrence<T>(s: seq<T>, x: T)
    requires x in s
    ensures RemoveFirst(s, x) == s[..IndexOf(s, x)] + s[IndexOf(s, x) + 1..]
  {
    if s[0] != x {
      RemoveFirstCutsAtFirstOccurrence(s[1..], x);
      var i := IndexOf(s[1..], x);
      assert s[..i + 1] == [s[0]] + s[1..][..i];
      assert s[i + 2..] == s[1..][i + 1..];
    }
  }

  /** Removal takes one copy of the plugin out of the registered multiset. */
  lemma {:induction false} RemoveFirstMultiset<T>(s: seq<T>, x: T)
    ensures multiset(RemoveFirst(s, x)) == multiset(s) - multiset{x}
  {
    if s != [] {
      assert s == [s[0]] + s[1..];
      assert multiset(s) == multiset{s[0]} + multiset(s[1..]);
      if s[0] != x {
        RemoveFirstMultiset(s[1..], x);
        assert multiset(RemoveFirst(s, x)) == multiset{s[0]} + multiset(RemoveFirst(s[1..], x));
      }
    }
  }

  /** Delegate.Remove, used by an event's remove accessor: drops the last occurrence, if any. */
  function RemoveLast<T(==)>(s: seq<T>, x: T): seq<T>
  {
    if s == [] then []
    else if s[|s| - 1] == x then s[..|s| - 1]
    else RemoveLast(s[..|s| - 1], x) + [s[|s| - 1]]
  }

  /** Without a subscription of the handler, removal changes nothing. */
  lemma {:induction false} RemoveLastAbsent<T>(s: seq<T>, x: T)
    requires x !in s
    ensures RemoveLast(s, x) == s
  {
    if s != [] {
      var init := s[..|s| - 1];
      assert s == init + [s[|s| - 1]];
      RemoveLastAbsent(init, x);
    }
  }

  /** Removing a handler takes one copy of it out and keeps the other subscriptions. */
  lemma {:induction false} RemoveLastMultiset<T>(s: seq<T>, x: T)
    ensures multiset(RemoveLast(s, x)) == multiset(s) - multiset{x}
  {
    if s != [] {
      var init := s[..|s| - 1];
      RemoveLastMultiset(init, x);
      assert s == init + [s[|s| - 1]];
    }
  }

  function LastIndexOf<T(==)>(s: seq<T>, x: T): (i: nat)
    requires x in s
    ensures i < |s| && s[i] == x && x !in s[i + 1..]
  {
    if s[|s| - 1] == x then |s| - 1
    else
      assert x in s[..|s| - 1] by { assert s == s[..|s| - 1] + [s[|s| - 1]]; }
      LastIndexOf(s[..|s| - 1], x)
  }

  /** Removal takes out exactly the last subscription of the handler and keeps the others in order. */
  lemma {:induction false} RemoveLastCutsAtLastOccurrence<T>(s: seq<T>, x: T)
    requires x in s
    ensures RemoveLast(s, x) == s[..LastIndexOf(s, x)] + s[LastIndexOf(s, x) + 1..]
  {
    var init := s[..|s| - 1];
    if s[|s| - 1] != x {
      assert s == init + [s[|s| - 1]];
      assert x in init;
      RemoveLastCutsAtLastOccurrence(init, x);
      var i := LastIndexOf(init, x);
      assert s[..i] == init[..i];
      assert s[i + 1..] == init[i + 1..] + [s[|s| - 1]];
    }
  }
}
