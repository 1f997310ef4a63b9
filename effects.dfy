/** What handling one "set input" command does to the outside world, in
    order: at most one gateway write, then the propagation delay, then one
    poll. The class in isy_app.dfy is proved to append exactly these
    effects; the lemmas here say what such a trace promises.
 */
module Effects {
  import opened Payload

  /** The input type of a switch, as the publishing library names it. */
  const InputTypeSwitch: string := "switch"

  /** The part of an input discovery message the handler reads. */
  datatype InputDiscoveryMessage = InputDiscoveryMessage(address: string, inputType: string)

  /** The payload of a "set input" command. */
  datatype SetInputMessage = SetInputMessage(value: string)

  /** An effect on the gateway side: an on/off write to a node, the wait
      that gives the gateway time to update, or a poll of the gateway. */
  datatype Effect = Write(nodeId: string, on: bool) | Delay | Poll

  /** The node registry of the publishing library: address to node ID. */
  type Registry = map<string, string>

  /** The handler looks a node up only for switch inputs. */
  predicate CanHandle(registry: Registry, input: InputDiscoveryMessage) {
    input.inputType == InputTypeSwitch ==> input.address in registry
  }

  /** The effects of SwitchOnOff: one write of the mapped value to the node
      registered at the input's address. */
  function SwitchEffects(registry: Registry, input: InputDiscoveryMessage, onOffString: string): seq<Effect>
    requires input.address in registry
  {
    [Write(registry[input.address], ParseOnOff(onOffString))]
  }

  /** The effects of HandleInputCommand. */
  function CommandEffects(registry: Registry, input: InputDiscoveryMessage, s: SetInputMessage): seq<Effect>
    requires CanHandle(registry, input)
  {
    (if input.inputType == InputTypeSwitch then SwitchEffects(registry, input, s.value) else [])
    + [Delay, Poll]
  }

  /** The writes of a trace, in the order they were issued. */
  function Writes(trace: seq<Effect>): seq<Effect>
  {
    if trace == [] then []
    else (if trace[0].Write? then [trace[0]] else []) + Writes(trace[1..])
  }

  /** The number of polls in a trace. */
  function PollCount(trace: seq<Effect>): nat
  {
    if trace == [] then 0
    else (if trace[0] == Poll then 1 else 0) + PollCount(trace[1..])
  }

  lemma {:induction false} WritesAppend(a: seq<Effect>, b: seq<Effect>)
    ensures Writes(a + b) == Writes(a) + Writes(b)
  {
    if a == [] {
      assert a + b == b;
    } else {
      assert (a + b)[1..] == a[1..] + b;
      WritesAppend(a[1..], b);
    }
  }

  lemma {:induction false} PollCountAppend(a: seq<Effect>, b: seq<Effect>)
    ensures PollCount(a + b) == PollCount(a) + PollCount(b)
  {
    if a == [] {
      assert a + b == b;
    } else {
      assert (a + b)[1..] == a[1..] + b;
      PollCountAppend(a[1..], b);
    }
  }

  /** SwitchOnOff causes exactly one effect: a write to the registered node
      of the value the payload alone decides. */
  lemma SwitchWritesOnce(registry: Registry, input: InputDiscoveryMessage, onOffString: string)
    requires input.address in registry
    ensures SwitchEffects(registry, input, onOffString)
            == [Write(registry[input.address], !IsOffPayload(onOffString))]
  {
  }

  /** A command writes to the gateway exactly when its input is a switch,
      and then writes the mapped value to the registered node. */
  lemma CommandWritesOnlyForSwitch(registry: Registry, input: InputDiscoveryMessage, s: SetInputMessage)
    requires CanHandle(registry, input)
    ensures input.inputType != InputTypeSwitch ==> Writes(CommandEffects(registry, input, s)) == []
    ensures input.inputType == InputTypeSwitch ==>
              Writes(CommandEffects(registry, input, s)) == [Write(registry[input.address], ParseOnOff(s.value))]
  {
    var w := if input.inputType == InputTypeSwitch then SwitchEffects(registry, input, s.value) else [];
    WritesAppend(w, [Delay, Poll]);
    assert Writes([Delay, Poll]) == [] by {
      assert [Delay, Poll][1..] == [Poll];
      assert [Poll][1..] == [];
    }
    if input.inputType == InputTypeSwitch {
      SwitchWritesOnce(registry, input, s.value);
    }
  }

  /** Whatever the input type, a command ends with the delay followed by
      exactly one poll, and every effect before the delay is a write. */
  lemma CommandEndsWithOnePoll(registry: Registry, input: InputDiscoveryMessage, s: SetInputMessage)
    requires CanHandle(registry, input)
    ensures var e := CommandEffects(registry, input, s);
            |e| >= 2 && e[|e| - 2] == Delay && e[|e| - 1] == Poll
            && PollCount(e) == 1
            && e[..|e| - 2] == Writes(e)
  {
    var e := CommandEffects(registry, input, s);
    var w := if input.inputType == InputTypeSwitch then SwitchEffects(registry, input, s.value) else [];
    assert e == w + [Delay, Poll];
    assert e[..|e| - 2] == w;
    PollCountAppend(w, [Delay, Poll]);
    assert PollCount([Delay, Poll]) == 1 by {
      assert [Delay, Poll][1..] == [Poll];
      assert [Poll][1..] == [];
    }
    assert PollCount(w) == 0;
    CommandWritesOnlyForSwitch(registry, input, s);
  }

  /** The effects of handling a series of commands, one after the other. */
  function SessionEffects(registry: Registry, commands: seq<(InputDiscoveryMessage, SetInputMessage)>): seq<Effect>
    requires forall k :: 0 <= k < |commands| ==> CanHandle(registry, commands[k].0)
  {
    if commands == [] then []
    else CommandEffects(registry, commands[0].0, commands[0].1) + SessionEffects(registry, commands[1..])
  }

  /** Reference definition: the writes a series of commands asks for, one
      per switch command, in command order. */
  function RequestedWrites(registry: Registry, commands: seq<(InputDiscoveryMessage, SetInputMessage)>): seq<Effect>
    requires forall k :: 0 <= k < |commands| ==> CanHandle(registry, commands[k].0)
  {
    if commands == [] then []
    else
      var input := commands[0].0;
      var s := commands[0].1;
      assert CanHandle(registry, input);
      (if input.inputType == InputTypeSwitch then [Write(registry[input.address], !IsOffPayload(s.value))] else [])
      + RequestedWrites(registry, commands[1..])
  }

  /** Handling a series of commands polls once per command and writes the
      requested values in command order, one write per switch command. */
  lemma {:induction false} SessionTrace(registry: Registry, commands: seq<(InputDiscoveryMessage, SetInputMessage)>)
    requires forall k :: 0 <= k < |commands| ==> CanHandle(registry, commands[k].0)
    ensures PollCount(SessionEffects(registry, commands)) == |commands|
    ensures Writes(SessionEffects(registry, commands)) == RequestedWrites(registry, commands)
  {
    if commands != [] {
      var (input, s) := commands[0];
      var head := CommandEffects(registry, input, s);
      var rest := SessionEffects(registry, commands[1..]);
      SessionTrace(registry, commands[1..]);
      CommandEndsWithOnePoll(registry, input, s);
      CommandWritesOnlyForSwitch(registry, input, s);
      PollCountAppend(head, rest);
      WritesAppend(head, rest);
    }
  }

  /** Sending "false" and then "true" to a switch input writes OFF and then
      ON to its node, and polls after each. */
  lemma OffThenOn(registry: Registry, input: InputDiscoveryMessage)
    requires input.inputType == InputTypeSwitch && input.address in registry
    ensures var e := SessionEffects(registry, [(input, SetInputMessage("false")), (input, SetInputMessage("true"))]);
            Writes(e) == [Write(registry[input.address], false), Write(registry[input.address], true)]
            && PollCount(e) == 2
  {
    var id := registry[input.address];
    var off, on := SetInputMessage("false"), SetInputMessage("true");
    var commands := [(input, off), (input, on)];
    SessionTrace(registry, commands);
    assert IsOffPayload(off.value) by {
      assert SpellsInAnyCase(off.value, "false");
    }
    assert !IsOffPayload(on.value);
    var second := commands[1..];
    assert second == [(input, on)];
    assert second[1..] == [];
    assert RequestedWrites(registry, second) == [Write(id, true)];
    assert RequestedWrites(registry, commands) == [Write(id, false), Write(id, true)];
  }
}
