/** The input-command handlers of the ISY adapter application. The
    application's view of the publishing library (its node registry and the
    output values it last published) and the effects it has caused on the
    gateway are fields of the class; the gateway write, the propagation
    delay and the poll are steps that append to that trace.
 */
module IsyInput {
  import opened Payload
  import opened Effects

  /** What a gateway write reports: nil or an error. The outcome is decided
      by the gateway, so callers supply it. */
  datatype WriteError = NoError | GatewayError(reason: string)

  class IsyApp {
    /** Node registry of the publisher: input address to node ID. */
    var nodesByAddress: Registry
    /** Output values last published, by address. */
    var outputValues: map<string, string>
    /** Effects on the gateway, in the order they were caused. */
    var trace: seq<Effect>

    constructor (nodes: Registry, published: map<string, string>)
      ensures nodesByAddress == nodes && outputValues == published && trace == []
    {
      nodesByAddress := nodes;
      outputValues := published;
      trace := [];
    }

    /** The gateway client's on/off write: one write request, whose
        outcome the gateway decides. */
    method WriteOnOff(nodeId: string, on: bool, outcome: WriteError) returns (err: WriteError)
      modifies this`trace
      ensures err == outcome
      ensures trace == old(trace) + [Write(nodeId, on)]
    {
      trace := trace + [Write(nodeId, on)];
      err := outcome;
    }

    /** The wait that gives the gateway time to update. */
    method Sleep()
      modifies this`trace
      ensures trace == old(trace) + [Delay]
    {
      trace := trace + [Delay];
    }

    /** One poll of the gateway, which reads its state and may publish new
        output values; which values it publishes is left open. */
    method Poll()
      modifies this`trace, this`outputValues
      ensures trace == old(trace) + [Effect.Poll]
    {
      trace := trace + [Effect.Poll];
    }

    /** Turns the switch at the input's address on or off and returns the
        gateway write's error unchanged. The node at the address is looked
        up without a check, so it must be registered. */
    method SwitchOnOff(input: InputDiscoveryMessage, onOffString: string, outcome: WriteError)
      returns (err: WriteError)
      requires input.address in nodesByAddress
      modifies this`trace
      ensures err == outcome
      ensures trace == old(trace) + SwitchEffects(nodesByAddress, input, onOffString)
    {
      var newValue := ParseOnOff(onOffString);
      // The previous output value is read only to be logged.
      var prevValue := "n/a";
      if input.address in outputValues {
        prevValue := outputValues[input.address];
      }
      var nodeId := nodesByAddress[input.address];
      err := WriteOnOff(nodeId, newValue, outcome);
    }

    /** Handles a "set input" command: switches a switch input, ignores any
        other input type, then waits and polls the gateway once. The error
        of the switch write is dropped. */
    method HandleInputCommand(input: InputDiscoveryMessage, s: SetInputMessage, outcome: WriteError)
      requires CanHandle(nodesByAddress, input)
      modifies this`trace, this`outputValues
      ensures trace == old(trace) + CommandEffects(nodesByAddress, input, s)
    {
      if input.inputType == InputTypeSwitch {
        var _ := SwitchOnOff(input, s.value, outcome);
      }
      Sleep();
      Poll();
    }
  }

  /** The switch scenario: a deck light registered at its address is sent
      "false" and then "true", whatever the gateway answers. The trace of a
      fresh application then holds the OFF write before the ON write and
      one poll after each command. */
  method SwitchOffThenOn(address: string, outcome1: WriteError, outcome2: WriteError)
    returns (effects: seq<Effect>)
    ensures Writes(effects) == [Write("15 2D A 1", false), Write("15 2D A 1", true)]
    ensures PollCount(effects) == 2
  {
    var nodes := map[address := "15 2D A 1"];
    var app := new IsyApp(nodes, map[]);
    var input := InputDiscoveryMessage(address, InputTypeSwitch);
    var off, on := SetInputMessage("false"), SetInputMessage("true");
    app.HandleInputCommand(input, off, outcome1);
    app.HandleInputCommand(input, on, outcome2);
    effects := app.trace;
    var commands := [(input, off), (input, on)];
    assert commands[1..] == [(input, on)] && commands[1..][1..] == [];
    assert effects == CommandEffects(nodes, input, off) + CommandEffects(nodes, input, on);
    assert SessionEffects(nodes, commands[1..]) == CommandEffects(nodes, input, on) + [];
    assert effects == SessionEffects(nodes, commands);
    OffThenOn(nodes, input);
  }
}
