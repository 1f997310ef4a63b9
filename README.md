# ISY adapter: input-command translator

This project models how the ISY-99 gateway adapter handles a generic
"set input" command from the publishing layer (`internal/handleInput.go`).

- `Payload` (payload.dfy) holds the pure on/off decision. The payload `"0"`,
  or a payload that reads `"off"` or `"false"` in any casing, switches OFF.
  Every other string switches ON, including `""`, `"1"` and `" off"`,
  because nothing is trimmed. `ParseOnOff` follows the source's expression
  (`s == "0" || ToLower(s) == "off" || ToLower(s) == "false"`). Its contract
  ties it to `IsOffPayload`, an independent definition that spells out each
  accepted letter in lower or upper case and never mentions `ToLower`.
- `Effects` (effects.dfy) describes the gateway-side effects of one command
  as a sequence: an optional `Write(nodeId, on)`, then `Delay`, then `Poll`.
  Its lemmas say what that sequence promises. A write happens only for the
  switch input type. It goes to the node registered at the input's address
  and carries the mapped value. Every command ends with the delay and
  exactly one poll. For a series of commands, there is one poll per command
  and the writes come in command order.
- `IsyInput` (isy_app.dfy) is the application object. It is a class with
  the publisher's node registry (address to node ID), the output values it
  last published, and the trace of effects it has caused. `SwitchOnOff` and
  `HandleInputCommand` are methods. They are proved to append exactly the
  effects that `Effects` describes. `SwitchOnOff` changes nothing else: the
  registry and the published values stay as they are, and it returns the
  gateway's write outcome unchanged. `HandleInputCommand` drops that
  outcome. Its poll may publish new output values, so the model leaves the
  published values after a command open; it keeps only the registry fixed.

The gateway write's outcome is an input supplied by the caller, because
the gateway decides it. The write and the poll are recorded as events in
the trace.

The source looks up the node at the input's address and dereferences it
without a nil check (`internal/handleInput.go:41-42`). So `SwitchOnOff`
requires the address to be registered. For `HandleInputCommand`, the address
must be registered only when the input is a switch (`CanHandle`). The code
has no not-found error path at this point, so the model does not add one.

## Model

| member | source | states |
|---|---|---|
| Payload.ToLower | internal/handleInput.go:29 | the lower-cased payload has the payload's length and holds, at every position, the ASCII lower-case form of the payload's character there |
| Payload.LowerEqualsWordIff | internal/handleInput.go:29 | for a lower-case word w, `ToLower(s) == w` holds exactly when s spells w with each letter in lower or upper case (both directions) |
| Payload.ParseOnOff | internal/handleInput.go:27-31 | the payload maps to OFF if and only if it is `"0"` or spells `"off"` or `"false"` in any casing; every other payload maps to ON; the mapping is total |
| Payload.OffPayloads | internal/handleInput.go:24-31 | `"0"`, `"off"`, `"OFF"`, `"oFf"`, `"false"`, `"False"` and `"FALSE"` map to OFF |
| Payload.OnPayloads | internal/handleInput.go:27-31 | `""`, `"1"`, `"on"`, `"true"`, `" off"`, `"off "`, `"00"` and `"anything-else"` map to ON (liberal ON, no trimming) |
| Payload.CaseInsensitive | internal/handleInput.go:29 | two payloads that are equal up to the case of ASCII letters map to the same value |
| Payload.OffPayloadShape | internal/handleInput.go:27-31 | an OFF payload has length 1, 3 or 5 and uses only the characters of "0", "off" and "false" in either case, so a payload with a space or any other character maps to ON |
| Effects.SwitchWritesOnce | internal/handleInput.go:41-42 | a switch's effects are exactly one write and nothing else; the write goes to the node registered at the input's address and carries the value decided by the payload alone |
| Effects.CommandWritesOnlyForSwitch | internal/handleInput.go:57-63 | a command writes nothing unless its input type is the switch type; for a switch it writes exactly once, the mapped value, to the registered node |
| Effects.CommandEndsWithOnePoll | internal/handleInput.go:57-68 | whatever the input type, a command's effects end with the delay and then exactly one poll, and every effect before the delay is a write |
| Effects.SessionTrace | internal/handleInput.go:51-68 | handling a series of commands polls once per command and issues the requested writes, one per switch command, in command order |
| Effects.OffThenOn | internal/IsyApp_test.go:88-106 | sending "false" and then "true" to a switch input writes OFF and then ON to its node, with two polls |
| IsyInput.IsyApp.WriteOnOff | internal/handleInput.go:42 | one gateway write of (node ID, value) is appended to the trace; its error is the gateway's outcome |
| IsyInput.IsyApp.Sleep | internal/handleInput.go:67 | the propagation delay is appended to the trace |
| IsyInput.IsyApp.Poll | internal/handleInput.go:68 | one poll is appended to the trace; the published output values may change, to values the model leaves open |
| IsyInput.IsyApp.SwitchOnOff | internal/handleInput.go:25-47 | returns exactly the write's error with no retry; appends exactly one write, of the mapped value, to the node registered at the input's address; registry and published values are unchanged, so prior output values do not affect the write |
| IsyInput.IsyApp.HandleInputCommand | internal/handleInput.go:51-69 | appends exactly the command's effects: the switch write for the switch type only, then the delay, then one poll; returns nothing, so the write error is not surfaced; the registry is unchanged and the published values are left to the poll |
| IsyInput.SwitchOffThenOn | internal/IsyApp_test.go:64-106 | on a fresh application with the deck light "15 2D A 1" registered, sending "false" then "true" leaves a trace whose writes are OFF then ON and which holds two polls, whatever the gateway answers |

## Left out

- `strings.ToLower` is modelled for ASCII letters only. Go also lower-cases
  non-ASCII letters. The only non-ASCII letters whose lower case is ASCII
  are U+0130 (to `i`) and U+212A KELVIN SIGN (to `k`). Neither `i` nor `k`
  occurs in "off" or "false", so the ON/OFF decision is the same. Go strings
  are bytes; the model treats them as characters.
- Payload.ToLower: does not model Unicode case mapping of non-ASCII
  characters (see the line above).
- The value of the switch input type constant (`"switch"`) comes from the
  external publishing library, which is not part of this model. The
  library's input instance field is not modelled because the handler never
  reads it.
- The case where a switch command names an unregistered address is not
  modelled. The source dereferences a nil node at that point; the model
  requires the address to be registered instead.
- Logging (`app.logger`, `logrus`) is left out: it has no observable effect.
  That includes the read of the previous output value, which is kept in
  `SwitchOnOff` only as the logging read it is.
- `time.Sleep(300 * time.Millisecond)` is modelled as a `Delay` event
  without a duration.
- `Poll` and the gateway client (`WriteOnOff`, `ReadIsyGateway`,
  `ReadIsyNodes`) are defined in files that are not part of this model. The
  write is modelled as an event with a caller-supplied outcome. The poll is
  modelled as an event; what it reads and publishes is not modelled, so
  after a poll the published output values may be anything.
- IsyInput.IsyApp.Poll: keeps the node registry as it is. The real poll
  may register nodes it discovers on the gateway (the switch scenario
  relies on a first poll to find the deck light); the model instead starts
  from a registry given to the constructor.
- Confirmation of a write by a later poll is not modelled, because it
  belongs to the reconciler.
- `HandleConfigCommand` (`internal/handleConfig.go`) is not modelled. It only
  logs and returns nil.
- Concurrency between command handling and periodic polling is left out:
  the model is sequential.
