# BiltemaController in Dafny

A model of the command-handling and actuation core of BiltemaController. This
Raspberry Pi program drives Biltema 35-392 radio outlets. Each outlet channel
has two GPIO lines, an off line and an on line. The program receives MQTT
commands, pulses the matching GPIO line, and confirms the new state over MQTT.

The model has five parts.

- `gpio.dfy` (module `Gpio`) holds the hardware as a map from line number to
  level (`Low`/`High`) and a trace of events. An event is a line setup, a
  write, a wait, a publish or a log line. `Apply` replays a trace onto levels.
  `Safe` says that at every moment of a trace at most one line of a given set
  is HIGH.
- `topology.dfy` (module `Topology`) holds the pin map. It is a sequence of
  (key, (off, on)) entries, in the order the Python dictionary iterates them.
  It also holds the `pins[channel]` lookup, the channel topic list and the
  writes of the start-up loop and of the actuator's reset loop.
- `dispatch.dfy` (module `Dispatch`) makes the per-message decision as a pure
  function `Decide`. It models `split(',')`, `removeprefix` and the token
  comparisons. The outcomes are `DecodeError`, `UnknownTopic`, `UnknownState`
  and `Trigger(channel, desired, confirmTopic, token)`.
- `controller.dfy` (module `Controller`) gives the trace of each step: a
  trigger, one pass of the main loop, and the loop over a queue. Its class
  `Controller` holds the program's global state: the pin map, the MQTT State
  configuration, the GPIO levels, `msgQ` and the trace. Its methods run the
  same loops line by line, and each method is proved to produce exactly the
  trace its specification function gives. `Valid()` ties the levels to the
  trace. `Idle()` says that every line of the pin map is LOW.
- `scenarios.dfy` (module `Scenarios`) works through concrete runs on one
  channel `"1"` with lines 5 and 6.

Channel keys are `Name(string)` or `Number(int)`, because the pin map is a
Python literal. The main loop passes the channel to `triggerChannel` as the
string that `removeprefix` returns. A pin map with integer keys therefore
never matches in `pins[channel]`. The `KeyError` happens after the reset loop,
and `triggerChannel` swallows it. The confirmation is then published anyway,
although no line was pulsed. `NumberKeysNeverPulse` states this, and
`NamedChannelPulses` states that string keys always find their channel.

Inputs that the program reads from outside are parameters: the configuration
values, the pin map, the hardware levels before start-up, and the received
messages (topic and payload). There is no clock.

## Model

| member | source | states |
|---|---|---|
| `Topology.StartupLowersAll` | biltemacontroller.py:51-55 | after the start-up loop, both lines of every channel are LOW, from any prior hardware state; start-up drives no line HIGH and publishes nothing |
| `Topology.StartupActsAsReset` | biltemacontroller.py:51-55 | start-up leaves the levels exactly as the reset loop does, because configuring a line as an output does not change its level |
| `Controller.Controller.SetupPins` | biltemacontroller.py:51-55 | the loop over `pins.values()` emits setup and LOW for the off line, then for the on line, of each channel in order; afterwards the controller is idle (every line LOW) |
| `Controller.Controller.constructor` | biltemacontroller.py:49-55 | the process starts with an empty queue, its trace is exactly the start-up trace, and every line of the pin map is LOW |
| `Topology.ResetLowersAll` | biltemacontroller.py:60-63 | the reset loop drives every line of the pin map LOW, whatever the levels were, and drives nothing HIGH |
| `Topology.StartupTrace` | biltemacontroller.py:51-55 | definition: per entry, in order, setup and LOW for the off line, then for the on line; its properties are `StartupLowersAll`, `StartupActsAsReset` and `StartupSetsUpAll` |
| `Topology.StartupSetsUpAll` | biltemacontroller.py:51-55 | start-up sets up both lines of every channel as outputs, writes only lines of the pin map, and sets each line up before writing it |
| `Topology.ResetTrace` | biltemacontroller.py:60-63 | definition: per entry, in order, LOW on the off line, then on the on line; its properties are `ResetLowersAll` and `ResetWritesWithin` |
| `Topology.ResetWritesWithin` | biltemacontroller.py:60-63 | the reset loop writes only lines of the pin map |
| `Topology.ChannelTopics` | biltemacontroller.py:82-83 | definition: topicPrefix + str(key) for each key, in dictionary order; `Dispatch.Decide` and `Dispatch.CommandForChannel` state how topic membership decides a message |
| `Topology.KeyText` | biltemacontroller.py:82-83 | definition: str(channel), the key itself for a string key and its decimal text for an integer key; `Controller.NumberKeysNeverPulse` states what integer keys lead to |
| `Topology.IntText` | biltemacontroller.py:82-83 | definition: str(n) for a Python int, a minus sign then the decimal digits for a negative n |
| `Topology.Lookup` | biltemacontroller.py:68 | `pins[channel]` for a string channel finds a pair exactly when some key is that string, and the pair it returns belongs to that key; otherwise the lookup fails (KeyError) |
| `Topology.LookupAt` | biltemacontroller.py:68 | with distinct keys, looking up the string key of entry i returns entry i's pair |
| `Controller.PulseTrace` | biltemacontroller.py:68-76 | definition: HIGH on the target, wait, LOW, wait; its property is `PulseEvents` |
| `Controller.ActuationTrace` | biltemacontroller.py:65-78 | definition: after the reset, the pulse on `pins[channel][state]`, or the logged error when the key is missing; its properties are in `TriggerLowersAll` |
| `Controller.TriggerTrace` | biltemacontroller.py:57-78 | definition: the reset loop followed by the actuation; its properties are `TriggerLowersAll`, `RaisedAlone`, `RaisedAloneByRole` and `TriggerWritesWithin` |
| `Controller.TriggerWritesWithin` | biltemacontroller.py:57-78 | a trigger writes only lines of the pin map, because a found pair is an entry of the map |
| `Controller.PulseEvents` | biltemacontroller.py:68-76 | the pulse HIGH, wait, LOW, wait drives only its target HIGH and leaves it LOW |
| `Controller.TriggerLowersAll` | biltemacontroller.py:57-78 | a trigger drives HIGH only `pins[channel][state]` (the on line when state is true, the off line when false), or nothing when the key is missing; it publishes nothing; every line is LOW when it returns |
| `Controller.RaisedAlone` | biltemacontroller.py:60-68 | at the moment the target goes HIGH, which is a prefix of the trigger's trace, every other line of the pin map is LOW, from any prior state |
| `Controller.RaisedAloneByRole` | biltemacontroller.py:60-68 | with distinct keys and distinct lines, at that moment the line of every other (channel, role) pair is LOW, including the other role of the same channel |
| `Controller.Controller.TriggerChannel` | biltemacontroller.py:57-78 | the method's trace is the reset loop, then either a logged error (missing key) or HIGH(target), Wait, LOW(target), Wait; the actuator is idle afterwards |
| `Dispatch.FirstField` | biltemacontroller.py:181-182 | the first field is a prefix of the payload, contains no comma, and ends at the first comma or at the end of the payload |
| `Dispatch.FirstFieldUnique` | biltemacontroller.py:181-182 | those three properties determine the first field uniquely |
| `Dispatch.Split` | biltemacontroller.py:181 | `split(',')` returns at least one field, and no field contains a comma |
| `Dispatch.JoinSplit` | biltemacontroller.py:181 | joining the fields of a payload with commas gives the payload back |
| `Dispatch.SplitJoin` | biltemacontroller.py:181 | splitting comma-free fields joined with commas gives the fields back |
| `Dispatch.RemovePrefix` | biltemacontroller.py:189 | `removeprefix` returns the rest after the prefix when the string starts with it, and the string unchanged otherwise |
| `Dispatch.Decide` | biltemacontroller.py:176-198 | a decode failure is a handling error; a topic that equals topicPrefix + str(key) for no key is an unknown topic, carrying that topic; an unknown state comes from a decoded payload on a known topic and carries its first field, which is neither token; a trigger comes from a decoded payload on some key's topic, names that key's str(key) as its channel, and carries the payload's first field, which is one of the two tokens; desired is (token == payloadOn); the confirmation topic is topic + topicStateSuffix |
| `Dispatch.CommandForChannel` | biltemacontroller.py:82-83 | a command on topicPrefix + str(k) whose first field is a token triggers channel str(k), with desired (token == payloadOn) and the confirmation on that topic plus the suffix carrying the token |
| `Dispatch.TrailingFieldsIgnored` | biltemacontroller.py:181-182 | fields after the first comma never change the decision |
| `Controller.HandleEffects` | biltemacontroller.py:176-202 | one pass publishes exactly one confirmation (topic + suffix, token) for a trigger and none otherwise; it drives HIGH only `pins[channel][desired]`; a rejected message's whole pass is one diagnostic: the handling error for an undecodable payload, "Unknown topic" with the topic, or "Unknown state" with the payload's first field |
| `Controller.HandleKeepsIdle` | biltemacontroller.py:171-202 | from an idle state, at no moment of one pass are two lines HIGH, and the pass ends idle |
| `Controller.Controller.HandleMessage` | biltemacontroller.py:174-202 | the imperative pass (decode, topic membership, split, compare, trigger, publish or log) produces exactly the trace of `Decide`'s outcome, keeps the controller idle, and is safe |
| `Controller.HandleTrace` | biltemacontroller.py:176-202 | definition: the pass as events for each outcome of `Decide`, the trigger and its confirmation, or one diagnostic; its properties are `HandleEffects` and `HandleKeepsIdle` |
| `Controller.RunTrace` | biltemacontroller.py:171-202 | definition: the passes of the queued messages, oldest first; its properties are `RunKeepsIdle`, `RunConfirms`, `RunPulses`, `RunWritesWithin` and `SetUpBeforeEveryWrite` |
| `Controller.RunWritesWithin` | biltemacontroller.py:171-202 | the main loop writes only lines of the pin map |
| `Controller.SetUpBeforeEveryWrite` | biltemacontroller.py:51-202 | over start-up then the main loop, no line is written before it has been set up as an output |
| `Controller.Controller.Emit` | biltemacontroller.py:144-146 | one observable action (a GPIO setup or write, a sleep, a publish, a log line) is appended to the trace, and the levels take exactly that action's effect |
| `Controller.Controller.OnMessage` | biltemacontroller.py:136-142 | `on_message` appends the message to the back of the queue and changes nothing else |
| `Controller.RunTraceConcat` | biltemacontroller.py:140 | processing queued messages a and then b gives the same trace as processing a + b, so arrivals interleaved with processing still yield the FIFO trace |
| `Controller.RunTraceSnoc` | biltemacontroller.py:174 | handling one more message extends the trace by that message's pass |
| `Controller.Controller.Run` | biltemacontroller.py:171-202 | the loop takes every queued message exactly once, oldest first; the trace is the concatenation of their passes; a failing message does not stop later ones; the loop is safe and ends idle with an empty queue |
| `Controller.RunKeepsIdle` | biltemacontroller.py:171-202 | from an idle state, at no moment of the loop are two lines of the pin map HIGH, and every line is LOW when the queue is drained |
| `Controller.SafeAfterStartup` | biltemacontroller.py:51-78 | whatever the hardware state before start-up, no two lines of the pin map are ever HIGH together from the end of start-up on |
| `Controller.RunConfirms` | biltemacontroller.py:188-194 | the loop publishes exactly one confirmation per accepted command, in arrival order, and none for rejected messages; a trigger whose lookup failed is still confirmed |
| `Controller.RunPulses` | biltemacontroller.py:188-190 | the lines the loop drives HIGH are exactly `pins[channel][desired]` of each accepted command whose channel is found, in arrival order |
| `Controller.NamedChannelPulses` | biltemacontroller.py:82-83 | with string keys, every accepted command pulses exactly one line: the line of the entry whose command topic the message came on, for the desired state |
| `Controller.NumberKeysNeverPulse` | biltemacontroller.py:189 | with integer keys, no command ever drives a line HIGH, yet every accepted command is confirmed |
| `Controller.NoPulsesWithoutNames` | biltemacontroller.py:68 | with integer keys, no decision finds its channel in the pin map |
| `Scenarios.CommandOn` | biltemacontroller.py:180-194 | "ON" on cmd/1 with pin map {"1": (5, 6)} resets lines 5 and 6, pulses 6, and publishes "ON" on cmd/1/state |
| `Scenarios.CommandOff` | biltemacontroller.py:180-194 | "OFF" on cmd/1 pulses line 5 instead |
| `Scenarios.CommandToggle` | biltemacontroller.py:195-196 | "TOGGLE" on cmd/1 only logs an unknown state |
| `Scenarios.UnknownTopicOnly` | biltemacontroller.py:197-198 | a message on cmd/2 only logs an unknown topic |
| `Scenarios.BackToBack` | biltemacontroller.py:171-194 | ON then OFF: the ON pulse and both its waits finish before the OFF pulse's reset begins, and each command is confirmed in turn |

## Left out

- MQTT client setup, connection, `on_connect` subscriptions and the online message, last will, `loop_start` and disconnect (biltemacontroller.py:116-134, 144-162 and 170) are network plumbing over a library whose code is not part of this model. Publishing is a `Publish` event in the trace.
- `sendMessage`'s own log line and its `retain` flag are not recorded. A confirmation is one `Publish(topic, payload)` event.
- The network wait loop (biltemacontroller.py:105-114) is I/O with nothing to state.
- Command line, configuration file and `ast.literal_eval` parsing (biltemacontroller.py:24-49) are left out. The pin map and the MQTT State values are parameters. A pin map literal whose keys are not strings or integers, or whose entries are not (off, on) pairs, is not modelled.
- `log` and its file writes (biltemacontroller.py:89-101) are I/O. Only which diagnostic is logged is kept, as a `Log` event.
- `time.sleep(delay)` and the floating-point `triggerDelay` appear only as `Wait` events, in order, without durations.
- The `output=True` logging inside `triggerChannel` (biltemacontroller.py:65, 72) is left out, because every call uses the default `False`.
- SIGTERM handling, `KeyboardInterrupt` and the `finally` teardown with its offline message and `GPIO.cleanup()` (biltemacontroller.py:164-166 and 199-210) are process signals and library calls. The source has no draining state. `sys.exit` raises `SystemExit`, which `except Exception` does not catch, so a signal arriving during a pulse ends the loop without finishing the pulse.
- The receive thread and the main thread are not modelled as concurrent: the queue is one sequence. `RunTraceConcat` shows that enqueueing between passes does not change the FIFO trace.
- `Controller.Controller.Run`: it stops when the queue is empty, where the source blocks in `msgQ.get()` waiting for the next message.
- UTF-8 decoding is abstracted: a payload is either already-decoded text or `Malformed`. The `UnicodeDecodeError` case is the `DecodeError` decision, which is logged.
- Failures inside `GPIO.output`, `GPIO.setup` and `client.publish` are not modelled, because their library code is not part of this model. The only actuator error modelled is the missing key in `pins[channel]`.
- The source does not check the pin map. Nothing stops two channels from sharing a line. Line distinctness is therefore only a precondition of `RaisedAloneByRole` and appears nowhere else.
