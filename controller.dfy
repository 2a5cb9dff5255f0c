/**
 The controller process: start-up, the pulse state machine (the actuator),
 the message queue filled by the MQTT receive callback, and the main loop
 that drains it. The functions give the trace each step produces; the class
 Controller performs the steps one GPIO write at a time and is proved to
 produce exactly those traces.
 */
module Controller {
  import opened Gpio
  import opened Topology
  import opened Dispatch

  /** The pulse itself: drive t HIGH, hold, drive it LOW, hold again. */
  function PulseTrace(t: Line): seq<Event>
  {
    [Write(t, High), Wait, Write(t, Low), Wait]
  }

  /** triggerChannel(channel, state): the defensive reset, then the pulse on
      pins[channel][state]; a missing key raises after the reset, and the
      error is logged instead of the pulse. */
  function TriggerTrace(pins: Pins, channel: string, state: bool): seq<Event>
  {
    ResetTrace(pins) + ActuationTrace(pins, channel, state)
  }

  /** What triggerChannel does after the reset: the pulse on
      pins[channel][state], or the logged KeyError. */
  function ActuationTrace(pins: Pins, channel: string, state: bool): seq<Event>
  {
    match Lookup(pins, channel)
    case None => [Log(TriggerFailed)]
    case Some(p) => PulseTrace(LineFor(p, state))
  }

  /** One pass of the main loop over message m. */
  function HandleTrace(cfg: Config, pins: Pins, m: Message): seq<Event>
  {
    match Decide(cfg, pins, m)
    case DecodeError => [Log(HandlingFailed)]
    case UnknownTopic(topic) => [Log(TopicUnknown(topic))]
    case UnknownState(state) => [Log(StateUnknown(state))]
    case Trigger(channel, desired, confirmTopic, token) =>
      TriggerTrace(pins, channel, desired) + [Publish(confirmTopic, token)]
  }

  /** The main loop over the messages ms, oldest first, each handled once. */
  function RunTrace(cfg: Config, pins: Pins, ms: seq<Message>): seq<Event>
  {
    if ms == [] then [] else HandleTrace(cfg, pins, ms[0]) + RunTrace(cfg, pins, ms[1..])
  }

  /** The confirmation a decision calls for: one for a trigger, none otherwise. */
  function ConfirmationOf(d: Decision): seq<(string, string)>
  {
    if d.Trigger? then [(d.confirmTopic, d.token)] else []
  }

  /** The line a decision pulses: pins[channel][state] for a trigger whose
      channel string is a key of the pin map, none otherwise. */
  function PulseOf(pins: Pins, d: Decision): seq<Line>
  {
    if d.Trigger? && Lookup(pins, d.channel).Some? then [LineFor(Lookup(pins, d.channel).value, d.desired)]
    else []
  }

  /** The confirmations the messages ms call for, in order. */
  function Confirmations(cfg: Config, pins: Pins, ms: seq<Message>): seq<(string, string)>
  {
    if ms == [] then [] else ConfirmationOf(Decide(cfg, pins, ms[0])) + Confirmations(cfg, pins, ms[1..])
  }

  /** The lines the messages ms pulse, in order. */
  function Pulses(cfg: Config, pins: Pins, ms: seq<Message>): seq<Line>
  {
    if ms == [] then [] else PulseOf(pins, Decide(cfg, pins, ms[0])) + Pulses(cfg, pins, ms[1..])
  }

  /** The pulse, event by event. */
  lemma PulseEvents(levels: Levels, t: Line)
    ensures Apply(levels, PulseTrace(t)) == levels[t := Low]
    ensures HighWrites(PulseTrace(t)) == [t] && Published(PulseTrace(t)) == []
  {
    var es := PulseTrace(t);
    var s1, s2, s3 := es[1..], es[2..], es[3..];
    assert s1[1..] == s2 && s2[1..] == s3 && s3[1..] == [];
    var high, low := levels[t := High], levels[t := High][t := Low];
    assert Apply(levels, es) == Apply(high, s1);
    assert Apply(high, s1) == Apply(high, s2);
    assert Apply(high, s2) == Apply(low, s3);
    assert Apply(low, s3) == Apply(low, []) == low;
    assert low == levels[t := Low];
    assert HighWrites(s1) == HighWrites(s2) == HighWrites(s3) == [];
    assert Published(es) == Published(s1) == Published(s2) == Published(s3) == [];
  }

  /** A trigger only ever drives its target HIGH, pins[channel][state], or
      nothing when the key is missing; it publishes nothing; every line of
      the pin map is LOW when it returns, whatever the levels were before. */
  lemma TriggerLowersAll(pins: Pins, levels: Levels, channel: string, state: bool)
    ensures HighWrites(TriggerTrace(pins, channel, state)) ==
      match Lookup(pins, channel)
      case None => []
      case Some(p) => [LineFor(p, state)]
    ensures Published(TriggerTrace(pins, channel, state)) == []
    ensures AllLow(Apply(levels, TriggerTrace(pins, channel, state)), Lines(pins))
  {
    var reset := ResetTrace(pins);
    var tail := ActuationTrace(pins, channel, state);
    ResetLowersAll(pins, levels);
    ApplyConcat(levels, reset, tail);
    HighWritesConcat(reset, tail);
    PublishedConcat(reset, tail);
    var afterReset := Apply(levels, reset);
    match Lookup(pins, channel)
    case None =>
      assert tail == [Log(TriggerFailed)];
      assert tail[1..] == [];
    case Some(p) =>
      PulseEvents(afterReset, LineFor(p, state));
  }

  /** The moment a trigger drives its target HIGH, every other line of the
      pin map is LOW, whatever the levels were before the trigger. */
  lemma RaisedAlone(pins: Pins, levels: Levels, channel: string, state: bool)
    requires Lookup(pins, channel).Some?
    ensures var t := LineFor(Lookup(pins, channel).value, state);
      var raised := ResetTrace(pins) + [Write(t, High)];
      && raised <= TriggerTrace(pins, channel, state)
      && IsHigh(Apply(levels, raised), t)
      && forall l :: l in Lines(pins) && l != t ==> IsLow(Apply(levels, raised), l)
  {
    var t := LineFor(Lookup(pins, channel).value, state);
    var raised := ResetTrace(pins) + [Write(t, High)];
    ResetLowersAll(pins, levels);
    ApplySnoc(levels, ResetTrace(pins), Write(t, High));
  }

  /** With distinct keys and distinct lines, when the trigger for entry i
      drives LineFor(pins[i].1, state) HIGH, the line of every other role of
      every channel, the other role of channel i included, is LOW. */
  lemma RaisedAloneByRole(pins: Pins, levels: Levels, i: nat, state: bool)
    requires KeysDistinct(pins) && LinesDistinct(pins)
    requires i < |pins| && pins[i].0.Name?
    ensures var t := LineFor(pins[i].1, state);
      var raised := ResetTrace(pins) + [Write(t, High)];
      && raised <= TriggerTrace(pins, pins[i].0.name, state)
      && IsHigh(Apply(levels, raised), t)
      && forall j, other: bool :: 0 <= j < |pins| && (j != i || other != state) ==>
           IsLow(Apply(levels, raised), LineFor(pins[j].1, other))
  {
    LookupAt(pins, i);
    RaisedAlone(pins, levels, pins[i].0.name, state);
    forall j, other: bool | 0 <= j < |pins| && (j != i || other != state)
      ensures LineFor(pins[j].1, other) in Lines(pins)
    {
      LineForInLines(pins, j, other);
    }
  }

  /** The controller is idle, every line of the pin map LOW, between two
      messages; while one message is handled, at no moment are two lines of
      the pin map HIGH. */
  lemma HandleKeepsIdle(cfg: Config, pins: Pins, levels: Levels, m: Message)
    requires AllLow(levels, Lines(pins))
    ensures Safe(levels, HandleTrace(cfg, pins, m), Lines(pins))
    ensures AllLow(Apply(levels, HandleTrace(cfg, pins, m)), Lines(pins))
  {
    var d := Decide(cfg, pins, m);
    var es := HandleTrace(cfg, pins, m);
    if d.Trigger? {
      assert es == TriggerTrace(pins, d.channel, d.desired) + [Publish(d.confirmTopic, d.token)];
      ConfirmedTriggerKeepsIdle(pins, levels, d.channel, d.desired, Publish(d.confirmTopic, d.token));
    } else {
      assert |es| == 1 && !es[0].Write?;
      assert Apply(levels, es) == levels;
      SingleTargetSafe(levels, es, Lines(pins), 0);
    }
  }

  /** A trigger followed by its confirmation, from an idle state, is safe and
      ends idle. */
  lemma ConfirmedTriggerKeepsIdle(pins: Pins, levels: Levels, channel: string, state: bool, confirm: Event)
    requires AllLow(levels, Lines(pins)) && confirm.Publish?
    ensures Safe(levels, TriggerTrace(pins, channel, state) + [confirm], Lines(pins))
    ensures AllLow(Apply(levels, TriggerTrace(pins, channel, state) + [confirm]), Lines(pins))
  {
    var trig := TriggerTrace(pins, channel, state);
    TriggerLowersAll(pins, levels, channel, state);
    var t := match Lookup(pins, channel) case None => 0 case Some(p) => LineFor(p, state);
    SingleTargetSafe(levels, trig, Lines(pins), t);
    var after := Apply(levels, trig);
    assert Apply(after, [confirm]) == after;
    ApplyConcat(levels, trig, [confirm]);
    SingleTargetSafe(after, [confirm], Lines(pins), t);
    SafeConcat(levels, trig, [confirm], Lines(pins));
  }

  lemma {:induction false} RunTraceConcat(cfg: Config, pins: Pins, a: seq<Message>, b: seq<Message>)
    ensures RunTrace(cfg, pins, a + b) == RunTrace(cfg, pins, a) + RunTrace(cfg, pins, b)
    decreases |a|
  {
    if a == [] {
      assert a + b == b;
    } else {
      assert (a + b)[0] == a[0];
      assert (a + b)[1..] == a[1..] + b;
      RunTraceConcat(cfg, pins, a[1..], b);
    }
  }

  /** Regrouping a trace built in three parts. Stated on its own, this costs
      the verifier little; asserted inline inside the loops of Controller, it
      does not fit the resource limit. */
  lemma AppendAssoc(a: seq<Event>, b: seq<Event>, c: seq<Event>)
    ensures a + b + c == a + (b + c)
  {
  }

  /** Handling one more message extends the trace by that message's pass. */
  lemma RunTraceSnoc(cfg: Config, pins: Pins, ms: seq<Message>, m: Message)
    ensures RunTrace(cfg, pins, ms + [m]) == RunTrace(cfg, pins, ms) + HandleTrace(cfg, pins, m)
  {
    RunTraceConcat(cfg, pins, ms, [m]);
    assert [m][1..] == [];
  }

  /** From an idle start, the main loop never has two lines of the pin map
      HIGH at once, and it is idle again when the queue is drained. */
  lemma {:induction false} RunKeepsIdle(cfg: Config, pins: Pins, levels: Levels, ms: seq<Message>)
    requires AllLow(levels, Lines(pins))
    ensures Safe(levels, RunTrace(cfg, pins, ms), Lines(pins))
    ensures AllLow(Apply(levels, RunTrace(cfg, pins, ms)), Lines(pins))
    decreases |ms|
  {
    if ms == [] {
      SingleTargetSafe(levels, [], Lines(pins), 0);
    } else {
      var first := HandleTrace(cfg, pins, ms[0]);
      HandleKeepsIdle(cfg, pins, levels, ms[0]);
      RunKeepsIdle(cfg, pins, Apply(levels, first), ms[1..]);
      SafeConcat(levels, first, RunTrace(cfg, pins, ms[1..]), Lines(pins));
      ApplyConcat(levels, first, RunTrace(cfg, pins, ms[1..]));
    }
  }

  /** Whatever the levels of the lines before the process starts, from the
      end of start-up on no two lines of the pin map are ever HIGH together. */
  lemma SafeAfterStartup(cfg: Config, pins: Pins, hardware: Levels, ms: seq<Message>)
    ensures Safe(Apply(hardware, StartupTrace(pins)), RunTrace(cfg, pins, ms), Lines(pins))
  {
    StartupLowersAll(pins, hardware);
    RunKeepsIdle(cfg, pins, Apply(hardware, StartupTrace(pins)), ms);
  }

  /** A trigger writes only lines of the pin map. */
  lemma TriggerWritesWithin(pins: Pins, channel: string, state: bool)
    ensures WritesWithin(TriggerTrace(pins, channel, state), Lines(pins))
  {
    ResetWritesWithin(pins);
    var tail := ActuationTrace(pins, channel, state);
    match Lookup(pins, channel)
    case None =>
      assert tail == [Log(TriggerFailed)];
    case Some(p) =>
      var i :| 0 <= i < |pins| && pins[i] == (Name(channel), p);
      LineForInLines(pins, i, state);
      assert tail == PulseTrace(LineFor(p, state));
    WritesWithinConcat(ResetTrace(pins), tail, Lines(pins));
  }

  /** The main loop writes only lines of the pin map. */
  lemma {:induction false} RunWritesWithin(cfg: Config, pins: Pins, ms: seq<Message>)
    ensures WritesWithin(RunTrace(cfg, pins, ms), Lines(pins))
    decreases |ms|
  {
    if ms != [] {
      var d := Decide(cfg, pins, ms[0]);
      var first := HandleTrace(cfg, pins, ms[0]);
      if d.Trigger? {
        var trig := TriggerTrace(pins, d.channel, d.desired);
        assert first == trig + [Publish(d.confirmTopic, d.token)];
        TriggerWritesWithin(pins, d.channel, d.desired);
        WritesWithinConcat(trig, [Publish(d.confirmTopic, d.token)], Lines(pins));
      } else {
        assert |first| == 1 && !first[0].Write?;
      }
      RunWritesWithin(cfg, pins, ms[1..]);
      WritesWithinConcat(first, RunTrace(cfg, pins, ms[1..]), Lines(pins));
    }
  }

  /** Over the whole life of the process, start-up then the main loop, no line
      is written before it has been set up as an output. */
  lemma SetUpBeforeEveryWrite(cfg: Config, pins: Pins, ms: seq<Message>)
    ensures SetUpBeforeWrite(StartupTrace(pins) + RunTrace(cfg, pins, ms))
  {
    StartupSetsUpAll(pins);
    RunWritesWithin(cfg, pins, ms);
    SetUpCovers(StartupTrace(pins), RunTrace(cfg, pins, ms), Lines(pins));
  }

  /** Handling one message publishes exactly the confirmation its decision
      calls for and drives HIGH exactly the line its decision pulses; a
      rejected message leaves one diagnostic and touches no line. */
  lemma HandleEffects(cfg: Config, pins: Pins, m: Message)
    ensures Published(HandleTrace(cfg, pins, m)) == ConfirmationOf(Decide(cfg, pins, m))
    ensures HighWrites(HandleTrace(cfg, pins, m)) == PulseOf(pins, Decide(cfg, pins, m))
    ensures m.payload.Malformed? ==> HandleTrace(cfg, pins, m) == [Log(HandlingFailed)]
    ensures Decide(cfg, pins, m).UnknownTopic? ==> HandleTrace(cfg, pins, m) == [Log(TopicUnknown(m.topic))]
    ensures Decide(cfg, pins, m).UnknownState? ==>
      HandleTrace(cfg, pins, m) == [Log(StateUnknown(FirstField(m.payload.text)))]
  {
    var d := Decide(cfg, pins, m);
    var es := HandleTrace(cfg, pins, m);
    if d.Trigger? {
      var trig := TriggerTrace(pins, d.channel, d.desired);
      var confirm := [Publish(d.confirmTopic, d.token)];
      assert es == trig + confirm;
      TriggerLowersAll(pins, map[], d.channel, d.desired);
      PublishedConcat(trig, confirm);
      HighWritesConcat(trig, confirm);
      assert confirm[1..] == [];
    } else {
      assert |es| == 1 && es[0].Log? && es[1..] == [];
    }
  }

  /** The main loop publishes exactly one confirmation per accepted command,
      in the order the commands were received, and nothing for a message it
      rejects; a trigger that fails inside the actuator is still confirmed. */
  lemma {:induction false} RunConfirms(cfg: Config, pins: Pins, ms: seq<Message>)
    ensures Published(RunTrace(cfg, pins, ms)) == Confirmations(cfg, pins, ms)
    decreases |ms|
  {
    if ms != [] {
      PublishedConcat(HandleTrace(cfg, pins, ms[0]), RunTrace(cfg, pins, ms[1..]));
      HandleEffects(cfg, pins, ms[0]);
      RunConfirms(cfg, pins, ms[1..]);
    }
  }

  /** The main loop drives HIGH exactly the line pins[channel][state] of each
      accepted command whose channel is found, in order, and no other line. */
  lemma {:induction false} RunPulses(cfg: Config, pins: Pins, ms: seq<Message>)
    ensures HighWrites(RunTrace(cfg, pins, ms)) == Pulses(cfg, pins, ms)
    decreases |ms|
  {
    if ms != [] {
      HighWritesConcat(HandleTrace(cfg, pins, ms[0]), RunTrace(cfg, pins, ms[1..]));
      HandleEffects(cfg, pins, ms[0]);
      RunPulses(cfg, pins, ms[1..]);
    }
  }

  /** With string keys, every accepted command finds its channel: the line
      pulsed is the one of the entry whose command topic the message came on. */
  lemma NamedChannelPulses(cfg: Config, pins: Pins, m: Message)
    requires KeysDistinct(pins)
    requires forall j :: 0 <= j < |pins| ==> pins[j].0.Name?
    requires Decide(cfg, pins, m).Trigger?
    ensures exists i :: (0 <= i < |pins| && m.topic == cfg.topicPrefix + pins[i].0.name &&
      HighWrites(HandleTrace(cfg, pins, m)) == [LineFor(pins[i].1, Decide(cfg, pins, m).desired)])
  {
    var d := Decide(cfg, pins, m);
    var i :| 0 <= i < |pins| && m.topic == cfg.topicPrefix + KeyText(pins[i].0) &&
      d.channel == KeyText(pins[i].0);
    LookupAt(pins, i);
    HandleEffects(cfg, pins, m);
  }

  /** With integer keys, str(channel) is never a key, so no command ever
      pulses a line, yet every accepted command is still confirmed. */
  lemma NumberKeysNeverPulse(cfg: Config, pins: Pins, ms: seq<Message>)
    requires forall j :: 0 <= j < |pins| ==> pins[j].0.Number?
    ensures HighWrites(RunTrace(cfg, pins, ms)) == []
    ensures Published(RunTrace(cfg, pins, ms)) == Confirmations(cfg, pins, ms)
  {
    NoPulsesWithoutNames(cfg, pins, ms);
    RunPulses(cfg, pins, ms);
    RunConfirms(cfg, pins, ms);
  }

  lemma {:induction false} NoPulsesWithoutNames(cfg: Config, pins: Pins, ms: seq<Message>)
    requires forall j :: 0 <= j < |pins| ==> pins[j].0.Number?
    ensures Pulses(cfg, pins, ms) == []
    decreases |ms|
  {
    if ms != [] {
      NoPulsesWithoutNames(cfg, pins, ms[1..]);
    }
  }

  /** The process state of the controller: the pin map and configuration it
      started with, the GPIO levels, the message queue msgQ and the trace of
      everything done so far. */
  class Controller {
    const pins: Pins
    const config: Config
    /** The levels the controller has driven the lines to. */
    var levels: Levels
    /** Received messages not yet handled, oldest first. */
    var msgQ: seq<Message>
    /** Every event so far, oldest first. */
    var trace: seq<Event>
    /** The levels of the lines before the process started. */
    ghost const hardware: Levels

    /** The levels are exactly what the writes in the trace made of hardware. */
    ghost predicate Valid()
      reads this
    {
      KeysDistinct(pins) && levels == Apply(hardware, trace)
    }

    /** The actuator is idle: every line of the pin map is LOW. */
    ghost predicate Idle()
      reads this
    {
      AllLow(levels, Lines(pins))
    }

    /** Process start: the pin map is read, every line is set up as an
        output and driven LOW, and the queue is empty. */
    constructor (pins: Pins, config: Config, hardware: Levels)
      requires KeysDistinct(pins)
      ensures this.pins == pins && this.config == config && this.hardware == hardware
      ensures Valid() && Idle()
      ensures msgQ == [] && trace == StartupTrace(pins)
    {
      this.pins := pins;
      this.config := config;
      this.hardware := hardware;
      levels := hardware;
      msgQ := [];
      trace := [];
      new;
      SetupPins();
    }

    /** One GPIO call, sleep, publish or log line. */
    method Emit(e: Event)
      requires Valid()
      modifies this
      ensures Valid() && trace == old(trace) + [e] && levels == Step(old(levels), e)
      ensures msgQ == old(msgQ)
    {
      ApplySnoc(hardware, trace, e);
      levels := Step(levels, e);
      trace := trace + [e];
    }

    /** The start-up loop over pins.values(). */
    method SetupPins()
      requires Valid()
      modifies this
      ensures Valid() && Idle()
      ensures trace == old(trace) + StartupTrace(pins) && msgQ == old(msgQ)
    {
      var i := 0;
      while i < |pins|
        invariant 0 <= i <= |pins|
        invariant Valid() && msgQ == old(msgQ)
        invariant trace == old(trace) + StartupTrace(pins[..i])
      {
        var pin := pins[i].1;
        ghost var before := trace;
        Emit(Setup(pin.off));
        Emit(Write(pin.off, Low));
        Emit(Setup(pin.on));
        Emit(Write(pin.on, Low));
        assert trace == before + [Setup(pin.off), Write(pin.off, Low), Setup(pin.on), Write(pin.on, Low)];
        StartupTraceSnoc(pins, i);
        i := i + 1;
      }
      assert pins[..i] == pins;
      ApplyConcat(hardware, old(trace), StartupTrace(pins));
      StartupLowersAll(pins, old(levels));
    }

    /** triggerChannel(channel, state). */
    method TriggerChannel(channel: string, state: bool)
      requires Valid()
      modifies this
      ensures Valid() && Idle()
      ensures trace == old(trace) + TriggerTrace(pins, channel, state) && msgQ == old(msgQ)
    {
      var i := 0;
      while i < |pins|
        invariant 0 <= i <= |pins|
        invariant Valid() && msgQ == old(msgQ)
        invariant trace == old(trace) + ResetTrace(pins[..i])
      {
        var pin := pins[i].1;
        ghost var before := trace;
        Emit(Write(pin.off, Low));
        Emit(Write(pin.on, Low));
        assert trace == before + [Write(pin.off, Low), Write(pin.on, Low)];
        ResetTraceSnoc(pins, i);
        i := i + 1;
      }
      assert pins[..i] == pins;
      ghost var afterReset := trace;
      match Lookup(pins, channel) {
        case None =>
          Emit(Log(TriggerFailed));
        case Some(pin) =>
          var target := LineFor(pin, state);
          Emit(Write(target, High));
          Emit(Wait);
          Emit(Write(target, Low));
          Emit(Wait);
      }
      assert trace == afterReset + ActuationTrace(pins, channel, state);
      AppendAssoc(old(trace), ResetTrace(pins), ActuationTrace(pins, channel, state));
      assert old(levels) == Apply(hardware, old(trace));
      ApplyConcat(hardware, old(trace), TriggerTrace(pins, channel, state));
      assert levels == Apply(old(levels), TriggerTrace(pins, channel, state));
      TriggerLowersAll(pins, old(levels), channel, state);
    }

    /** on_message: put the message at the back of the queue. */
    method OnMessage(m: Message)
      modifies this
      ensures msgQ == old(msgQ) + [m]
      ensures trace == old(trace) && levels == old(levels)
    {
      msgQ := msgQ + [m];
    }

    /** One pass of the main loop, for a message already taken off the queue. */
    method HandleMessage(m: Message)
      requires Valid() && Idle()
      modifies this
      ensures Valid() && Idle()
      ensures trace == old(trace) + HandleTrace(config, pins, m) && msgQ == old(msgQ)
      ensures Safe(old(levels), HandleTrace(config, pins, m), Lines(pins))
    {
      ghost var d := Decide(config, pins, m);
      match m.payload {
        case Malformed =>
          Emit(Log(HandlingFailed));
        case Utf8(payload) =>
          if m.topic in ChannelTopics(config.topicPrefix, pins) {
            var values := Split(payload);
            var state := values[0];
            if state == config.payloadOn || state == config.payloadOff {
              var channel := RemovePrefix(m.topic, config.topicPrefix);
              assert d == Trigger(channel, state == config.payloadOn, m.topic + config.topicStateSuffix, state);
              TriggerChannel(channel, state == config.payloadOn);
              Emit(Publish(m.topic + config.topicStateSuffix, state));
              assert HandleTrace(config, pins, m) ==
                TriggerTrace(pins, channel, state == config.payloadOn) + [Publish(d.confirmTopic, state)];
            } else {
              assert d == UnknownState(state);
              Emit(Log(StateUnknown(state)));
            }
          } else {
            assert d == UnknownTopic(m.topic);
            Emit(Log(TopicUnknown(m.topic)));
          }
      }
      assert trace == old(trace) + HandleTrace(config, pins, m);
      HandleKeepsIdle(config, pins, old(levels), m);
      ApplyConcat(hardware, old(trace), HandleTrace(config, pins, m));
    }

    /** The main loop: take messages off the front of the queue and handle
        each until the queue is empty. */
    method Run()
      requires Valid() && Idle()
      modifies this
      ensures Valid() && Idle() && msgQ == []
      ensures trace == old(trace) + RunTrace(config, pins, old(msgQ))
      ensures Safe(old(levels), RunTrace(config, pins, old(msgQ)), Lines(pins))
    {
      ghost var queued := msgQ;
      ghost var done := 0;
      while msgQ != []
        invariant Valid() && Idle()
        invariant 0 <= done <= |queued| && msgQ == queued[done..]
        invariant trace == old(trace) + RunTrace(config, pins, queued[..done])
        decreases |msgQ|
      {
        var msg := msgQ[0];
        msgQ := msgQ[1..];
        ghost var handled := queued[..done];
        HandleMessage(msg);
        assert queued[..done + 1] == handled + [msg];
        RunTraceSnoc(config, pins, handled, msg);
        AppendAssoc(old(trace), RunTrace(config, pins, handled), HandleTrace(config, pins, msg));
        done := done + 1;
      }
      assert queued[..done] == queued;
      RunKeepsIdle(config, pins, old(levels), queued);
    }
  }
}
