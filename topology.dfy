/**
 The pin map: which two GPIO lines belong to each channel, the MQTT command
 topics built from it, and the line writes that start-up and the actuator's
 defensive reset make over it.
 */
module Topology {
  import opened Gpio

  datatype Option<T> = None | Some(value: T)

  /** A key of the pin map. The map is a Python literal read from the
      configuration, so a channel may be keyed by a string or by an integer. */
  datatype ChannelKey = Name(name: string) | Number(number: int)

  /** The entry of a channel: index False (0) is its off line, index True (1)
      its on line. */
  datatype LinePair = LinePair(off: Line, on: Line)

  /** pin[state]: the line that a pulse towards state drives. */
  function LineFor(p: LinePair, state: bool): Line
  {
    if state then p.on else p.off
  }

  /** The pin map, its entries in the order the dictionary iterates them. */
  type Pins = seq<(ChannelKey, LinePair)>

  /** A dictionary never holds one key twice. */
  predicate KeysDistinct(pins: Pins)
  {
    forall i, j :: 0 <= i < j < |pins| ==> pins[i].0 != pins[j].0
  }

  /** No line serves two channels, or both roles of one channel. */
  predicate LinesDistinct(pins: Pins)
  {
    forall i, j, a: bool, b: bool ::
      0 <= i < |pins| && 0 <= j < |pins| && (i != j || a != b) ==>
        LineFor(pins[i].1, a) != LineFor(pins[j].1, b)
  }

  /** Every line that appears in the pin map. */
  function Lines(pins: Pins): set<Line>
  {
    if pins == [] then {} else {pins[0].1.off, pins[0].1.on} + Lines(pins[1..])
  }

  function DigitChar(d: nat): char
    requires d < 10
  {
    "0123456789"[d]
  }

  function NatText(n: nat): string
  {
    (if n < 10 then "" else NatText(n / 10)) + [DigitChar(n % 10)]
  }

  /** str(n) for a Python int. */
  function IntText(n: int): string
  {
    if n < 0 then "-" + NatText(-n) else NatText(n)
  }

  /** str(channel) for a key of the pin map. */
  function KeyText(k: ChannelKey): string
  {
    match k
    case Name(s) => s
    case Number(n) => IntText(n)
  }

  /** pins[channel] for a string channel: a string key equal to it, or a
      KeyError (None). A string is never equal to an integer key. */
  function Lookup(pins: Pins, channel: string): (r: Option<LinePair>)
    ensures r.Some? <==> exists i :: 0 <= i < |pins| && pins[i].0 == Name(channel)
    ensures r.Some? ==> exists i :: 0 <= i < |pins| && pins[i] == (Name(channel), r.value)
  {
    if pins == [] then None
    else if pins[0].0 == Name(channel) then Some(pins[0].1)
    else
      var r := Lookup(pins[1..], channel);
      assert forall i :: 0 < i < |pins| ==> pins[i] == pins[1..][i - 1];
      r
  }

  /** With distinct keys, the entry an index names is the one Lookup finds. */
  lemma LookupAt(pins: Pins, i: nat)
    requires KeysDistinct(pins) && i < |pins| && pins[i].0.Name?
    ensures Lookup(pins, pins[i].0.name) == Some(pins[i].1)
  {
    var r := Lookup(pins, pins[i].0.name);
    assert r.Some?;
    var j :| 0 <= j < |pins| && pins[j] == (pins[i].0, r.value);
    assert j == i;
  }

  /** channelTopics: the command topic of every channel, topicPrefix + str(channel). */
  function ChannelTopics(prefix: string, pins: Pins): seq<string>
  {
    seq(|pins|, i requires 0 <= i < |pins| => prefix + KeyText(pins[i].0))
  }

  /** Both lines of every entry are lines of the pin map. */
  lemma {:induction false} LineForInLines(pins: Pins, i: nat, state: bool)
    requires i < |pins|
    ensures LineFor(pins[i].1, state) in Lines(pins)
    decreases i
  {
    if i > 0 {
      LineForInLines(pins[1..], i - 1, state);
    }
  }

  /** The Python start-up loop: each line is set up as an output and driven
      LOW, off line first, channel by channel. */
  function StartupTrace(pins: Pins): seq<Event>
  {
    if pins == [] then []
    else
      var p := pins[0].1;
      [Setup(p.off), Write(p.off, Low), Setup(p.on), Write(p.on, Low)] + StartupTrace(pins[1..])
  }

  /** The actuator's defensive reset: every line driven LOW, off line first,
      channel by channel. */
  function ResetTrace(pins: Pins): seq<Event>
  {
    if pins == [] then []
    else [Write(pins[0].1.off, Low), Write(pins[0].1.on, Low)] + ResetTrace(pins[1..])
  }

  lemma {:induction false} StartupTraceConcat(a: Pins, b: Pins)
    ensures StartupTrace(a + b) == StartupTrace(a) + StartupTrace(b)
    decreases |a|
  {
    if a == [] {
      assert a + b == b;
    } else {
      assert (a + b)[0] == a[0];
      assert (a + b)[1..] == a[1..] + b;
      StartupTraceConcat(a[1..], b);
    }
  }

  lemma {:induction false} ResetTraceConcat(a: Pins, b: Pins)
    ensures ResetTrace(a + b) == ResetTrace(a) + ResetTrace(b)
    decreases |a|
  {
    if a == [] {
      assert a + b == b;
    } else {
      assert (a + b)[0] == a[0];
      assert (a + b)[1..] == a[1..] + b;
      ResetTraceConcat(a[1..], b);
    }
  }

  /** One more entry of the start-up loop: its four events. */
  lemma StartupTraceSnoc(pins: Pins, i: nat)
    requires i < |pins|
    ensures var p := pins[i].1;
      StartupTrace(pins[..i + 1]) ==
        StartupTrace(pins[..i]) + [Setup(p.off), Write(p.off, Low), Setup(p.on), Write(p.on, Low)]
  {
    assert pins[..i + 1] == pins[..i] + [pins[i]];
    StartupTraceConcat(pins[..i], [pins[i]]);
    assert [pins[i]][1..] == [];
  }

  /** One more entry of the reset loop: its two writes. */
  lemma ResetTraceSnoc(pins: Pins, i: nat)
    requires i < |pins|
    ensures var p := pins[i].1;
      ResetTrace(pins[..i + 1]) == ResetTrace(pins[..i]) + [Write(p.off, Low), Write(p.on, Low)]
  {
    assert pins[..i + 1] == pins[..i] + [pins[i]];
    ResetTraceConcat(pins[..i], [pins[i]]);
    assert [pins[i]][1..] == [];
  }

  /** The four start-up events and the two reset events of one entry. */
  lemma EntryEvents(levels: Levels, p: LinePair)
    ensures var setup := [Setup(p.off), Write(p.off, Low), Setup(p.on), Write(p.on, Low)];
      Apply(levels, setup) == levels[p.off := Low][p.on := Low] &&
      HighWrites(setup) == [] && Published(setup) == []
    ensures var reset := [Write(p.off, Low), Write(p.on, Low)];
      Apply(levels, reset) == levels[p.off := Low][p.on := Low] &&
      HighWrites(reset) == [] && Published(reset) == []
  {
    var setup := [Setup(p.off), Write(p.off, Low), Setup(p.on), Write(p.on, Low)];
    var s1, s2, s3 := setup[1..], setup[2..], setup[3..];
    assert s1[1..] == s2 && s2[1..] == s3 && s3[1..] == [];
    var l1 := levels[p.off := Low];
    assert Apply(levels, setup) == Apply(levels, s1);
    assert Apply(levels, s1) == Apply(l1, s2);
    assert Apply(l1, s2) == Apply(l1, s3);
    assert Apply(l1, s3) == l1[p.on := Low];
    assert HighWrites(setup) == HighWrites(s1) == HighWrites(s2) == HighWrites(s3) == [];
    assert Published(setup) == Published(s1) == Published(s2) == Published(s3) == [];
    var reset := [Write(p.off, Low), Write(p.on, Low)];
    assert reset[1..][1..] == [];
    assert Apply(levels, reset) == Apply(l1, reset[1..]);
    assert HighWrites(reset) == HighWrites(reset[1..]) == [];
    assert Published(reset) == Published(reset[1..]) == [];
  }

  /** Start-up sets every line exactly as a reset does (setting a line up
      as an output does not change its level). */
  lemma {:induction false} StartupActsAsReset(pins: Pins, levels: Levels)
    ensures Apply(levels, StartupTrace(pins)) == Apply(levels, ResetTrace(pins))
    ensures HighWrites(StartupTrace(pins)) == [] && Published(StartupTrace(pins)) == []
    decreases |pins|
  {
    if pins != [] {
      var p := pins[0].1;
      var setup := [Setup(p.off), Write(p.off, Low), Setup(p.on), Write(p.on, Low)];
      var reset := [Write(p.off, Low), Write(p.on, Low)];
      var after := levels[p.off := Low][p.on := Low];
      ApplyConcat(levels, setup, StartupTrace(pins[1..]));
      ApplyConcat(levels, reset, ResetTrace(pins[1..]));
      HighWritesConcat(setup, StartupTrace(pins[1..]));
      PublishedConcat(setup, StartupTrace(pins[1..]));
      EntryEvents(levels, p);
      StartupActsAsReset(pins[1..], after);
    }
  }

  /** The reset drives no line HIGH and publishes nothing, and afterwards
      every line of the pin map is LOW, whatever the levels were before. */
  lemma {:induction false} ResetLowersAll(pins: Pins, levels: Levels)
    ensures AllLow(Apply(levels, ResetTrace(pins)), Lines(pins))
    ensures HighWrites(ResetTrace(pins)) == [] && Published(ResetTrace(pins)) == []
    decreases |pins|
  {
    if pins != [] {
      var p := pins[0].1;
      var reset := [Write(p.off, Low), Write(p.on, Low)];
      var after := levels[p.off := Low][p.on := Low];
      ApplyConcat(levels, reset, ResetTrace(pins[1..]));
      HighWritesConcat(reset, ResetTrace(pins[1..]));
      PublishedConcat(reset, ResetTrace(pins[1..]));
      EntryEvents(levels, p);
      ResetLowersAll(pins[1..], after);
      var final := Apply(levels, ResetTrace(pins));
      LowStaysLow(after, ResetTrace(pins[1..]), p.off);
      LowStaysLow(after, ResetTrace(pins[1..]), p.on);
      assert final == Apply(after, ResetTrace(pins[1..]));
    }
  }

  /** After start-up both lines of every channel are LOW. */
  lemma StartupLowersAll(pins: Pins, levels: Levels)
    ensures AllLow(Apply(levels, StartupTrace(pins)), Lines(pins))
    ensures HighWrites(StartupTrace(pins)) == [] && Published(StartupTrace(pins)) == []
  {
    StartupActsAsReset(pins, levels);
    ResetLowersAll(pins, levels);
  }

  /** Start-up sets up both lines of every channel as outputs, writes only
      lines of the pin map, and sets each line up before writing it. */
  lemma {:induction false} StartupSetsUpAll(pins: Pins)
    ensures forall l :: l in Lines(pins) ==> Setup(l) in StartupTrace(pins)
    ensures SetUpBeforeWrite(StartupTrace(pins))
    ensures WritesWithin(StartupTrace(pins), Lines(pins))
    decreases |pins|
  {
    if pins != [] {
      var p := pins[0].1;
      var entry := [Setup(p.off), Write(p.off, Low), Setup(p.on), Write(p.on, Low)];
      var rest := StartupTrace(pins[1..]);
      StartupSetsUpAll(pins[1..]);
      assert StartupTrace(pins) == entry + rest;
      assert SetUpBeforeWrite(entry) by {
        assert entry[..1] == [Setup(p.off)];
        assert entry[..3] == [Setup(p.off), Write(p.off, Low), Setup(p.on)];
      }
      SetUpBeforeWriteConcat(entry, rest);
      assert Lines(pins) == {p.off, p.on} + Lines(pins[1..]);
      WritesWithinConcat(entry, rest, Lines(pins));
      forall l | l in Lines(pins)
        ensures Setup(l) in entry + rest
      {
        if l !in Lines(pins[1..]) {
          assert Setup(l) in entry;
        }
      }
    }
  }

  /** The reset loop writes only lines of the pin map. */
  lemma {:induction false} ResetWritesWithin(pins: Pins)
    ensures WritesWithin(ResetTrace(pins), Lines(pins))
    decreases |pins|
  {
    if pins != [] {
      var p := pins[0].1;
      var entry := [Write(p.off, Low), Write(p.on, Low)];
      ResetWritesWithin(pins[1..]);
      assert ResetTrace(pins) == entry + ResetTrace(pins[1..]);
      assert Lines(pins) == {p.off, p.on} + Lines(pins[1..]);
      WritesWithinConcat(entry, ResetTrace(pins[1..]), Lines(pins));
    }
  }
}
