/**
 The hardware side of the controller: the level of every GPIO line, the trace
 of everything the controller does to the outside world, and what replaying
 a trace does to the levels.
 */
module Gpio {

  /** A GPIO line, numbered in the BCM scheme the controller selects. */
  type Line = int

  datatype Level = Low | High

  /** The diagnostics the controller logs while handling messages. */
  datatype Note =
    | TriggerFailed                // an error inside a pulse, swallowed by the actuator
    | TopicUnknown(topic: string)
    | StateUnknown(state: string)
    | HandlingFailed               // any other error while handling one message

  /** One observable action of the controller. */
  datatype Event =
    | Setup(line: Line)                        // configure a line as an output
    | Write(line: Line, level: Level)          // drive a line LOW or HIGH
    | Wait                                     // hold for the trigger delay
    | Publish(topic: string, payload: string)  // send an MQTT message
    | Log(note: Note)

  /** The level of each line; a line never written has no entry. */
  type Levels = map<Line, Level>

  function Step(levels: Levels, e: Event): Levels
  {
    if e.Write? then levels[e.line := e.level] else levels
  }

  /** The levels after the events of es happen, in order, starting from levels. */
  function Apply(levels: Levels, es: seq<Event>): Levels
    decreases |es|
  {
    if es == [] then levels else Apply(Step(levels, es[0]), es[1..])
  }

  predicate IsLow(levels: Levels, l: Line)
  {
    l in levels && levels[l] == Low
  }

  predicate IsHigh(levels: Levels, l: Line)
  {
    l in levels && levels[l] == High
  }

  /** Every line of lines is driven LOW. */
  predicate AllLow(levels: Levels, lines: set<Line>)
  {
    forall l :: l in lines ==> IsLow(levels, l)
  }

  /** No two distinct lines of lines are HIGH together. */
  predicate AtMostOneHigh(levels: Levels, lines: set<Line>)
  {
    forall l, m :: l in lines && m in lines && IsHigh(levels, l) && IsHigh(levels, m) ==> l == m
  }

  /** Every state passed through while es happens, the first and the last
      included, has at most one line of lines HIGH. */
  predicate Safe(levels: Levels, es: seq<Event>, lines: set<Line>)
  {
    forall k :: 0 <= k <= |es| ==> AtMostOneHigh(Apply(levels, es[..k]), lines)
  }

  /** The lines es drives HIGH, in order. */
  function HighWrites(es: seq<Event>): seq<Line>
  {
    if es == [] then []
    else (if es[0].Write? && es[0].level == High then [es[0].line] else []) + HighWrites(es[1..])
  }

  /** The (topic, payload) of every message es publishes, in order. */
  function Published(es: seq<Event>): seq<(string, string)>
  {
    if es == [] then []
    else (if es[0].Publish? then [(es[0].topic, es[0].payload)] else []) + Published(es[1..])
  }

  /** Replaying a concatenation is replaying its parts one after the other. */
  lemma {:induction false} ApplyConcat(levels: Levels, a: seq<Event>, b: seq<Event>)
    ensures Apply(levels, a + b) == Apply(Apply(levels, a), b)
    decreases |a|
  {
    if a == [] {
      assert a + b == b;
    } else {
      assert (a + b)[0] == a[0];
      assert (a + b)[1..] == a[1..] + b;
      ApplyConcat(Step(levels, a[0]), a[1..], b);
    }
  }

  /** Appending one event to a trace applies one more step. */
  lemma ApplySnoc(levels: Levels, es: seq<Event>, e: Event)
    ensures Apply(levels, es + [e]) == Step(Apply(levels, es), e)
  {
    ApplyConcat(levels, es, [e]);
    assert [e][1..] == [];
  }

  lemma {:induction false} HighWritesConcat(a: seq<Event>, b: seq<Event>)
    ensures HighWrites(a + b) == HighWrites(a) + HighWrites(b)
    decreases |a|
  {
    if a == [] {
      assert a + b == b;
    } else {
      assert (a + b)[0] == a[0];
      assert (a + b)[1..] == a[1..] + b;
      HighWritesConcat(a[1..], b);
    }
  }

  lemma {:induction false} PublishedConcat(a: seq<Event>, b: seq<Event>)
    ensures Published(a + b) == Published(a) + Published(b)
    decreases |a|
  {
    if a == [] {
      assert a + b == b;
    } else {
      assert (a + b)[0] == a[0];
      assert (a + b)[1..] == a[1..] + b;
      PublishedConcat(a[1..], b);
    }
  }

  /** A line is HIGH after es only if it was HIGH before or es drove it HIGH. */
  lemma {:induction false} HighComesFromWrites(levels: Levels, es: seq<Event>, l: Line)
    requires IsHigh(Apply(levels, es), l)
    ensures IsHigh(levels, l) || l in HighWrites(es)
    decreases |es|
  {
    if es != [] {
      HighComesFromWrites(Step(levels, es[0]), es[1..], l);
    }
  }

  /** A LOW line stays LOW through events that never drive it HIGH. */
  lemma {:induction false} LowStaysLow(levels: Levels, es: seq<Event>, l: Line)
    requires IsLow(levels, l) && l !in HighWrites(es)
    ensures IsLow(Apply(levels, es), l)
    decreases |es|
  {
    if es != [] {
      LowStaysLow(Step(levels, es[0]), es[1..], l);
    }
  }

  /** If only one line t is ever driven HIGH, and no other line of lines is
      HIGH at the start, then at no moment are two lines of lines HIGH. */
  lemma SingleTargetSafe(levels: Levels, es: seq<Event>, lines: set<Line>, t: Line)
    requires forall l :: l in lines && IsHigh(levels, l) ==> l == t
    requires forall x :: x in HighWrites(es) ==> x == t
    ensures Safe(levels, es, lines)
  {
    forall k | 0 <= k <= |es|
      ensures AtMostOneHigh(Apply(levels, es[..k]), lines)
    {
      assert es[..k] + es[k..] == es;
      HighWritesConcat(es[..k], es[k..]);
      forall l | l in lines && IsHigh(Apply(levels, es[..k]), l)
        ensures l == t
      {
        HighComesFromWrites(levels, es[..k], l);
        if !IsHigh(levels, l) {
          assert l in HighWrites(es);
        }
      }
    }
  }

  /** Safety of a concatenation follows from safety of its parts. */
  lemma SafeConcat(levels: Levels, a: seq<Event>, b: seq<Event>, lines: set<Line>)
    requires Safe(levels, a, lines) && Safe(Apply(levels, a), b, lines)
    ensures Safe(levels, a + b, lines)
  {
    forall k | 0 <= k <= |a + b|
      ensures AtMostOneHigh(Apply(levels, (a + b)[..k]), lines)
    {
      if k <= |a| {
        assert (a + b)[..k] == a[..k];
      } else {
        assert (a + b)[..k] == a + b[..k - |a|];
        ApplyConcat(levels, a, b[..k - |a|]);
      }
    }
  }

  /** Every line es writes is one of lines. */
  predicate WritesWithin(es: seq<Event>, lines: set<Line>)
  {
    forall k :: 0 <= k < |es| && es[k].Write? ==> es[k].line in lines
  }

  /** Every write of es comes after a setup of the line it writes. */
  predicate SetUpBeforeWrite(es: seq<Event>)
  {
    forall k :: 0 <= k < |es| && es[k].Write? ==> Setup(es[k].line) in es[..k]
  }

  /** A concatenation writes within lines exactly when both parts do. */
  lemma WritesWithinConcat(a: seq<Event>, b: seq<Event>, lines: set<Line>)
    ensures WritesWithin(a + b, lines) <==> WritesWithin(a, lines) && WritesWithin(b, lines)
  {
    if WritesWithin(a + b, lines) {
      forall k | 0 <= k < |a| && a[k].Write?
        ensures a[k].line in lines
      {
        assert (a + b)[k] == a[k];
      }
      forall k | 0 <= k < |b| && b[k].Write?
        ensures b[k].line in lines
      {
        assert (a + b)[|a| + k] == b[k];
      }
    }
    if WritesWithin(a, lines) && WritesWithin(b, lines) {
      forall k | 0 <= k < |a + b| && (a + b)[k].Write?
        ensures (a + b)[k].line in lines
      {
        if k >= |a| {
          assert (a + b)[k] == b[k - |a|];
        }
      }
    }
  }

  /** Two traces that each set a line up before writing it still do so
      one after the other. */
  lemma SetUpBeforeWriteConcat(a: seq<Event>, b: seq<Event>)
    requires SetUpBeforeWrite(a) && SetUpBeforeWrite(b)
    ensures SetUpBeforeWrite(a + b)
  {
    forall k | 0 <= k < |a + b| && (a + b)[k].Write?
      ensures Setup((a + b)[k].line) in (a + b)[..k]
    {
      if k < |a| {
        assert (a + b)[..k] == a[..k];
      } else {
        assert (a + b)[k] == b[k - |a|];
        assert (a + b)[..k] == a + b[..k - |a|];
      }
    }
  }

  /** A trace that sets up every line of lines, followed by one that writes
      only lines of lines, writes no line before setting it up. */
  lemma SetUpCovers(a: seq<Event>, b: seq<Event>, lines: set<Line>)
    requires SetUpBeforeWrite(a) && WritesWithin(b, lines)
    requires forall l :: l in lines ==> Setup(l) in a
    ensures SetUpBeforeWrite(a + b)
  {
    forall k | 0 <= k < |a + b| && (a + b)[k].Write?
      ensures Setup((a + b)[k].line) in (a + b)[..k]
    {
      if k < |a| {
        assert (a + b)[..k] == a[..k];
      } else {
        assert (a + b)[k] == b[k - |a|];
        assert (a + b)[..k] == a + b[..k - |a|];
      }
    }
  }
}
