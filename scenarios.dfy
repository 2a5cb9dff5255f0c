/**
 Concrete runs of the controller on one channel "1" with off line 5 and on
 line 6, command topics "cmd/<channel>", state suffix "/state", and the state
 tokens "ON" and "OFF".
 */
module Scenarios {
  import opened Gpio
  import opened Topology
  import opened Dispatch
  import opened Controller

  function OneChannel(): Pins
  {
    [(Name("1"), LinePair(5, 6))]
  }

  function Cfg(): Config
  {
    Config("cmd/", "/state", "ON", "OFF")
  }

  lemma FirstFields()
    ensures FirstField("ON") == "ON" && FirstField("OFF") == "OFF"
    ensures FirstField("TOGGLE") == "TOGGLE"
  {
    FirstFieldUnique("ON", "ON");
    FirstFieldUnique("OFF", "OFF");
    FirstFieldUnique("TOGGLE", "TOGGLE");
  }

  lemma OneChannelTraces(levels: Levels)
    ensures ResetTrace(OneChannel()) == [Write(5, Low), Write(6, Low)]
    ensures Lookup(OneChannel(), "1") == Some(LinePair(5, 6))
  {
    assert OneChannel()[1..] == [];
  }

  /** "ON" on cmd/1 pulses line 6 alone and confirms "ON" on cmd/1/state. */
  lemma CommandOn()
    ensures HandleTrace(Cfg(), OneChannel(), Message("cmd/1", Utf8("ON"))) ==
      [Write(5, Low), Write(6, Low), Write(6, High), Wait, Write(6, Low), Wait,
       Publish("cmd/1/state", "ON")]
  {
    FirstFields();
    OneChannelTraces(map[]);
    CommandForChannel(Cfg(), OneChannel(), 0, "ON");
    assert KeyText(OneChannel()[0].0) == "1";
    assert "cmd/" + "1" == "cmd/1" && "cmd/1" + "/state" == "cmd/1/state";
    assert Decide(Cfg(), OneChannel(), Message("cmd/1", Utf8("ON"))) ==
      Trigger("1", true, "cmd/1/state", "ON");
    assert TriggerTrace(OneChannel(), "1", true) == [Write(5, Low), Write(6, Low)] + PulseTrace(6);
  }

  /** "OFF" on cmd/1 pulses line 5 instead. */
  lemma CommandOff()
    ensures HandleTrace(Cfg(), OneChannel(), Message("cmd/1", Utf8("OFF"))) ==
      [Write(5, Low), Write(6, Low), Write(5, High), Wait, Write(5, Low), Wait,
       Publish("cmd/1/state", "OFF")]
  {
    FirstFields();
    OneChannelTraces(map[]);
    CommandForChannel(Cfg(), OneChannel(), 0, "OFF");
    assert KeyText(OneChannel()[0].0) == "1";
    assert "cmd/" + "1" == "cmd/1" && "cmd/1" + "/state" == "cmd/1/state";
    assert Decide(Cfg(), OneChannel(), Message("cmd/1", Utf8("OFF"))) ==
      Trigger("1", false, "cmd/1/state", "OFF");
    assert TriggerTrace(OneChannel(), "1", false) == [Write(5, Low), Write(6, Low)] + PulseTrace(5);
  }

  /** "TOGGLE" names no state: no line is written, nothing is published, one
      "Unknown state" diagnostic is logged. */
  lemma CommandToggle()
    ensures HandleTrace(Cfg(), OneChannel(), Message("cmd/1", Utf8("TOGGLE"))) ==
      [Log(StateUnknown("TOGGLE"))]
  {
    FirstFields();
    assert ChannelTopics("cmd/", OneChannel())[0] == "cmd/1";
  }

  /** A topic that is no channel's command topic is only logged. */
  lemma UnknownTopicOnly()
    ensures HandleTrace(Cfg(), OneChannel(), Message("cmd/2", Utf8("ON"))) ==
      [Log(TopicUnknown("cmd/2"))]
  {
    var topics := ChannelTopics("cmd/", OneChannel());
    assert |topics| == 1 && topics[0] == "cmd/" + "1";
    assert "cmd/" + "1" == "cmd/1";
    assert "cmd/2"[4] != "cmd/1"[4];
    assert "cmd/2" !in topics;
  }

  /** ON then OFF back to back: the ON pulse and its guard window end before
      the OFF pulse's reset begins, and each is confirmed in turn. */
  lemma BackToBack()
    ensures RunTrace(Cfg(), OneChannel(),
                     [Message("cmd/1", Utf8("ON")), Message("cmd/1", Utf8("OFF"))]) ==
      [Write(5, Low), Write(6, Low), Write(6, High), Wait, Write(6, Low), Wait,
       Publish("cmd/1/state", "ON"),
       Write(5, Low), Write(6, Low), Write(5, High), Wait, Write(5, Low), Wait,
       Publish("cmd/1/state", "OFF")]
  {
    var on, off := Message("cmd/1", Utf8("ON")), Message("cmd/1", Utf8("OFF"));
    CommandOn();
    CommandOff();
    var ms := [on, off];
    assert ms[1..] == [off] && [off][1..] == [];
    assert RunTrace(Cfg(), OneChannel(), [off]) == HandleTrace(Cfg(), OneChannel(), off);
    assert RunTrace(Cfg(), OneChannel(), ms) ==
      HandleTrace(Cfg(), OneChannel(), on) + HandleTrace(Cfg(), OneChannel(), off);
  }
}
