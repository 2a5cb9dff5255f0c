/**
 What the main loop decides for one received MQTT message: whether its
 topic is a channel's command topic, whether its first payload field names
 a state, and, if both, which channel to pulse, towards which state, and
 where to confirm it.
 */
module Dispatch {
  import opened Gpio
  import opened Topology

  /** The [MQTT State] section of the configuration. */
  datatype Config = Config(
    topicPrefix: string,
    topicStateSuffix: string,
    payloadOn: string,
    payloadOff: string)

  /** A message payload: bytes that decode as UTF-8 to text, or bytes that do not. */
  datatype Payload = Utf8(text: string) | Malformed

  datatype Message = Message(topic: string, payload: Payload)

  /** The text before the first comma, or all of s when it has none. */
  function FirstField(s: string): (r: string)
    ensures r <= s && ',' !in r
    ensures |r| < |s| ==> s[|r|] == ','
  {
    if s == [] || s[0] == ',' then "" else [s[0]] + FirstField(s[1..])
  }

  /** The first field is the only prefix that reaches the first comma or the end. */
  lemma {:induction false} FirstFieldUnique(s: string, r: string)
    requires r <= s && ',' !in r && (|r| < |s| ==> s[|r|] == ',')
    ensures r == FirstField(s)
    decreases |s|
  {
    if r != [] {
      assert s[0] == r[0] && s[0] != ',';
      assert r[1..] <= s[1..];
      FirstFieldUnique(s[1..], r[1..]);
    }
  }

  /** s.split(','): the fields between the commas of s; always at least one. */
  function Split(s: string): (fields: seq<string>)
    ensures |fields| >= 1
    ensures forall f :: f in fields ==> ',' !in f
    decreases |s|
  {
    var head := FirstField(s);
    if |head| == |s| then [s] else [head] + Split(s[|head| + 1..])
  }

  /** ','.join(fields). */
  function Join(fields: seq<string>): string
  {
    if fields == [] then ""
    else if |fields| == 1 then fields[0]
    else fields[0] + "," + Join(fields[1..])
  }

  /** Joining the fields of s with commas gives s back. */
  lemma {:induction false} JoinSplit(s: string)
    ensures Join(Split(s)) == s
    decreases |s|
  {
    var head := FirstField(s);
    if |head| < |s| {
      var rest := s[|head| + 1..];
      JoinSplit(rest);
      var fields := Split(s);
      assert fields == [head] + Split(rest);
      assert |fields| > 1 && fields[0] == head && fields[1..] == Split(rest);
      assert Join(fields) == head + "," + Join(Split(rest));
      CommaBetween(s, head, rest);
    } else {
      assert head == s;
    }
  }

  /** A string is its text before a comma, the comma, and its text after. */
  lemma CommaBetween(s: string, head: string, rest: string)
    requires head <= s && |head| < |s| && s[|head|] == ','
    requires rest == s[|head| + 1..]
    ensures head + "," + rest == s
  {
    assert s == s[..|head|] + [s[|head|]] + rest;
  }

  /** Splitting comma-free fields joined with commas gives the fields back. */
  lemma {:induction false} SplitJoin(fields: seq<string>)
    requires |fields| >= 1
    requires forall f :: f in fields ==> ',' !in f
    ensures Split(Join(fields)) == fields
    decreases |fields|
  {
    var s := Join(fields);
    if |fields| == 1 {
      FirstFieldUnique(s, s);
    } else {
      var rest := Join(fields[1..]);
      assert s == fields[0] + "," + rest;
      assert fields[0] in fields;
      assert s[|fields[0]|] == ',';
      FirstFieldUnique(s, fields[0]);
      assert s[|fields[0]| + 1..] == rest;
      SplitJoin(fields[1..]);
      assert fields == [fields[0]] + fields[1..];
    }
  }

  /** s.removeprefix(prefix). */
  function RemovePrefix(s: string, prefix: string): (r: string)
    ensures prefix <= s ==> prefix + r == s
    ensures !(prefix <= s) ==> r == s
  {
    if prefix <= s then s[|prefix|..] else s
  }

  /** The outcome of handling one message. */
  datatype Decision =
    | DecodeError                    // the payload is not UTF-8: the loop's handler logs it
    | UnknownTopic(topic: string)
    | UnknownState(state: string)
    | Trigger(channel: string, desired: bool, confirmTopic: string, token: string)

  /** The body of the main loop, as a decision: decode the payload; check the
      topic against channelTopics; take the first comma-separated field as
      the state; compare it with payloadOn and payloadOff; strip the prefix
      from the topic to get the channel. */
  function Decide(cfg: Config, pins: Pins, m: Message): (d: Decision)
    ensures d.DecodeError? <==> m.payload.Malformed?
    ensures d.UnknownTopic? <==>
      m.payload.Utf8? && forall i :: 0 <= i < |pins| ==> m.topic != cfg.topicPrefix + KeyText(pins[i].0)
    ensures d.UnknownTopic? ==> d.topic == m.topic
    ensures d.UnknownState? ==>
      && m.payload.Utf8?
      && (exists i :: 0 <= i < |pins| && m.topic == cfg.topicPrefix + KeyText(pins[i].0))
      && d.state == FirstField(m.payload.text)
      && d.state != cfg.payloadOn && d.state != cfg.payloadOff
    ensures d.Trigger? ==>
      && m.payload.Utf8?
      && (exists i :: 0 <= i < |pins| &&
            m.topic == cfg.topicPrefix + KeyText(pins[i].0) && d.channel == KeyText(pins[i].0))
      && (d.token == cfg.payloadOn || d.token == cfg.payloadOff)
      && d.token == FirstField(m.payload.text)
      && d.desired == (d.token == cfg.payloadOn)
      && d.confirmTopic == m.topic + cfg.topicStateSuffix
  {
    match m.payload
    case Malformed => DecodeError
    case Utf8(payload) =>
      var topics := ChannelTopics(cfg.topicPrefix, pins);
      if m.topic in topics then
        var state := Split(payload)[0];
        if state == cfg.payloadOn || state == cfg.payloadOff then
          Trigger(RemovePrefix(m.topic, cfg.topicPrefix), state == cfg.payloadOn,
                  m.topic + cfg.topicStateSuffix, state)
        else
          UnknownState(state)
      else
        assert forall i :: 0 <= i < |pins| ==> topics[i] == cfg.topicPrefix + KeyText(pins[i].0);
        UnknownTopic(m.topic)
  }

  /** A command on the topic of channel k whose first field is a state token
      triggers the channel str(k) towards (token == payloadOn) and confirms on
      the topic plus the state suffix, carrying the token. */
  lemma CommandForChannel(cfg: Config, pins: Pins, i: nat, text: string)
    requires i < |pins|
    requires FirstField(text) == cfg.payloadOn || FirstField(text) == cfg.payloadOff
    ensures var topic := cfg.topicPrefix + KeyText(pins[i].0);
      Decide(cfg, pins, Message(topic, Utf8(text))) ==
        Trigger(KeyText(pins[i].0), FirstField(text) == cfg.payloadOn,
                topic + cfg.topicStateSuffix, FirstField(text))
  {
    var topic := cfg.topicPrefix + KeyText(pins[i].0);
    assert ChannelTopics(cfg.topicPrefix, pins)[i] == topic;
  }

  /** Fields after the first never matter: a token with no comma decides the
      same with or without trailing fields. */
  lemma TrailingFieldsIgnored(cfg: Config, pins: Pins, topic: string, token: string, rest: string)
    requires ',' !in token
    ensures Decide(cfg, pins, Message(topic, Utf8(token + "," + rest))) ==
            Decide(cfg, pins, Message(topic, Utf8(token)))
  {
    var s := token + "," + rest;
    assert s[|token|] == ',';
    FirstFieldUnique(s, token);
    FirstFieldUnique(token, token);
  }
}
