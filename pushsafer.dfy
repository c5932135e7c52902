/**
 * The input dispatcher of the Pushsafer plugin.
 *
 * When an input of the home-automation system changes, every mapping configured for that
 * input becomes one message for the Pushsafer service, unless the same input already sent
 * messages less than ten seconds ago. The plugin keeps, per input, the time of its last send.
 *
 * The clock is an exact number of seconds passed in by the caller, and sending a message is
 * appending it to the ghost list `sent`.
 */
module PushsaferPlugin {
  import opened Options

  /** Seconds after a send during which further events of the same input are ignored. */
  const CooldownSeconds: real := 10.0

  /** One `input_mapping` section: the input that triggers it and the message's settings. */
  datatype Mapping = Mapping(
    inputId: int,
    message: string,
    title: string,
    device: string,
    icon: string,
    sound: string,
    vibration: string,
    url: string,
    urlTitle: string,
    timeToLive: string)

  /** The plugin's configuration: the private key and, when present, the mapping sections. */
  datatype Config = Config(privateKey: string, inputMapping: Option<seq<Mapping>>)

  /** The configuration the plugin reads when none was stored: empty key, no mapping. */
  const DefaultConfig: Config := Config("", None)

  /** The form fields of one message posted to the Pushsafer API. */
  datatype Message = Message(k: string, m: string, t: string, d: string, i: string, s: string,
                             v: string, u: string, ut: string, l: string)

  /** The mapping sections of a configuration; an absent key reads as none. */
  function MappingOf(config: Config): (ms: seq<Mapping>)
    ensures config.inputMapping.None? ==> ms == []
  {
    match config.inputMapping
    case Some(ms) => ms
    case None => []
  }

  /**
   * The message for mapping `mapping`, sent with the private key `key`: every form field of
   * the Pushsafer API carries the mapping setting of the same meaning.
   */
  function MessageFor(key: string, mapping: Mapping): (msg: Message)
    ensures msg.k == key && msg.m == mapping.message && msg.t == mapping.title && msg.d == mapping.device
    ensures msg.i == mapping.icon && msg.s == mapping.sound && msg.v == mapping.vibration
    ensures msg.u == mapping.url && msg.ut == mapping.urlTitle && msg.l == mapping.timeToLive
  {
    Message(key, mapping.message, mapping.title, mapping.device, mapping.icon, mapping.sound,
            mapping.vibration, mapping.url, mapping.urlTitle, mapping.timeToLive)
  }

  /** The mappings configured for input `inputId`, in order. */
  function Matching(ms: seq<Mapping>, inputId: int): seq<Mapping>
  {
    if ms == [] then []
    else Matching(ms[..|ms| - 1], inputId) + (if ms[|ms| - 1].inputId == inputId then [ms[|ms| - 1]] else [])
  }

  /** The messages the loop over the mappings sends for input `inputId`, in mapping order. */
  function Messages(key: string, ms: seq<Mapping>, inputId: int): (sent: seq<Message>)
    ensures |sent| <= |ms|
  {
    if ms == [] then []
    else
      var last := ms[|ms| - 1];
      Messages(key, ms[..|ms| - 1], inputId) + (if last.inputId == inputId then [MessageFor(key, last)] else [])
  }

  /** Every message carries the key; some message is sent iff some mapping is the input's. */
  lemma {:induction false} MessagesShape(key: string, ms: seq<Mapping>, inputId: int)
    ensures forall j :: 0 <= j < |Messages(key, ms, inputId)| ==> Messages(key, ms, inputId)[j].k == key
    ensures Messages(key, ms, inputId) != [] <==> exists j :: 0 <= j < |ms| && ms[j].inputId == inputId
  {
    if ms != [] {
      var prefix := ms[..|ms| - 1];
      MessagesShape(key, prefix, inputId);
      assert forall j :: 0 <= j < |prefix| ==> prefix[j] == ms[j];
    }
  }

  /** The time of the input's last send; an input that never sent counts as having sent at 0. */
  function LastSent(cooldown: map<int, real>, inputId: int): real
  {
    if inputId in cooldown then cooldown[inputId] else 0.0
  }

  /**
   * The event falls within ten seconds after the input's last send (an input that never sent
   * counts as having sent at time 0).
   */
  predicate Suppressed(cooldown: map<int, real>, inputId: int, now: real)
  {
    LastSent(cooldown, inputId) > now - CooldownSeconds
  }

  /** What one input event does: the new cooldown map and the messages sent. */
  datatype Outcome = Outcome(cooldown: map<int, real>, sent: seq<Message>)

  /**
   * `input_status` of an enabled or disabled plugin: nothing when disabled or within the
   * cooldown; otherwise the messages of the matching mappings, and the input's cooldown stamped
   * with `now` exactly when something was sent.
   */
  function InputStep(enabled: bool, key: string, ms: seq<Mapping>, cooldown: map<int, real>, inputId: int, now: real)
    : (o: Outcome)
    ensures o.sent != [] <==>
      enabled && !Suppressed(cooldown, inputId, now) && exists j :: 0 <= j < |ms| && ms[j].inputId == inputId
    ensures o.sent == [] ==> o.cooldown == cooldown
    ensures o.sent != [] ==> o.cooldown == cooldown[inputId := now]
    ensures forall j :: 0 <= j < |o.sent| ==> o.sent[j].k == key
    ensures o.sent == [] || o.sent == Messages(key, ms, inputId)
  {
    if !enabled || Suppressed(cooldown, inputId, now) then Outcome(cooldown, [])
    else
      MessagesShape(key, ms, inputId);
      var sent := Messages(key, ms, inputId);
      Outcome(if sent != [] then cooldown[inputId := now] else cooldown, sent)
  }

  class Pushsafer {
    var config: Config
    var privateKey: string
    var mapping: seq<Mapping>
    var enabled: bool
    var cooldown: map<int, real>
    /** Every message handed to the sender so far, in order. */
    ghost var sent: seq<Message>

    /** The plugin starts from the stored configuration, with no cooldown and nothing sent. */
    constructor (stored: Config)
      ensures config == stored && cooldown == map[] && sent == []
      ensures privateKey == stored.privateKey && mapping == MappingOf(stored)
      ensures enabled <==> stored.privateKey != "" && |MappingOf(stored)| > 0
    {
      config := stored;
      cooldown := map[];
      sent := [];
      new;
      ReadConfig();
    }

    /** `_read_config`: the key, the mappings and the enabled flag from the configuration. */
    method ReadConfig()
      modifies this`privateKey, this`mapping, this`enabled
      ensures privateKey == config.privateKey && mapping == MappingOf(config)
      ensures enabled <==> privateKey != "" && |mapping| > 0
    {
      privateKey := config.privateKey;
      mapping := MappingOf(config);
      enabled := privateKey != "" && |mapping| > 0;
    }

    /** `input_status`: handles one event of input `inputId` at time `now`. */
    method InputStatus(inputId: int, now: real)
      modifies this`cooldown, this`sent
      ensures var o := InputStep(enabled, privateKey, mapping, old(cooldown), inputId, now);
        cooldown == o.cooldown && sent == old(sent) + o.sent
    {
      if !enabled {
        return;
      }
      var last := if inputId in cooldown then cooldown[inputId] else 0.0;
      if last > now - CooldownSeconds {
        return;
      }
      var dataSend := false;
      var i := 0;
      while i < |mapping|
        invariant 0 <= i <= |mapping|
        invariant sent == old(sent) + Messages(privateKey, mapping[..i], inputId)
        invariant dataSend <==> Messages(privateKey, mapping[..i], inputId) != []
        invariant cooldown == old(cooldown)
      {
        assert mapping[..i + 1][..i] == mapping[..i];
        if inputId == mapping[i].inputId {
          sent := sent + [MessageFor(privateKey, mapping[i])];
          dataSend := true;
        }
        i := i + 1;
      }
      assert mapping[..i] == mapping;
      if dataSend {
        cooldown := cooldown[inputId := now];
      }
    }

    /** `set_config`: stores the new configuration and recomputes the enabled flag. */
    method SetConfig(newConfig: Config) returns (success: bool)
      modifies this`config, this`privateKey, this`mapping, this`enabled
      ensures config == newConfig && privateKey == newConfig.privateKey && mapping == MappingOf(newConfig)
      ensures enabled <==> newConfig.privateKey != "" && |MappingOf(newConfig)| > 0
      ensures success
    {
      config := newConfig;
      ReadConfig();
      success := true;
    }
  }

  // ---------------------------------------------------------------------------------------
  // Properties
  // ---------------------------------------------------------------------------------------

  /** Filtering the mappings keeps exactly those of the input, in their order. */
  lemma {:induction false} MatchingSpec(ms: seq<Mapping>, inputId: int)
    ensures forall m :: m in Matching(ms, inputId) <==> m in ms && m.inputId == inputId
    ensures forall n :: 0 <= n < |Matching(ms, inputId)| ==> Matching(ms, inputId)[n].inputId == inputId
  {
    if ms != [] {
      var prefix := ms[..|ms| - 1];
      MatchingSpec(prefix, inputId);
      assert ms == prefix + [ms[|ms| - 1]];
    }
  }

  /** Filtering a concatenation concatenates the filtered parts: the mapping order is kept. */
  lemma {:induction false} MatchingAppend(a: seq<Mapping>, b: seq<Mapping>, inputId: int)
    ensures Matching(a + b, inputId) == Matching(a, inputId) + Matching(b, inputId)
  {
    if b == [] {
      assert a + b == a;
    } else {
      var prefix := b[..|b| - 1];
      MatchingAppend(a, prefix, inputId);
      assert (a + b)[..|a + b| - 1] == a + prefix;
    }
  }

  /** The messages sent are the matching mappings' messages, one each, in order, each with the key. */
  lemma {:induction false} MessagesOfMatching(key: string, ms: seq<Mapping>, inputId: int)
    ensures |Messages(key, ms, inputId)| == |Matching(ms, inputId)|
    ensures forall n :: 0 <= n < |Matching(ms, inputId)| ==>
      Messages(key, ms, inputId)[n] == MessageFor(key, Matching(ms, inputId)[n])
  {
    if ms != [] {
      MessagesOfMatching(key, ms[..|ms| - 1], inputId);
    }
  }

  /** A second event of an input less than ten seconds after one that sent is ignored entirely. */
  lemma RepeatWithinCooldownIgnored(enabled: bool, key: string, ms: seq<Mapping>, cooldown: map<int, real>,
                                    inputId: int, first: real, second: real)
    requires InputStep(enabled, key, ms, cooldown, inputId, first).sent != []
    requires second < first + CooldownSeconds
    ensures var after := InputStep(enabled, key, ms, cooldown, inputId, first).cooldown;
      InputStep(enabled, key, ms, after, inputId, second) == Outcome(after, [])
  {
  }

  /** Ten seconds or more after a send, the same event sends the same messages again. */
  lemma RepeatAfterCooldownSendsAgain(enabled: bool, key: string, ms: seq<Mapping>, cooldown: map<int, real>,
                                      inputId: int, first: real, second: real)
    requires InputStep(enabled, key, ms, cooldown, inputId, first).sent != []
    requires second >= first + CooldownSeconds
    ensures var o1 := InputStep(enabled, key, ms, cooldown, inputId, first);
      InputStep(enabled, key, ms, o1.cooldown, inputId, second) == Outcome(o1.cooldown[inputId := second], o1.sent)
  {
  }

  /** An event leaves the cooldown of every other input as it was. */
  lemma OtherInputsUntouched(enabled: bool, key: string, ms: seq<Mapping>, cooldown: map<int, real>,
                             inputId: int, now: real, other: int)
    requires other != inputId
    ensures LastSent(InputStep(enabled, key, ms, cooldown, inputId, now).cooldown, other) == LastSent(cooldown, other)
    ensures other in InputStep(enabled, key, ms, cooldown, inputId, now).cooldown <==> other in cooldown
  {
  }

  /**
   * The cooldown test: an input that sent before is ignored until ten seconds after its last
   * send; one that never sent is ignored while the clock reads less than ten seconds.
   */
  lemma CooldownWindow(cooldown: map<int, real>, inputId: int, now: real)
    ensures inputId in cooldown ==> (Suppressed(cooldown, inputId, now) <==> now < cooldown[inputId] + CooldownSeconds)
    ensures inputId !in cooldown ==> (Suppressed(cooldown, inputId, now) <==> now < CooldownSeconds)
  {
  }

  /** A plugin started from the default configuration is disabled. */
  method DefaultStartsDisabled() returns (enabled: bool)
    ensures !enabled
  {
    var plugin := new Pushsafer(DefaultConfig);
    enabled := plugin.enabled;
  }
}
