/** The security server's configuration registry: every security input
    registers its options under `name#index`, and the most recent
    registration of each filter type occupies that type's slot. */
module SecurityServer {
  import opened Wrappers
  import opened Strings
  import opened EbpfServer

  /** Which probe a set of security options configures. */
  datatype FilterType = File | Process | Network | OtherFilter

  /** The options object an input hands over; only its identity and its
      filter type matter to the registry. */
  datatype SecurityOptions = SecurityOptions(id: nat, filterType: FilterType)

  /** A slot: a pair of possibly-null pointers, (null, null) when empty. */
  datatype SecurityConfig = SecurityConfig(options: Option<SecurityOptions>, ctx: Option<PipelineContext>)

  const EmptySlot := SecurityConfig(None, None)

  /** A registered entry. Registration dereferences the options pointer,
      so a stored entry always has options. */
  datatype Entry = Entry(options: SecurityOptions, ctx: Option<PipelineContext>)

  /** The pipeline kind `Start` and `Stop` are told about; neither uses it. */
  datatype PipelineType = UnknownPipeline | ProcessPipeline | NetworkPipeline | FilePipeline

  datatype Registry = Registry(
    running: bool,
    configs: map<string, Entry>,
    fileConfig: SecurityConfig,
    processConfig: SecurityConfig,
    networkConfig: SecurityConfig)

  const InitialRegistry := Registry(false, map[], EmptySlot, EmptySlot, EmptySlot)

  /** The slot that holds the latest configuration of filter type `t`. */
  function Slot(reg: Registry, t: FilterType): (c: SecurityConfig)
    requires t != OtherFilter
    ensures t == File ==> c == reg.fileConfig
    ensures t == Process ==> c == reg.processConfig
    ensures t == Network ==> c == reg.networkConfig
  {
    match t
    case File => reg.fileConfig
    case Process => reg.processConfig
    case Network => reg.networkConfig
  }

  /** Writes `c` into the slot of `t`; other filter types have no slot. */
  function WithSlot(reg: Registry, t: FilterType, c: SecurityConfig): (r: Registry)
    ensures r.running == reg.running && r.configs == reg.configs
    ensures t != OtherFilter ==> Slot(r, t) == c
    ensures forall u :: u != OtherFilter && u != t ==> Slot(r, u) == Slot(reg, u)
  {
    match t
    case File => reg.(fileConfig := c)
    case Process => reg.(processConfig := c)
    case Network => reg.(networkConfig := c)
    case OtherFilter => reg
  }

  /** The registry key of input `index` of pipeline `name`. */
  function ConfigKey(name: string, index: nat): (key: string)
    ensures |key| == |name| + 1 + |NatToString(index)|
    ensures key[..|name|] == name && key[|name|] == '#'
    ensures forall i :: |name| < i < |key| ==> IsDigit(key[i])
  {
    name + "#" + NatToString(index)
  }

  /** Distinct (name, index) pairs never share a key: whatever '#' the
      name contains, everything after the key's last '#' is digits. */
  lemma ConfigKeyInjective(n1: string, i1: nat, n2: string, i2: nat)
    requires ConfigKey(n1, i1) == ConfigKey(n2, i2)
    ensures n1 == n2 && i1 == i2
  {
    var key := ConfigKey(n1, i1);
    assert key[|n1|] == '#' && key[|n2|] == '#';
    assert forall p :: |n1| < p < |key| ==> key[p] != '#';
    assert forall p :: |n2| < p < |key| ==> key[p] != '#';
    assert |n1| == |n2|;
    assert n1 == key[..|n1|] == n2;
    assert NatToString(i1) == key[|n1| + 1..] == NatToString(i2);
    NatToStringInjective(i1, i2);
  }

  /** `AddSecurityOptions`: stores the pair under the input's key,
      replacing any earlier registration, and points the slot of the
      options' filter type at it. */
  function AddSecurityOptions(reg: Registry, name: string, index: nat,
                              options: SecurityOptions, ctx: Option<PipelineContext>): (r: Registry)
    ensures r.running == reg.running
    ensures ConfigKey(name, index) in r.configs
    ensures r.configs[ConfigKey(name, index)] == Entry(options, ctx)
    ensures forall k :: k != ConfigKey(name, index) ==>
              (k in r.configs <==> k in reg.configs) && (k in reg.configs ==> r.configs[k] == reg.configs[k])
    ensures options.filterType != OtherFilter ==> Slot(r, options.filterType) == SecurityConfig(Some(options), ctx)
    ensures forall u :: u != OtherFilter && u != options.filterType ==> Slot(r, u) == Slot(reg, u)
  {
    var stored := reg.(configs := reg.configs[ConfigKey(name, index) := Entry(options, ctx)]);
    WithSlot(stored, options.filterType, SecurityConfig(Some(options), ctx))
  }

  /** `RemoveSecurityOptions`: empties the slot of the stored entry's
      filter type and forgets the key. The source reads the entry before
      checking it exists, so the key must be registered. */
  function RemoveSecurityOptions(reg: Registry, name: string, index: nat): (r: Registry)
    requires ConfigKey(name, index) in reg.configs
    ensures r.running == reg.running
    ensures ConfigKey(name, index) !in r.configs
    ensures forall k :: k != ConfigKey(name, index) ==>
              (k in r.configs <==> k in reg.configs) && (k in reg.configs ==> r.configs[k] == reg.configs[k])
    ensures var t := reg.configs[ConfigKey(name, index)].options.filterType;
            (t != OtherFilter ==> Slot(r, t) == EmptySlot)
            && (forall u :: u != OtherFilter && u != t ==> Slot(r, u) == Slot(reg, u))
  {
    var key := ConfigKey(name, index);
    var cleared := WithSlot(reg, reg.configs[key].options.filterType, EmptySlot);
    cleared.(configs := cleared.configs - {key})
  }

  /** `Start`: a running server is left alone; otherwise it starts. */
  function Start(reg: Registry, pipeline: PipelineType): (r: Registry)
    ensures r.running
    ensures r.configs == reg.configs
    ensures r.fileConfig == reg.fileConfig && r.processConfig == reg.processConfig && r.networkConfig == reg.networkConfig
    ensures reg.running ==> r == reg
  {
    if reg.running then reg else reg.(running := true)
  }

  /** `Stop(type)`: stops the server whatever the type. */
  function StopPipeline(reg: Registry, pipeline: PipelineType): (r: Registry)
    ensures !r.running
    ensures r.(running := reg.running) == reg
  {
    reg.(running := false)
  }

  /** `Stop()`: stops the server. */
  function Stop(reg: Registry): (r: Registry)
    ensures !r.running
    ensures r.(running := reg.running) == reg
  {
    reg.(running := false)
  }

  /** A process event as the probe reports it: its tags in order. */
  datatype SecurityEvent = SecurityEvent(tags: seq<(string, string)>)

  /** A log event's contents; setting a key again replaces its value. */
  function Contents(tags: seq<(string, string)>): (c: map<string, string>)
    ensures forall k :: k in c <==> exists i :: 0 <= i < |tags| && tags[i].0 == k
    decreases |tags|
  {
    if |tags| == 0 then map[]
    else
      var last := tags[|tags| - 1];
      var c := Contents(tags[..|tags| - 1])[last.0 := last.1];
      assert forall k :: k in c ==> exists i :: 0 <= i < |tags| && tags[i].0 == k by {
        forall k | k in c ensures exists i :: 0 <= i < |tags| && tags[i].0 == k {
          if k != last.0 {
            var i :| 0 <= i < |tags| - 1 && tags[..|tags| - 1][i].0 == k;
            assert tags[i].0 == k;
          } else {
            assert tags[|tags| - 1].0 == k;
          }
        }
      }
      assert forall i :: 0 <= i < |tags| ==> tags[i].0 in c by {
        forall i | 0 <= i < |tags| ensures tags[i].0 in c {
          if i < |tags| - 1 {
            assert tags[..|tags| - 1][i] == tags[i];
          }
        }
      }
      c
  }

  /** The value a key ends up with is the one its last tag carries. */
  lemma {:induction false} ContentsLastWins(tags: seq<(string, string)>, i: nat)
    requires i < |tags|
    requires forall j :: i < j < |tags| ==> tags[j].0 != tags[i].0
    ensures tags[i].0 in Contents(tags) && Contents(tags)[tags[i].0] == tags[i].1
    decreases |tags|
  {
    if i < |tags| - 1 {
      var front := tags[..|tags| - 1];
      assert front[i] == tags[i];
      forall j | i < j < |front| ensures front[j].0 != front[i].0 {
        assert front[j] == tags[j];
      }
      ContentsLastWins(front, i);
    }
  }

  /** What reaches the process queue: one event group, tagged with the
      input index it came from. */
  datatype LogEvent = LogEvent(contents: map<string, string>)
  datatype EventGroup = EventGroup(logs: seq<LogEvent>)
  datatype QueueItem = QueueItem(queueKey: int, group: EventGroup, inputIndex: nat)

  /** `HandleProcessSecureEvent`: a null event is dropped; any other
      event becomes one log event pushed to the queue of the current
      process configuration, which must therefore be set. */
  function HandleProcessSecureEvent(reg: Registry, event: Option<SecurityEvent>): (pushed: Option<QueueItem>)
    requires event.Some? ==> reg.processConfig.ctx.Some?
    ensures event.None? <==> pushed.None?
    ensures pushed.Some? ==>
              pushed.value.queueKey == reg.processConfig.ctx.value.queueKey
              && pushed.value.inputIndex == 0
              && |pushed.value.group.logs| == 1
              && (forall k :: k in pushed.value.group.logs[0].contents <==>
                    exists i :: 0 <= i < |event.value.tags| && event.value.tags[i].0 == k)
  {
    match event
    case None => None
    case Some(e) =>
      Some(QueueItem(reg.processConfig.ctx.value.queueKey, EventGroup([LogEvent(Contents(e.tags))]), 0))
  }

  /** Each tag of the event shows up in the pushed log event with the
      value of its last occurrence. */
  lemma HandledEventCarriesTags(reg: Registry, e: SecurityEvent, i: nat)
    requires reg.processConfig.ctx.Some?
    requires i < |e.tags|
    requires forall j :: i < j < |e.tags| ==> e.tags[j].0 != e.tags[i].0
    ensures var item := HandleProcessSecureEvent(reg, Some(e)).value;
            item.group.logs[0].contents[e.tags[i].0] == e.tags[i].1
  {
    ContentsLastWins(e.tags, i);
  }

  /** Registering and then unregistering an input forgets it and leaves
      its filter type's slot empty; the other slots are as before the
      registration. */
  lemma AddThenRemove(reg: Registry, name: string, index: nat,
                      options: SecurityOptions, ctx: Option<PipelineContext>)
    ensures var r := RemoveSecurityOptions(AddSecurityOptions(reg, name, index, options, ctx), name, index);
            r.running == reg.running
            && r.configs == reg.configs - {ConfigKey(name, index)}
            && (options.filterType != OtherFilter ==> Slot(r, options.filterType) == EmptySlot)
            && (forall u :: u != OtherFilter && u != options.filterType ==> Slot(r, u) == Slot(reg, u))
  {
    var added := AddSecurityOptions(reg, name, index, options, ctx);
    var r := RemoveSecurityOptions(added, name, index);
    assert r.configs == reg.configs - {ConfigKey(name, index)};
  }

  /** Only one input per filter type is tracked: unregistering one of two
      process inputs empties the process slot although the other is still
      registered. */
  lemma RemoveEmptiesSharedSlot(reg: Registry, a: string, b: string,
                                o1: SecurityOptions, o2: SecurityOptions, ctx: Option<PipelineContext>)
    requires a != b
    requires o1.filterType == Process && o2.filterType == Process
    ensures var r := RemoveSecurityOptions(
              AddSecurityOptions(AddSecurityOptions(reg, a, 0, o1, ctx), b, 0, o2, ctx), a, 0);
            ConfigKey(b, 0) in r.configs && r.processConfig == EmptySlot
  {
    var r1 := AddSecurityOptions(reg, a, 0, o1, ctx);
    var r2 := AddSecurityOptions(r1, b, 0, o2, ctx);
    if ConfigKey(a, 0) == ConfigKey(b, 0) {
      ConfigKeyInjective(a, 0, b, 0);
    }
    assert ConfigKey(a, 0) in r2.configs;
  }

  /** Starting twice is starting once, and a stopped server restarts. */
  lemma StartIdempotent(reg: Registry, p: PipelineType, q: PipelineType)
    ensures Start(Start(reg, p), q) == Start(reg, p)
    ensures Start(Stop(reg), p).running && Start(StopPipeline(reg, q), p).running
  {
  }
}
