/** Run-time configuration of the emitter (src/config.h, src/config.cpp).

    A configuration starts from the defaults of `struct Config`. It is then
    overridden by the keys present in a YAML file, then by the options given
    on the command line. Last, the event filter is chosen: `--all`, then
    `--primary`, then `--events`, then the default preset.

    The YAML and command-line parsers are not modelled: the YAML documents
    that can be opened are a map from path to parsed document, and the
    command line is the set of options the option parser recognised (or
    `None` when it rejected the arguments). */
module Config {
  import opened Wrappers
  import opened Events

  type Port = p: int | 0 <= p < 0x1_0000

  /** The scalar settings of a configuration (all of `struct Config` except
      the event filter). */
  datatype Settings = Settings(
    multicastGroup: string,
    port: Port,
    ttl: int,
    loopback: bool,
    networkInterface: string,
    sampleRate: int,
    frameSize: int,
    hopSize: int,
    positionInterval: real,
    continuousInterval: real,
    inputFile: string)

  /** The defaults declared in `struct Config`. */
  function Defaults(): Settings {
    Settings("239.255.0.1", 5000, 1, true, "0.0.0.0", 44100, 2048, 1024, 1.0, 0.1, "")
  }

  /** A partial set of settings: the keys a YAML file or a command line gives. */
  datatype Overrides = Overrides(
    multicastGroup: Option<string>,
    port: Option<Port>,
    ttl: Option<int>,
    loopback: Option<bool>,
    networkInterface: Option<string>,
    sampleRate: Option<int>,
    frameSize: Option<int>,
    hopSize: Option<int>,
    positionInterval: Option<real>,
    continuousInterval: Option<real>,
    inputFile: Option<string>)

  function NoOverrides(): Overrides {
    Overrides(None, None, None, None, None, None, None, None, None, None, None)
  }

  /** Names of the scalar settings, and their values, for stating field-wise laws. */
  datatype Field =
    | MulticastGroup | PortNumber | Ttl | Loopback | NetworkInterface
    | SampleRate | FrameSize | HopSize | PositionInterval | ContinuousInterval | InputFile

  datatype Value = Text(text: string) | Whole(whole: int) | Flag(flag: bool) | Seconds(seconds: real)

  function Get(s: Settings, f: Field): Value {
    match f
    case MulticastGroup => Text(s.multicastGroup)
    case PortNumber => Whole(s.port)
    case Ttl => Whole(s.ttl)
    case Loopback => Flag(s.loopback)
    case NetworkInterface => Text(s.networkInterface)
    case SampleRate => Whole(s.sampleRate)
    case FrameSize => Whole(s.frameSize)
    case HopSize => Whole(s.hopSize)
    case PositionInterval => Seconds(s.positionInterval)
    case ContinuousInterval => Seconds(s.continuousInterval)
    case InputFile => Text(s.inputFile)
  }

  function Lift<T>(o: Option<T>, wrap: T -> Value): Option<Value> {
    match o
    case None => None
    case Some(v) => Some(wrap(v))
  }

  function Pick(o: Overrides, f: Field): Option<Value> {
    match f
    case MulticastGroup => Lift(o.multicastGroup, s => Text(s))
    case PortNumber => Lift(o.port, (p: Port) => Whole(p))
    case Ttl => Lift(o.ttl, i => Whole(i))
    case Loopback => Lift(o.loopback, b => Flag(b))
    case NetworkInterface => Lift(o.networkInterface, s => Text(s))
    case SampleRate => Lift(o.sampleRate, i => Whole(i))
    case FrameSize => Lift(o.frameSize, i => Whole(i))
    case HopSize => Lift(o.hopSize, i => Whole(i))
    case PositionInterval => Lift(o.positionInterval, r => Seconds(r))
    case ContinuousInterval => Lift(o.continuousInterval, r => Seconds(r))
    case InputFile => Lift(o.inputFile, s => Text(s))
  }

  /** Two settings that agree on every field are equal. */
  lemma {:induction false} SettingsByField(a: Settings, b: Settings)
    requires forall f :: Get(a, f) == Get(b, f)
    ensures a == b
  {
    assert Get(a, MulticastGroup) == Get(b, MulticastGroup);
    assert Get(a, PortNumber) == Get(b, PortNumber);
    assert Get(a, Ttl) == Get(b, Ttl);
    assert Get(a, Loopback) == Get(b, Loopback);
    assert Get(a, NetworkInterface) == Get(b, NetworkInterface);
    assert Get(a, SampleRate) == Get(b, SampleRate);
    assert Get(a, FrameSize) == Get(b, FrameSize);
    assert Get(a, HopSize) == Get(b, HopSize);
    assert Get(a, PositionInterval) == Get(b, PositionInterval);
    assert Get(a, ContinuousInterval) == Get(b, ContinuousInterval);
    assert Get(a, InputFile) == Get(b, InputFile);
  }

  /** Applies overrides: every given key replaces the setting, every absent key
      leaves it as it was. */
  function Merge(s: Settings, o: Overrides): Settings {
    Settings(
      o.multicastGroup.GetOr(s.multicastGroup),
      o.port.GetOr(s.port),
      o.ttl.GetOr(s.ttl),
      o.loopback.GetOr(s.loopback),
      o.networkInterface.GetOr(s.networkInterface),
      o.sampleRate.GetOr(s.sampleRate),
      o.frameSize.GetOr(s.frameSize),
      o.hopSize.GetOr(s.hopSize),
      o.positionInterval.GetOr(s.positionInterval),
      o.continuousInterval.GetOr(s.continuousInterval),
      o.inputFile.GetOr(s.inputFile))
  }

  /** Overriding, field by field: a given key replaces the setting, an absent
      key leaves it as it was. */
  lemma {:induction false} MergeByField(s: Settings, o: Overrides)
    ensures forall f :: Get(Merge(s, o), f) == Pick(o, f).GetOr(Get(s, f))
  {
    forall f
      ensures Get(Merge(s, o), f) == Pick(o, f).GetOr(Get(s, f))
    {
      match f {
        case MulticastGroup =>
        case PortNumber =>
        case Ttl =>
        case Loopback =>
        case NetworkInterface =>
        case SampleRate =>
        case FrameSize =>
        case HopSize =>
        case PositionInterval =>
        case ContinuousInterval =>
        case InputFile =>
      }
    }
  }

  function Later<T>(a: Option<T>, b: Option<T>): Option<T> {
    if b.Some? then b else a
  }

  /** The overrides `a` followed by `b`: a key of `b` wins over the same key of `a`. */
  function Combine(a: Overrides, b: Overrides): (c: Overrides)
    ensures forall f :: Pick(c, f) == if Pick(b, f).Some? then Pick(b, f) else Pick(a, f)
  {
    Overrides(
      Later(a.multicastGroup, b.multicastGroup),
      Later(a.port, b.port),
      Later(a.ttl, b.ttl),
      Later(a.loopback, b.loopback),
      Later(a.networkInterface, b.networkInterface),
      Later(a.sampleRate, b.sampleRate),
      Later(a.frameSize, b.frameSize),
      Later(a.hopSize, b.hopSize),
      Later(a.positionInterval, b.positionInterval),
      Later(a.continuousInterval, b.continuousInterval),
      Later(a.inputFile, b.inputFile))
  }

  /** No overrides change nothing; applying `a` then `b` is applying their
      combination; applying the same overrides twice is applying them once. */
  lemma {:induction false} MergeLaws(s: Settings, a: Overrides, b: Overrides)
    ensures Merge(s, NoOverrides()) == s
    ensures Merge(Merge(s, a), b) == Merge(s, Combine(a, b))
    ensures Merge(Merge(s, a), a) == Merge(s, a)
  {
    SettingsByField(Merge(s, NoOverrides()), s);
    SettingsByField(Merge(Merge(s, a), b), Merge(s, Combine(a, b)));
    SettingsByField(Merge(Merge(s, a), a), Merge(s, a));
  }

  // ---------------------------------------------------------------- YAML

  datatype NetworkNode = NetworkNode(
    multicastGroup: Option<string>, port: Option<Port>, ttl: Option<int>,
    loopback: Option<bool>, networkInterface: Option<string>)
  datatype AnalysisNode = AnalysisNode(sampleRate: Option<int>, frameSize: Option<int>, hopSize: Option<int>)
  datatype TransportNode = TransportNode(positionInterval: Option<real>)
  datatype EventsNode = EventsNode(continuousInterval: Option<real>)

  /** A parsed YAML configuration file: its four optional top-level sections. */
  datatype YamlDoc = YamlDoc(
    network: Option<NetworkNode>,
    analysis: Option<AnalysisNode>,
    transport: Option<TransportNode>,
    events: Option<EventsNode>)

  /** The settings a YAML document gives: the keys present inside a present
      section. A YAML file never names the input file. */
  function YamlOverrides(doc: YamlDoc): (o: Overrides)
    ensures o.inputFile.None?
    ensures doc.network.None? ==> o.multicastGroup.None? && o.port.None? && o.ttl.None? && o.loopback.None? && o.networkInterface.None?
    ensures doc.analysis.None? ==> o.sampleRate.None? && o.frameSize.None? && o.hopSize.None?
    ensures doc.transport.None? ==> o.positionInterval.None?
    ensures doc.events.None? ==> o.continuousInterval.None?
  {
    var net := doc.network.GetOr(NetworkNode(None, None, None, None, None));
    var an := doc.analysis.GetOr(AnalysisNode(None, None, None));
    Overrides(
      net.multicastGroup, net.port, net.ttl, net.loopback, net.networkInterface,
      an.sampleRate, an.frameSize, an.hopSize,
      if doc.transport.Some? then doc.transport.value.positionInterval else None,
      if doc.events.Some? then doc.events.value.continuousInterval else None,
      None)
  }

  /** The settings after loading the file at `path`: unchanged when no file
      can be opened there. */
  function LoadFile(s: Settings, files: map<string, YamlDoc>, path: string): Settings {
    if path in files then Merge(s, YamlOverrides(files[path])) else s
  }

  const PrimaryDefaultPath: string := "config/tracks-default.yaml"
  const SecondaryDefaultPath: string := "tracks-default.yaml"

  /** The YAML stage: the named file, or else both default files in order. */
  function YamlStage(s: Settings, files: map<string, YamlDoc>, config: Option<string>): Settings {
    match config
    case Some(path) => LoadFile(s, files, path)
    case None => LoadFile(LoadFile(s, files, PrimaryDefaultPath), files, SecondaryDefaultPath)
  }

  /** Without `--config` a key of the second default file wins over the first,
      which wins over the settings before; the input file is never touched. */
  lemma {:induction false} DefaultFilesInOrder(s: Settings, files: map<string, YamlDoc>, f: Field)
    ensures var first := if PrimaryDefaultPath in files then Pick(YamlOverrides(files[PrimaryDefaultPath]), f) else None;
            var second := if SecondaryDefaultPath in files then Pick(YamlOverrides(files[SecondaryDefaultPath]), f) else None;
            Get(YamlStage(s, files, None), f) == (if second.Some? then second.value else first.GetOr(Get(s, f)))
    ensures YamlStage(s, files, None).inputFile == s.inputFile
  {
    var mid := LoadFile(s, files, PrimaryDefaultPath);
    assert Get(mid, InputFile) == Get(s, InputFile);
    assert Get(LoadFile(mid, files, SecondaryDefaultPath), InputFile) == Get(mid, InputFile);
  }

  // ---------------------------------------------------------------- command line

  /** The options the command-line parser recognised. `fields` holds the value
      options that override settings (`--input` or the positional argument
      included); the rest select what happens. */
  datatype Options = Options(
    help: bool,
    listEvents: bool,
    config: Option<string>,
    fields: Overrides,
    all: bool,
    primary: bool,
    events: Option<string>)

  /** The settings after the YAML stage and the command-line overrides. */
  function Configured(s: Settings, files: map<string, YamlDoc>, o: Options): Settings {
    Merge(YamlStage(s, files, o.config), o.fields)
  }

  /** A setting given on the command line wins over every file; one not given
      keeps the value of the YAML stage. */
  lemma {:induction false} CommandLineWins(s: Settings, files: map<string, YamlDoc>, o: Options, f: Field)
    ensures Pick(o.fields, f).Some? ==> Get(Configured(s, files, o), f) == Pick(o.fields, f).value
    ensures Pick(o.fields, f).None? ==> Get(Configured(s, files, o), f) == Get(YamlStage(s, files, o.config), f)
  {
  }

  /** The input file comes from the command line only. */
  lemma {:induction false} InputOnlyFromCommandLine(s: Settings, files: map<string, YamlDoc>, o: Options)
    ensures Configured(s, files, o).inputFile == o.fields.inputFile.GetOr(s.inputFile)
  {
    var y := YamlStage(s, files, o.config);
    match o.config {
      case Some(p) =>
        assert Get(y, InputFile) == Get(s, InputFile);
      case None =>
        DefaultFilesInOrder(s, files, InputFile);
    }
    assert Get(Configured(s, files, o), InputFile) == Pick(o.fields, InputFile).GetOr(Get(y, InputFile));
  }

  /** The non-transport types a name map names. */
  function NamedNonTransport(names: map<string, EventType>): EventFilter {
    set n | n in names && !IsTransport(names[n]) :: names[n]
  }

  lemma {:induction false} NamedNonTransportIsAll(names: map<string, EventType>)
    requires IsNameMap(names)
    ensures forall et :: et in NamedNonTransport(names) <==> !IsTransport(et)
  {
    forall et | !IsTransport(et)
      ensures et in NamedNonTransport(names)
    {
      NameMapHasName(names, et);
    }
  }

  /** The event filter the options select, or `None` when `--events` selects
      nothing (which is an error). */
  function ChooseFilter(names: map<string, EventType>, o: Options): Option<EventFilter> {
    if o.all then Some(NamedNonTransport(names))
    else if o.primary then Some(Tier1Events())
    else if o.events.Some? then
      var f := ParseWith(names, o.events.value);
      if f == {} then None else Some(f)
    else Some(DefaultEvents())
  }

  /** `--all` wins over `--primary` and `--events`, `--primary` over `--events`,
      and the default preset applies only when none is given. */
  lemma {:induction false} FilterPrecedence(names: map<string, EventType>, o: Options, primary: bool, events: Option<string>)
    ensures o.all ==> ChooseFilter(names, o) == ChooseFilter(names, o.(primary := primary, events := events))
    ensures !o.all && o.primary ==> ChooseFilter(names, o) == ChooseFilter(names, o.(events := events)) == Some(Tier1Events())
    ensures !o.all && !o.primary && o.events.None? ==> ChooseFilter(names, o) == Some({Beat, Onset})
  {
  }

  /** A chosen filter is never empty and never holds a transport type; `--all`
      chooses every other type; the choice fails exactly when `--events` is the
      deciding option and names nothing usable. */
  lemma {:induction false} ChosenFilterSound(names: map<string, EventType>, o: Options)
    requires IsNameMap(names)
    ensures ChooseFilter(names, o).Some? ==> ChooseFilter(names, o).value != {}
    ensures ChooseFilter(names, o).Some? ==> forall et :: et in ChooseFilter(names, o).value ==> !IsTransport(et)
    ensures o.all ==> forall et :: et in ChooseFilter(names, o).value <==> !IsTransport(et)
    ensures ChooseFilter(names, o).None? <==> !o.all && !o.primary && o.events.Some? && ParseWith(names, o.events.value) == {}
  {
    NamedNonTransportIsAll(names);
    PresetsOmitTransport();
    assert Beat in Tier1Events() && Beat in DefaultEvents();
    assert Beat in NamedNonTransport(names);
    if o.events.Some? {
      SelectedOmitsTransport(names, Tokens(o.events.value));
    }
  }

  /** Picks the event filter of `load_config`: `--all`, then `--primary`, then
      `--events` parsed with the name map, then the default preset; `None` when
      `--events` names nothing usable. */
  method SelectFilter(o: Options) returns (filter: Option<EventFilter>)
    ensures forall names :: IsNameMap(names) ==> filter == ChooseFilter(names, o)
    ensures filter.Some? ==> filter.value != {} && forall et :: et in filter.value ==> !IsTransport(et)
  {
    if o.all {
      var all := AllEvents();
      filter := Some(all);
      forall names | IsNameMap(names)
        ensures filter == ChooseFilter(names, o)
      {
        NamedNonTransportIsAll(names);
        assert all == NamedNonTransport(names);
      }
      assert Beat in filter.value;
    } else if o.primary {
      filter := Some(Tier1Events());
      PresetsOmitTransport();
      assert Beat in filter.value;
    } else if o.events.Some? {
      var names := EventNameMap();
      var parsed, warnings := ParseEventFilter(names, o.events.value);
      forall other | IsNameMap(other)
        ensures parsed == ParseWith(other, o.events.value)
      {
        NameMapUnique(names, other);
      }
      filter := if parsed == {} then None else Some(parsed);
    } else {
      filter := Some(DefaultEvents());
      PresetsOmitTransport();
      assert Beat in filter.value;
    }
  }

  // ---------------------------------------------------------------- the configuration

  /** The configuration `load_config` fills in place. */
  class Configuration {
    /** Every setting of `struct Config` but the event filter. */
    var settings: Settings
    var enabledEvents: EventFilter

    /** A configuration holding the declared defaults and no event types. */
    constructor()
      ensures settings == Defaults() && enabledEvents == {}
    {
      settings := Defaults();
      enabledEvents := {};
    }

    /** Loads the YAML file at `path`, if it can be opened: each key present
        overrides its setting. */
    method LoadYaml(files: map<string, YamlDoc>, path: string)
      modifies this
      ensures settings == LoadFile(old(settings), files, path)
      ensures enabledEvents == old(enabledEvents)
    {
      if path !in files {
        return;
      }
      ApplyOverrides(YamlOverrides(files[path]));
    }

    /** Applies overrides over the current settings: each key given replaces
        its setting and each key not given leaves it as it was (each
        conditional assignment is written as an update to the given value or
        to the current one). */
    method ApplyOverrides(o: Overrides)
      modifies this
      ensures settings == Merge(old(settings), o)
      ensures enabledEvents == old(enabledEvents)
    {
      settings := settings.(inputFile := o.inputFile.GetOr(settings.inputFile));
      settings := settings.(multicastGroup := o.multicastGroup.GetOr(settings.multicastGroup));
      settings := settings.(port := o.port.GetOr(settings.port));
      settings := settings.(ttl := o.ttl.GetOr(settings.ttl));
      settings := settings.(loopback := o.loopback.GetOr(settings.loopback));
      settings := settings.(networkInterface := o.networkInterface.GetOr(settings.networkInterface));
      settings := settings.(sampleRate := o.sampleRate.GetOr(settings.sampleRate));
      settings := settings.(frameSize := o.frameSize.GetOr(settings.frameSize));
      settings := settings.(hopSize := o.hopSize.GetOr(settings.hopSize));
      settings := settings.(positionInterval := o.positionInterval.GetOr(settings.positionInterval));
      settings := settings.(continuousInterval := o.continuousInterval.GetOr(settings.continuousInterval));
    }

    /** Loads the configuration: `cli` is `None` when the option parser
        rejected the command line. Returns whether the program may run. */
    method LoadConfig(files: map<string, YamlDoc>, cli: Option<Options>) returns (ok: bool)
      modifies this
      ensures cli.None? || cli.value.help || cli.value.listEvents ==>
        !ok && settings == old(settings) && enabledEvents == old(enabledEvents)
      ensures cli.Some? && !cli.value.help && !cli.value.listEvents ==>
        settings == Configured(old(settings), files, cli.value)
      ensures cli.Some? && !cli.value.help && !cli.value.listEvents ==>
        forall names :: IsNameMap(names) ==>
          enabledEvents == ChooseFilter(names, cli.value).GetOr({}) &&
          (ok <==> ChooseFilter(names, cli.value).Some? && settings.inputFile != [])
      ensures ok ==> settings.inputFile != [] && enabledEvents != {}
      ensures ok ==> forall et :: et in enabledEvents ==> !IsTransport(et)
    {
      if cli.None? {
        return false;
      }
      var o := cli.value;
      if o.help {
        return false;
      }
      if o.listEvents {
        return false;
      }

      match o.config {
        case Some(path) =>
          LoadYaml(files, path);
        case None =>
          LoadYaml(files, PrimaryDefaultPath);
          LoadYaml(files, SecondaryDefaultPath);
      }
      ApplyOverrides(o.fields);

      var chosen := SelectFilter(o);
      enabledEvents := chosen.GetOr({});
      if chosen.None? {
        return false;
      }

      if settings.inputFile == [] {
        return false;
      }
      return true;
    }
  }
}
