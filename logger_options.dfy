/** Logger configuration of internal/service/logger.go: the default configuration and the
    options that overwrite one of its fields each. Go's option closures become the
    LoggerOption datatype; applying one mutates a LoggerConfig object in place. */
module LoggerOptions {
  import opened Basics
  import opened Clients

  /** LogFormat is a string; only "text" and "json" (and, in the provider, "") mean something. */
  type LogFormat = string

  const LogFormatText: LogFormat := "text"
  const LogFormatJSON: LogFormat := "json"

  const DefaultLogFormat: LogFormat := LogFormatText
  const DefaultLogLevel: Level := InfoLevel

  /** WithLevel, WithFormat, WithOptions and WithOutput, one constructor per option closure. */
  datatype LoggerOption =
    | WithLevel(level: Level)
    | WithFormat(format: LogFormat)
    | WithOptions(opts: seq<ZapOption>)
    | WithOutput(out: Option<Writer>)

  /** The value of a loggerConfig: format, level, output (nil until set) and zap options. */
  datatype Settings = Settings(format: LogFormat, level: Level, out: Option<Writer>, opts: seq<ZapOption>)

  /** What newLoggerConfig starts from. */
  const DefaultSettings := Settings(DefaultLogFormat, DefaultLogLevel, None, [])

  /** The effect of one option on a configuration value. */
  function Applied(s: Settings, o: LoggerOption): Settings
  {
    match o
    case WithLevel(l) => s.(level := l)
    case WithFormat(f) => s.(format := f)
    case WithOptions(zs) => s.(opts := zs)
    case WithOutput(w) => s.(out := w)
  }

  /** The options applied one after the other, first to last. */
  function AppliedAll(s: Settings, opts: seq<LoggerOption>): Settings
    decreases |opts|
  {
    if opts == [] then s else AppliedAll(Applied(s, opts[0]), opts[1..])
  }

  /** The field an option writes. */
  datatype OptionKind = LevelKind | FormatKind | OptionsKind | OutputKind

  function KindOf(o: LoggerOption): OptionKind
  {
    match o
    case WithLevel(_) => LevelKind
    case WithFormat(_) => FormatKind
    case WithOptions(_) => OptionsKind
    case WithOutput(_) => OutputKind
  }

  /** The last option of kind k in opts, if there is one. */
  function Latest(opts: seq<LoggerOption>, k: OptionKind): (r: Option<LoggerOption>)
    ensures r.Some? ==> r.value in opts && KindOf(r.value) == k
    ensures r.None? ==> forall i :: 0 <= i < |opts| ==> KindOf(opts[i]) != k
    ensures r.Some? ==>
      exists i :: (0 <= i < |opts| && opts[i] == r.value && forall j :: i < j < |opts| ==> KindOf(opts[j]) != k)
    decreases |opts|
  {
    if opts == [] then None
    else if KindOf(opts[|opts| - 1]) == k then Some(opts[|opts| - 1])
    else Latest(opts[..|opts| - 1], k)
  }

  /** Reference definition: every field holds the value of the last option that writes it,
      or its starting value when no option does. */
  function LastWins(s: Settings, opts: seq<LoggerOption>): Settings
  {
    Settings(
      if Latest(opts, FormatKind).Some? then Latest(opts, FormatKind).value.format else s.format,
      if Latest(opts, LevelKind).Some? then Latest(opts, LevelKind).value.level else s.level,
      if Latest(opts, OutputKind).Some? then Latest(opts, OutputKind).value.out else s.out,
      if Latest(opts, OptionsKind).Some? then Latest(opts, OptionsKind).value.opts else s.opts)
  }

  lemma {:induction false} AppliedAllSnoc(s: Settings, opts: seq<LoggerOption>, o: LoggerOption)
    ensures AppliedAll(s, opts + [o]) == Applied(AppliedAll(s, opts), o)
    decreases |opts|
  {
    if opts == [] {
      assert opts + [o] == [o];
    } else {
      assert (opts + [o])[1..] == opts[1..] + [o];
      AppliedAllSnoc(Applied(s, opts[0]), opts[1..], o);
    }
  }

  /** Options are applied in the order given, so of two options of the same kind the
      later one decides the field; fields no option names keep their starting value. */
  lemma {:induction false} LatestOptionWins(s: Settings, opts: seq<LoggerOption>)
    ensures AppliedAll(s, opts) == LastWins(s, opts)
    decreases |opts|
  {
    if opts != [] {
      var init, o := opts[..|opts| - 1], opts[|opts| - 1];
      assert opts == init + [o];
      AppliedAllSnoc(s, init, o);
      LatestOptionWins(s, init);
    }
  }

  /** loggerConfig, which the option closures update in place. */
  class LoggerConfig {
    var format: LogFormat
    var level: Level
    var out: Option<Writer>
    var opts: seq<ZapOption>

    /** newLoggerConfig: text format, Info level, no output and no zap options. */
    constructor ()
      ensures Current() == DefaultSettings
      ensures format == LogFormatText && level == InfoLevel && out.None? && opts == []
    {
      format := DefaultLogFormat;
      level := DefaultLogLevel;
      out := None;
      opts := [];
    }

    function Current(): Settings
      reads this
    {
      Settings(format, level, out, opts)
    }

    /** apply: each option overwrites its own field and leaves the others alone;
        WithFormat stores any string unchecked and WithOptions replaces the list. */
    method Apply(o: LoggerOption)
      modifies this
      ensures o.WithLevel? ==> Current() == old(Current()).(level := o.level)
      ensures o.WithFormat? ==> Current() == old(Current()).(format := o.format)
      ensures o.WithOptions? ==> Current() == old(Current()).(opts := o.opts)
      ensures o.WithOutput? ==> Current() == old(Current()).(out := o.out)
    {
      match o
      case WithLevel(l) => level := l;
      case WithFormat(f) => format := f;
      case WithOptions(zs) => opts := zs;
      case WithOutput(w) => out := w;
    }
  }
}
