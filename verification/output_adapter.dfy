/**
 * `OutputAdapter`: the bridge from the Symfony console output interface the
 * migration engine writes to, onto the framework's own console output (the
 * "host"). The numeric values of both sets of constants are parameters
 * (`CodeTable`); host calls are recorded in order rather than performed.
 */
module ConsoleOutput {
  import opened Wrappers

  /** A PHP integer as a 64-bit pattern, so that `&` and `|` are the PHP operators. */
  type Code = bv64

  /** The eight codes `transformCode` recognises: three output formats and five verbosity levels. */
  datatype Kind =
    | OutputNormal | OutputRaw | OutputPlain
    | VerbosityQuiet | VerbosityNormal | VerbosityVerbose | VerbosityVeryVerbose | VerbosityDebug

  predicate IsFormat(k: Kind) {
    k == OutputNormal || k == OutputRaw || k == OutputPlain
  }

  /** One value per recognised code. */
  datatype Codes = Codes(
    outputNormal: Code, outputRaw: Code, outputPlain: Code,
    quiet: Code, normal: Code, verbose: Code, veryVerbose: Code, debug: Code)
  {
    function Of(k: Kind): Code {
      match k
      case OutputNormal => outputNormal
      case OutputRaw => outputRaw
      case OutputPlain => outputPlain
      case VerbosityQuiet => quiet
      case VerbosityNormal => normal
      case VerbosityVerbose => verbose
      case VerbosityVeryVerbose => veryVerbose
      case VerbosityDebug => debug
    }
  }

  /** The Symfony value and the host value of each recognised code. */
  datatype CodeTable = CodeTable(symfonyCodes: Codes, hostCodes: Codes) {
    function symfony(k: Kind): Code {
      symfonyCodes.Of(k)
    }

    function host(k: Kind): Code {
      hostCodes.Of(k)
    }
  }

  /** No two recognised Symfony codes share a value. */
  predicate Distinct(t: CodeTable) {
    forall a: Kind, b: Kind :: a != b ==> t.symfony(a) != t.symfony(b)
  }

  /** Symfony's `OUTPUT_*` and `VERBOSITY_*` values: one bit each. */
  const SymfonyCodes: Codes := Codes(1, 2, 4, 16, 32, 64, 128, 256)

  /** The host framework's `Output` values, numbered from 0 within each group. */
  const HostCodes: Codes := Codes(0, 1, 2, 0, 1, 2, 3, 4)

  /** The Symfony side of the table holds Symfony's published values; the host side is left open. */
  predicate PublishedSymfony(t: CodeTable) {
    t.symfonyCodes == SymfonyCodes
  }

  /** `OUTPUT_NORMAL | OUTPUT_RAW | OUTPUT_PLAIN`. */
  function FormatMask(t: CodeTable): Code {
    t.symfony(OutputNormal) | t.symfony(OutputRaw) | t.symfony(OutputPlain)
  }

  /** The five verbosity bits or-ed together. */
  function VerbosityMask(t: CodeTable): Code {
    t.symfony(VerbosityQuiet) | t.symfony(VerbosityNormal) | t.symfony(VerbosityVerbose)
    | t.symfony(VerbosityVeryVerbose) | t.symfony(VerbosityDebug)
  }

  /**
   * `transformCode`: the switch maps a recognised Symfony code to its host
   * counterpart (the first matching case wins) and returns anything else
   * unchanged.
   */
  function TransformCode(t: CodeTable, c: Code): (r: Code)
    ensures (forall k: Kind :: c != t.symfony(k)) ==> r == c
    ensures r == c || exists k: Kind :: c == t.symfony(k) && r == t.host(k)
  {
    if c == t.symfony(OutputNormal) then t.host(OutputNormal)
    else if c == t.symfony(OutputRaw) then t.host(OutputRaw)
    else if c == t.symfony(OutputPlain) then t.host(OutputPlain)
    else if c == t.symfony(VerbosityQuiet) then t.host(VerbosityQuiet)
    else if c == t.symfony(VerbosityNormal) then t.host(VerbosityNormal)
    else if c == t.symfony(VerbosityVerbose) then t.host(VerbosityVerbose)
    else if c == t.symfony(VerbosityVeryVerbose) then t.host(VerbosityVeryVerbose)
    else if c == t.symfony(VerbosityDebug) then t.host(VerbosityDebug)
    else c
  }

  /** With distinct Symfony codes every recognised code maps to its own host code. */
  lemma TransformRecognised(t: CodeTable, k: Kind)
    requires Distinct(t)
    ensures TransformCode(t, t.symfony(k)) == t.host(k)
  {
  }

  /** `$types & $options ?: self::OUTPUT_NORMAL`: the format part of a mask, before conversion. */
  function DecodeFormat(t: CodeTable, options: Code): (r: Code)
    ensures FormatMask(t) & options == 0 ==> r == t.symfony(OutputNormal)
    ensures FormatMask(t) & options != 0 ==> r == FormatMask(t) & options
  {
    var m := FormatMask(t) & options;
    if m != 0 then m else t.symfony(OutputNormal)
  }

  /** `$verbosities & $options ?: self::VERBOSITY_NORMAL`: the verbosity part of a mask. */
  function DecodeVerbosity(t: CodeTable, options: Code): (r: Code)
    ensures VerbosityMask(t) & options == 0 ==> r == t.symfony(VerbosityNormal)
    ensures VerbosityMask(t) & options != 0 ==> r == VerbosityMask(t) & options
  {
    var m := VerbosityMask(t) & options;
    if m != 0 then m else t.symfony(VerbosityNormal)
  }

  /** A call made on the host output, in the order the adapter makes them. */
  datatype HostCall =
    | HostSetVerbosity(level: Code)
    | HostWrite(messages: seq<string>, newline: bool, format: Code)
    | HostWriteln(messages: seq<string>, format: Code)
    | HostSetDecorated(decorated: bool)

  /**
   * The adapter's own fields (`null` until set) and the calls it has made
   * on the host output.
   */
  datatype Adapter<F> = Adapter(
    verbosity: Option<Code>, decorated: Option<bool>, formatter: Option<F>, calls: seq<HostCall>)

  /** A fresh adapter: `new OutputAdapter($output)`. */
  function NewAdapter<F>(): Adapter<F> {
    Adapter(None, None, None, [])
  }

  /** `setVerbosity($level)`: stores the level as given and passes the converted level to the host. */
  function SetVerbosity<F>(t: CodeTable, a: Adapter<F>, level: Code): (r: Adapter<F>)
    ensures r.verbosity == Some(level)
    ensures r.calls == a.calls + [HostSetVerbosity(TransformCode(t, level))]
    ensures r.decorated == a.decorated && r.formatter == a.formatter
  {
    a.(verbosity := Some(level), calls := a.calls + [HostSetVerbosity(TransformCode(t, level))])
  }

  function GetVerbosity<F>(a: Adapter<F>): Option<Code> {
    a.verbosity
  }

  /** `optionsToType`: the converted format code, and the adapter after the decoded verbosity is set. */
  function OptionsToType<F>(t: CodeTable, a: Adapter<F>, options: Code): (r: (Code, Adapter<F>))
    ensures r.0 == TransformCode(t, DecodeFormat(t, options))
    ensures r.1 == SetVerbosity(t, a, DecodeVerbosity(t, options))
  {
    (TransformCode(t, DecodeFormat(t, options)), SetVerbosity(t, a, DecodeVerbosity(t, options)))
  }

  /** `write($messages, $newline, $options)`. */
  function Write<F>(t: CodeTable, a: Adapter<F>, messages: seq<string>, newline: bool, options: Code): (r: Adapter<F>)
    ensures GetVerbosity(r) == Some(DecodeVerbosity(t, options))
    ensures r.calls == a.calls + [HostSetVerbosity(TransformCode(t, DecodeVerbosity(t, options))),
                                  HostWrite(messages, newline, TransformCode(t, DecodeFormat(t, options)))]
    ensures r.decorated == a.decorated && r.formatter == a.formatter
  {
    var (format, b) := OptionsToType(t, a, options);
    b.(calls := b.calls + [HostWrite(messages, newline, format)])
  }

  /** `writeln($messages, $options)` as written: the converted format is converted a second time. */
  function Writeln<F>(t: CodeTable, a: Adapter<F>, messages: seq<string>, options: Code): (r: Adapter<F>)
    ensures GetVerbosity(r) == Some(DecodeVerbosity(t, options))
    ensures r.calls == a.calls + [HostSetVerbosity(TransformCode(t, DecodeVerbosity(t, options))),
                                  HostWriteln(messages, TransformCode(t, TransformCode(t, DecodeFormat(t, options))))]
    ensures r.decorated == a.decorated && r.formatter == a.formatter
  {
    var (format, b) := OptionsToType(t, a, options);
    b.(calls := b.calls + [HostWriteln(messages, TransformCode(t, format))])
  }

  /** `writeln` with the format converted once, as `write` does. */
  function WritelnCorrected<F>(t: CodeTable, a: Adapter<F>, messages: seq<string>, options: Code): (r: Adapter<F>)
    ensures GetVerbosity(r) == Some(DecodeVerbosity(t, options))
    ensures r.calls == a.calls + [HostSetVerbosity(TransformCode(t, DecodeVerbosity(t, options))),
                                  HostWriteln(messages, TransformCode(t, DecodeFormat(t, options)))]
    ensures r.decorated == a.decorated && r.formatter == a.formatter
  {
    var (format, b) := OptionsToType(t, a, options);
    b.(calls := b.calls + [HostWriteln(messages, format)])
  }

  /** `setDecorated($decorated)`: forwarded to the host and stored. */
  function SetDecorated<F>(a: Adapter<F>, decorated: bool): (r: Adapter<F>)
    ensures r.decorated == Some(decorated)
    ensures r.calls == a.calls + [HostSetDecorated(decorated)]
    ensures r.verbosity == a.verbosity && r.formatter == a.formatter
  {
    a.(decorated := Some(decorated), calls := a.calls + [HostSetDecorated(decorated)])
  }

  function IsDecorated<F>(a: Adapter<F>): Option<bool> {
    a.decorated
  }

  /** `setFormatter($formatter)`: stored only; the host is not told. */
  function SetFormatter<F>(a: Adapter<F>, formatter: F): (r: Adapter<F>)
    ensures r.formatter == Some(formatter)
    ensures r.calls == a.calls && r.verbosity == a.verbosity && r.decorated == a.decorated
  {
    a.(formatter := Some(formatter))
  }

  function GetFormatter<F>(a: Adapter<F>): Option<F> {
    a.formatter
  }

  /** The getters read back what the setters stored; `setVerbosity` keeps the unconverted level. */
  lemma GettersRoundTrip<F>(t: CodeTable, a: Adapter<F>, level: Code, decorated: bool, formatter: F)
    ensures GetVerbosity(SetVerbosity(t, a, level)) == Some(level)
    ensures IsDecorated(SetDecorated(a, decorated)) == Some(decorated)
    ensures GetFormatter(SetFormatter(a, formatter)) == Some(formatter)
    ensures IsDecorated(SetFormatter(SetVerbosity(t, SetDecorated(a, decorated), level), formatter)) == Some(decorated)
  {
  }

  /** A mask of 0 means the normal format at normal verbosity. */
  lemma ZeroOptions<F>(t: CodeTable, a: Adapter<F>, messages: seq<string>, newline: bool)
    requires Distinct(t)
    ensures var r := Write(t, a, messages, newline, 0);
            && GetVerbosity(r) == Some(t.symfony(VerbosityNormal))
            && r.calls[|a.calls|..] == [HostSetVerbosity(t.host(VerbosityNormal)),
                                        HostWrite(messages, newline, t.host(OutputNormal))]
  {
    TransformRecognised(t, VerbosityNormal);
    TransformRecognised(t, OutputNormal);
    var r := Write(t, a, messages, newline, 0);
    assert r.calls[|a.calls|..] == [HostSetVerbosity(TransformCode(t, DecodeVerbosity(t, 0))),
                                    HostWrite(messages, newline, TransformCode(t, DecodeFormat(t, 0)))];
  }

  /** Symfony's values are distinct and non-zero, so each one is recognised as its own kind. */
  lemma PublishedSymfonyDistinct(t: CodeTable)
    requires PublishedSymfony(t)
    ensures Distinct(t)
    ensures forall k: Kind :: t.symfony(k) != 0
  {
  }

  /**
   * With Symfony's single-bit values, a mask built from one format and one
   * verbosity decodes back to exactly those two codes.
   */
  lemma DecodeRoundTrip(t: CodeTable, format: Kind, level: Kind)
    requires PublishedSymfony(t)
    requires IsFormat(format) && !IsFormat(level)
    ensures DecodeFormat(t, t.symfony(format) | t.symfony(level)) == t.symfony(format)
    ensures DecodeVerbosity(t, t.symfony(format) | t.symfony(level)) == t.symfony(level)
  {
  }

  /**
   * `write` with a mask of one format and one verbosity: the host is set to
   * that verbosity's host code and receives the format's host code.
   */
  lemma WriteRoundTrip<F>(t: CodeTable, a: Adapter<F>, messages: seq<string>, newline: bool, format: Kind, level: Kind)
    requires PublishedSymfony(t)
    requires IsFormat(format) && !IsFormat(level)
    ensures var r := Write(t, a, messages, newline, t.symfony(format) | t.symfony(level));
            && GetVerbosity(r) == Some(t.symfony(level))
            && r.calls == a.calls + [HostSetVerbosity(t.host(level)), HostWrite(messages, newline, t.host(format))]
  {
    DecodeRoundTrip(t, format, level);
    PublishedSymfonyDistinct(t);
    TransformRecognised(t, format);
    TransformRecognised(t, level);
  }

  /** The same for `writeln` with the format converted once. */
  lemma WritelnCorrectedRoundTrip<F>(t: CodeTable, a: Adapter<F>, messages: seq<string>, format: Kind, level: Kind)
    requires PublishedSymfony(t)
    requires IsFormat(format) && !IsFormat(level)
    ensures var r := WritelnCorrected(t, a, messages, t.symfony(format) | t.symfony(level));
            && GetVerbosity(r) == Some(t.symfony(level))
            && r.calls == a.calls + [HostSetVerbosity(t.host(level)), HostWriteln(messages, t.host(format))]
  {
    DecodeRoundTrip(t, format, level);
    PublishedSymfonyDistinct(t);
    TransformRecognised(t, format);
    TransformRecognised(t, level);
  }

  /**
   * The second conversion in `writeln` is harmless exactly when no host
   * code is also a Symfony code: then `writeln` and its corrected form make
   * the same calls for every mask.
   */
  lemma WritelnAgreesWhenCodesApart<F>(t: CodeTable, a: Adapter<F>, messages: seq<string>, options: Code)
    requires forall j: Kind, k: Kind :: t.host(j) != t.symfony(k)
    ensures Writeln(t, a, messages, options) == WritelnCorrected(t, a, messages, options)
  {
    TransformTwice(t, DecodeFormat(t, options));
  }

  /** Converting a second time changes nothing when no host code is also a Symfony code. */
  lemma TransformTwice(t: CodeTable, c: Code)
    requires forall j: Kind, k: Kind :: t.host(j) != t.symfony(k)
    ensures TransformCode(t, TransformCode(t, c)) == TransformCode(t, c)
  {
    var y := TransformCode(t, c);
    if y != c {
      var k: Kind :| c == t.symfony(k) && y == t.host(k);
    }
    assert forall k: Kind :: y != t.symfony(k);
  }

  /**
   * The published constants: Symfony's single-bit `OUTPUT_*` and
   * `VERBOSITY_*` values, and the small consecutive values of the host
   * framework's `Output` class.
   */
  function PublishedCodes(): (t: CodeTable)
    ensures PublishedSymfony(t)
    ensures t.host(OutputRaw) == t.symfony(OutputNormal) && t.host(OutputPlain) == t.symfony(OutputRaw)
  {
    CodeTable(SymfonyCodes, HostCodes)
  }

  /**
   * With the published constants, `writeln` asked for raw output sends the
   * host `OUTPUT_NORMAL`: the raw host code 1 is the Symfony `OUTPUT_NORMAL`
   * value, so the second conversion turns it into the host's normal code 0.
   */
  lemma WritelnRawBecomesNormal<F>(a: Adapter<F>, messages: seq<string>)
    ensures var t := PublishedCodes();
            && Writeln(t, a, messages, 2).calls[|a.calls| + 1] == HostWriteln(messages, 0)
            && WritelnCorrected(t, a, messages, 2).calls[|a.calls| + 1] == HostWriteln(messages, t.host(OutputRaw))
            && t.host(OutputRaw) == 1
  {
    var t := PublishedCodes();
    assert DecodeFormat(t, 2) == 2;
    assert TransformCode(t, 2) == 1;
    assert TransformCode(t, 1) == 0;
  }

  /** And plain output becomes raw: host `OUTPUT_PLAIN` is 2, the Symfony `OUTPUT_RAW` value. */
  lemma WritelnPlainBecomesRaw<F>(a: Adapter<F>, messages: seq<string>)
    ensures var t := PublishedCodes();
            && Writeln(t, a, messages, 4).calls[|a.calls| + 1] == HostWriteln(messages, t.host(OutputRaw))
            && t.host(OutputRaw) != t.host(OutputPlain)
  {
    var t := PublishedCodes();
    assert DecodeFormat(t, 4) == 4;
    assert TransformCode(t, 4) == 2;
    assert TransformCode(t, 2) == 1;
  }
}
