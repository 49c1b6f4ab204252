/**
 * Worker configuration (client/options.go): the defaults and the functional
 * options, each of which sets one field.
 */
module Options {

  /** `time.Duration` counts nanoseconds; durations are taken as naturals. */
  const Millisecond: nat := 1_000_000

  /** Go's `uint` on a 64-bit platform. */
  type Uint = x: int | 0 <= x < 0x1_0000_0000_0000_0000

  /** The transport client; `Client` stands for any other `*http.Client`. */
  datatype HttpClient = DefaultClient | Client(handle: nat)

  datatype Options = Options(
    getJobsTickRate: nat,
    jobChannelBufferSize: Uint,
    resultChannelBufferSize: Uint,
    httpClient: HttpClient)

  const DefaultTickRate: nat := 100 * Millisecond
  const DefaultBufferSize: Uint := 100

  const Defaults: Options := Options(DefaultTickRate, DefaultBufferSize, DefaultBufferSize, DefaultClient)

  /** The four option constructors. */
  datatype Option =
    | WithGetJobsTickRate(d: nat)
    | WithJobChannelBufferSize(s: Uint)
    | WithResultChannelBufferSize(s: Uint)
    | WithHttpClient(h: HttpClient)

  datatype Field = TickRateField | JobBufferField | ResultBufferField | ClientField

  /** The field an option assigns. */
  function FieldOf(opt: Option): Field {
    match opt
    case WithGetJobsTickRate(_) => TickRateField
    case WithJobChannelBufferSize(_) => JobBufferField
    case WithResultChannelBufferSize(_) => ResultBufferField
    case WithHttpClient(_) => ClientField
  }

  /** Running one option on a configuration: its own field gets its argument,
      the other three keep their values. */
  function Apply(opt: Option, o: Options): (r: Options)
    ensures opt.WithGetJobsTickRate? ==> r.getJobsTickRate == opt.d
    ensures opt.WithJobChannelBufferSize? ==> r.jobChannelBufferSize == opt.s
    ensures opt.WithResultChannelBufferSize? ==> r.resultChannelBufferSize == opt.s
    ensures opt.WithHttpClient? ==> r.httpClient == opt.h
    ensures FieldOf(opt) != TickRateField ==> r.getJobsTickRate == o.getJobsTickRate
    ensures FieldOf(opt) != JobBufferField ==> r.jobChannelBufferSize == o.jobChannelBufferSize
    ensures FieldOf(opt) != ResultBufferField ==> r.resultChannelBufferSize == o.resultChannelBufferSize
    ensures FieldOf(opt) != ClientField ==> r.httpClient == o.httpClient
  {
    match opt
    case WithGetJobsTickRate(d) => o.(getJobsTickRate := d)
    case WithJobChannelBufferSize(s) => o.(jobChannelBufferSize := s)
    case WithResultChannelBufferSize(s) => o.(resultChannelBufferSize := s)
    case WithHttpClient(h) => o.(httpClient := h)
  }

  /** The configuration the options produce: defaults first, then each
      option in argument order. */
  function Configured(options: seq<Option>): Options {
    if options == [] then Defaults
    else Apply(options[|options| - 1], Configured(options[..|options| - 1]))
  }

  /** `NewOptions(options...)`. */
  method NewOptions(options: seq<Option>) returns (config: Options)
    ensures config == Configured(options)
  {
    config := Defaults;
    for i := 0 to |options|
      invariant config == Configured(options[..i])
    {
      assert options[..i + 1][..i] == options[..i];
      config := Apply(options[i], config);
    }
    assert options[..|options|] == options;
  }

  /** With no options, the configuration is the defaults: 100ms, 100, 100 and
      the default client. */
  lemma NoOptionsGiveDefaults()
    ensures Configured([]).getJobsTickRate == 100_000_000
    ensures Configured([]).jobChannelBufferSize == 100 && Configured([]).resultChannelBufferSize == 100
    ensures Configured([]).httpClient == DefaultClient
  {
  }

  /** Applying an option twice is applying it once; options on different
      fields commute. */
  lemma ApplyAlgebra(a: Option, b: Option, o: Options)
    ensures Apply(a, Apply(a, o)) == Apply(a, o)
    ensures FieldOf(a) != FieldOf(b) ==> Apply(a, Apply(b, o)) == Apply(b, Apply(a, o))
    ensures FieldOf(a) == FieldOf(b) ==> Apply(a, Apply(b, o)) == Apply(a, o)
  {
  }

  /** The last option on a field wins: if no later option sets the same field,
      the configured value of that field is the one `options[i]` gave, and
      running `options[i]` again would change nothing. */
  lemma {:induction false} LastWins(options: seq<Option>, i: nat)
    requires i < |options|
    requires forall j :: i < j < |options| ==> FieldOf(options[j]) != FieldOf(options[i])
    ensures Apply(options[i], Configured(options)) == Configured(options)
    ensures options[i].WithGetJobsTickRate? ==> Configured(options).getJobsTickRate == options[i].d
    ensures options[i].WithJobChannelBufferSize? ==> Configured(options).jobChannelBufferSize == options[i].s
    ensures options[i].WithResultChannelBufferSize? ==> Configured(options).resultChannelBufferSize == options[i].s
    ensures options[i].WithHttpClient? ==> Configured(options).httpClient == options[i].h
  {
    var n := |options| - 1;
    var init := options[..n];
    if i == n {
      ApplyAlgebra(options[i], options[i], Configured(init));
    } else {
      assert init[i] == options[i];
      forall j | i < j < |init| ensures FieldOf(init[j]) != FieldOf(init[i]) {
        assert init[j] == options[j];
      }
      LastWins(init, i);
      ApplyAlgebra(options[i], options[n], Configured(init));
    }
  }

  /** A field no option sets keeps its default. */
  lemma {:induction false} UnsetFieldKeepsDefault(options: seq<Option>, f: Field)
    requires forall j :: 0 <= j < |options| ==> FieldOf(options[j]) != f
    ensures f == TickRateField ==> Configured(options).getJobsTickRate == DefaultTickRate
    ensures f == JobBufferField ==> Configured(options).jobChannelBufferSize == DefaultBufferSize
    ensures f == ResultBufferField ==> Configured(options).resultChannelBufferSize == DefaultBufferSize
    ensures f == ClientField ==> Configured(options).httpClient == DefaultClient
  {
    if options != [] {
      var init := options[..|options| - 1];
      forall j | 0 <= j < |init| ensures FieldOf(init[j]) != f {
        assert init[j] == options[j];
      }
      UnsetFieldKeepsDefault(init, f);
    }
  }
}
