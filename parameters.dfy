/**
 * The choices getParameters offers in its prompts: the devices that can
 * capture or play, the channel counts, the sample rates both devices
 * support with the preferred default, and the sample formats; and one round
 * of the parameter collection given the answers picked.
 */
module Parameters {
  import opened JsBuiltins
  import opened SampleFormat

  /** A device as the probe reports it. */
  datatype Device = Device(id: int, name: string, inputChannels: nat, outputChannels: nat, sampleRates: seq<nat>)

  /** An entry of a list prompt: the label shown and the value answered. */
  datatype Choice<V> = Choice(name: string, value: V)

  /** Whether a list prompt offers the answer `v`. */
  predicate Offers<V(==)>(choices: seq<Choice<V>>, v: V) {
    exists i :: 0 <= i < |choices| && choices[i].value == v
  }

  datatype Direction = Capture | Playback

  function Channels(d: Device, dir: Direction): nat {
    match dir
    case Capture => d.inputChannels
    case Playback => d.outputChannels
  }

  function DeviceChoice(d: Device): Choice<int> {
    Choice(d.name, d.id)
  }

  // ---------------------------------------------------------------------------
  // Device prompts
  // ---------------------------------------------------------------------------

  /**
   * The devices a device prompt lists: those with at least one channel in
   * the direction, each as often as probed, in probe order.
   */
  function DevicesFor(devices: seq<Device>, dir: Direction): (r: seq<Device>)
    ensures forall d :: multiset(r)[d] == if Channels(d, dir) > 0 then multiset(devices)[d] else 0
    ensures forall d :: d in r <==> d in devices && Channels(d, dir) > 0
    ensures IsSubsequence(r, devices)
  {
    Filter(d => Channels(d, dir) > 0, devices)
  }

  /** The entries of the input (Capture) or output (Playback) device prompt. */
  function DeviceChoices(devices: seq<Device>, dir: Direction): (cs: seq<Choice<int>>)
    ensures |cs| == |DevicesFor(devices, dir)|
    ensures forall i :: 0 <= i < |cs| ==>
      cs[i].name == DevicesFor(devices, dir)[i].name && cs[i].value == DevicesFor(devices, dir)[i].id
  {
    Map(DeviceChoice, DevicesFor(devices, dir))
  }

  /**
   * A device prompt offers an id exactly when some probed device with a
   * channel in that direction has it, and the entry is labelled with that
   * device's name.
   */
  lemma DeviceChoicesExact(devices: seq<Device>, dir: Direction)
    ensures forall c :: c in DeviceChoices(devices, dir) <==>
      exists d :: d in devices && Channels(d, dir) > 0 && c == DeviceChoice(d)
  {
    var f := DevicesFor(devices, dir);
    var cs := DeviceChoices(devices, dir);
    forall c | c in cs ensures exists d :: d in devices && Channels(d, dir) > 0 && c == DeviceChoice(d) {
      var i :| 0 <= i < |cs| && cs[i] == c;
      assert f[i] in f;
    }
    forall d | d in devices && Channels(d, dir) > 0 ensures DeviceChoice(d) in cs {
      assert d in f;
      var i :| 0 <= i < |f| && f[i] == d;
      assert cs[i] == DeviceChoice(d);
    }
  }

  /** `devices.find(({ id }) => id === chosen)`: the device a prompt answer names. */
  function SelectedDevice(devices: seq<Device>, id: int): (r: Option<Device>)
    ensures r.Some? ==> r.value.id == id && r.value in devices
    ensures r.Some? ==> exists i :: 0 <= i < |devices| && devices[i] == r.value &&
                                    forall j :: 0 <= j < i ==> devices[j].id != id
    ensures r.None? <==> forall d :: d in devices ==> d.id != id
  {
    Find(devices, (d: Device) => d.id == id)
  }

  /** Every id a device prompt offers is found again among the probed devices. */
  lemma OfferedDeviceFound(devices: seq<Device>, dir: Direction, id: int)
    requires Offers(DeviceChoices(devices, dir), id)
    ensures SelectedDevice(devices, id).Some?
  {
    var cs := DeviceChoices(devices, dir);
    var i :| 0 <= i < |cs| && cs[i].value == id;
    DeviceChoicesExact(devices, dir);
    assert cs[i] in cs;
  }

  /**
   * The probed default device as a JavaScript value: the device record, or
   * undefined when the API has no default.
   */
  function ProbedDefault(defaultDevice: Option<Device>): JsValue<Device> {
    match defaultDevice
    case None => Undefined
    case Some(d) => Object(d)
  }

  /**
   * The default of a device prompt as written:
   * `devices.findIndex(({ id }) => defaultDevice === id)`, which compares the
   * probed default (a device record, or undefined) with each device's number
   * id. A record or undefined is never strictly equal to a number.
   */
  function DefaultDeviceIndex(devices: seq<Device>, defaultDevice: Option<Device>): (i: int)
    ensures -1 <= i < |devices|
    ensures 0 <= i ==> StrictEquals(ProbedDefault(defaultDevice), Number(devices[i].id))
  {
    FindIndex(devices, (d: Device) => StrictEquals(ProbedDefault(defaultDevice), Number(d.id)))
  }

  /** The as-written default is -1 for every probe list and every probed default. */
  lemma DefaultIndexNeverFound(devices: seq<Device>, defaultDevice: Option<Device>)
    ensures DefaultDeviceIndex(devices, defaultDevice) == -1
  {
    assert !ProbedDefault(defaultDevice).Number?;
  }

  /**
   * How an inquirer list prompt picks its first highlighted entry from a
   * numeric default: the default itself when it is a position of the list,
   * otherwise the first entry.
   */
  function InitialSelection(default: int, count: nat): (k: nat)
    ensures count > 0 ==> k < count
    ensures 0 <= default < count ==> k == default
    ensures !(0 <= default < count) ==> k == 0
  {
    if 0 <= default < count then default else 0
  }

  /**
   * So a device prompt as written always starts on its first entry, whatever
   * the probed default.
   */
  lemma DevicePromptStartsOnFirst(devices: seq<Device>, dir: Direction, defaultDevice: Option<Device>)
    ensures InitialSelection(DefaultDeviceIndex(devices, defaultDevice), |DeviceChoices(devices, dir)|) == 0
  {
    DefaultIndexNeverFound(devices, defaultDevice);
  }

  /**
   * Two microphones, the second the default input: the input prompt as
   * written starts on the first microphone.
   */
  lemma DefaultMicNotHighlighted(micA: Device, micB: Device)
    requires micA.inputChannels > 0 && micB.inputChannels > 0 && micA.id != micB.id
    ensures var ds := [micA, micB];
            var cs := DeviceChoices(ds, Capture);
            var k := InitialSelection(DefaultDeviceIndex(ds, Some(micB)), |cs|);
            |cs| == 2 && k == 0 && cs[k].value == micA.id != micB.id
  {
    var ds := [micA, micB];
    FilterKeepsAll(d => Channels(d, Capture) > 0, ds);
    DevicePromptStartsOnFirst(ds, Capture, Some(micB));
  }

  /** The default of a device prompt as intended: the default device's position among the entries. */
  function DefaultChoiceIndex(choices: seq<Choice<int>>, defaultId: int): (i: int)
    ensures -1 <= i < |choices|
    ensures 0 <= i ==> choices[i].value == defaultId
    ensures i == -1 <==> forall c :: c in choices ==> c.value != defaultId
  {
    FindIndex(choices, (c: Choice<int>) => c.value == defaultId)
  }

  /**
   * The intended default highlights the default device whenever that device
   * is listed, and there is no default only when it is not listed.
   */
  lemma DefaultChoiceIsDefaultDevice(devices: seq<Device>, dir: Direction, defaultId: int)
    ensures var cs := DeviceChoices(devices, dir);
            var i := DefaultChoiceIndex(cs, defaultId);
            (0 <= i ==> cs[i].value == defaultId) &&
            (i == -1 <==> forall d :: d in devices && Channels(d, dir) > 0 ==> d.id != defaultId)
  {
    DeviceChoicesExact(devices, dir);
    var cs := DeviceChoices(devices, dir);
    forall d | d in devices && Channels(d, dir) > 0
      ensures DefaultChoiceIndex(cs, defaultId) == -1 ==> d.id != defaultId
    {
      assert DeviceChoice(d) in cs;
    }
  }

  /**
   * The device-prompt default as intended: the position, among the entries,
   * of the probed default's id; -1 when the API has no default.
   */
  function IntendedDefaultIndex(devices: seq<Device>, dir: Direction, defaultDevice: Option<Device>): (i: int)
    ensures -1 <= i < |DeviceChoices(devices, dir)|
  {
    match defaultDevice
    case None => -1
    case Some(d) => DefaultChoiceIndex(DeviceChoices(devices, dir), d.id)
  }

  /**
   * With the intended default, a prompt listing the probed default device
   * starts on an entry with that device's id.
   */
  lemma IntendedPromptStartsOnDefault(devices: seq<Device>, dir: Direction, defaultDevice: Device)
    requires defaultDevice in devices && Channels(defaultDevice, dir) > 0
    ensures var cs := DeviceChoices(devices, dir);
            var k := InitialSelection(IntendedDefaultIndex(devices, dir, Some(defaultDevice)), |cs|);
            k < |cs| && cs[k].value == defaultDevice.id
  {
    DefaultChoiceIsDefaultDevice(devices, dir, defaultDevice.id);
  }

  // ---------------------------------------------------------------------------
  // Channel prompt
  // ---------------------------------------------------------------------------

  /** The output-channel entries for a device with `channels` channels. */
  function ChannelChoices(channels: nat): (cs: seq<Choice<nat>>)
    ensures |cs| == channels
  {
    Map((n: nat) => Choice(DecimalString(n + 1), n + 1), Reverse(Keys(channels)))
  }

  /** The entries read k, k-1, ..., 1, each labelled with its own number. */
  lemma ChannelChoicesDescending(channels: nat)
    ensures var cs := ChannelChoices(channels);
            (forall i :: 0 <= i < channels ==> cs[i].value == channels - i) &&
            (forall i, j :: 0 <= i < j < channels ==> cs[i].value > cs[j].value) &&
            (forall c :: c in cs ==> 1 <= c.value <= channels && AllDigits(c.name) && LeadingNumber(c.name) == c.value)
  {
    var cs := ChannelChoices(channels);
    forall c | c in cs ensures 1 <= c.value <= channels && AllDigits(c.name) && LeadingNumber(c.name) == c.value {
      var i :| 0 <= i < |cs| && cs[i] == c;
      LeadingNumberOfDecimal(c.value, []);
      assert DecimalString(c.value) + [] == c.name;
    }
  }

  /** Every channel count from 1 to k is offered. */
  lemma ChannelChoicesComplete(channels: nat, n: nat)
    requires 1 <= n <= channels
    ensures Offers(ChannelChoices(channels), n)
  {
    assert ChannelChoices(channels)[channels - n].value == n;
  }

  // ---------------------------------------------------------------------------
  // Sample-rate prompt
  // ---------------------------------------------------------------------------

  /**
   * The input device's rates that the output device also lists (found by
   * indexOf), duplicates kept, in the input device's order.
   */
  function CommonSampleRates(inputRates: seq<nat>, outputRates: seq<nat>): (r: seq<nat>)
    ensures forall x :: multiset(r)[x] == if x in outputRates then multiset(inputRates)[x] else 0
    ensures forall x :: x in r <==> x in inputRates && x in outputRates
    ensures IsSubsequence(r, inputRates)
  {
    Filter(n => IndexOf(outputRates, n) != -1, inputRates)
  }

  /** The default sample-rate entry: the first 32000 or 48000, else -1. */
  function PreferredRateIndex(rates: seq<nat>): (i: int)
    ensures -1 <= i < |rates|
    ensures 0 <= i ==> (rates[i] == 32000 || rates[i] == 48000)
    ensures 0 <= i ==> forall j :: 0 <= j < i ==> rates[j] != 32000 && rates[j] != 48000
    ensures i == -1 <==> 32000 !in rates && 48000 !in rates
  {
    FindIndex(rates, v => v == 32000 || v == 48000)
  }

  function RateChoice(rate: nat): Choice<nat> {
    Choice(DecimalString(rate), rate)
  }

  /** The entries of the sample-rate prompt: one per rate, in order, labelled by its value. */
  function RateChoices(rates: seq<nat>): (cs: seq<Choice<nat>>)
    ensures |cs| == |rates|
    ensures forall i :: 0 <= i < |rates| ==>
      cs[i].value == rates[i] && AllDigits(cs[i].name) && LeadingNumber(cs[i].name) == rates[i]
  {
    var cs := Map(RateChoice, rates);
    forall i | 0 <= i < |rates| ensures LeadingNumber(cs[i].name) == rates[i] {
      LeadingNumberOfDecimal(rates[i], []);
      assert DecimalString(rates[i]) + [] == cs[i].name;
    }
    cs
  }

  /** The sample-rate step: no common rate sends getParameters back to the start. */
  datatype RatePrompt = NoCommonRate | RatePrompt(choices: seq<Choice<nat>>, defaultIndex: int)

  /**
   * The sample-rate step: the common rates in the input device's order, the
   * first 32000 or 48000 among them as default, or a restart when there is
   * none.
   */
  function SampleRatePrompt(inputDev: Device, outputDev: Device): (p: RatePrompt)
    ensures p.NoCommonRate? <==> forall x :: x in inputDev.sampleRates ==> x !in outputDev.sampleRates
    ensures p.RatePrompt? ==>
      var common := CommonSampleRates(inputDev.sampleRates, outputDev.sampleRates);
      |p.choices| == |common| > 0 &&
      (forall i :: 0 <= i < |common| ==>
        p.choices[i].value == common[i] && AllDigits(p.choices[i].name) && LeadingNumber(p.choices[i].name) == common[i]) &&
      p.defaultIndex == PreferredRateIndex(common)
  {
    var common := CommonSampleRates(inputDev.sampleRates, outputDev.sampleRates);
    if |common| < 1 then
      assert forall x :: x in inputDev.sampleRates ==> x !in outputDev.sampleRates;
      NoCommonRate
    else
      RatePrompt(RateChoices(common), PreferredRateIndex(common))
  }

  /**
   * Every entry of the sample-rate prompt is a rate both devices list,
   * labelled by its value, and the default is a 32000 or 48000 entry, or -1
   * exactly when no entry is either.
   */
  lemma RatePromptEntries(inputDev: Device, outputDev: Device)
    ensures var p := SampleRatePrompt(inputDev, outputDev);
      p.RatePrompt? ==>
      (forall c :: c in p.choices ==>
        c.value in inputDev.sampleRates && c.value in outputDev.sampleRates && LeadingNumber(c.name) == c.value) &&
      -1 <= p.defaultIndex < |p.choices| &&
      (0 <= p.defaultIndex ==> p.choices[p.defaultIndex].value in {32000, 48000}) &&
      (p.defaultIndex == -1 <==> forall c :: c in p.choices ==> c.value != 32000 && c.value != 48000)
  {
    var p := SampleRatePrompt(inputDev, outputDev);
    if p.RatePrompt? {
      var common := CommonSampleRates(inputDev.sampleRates, outputDev.sampleRates);
      EntriesOfRates(p.choices, common, p.defaultIndex);
    }
  }

  /** Entries built one per rate hold those rates, and the preferred default is one of them. */
  lemma EntriesOfRates(cs: seq<Choice<nat>>, rates: seq<nat>, d: int)
    requires |cs| == |rates|
    requires forall i :: 0 <= i < |rates| ==> cs[i].value == rates[i] && LeadingNumber(cs[i].name) == rates[i]
    requires d == PreferredRateIndex(rates)
    ensures forall c :: c in cs ==> c.value in rates && LeadingNumber(c.name) == c.value
    ensures -1 <= d < |cs| && (0 <= d ==> cs[d].value in {32000, 48000})
    ensures d == -1 <==> forall c :: c in cs ==> c.value != 32000 && c.value != 48000
  {
    forall c | c in cs ensures c.value in rates && LeadingNumber(c.name) == c.value {
      var i :| 0 <= i < |cs| && cs[i] == c;
      assert rates[i] in rates;
    }
    if d == -1 {
      forall c | c in cs ensures c.value != 32000 && c.value != 48000 {
        var i :| 0 <= i < |cs| && cs[i] == c;
        assert rates[i] in rates;
      }
    } else {
      assert cs[d] in cs;
    }
  }

  // ---------------------------------------------------------------------------
  // Format prompt
  // ---------------------------------------------------------------------------

  const FormatChoices: seq<Choice<RtAudioFormat>> := [
    Choice("8 bit", SInt8),
    Choice("16 bits", SInt16),
    Choice("32 bits", SInt32),
    Choice("32 bits (float)", Float32),
    Choice("64 bits (float)", Float64)
  ]

  const FormatDefaultIndex: nat := 1

  /**
   * Each format entry's label starts with the bit width of the typed array
   * getTypedArray reads it with, no entry reaches getTypedArray's fallback
   * branch, and the default entry is 16-bit.
   */
  lemma FormatLabelsMatchViews()
    ensures forall i :: 0 <= i < |FormatChoices| ==>
      StartsWithNumber(FormatChoices[i].name, 8 * ElementSize(FormatChoices[i].value)) &&
      FormatChoices[i].value != OtherFormat
    ensures FormatChoices[FormatDefaultIndex].value == SInt16
  {
    BitWidthDecimals();
    LabelStartsWith("8 bit", 8, "8");
    LabelStartsWith("16 bits", 16, "16");
    LabelStartsWith("32 bits", 32, "32");
    LabelStartsWith("32 bits (float)", 32, "32");
    LabelStartsWith("64 bits (float)", 64, "64");
  }

  /** The decimal text of the four bit widths. */
  lemma BitWidthDecimals()
    ensures DecimalString(8) == "8" && DecimalString(16) == "16"
    ensures DecimalString(32) == "32" && DecimalString(64) == "64"
  {
  }

  /** A label whose first characters are `${n}` followed by a space starts with `n`. */
  lemma LabelStartsWith(s: string, n: nat, d: string)
    requires DecimalString(n) == d && |d| < |s| && s[..|d|] == d && s[|d|] == ' '
    ensures StartsWithNumber(s, n)
  {
  }

  /** The format prompt offers exactly the five named formats. */
  lemma FormatsOffered(f: RtAudioFormat)
    ensures f != OtherFormat <==> Offers(FormatChoices, f)
  {
    if f != OtherFormat {
      var i := match f case SInt8 => 0 case SInt16 => 1 case SInt32 => 2 case Float32 => 3 case _ => 4;
      assert FormatChoices[i].value == f;
    }
  }

  /** So a reader of each format label reads the element size times 8. */
  lemma FormatLabelsReadAsBits(c: Choice<RtAudioFormat>)
    requires c in FormatChoices
    ensures LeadingNumber(c.name) == 8 * ElementSize(c.value)
  {
    FormatLabelsMatchViews();
    var i :| 0 <= i < |FormatChoices| && FormatChoices[i] == c;
    LeadingNumberOfLabel(c.name, 8 * ElementSize(c.value));
  }

  // ---------------------------------------------------------------------------
  // One round of getParameters
  // ---------------------------------------------------------------------------

  /** What getParameters returns. */
  datatype Params = Params(
    api: int,
    inputDev: Device,
    outputDev: Device,
    outputChannelNumber: nat,
    inputChannelNumber: nat,
    sampleRate: nat,
    format: RtAudioFormat)

  /** The answers picked in the device, channel, sample-rate and format prompts. */
  datatype Answers = Answers(inputDevId: int, outputDevId: int, outputChannelNumber: nat, sampleRate: nat, format: RtAudioFormat)

  /**
   * How a round ends: with the parameters, by starting over (no common
   * rate), with a TypeError from reading a field of a device that was not
   * found, or with a ReferenceError from the input-channel prompt, whose
   * choices read the undeclared variable `input`.
   */
  datatype Round = Collected(params: Params) | Restart | DeviceMissing | InputUndeclared

  const InputChannelNumber: nat := 1

  /**
   * One round of getParameters after the API prompt, in source order: look
   * up both devices, build the output-channel prompt (reads outputDev), test
   * the input device's channel count (reads inputDev; above 1 the prompt
   * throws), then the sample-rate and format prompts.
   */
  function ParametersRound(api: int, devices: seq<Device>, a: Answers): (r: Round)
    ensures r.DeviceMissing? <==>
      (forall d :: d in devices ==> d.id != a.inputDevId) || (forall d :: d in devices ==> d.id != a.outputDevId)
    ensures r.InputUndeclared? ==> SelectedDevice(devices, a.inputDevId).value.outputChannels > 1
    ensures r.Collected? ==>
      var p := r.params;
      p.api == api &&
      p.inputDev == SelectedDevice(devices, a.inputDevId).value &&
      p.outputDev == SelectedDevice(devices, a.outputDevId).value &&
      p.inputDev in devices && p.outputDev in devices &&
      p.inputDev.id == a.inputDevId && p.outputDev.id == a.outputDevId &&
      p.inputDev.outputChannels <= 1 &&
      p.outputChannelNumber == a.outputChannelNumber && p.inputChannelNumber == 1 &&
      p.sampleRate == a.sampleRate && p.format == a.format
  {
    var inputDev := SelectedDevice(devices, a.inputDevId);
    var outputDev := SelectedDevice(devices, a.outputDevId);
    if outputDev.None? || inputDev.None? then DeviceMissing
    else if inputDev.value.outputChannels > 1 then InputUndeclared
    else if SampleRatePrompt(inputDev.value, outputDev.value).NoCommonRate? then Restart
    else Collected(Params(api, inputDev.value, outputDev.value, a.outputChannelNumber,
                          InputChannelNumber, a.sampleRate, a.format))
  }

  /** The answers are entries the prompts actually offered, in the order they are asked. */
  predicate AnswersOffered(devices: seq<Device>, a: Answers) {
    Offers(DeviceChoices(devices, Capture), a.inputDevId) &&
    Offers(DeviceChoices(devices, Playback), a.outputDevId) &&
    var inputDev := SelectedDevice(devices, a.inputDevId);
    var outputDev := SelectedDevice(devices, a.outputDevId);
    inputDev.Some? && outputDev.Some? &&
    Offers(ChannelChoices(outputDev.value.outputChannels), a.outputChannelNumber) &&
    (var p := SampleRatePrompt(inputDev.value, outputDev.value);
     p.RatePrompt? ==> Offers(p.choices, a.sampleRate)) &&
    Offers(FormatChoices, a.format)
  }

  /**
   * With offered answers a round never fails on a missing device; it throws
   * exactly when the input device reports more than one output channel; it
   * otherwise starts over exactly when the two devices share no sample rate;
   * and the parameters it collects are the answers given: the chosen
   * devices, a rate both support, a channel count the output device has,
   * one input channel and an offered format.
   */
  lemma RoundOutcome(api: int, devices: seq<Device>, a: Answers)
    requires AnswersOffered(devices, a)
    ensures var r := ParametersRound(api, devices, a);
      var inputDev := SelectedDevice(devices, a.inputDevId).value;
      var outputDev := SelectedDevice(devices, a.outputDevId).value;
      !r.DeviceMissing? &&
      (r.InputUndeclared? <==> inputDev.outputChannels > 1) &&
      (r.Restart? <==> inputDev.outputChannels <= 1 &&
                       forall x :: x in inputDev.sampleRates ==> x !in outputDev.sampleRates) &&
      (r.Collected? ==>
        var p := r.params;
        p == Params(api, inputDev, outputDev, a.outputChannelNumber, 1, a.sampleRate, a.format) &&
        p.sampleRate in p.inputDev.sampleRates && p.sampleRate in p.outputDev.sampleRates &&
        1 <= p.outputChannelNumber <= p.outputDev.outputChannels &&
        p.format != OtherFormat)
  {
    OfferedAnswersFit(devices, a);
  }

  /** Offered answers name a channel count, rate and format the chosen devices support. */
  lemma OfferedAnswersFit(devices: seq<Device>, a: Answers)
    requires AnswersOffered(devices, a)
    ensures var inputDev := SelectedDevice(devices, a.inputDevId).value;
      var outputDev := SelectedDevice(devices, a.outputDevId).value;
      1 <= a.outputChannelNumber <= outputDev.outputChannels &&
      (SampleRatePrompt(inputDev, outputDev).RatePrompt? ==>
        a.sampleRate in inputDev.sampleRates && a.sampleRate in outputDev.sampleRates) &&
      a.format != OtherFormat
  {
    var inputDev := SelectedDevice(devices, a.inputDevId).value;
    var outputDev := SelectedDevice(devices, a.outputDevId).value;
    ChannelChoicesDescending(outputDev.outputChannels);
    var cs := ChannelChoices(outputDev.outputChannels);
    var i :| 0 <= i < |cs| && cs[i].value == a.outputChannelNumber;
    assert cs[i] in cs;
    var p := SampleRatePrompt(inputDev, outputDev);
    RatePromptEntries(inputDev, outputDev);
    if p.RatePrompt? {
      var j :| 0 <= j < |p.choices| && p.choices[j].value == a.sampleRate;
      assert p.choices[j] in p.choices;
    }
    FormatsOffered(a.format);
  }
}
