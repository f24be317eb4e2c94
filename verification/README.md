# KR920-923 (FSK variant) LoRaWAN band plan, in Dafny

This project models the KR920-923 regional band plan in its FSK-capable variant, whose region identifier is `KR920_FSK`. A LoRaWAN network server uses a band plan to answer these questions about a device in the region:

- which data rates exist, and what their modulation parameters are;
- which data rate to answer with in RX1, for an uplink data rate and an RX1 offset;
- what attenuation each TX power index means;
- which channels the device uses;
- how large a MAC payload may be at each data rate;
- what downlink power a frequency allows;
- which frequency class-B ping slots use;
- where RX1 replies go;
- what the RX2 and timing defaults are.

The table values follow the KR920-923MHz chapter of the LoRaWAN Regional Parameters, section 2.8 of v1.0.2rB. DR6 (LoRa SF7 at 250 kHz) and DR7 (FSK at 50 kbps) are a vendor extension taken from the EU863-870 chapter, section 2.1 of the same document.

The project has two files:

- `band.dfy` (module `BandTypes`) holds the shared records:
  - data rate, channel, maximum payload size, defaults, device address;
  - a `Result` type for the fallible queries;
  - the `Band` aggregate.

  It also holds `WellFormed`, the structural invariants this plan's tables keep:
  - channel data-rate ranges resolve in the data-rate table;
  - the RX1 table has one row per data rate and one column per offset;
  - each RX1 row is non-increasing, bounded by its uplink data rate, and names only existing data rates;
  - TX power offsets start at 0 dB and then decrease;
  - the `latest`/`latest` payload table covers every data rate.

  `WellFormed` is stricter than what a band plan in general must keep, in three ways:
  - it asks for strictly decreasing TX power offsets, where non-increasing ones would do;
  - it asks for an RX1 row for every data rate, where one per legal uplink data rate would do;
  - it asks for every RX1 entry to be no larger than its uplink data rate, which a band plan in general need not satisfy.
- `kr920_923_fsk.dfy` (module `KR920Fsk`) writes out every table exactly as the band constructor does. It gives the queries as total pure functions.

Each table is paired with an independent closed-form reference:

- the data-rate table: spreading factor 12 − dr for DR0–5;
- the RX1 table: the uplink data rate minus the offset, saturating at DR0;
- TX power offsets: −2·i dB;
- the payload table: M = 59, 123, 230 or 250, and N = M − 8;
- the channel plan: channel i at 922.1 + 0.2·i MHz;
- the power tiers: a 200 kHz raster from 920.9 to 923.3 MHz, a 600 kHz raster from 917.3 to 920.3 MHz, plus 920.7 MHz.

Lemmas prove that each table agrees with its reference. From that, they derive that the constructed band is `WellFormed`.

Units: frequencies are in Hz, delays in milliseconds, power in dBm, and power offsets in dB.

Notes on how the model reads the code:

- The Go signatures of the ping-slot, RX1 channel and RX1 frequency queries return an `error`. This plan never sets it, so the model's `Result` is always `Ok`.
- `WellFormed`, including strictly decreasing TX power offsets, is this model's own statement of the invariants the tables keep. The modelled file does not state them itself.
- `GetDownlinkTXPower` takes a Go `int`. The model takes an unbounded integer; the function does no arithmetic, so nothing can overflow.

## Model

| member | source | states |
|---|---|---|
| `KR920Fsk.Name` | band/band_kr920_923_fsk.go:13-15 | the region identifier is the fixed string `KR920_FSK` |
| `KR920Fsk.GetDefaults` | band/band_kr920_923_fsk.go:17-27 | RX2 at 921.9 MHz with DR0; max frame-counter gap 16384; RX1 delay 1 s; RX2 delay 1 s later; join-accept delay 1 at 5 s; join-accept delay 2 1 s later; the RX2 frequency is a 23 dBm frequency; DR0 exists |
| `KR920Fsk.DownlinkTXPower` | band/band_kr920_923_fsk.go:29-38 | total; result is 23, 10 or 4; 23 exactly for the first case list; 10 exactly for the second; 4 exactly for every frequency in neither list, in or out of the plan; equal at every frequency to the raster-based tiering (23 on the 200 kHz raster 920.9–923.3 MHz, 10 on the 600 kHz raster 917.3–920.3 MHz or at 920.7 MHz, else 4) |
| `KR920Fsk.PowerFrequencyListsAreIncreasing` | band/band_kr920_923_fsk.go:31-33 | the case lists `HighPowerFrequencies` and `ReducedPowerFrequencies`: the 23 dBm list has 13 entries and the 10 dBm list has 7; both are strictly increasing |
| `KR920Fsk.HighPowerFrequenciesAreBand` | band/band_kr920_923_fsk.go:31 | `HighPowerFrequencies`, characterised: a frequency is in the 23 dBm case list iff it is on the 200 kHz raster from 920.9 to 923.3 MHz |
| `KR920Fsk.ReducedPowerFrequenciesAreBand` | band/band_kr920_923_fsk.go:33 | `ReducedPowerFrequencies`, characterised: a frequency is in the 10 dBm case list iff it is on the 600 kHz raster from 917.3 to 920.3 MHz or is 920.7 MHz |
| `KR920Fsk.PowerTiersDisjoint` | band/band_kr920_923_fsk.go:30-34 | no frequency appears in both case lists, so the order of the switch cases does not change the result |
| `KR920Fsk.StrictlyIncreasingElements` | band/band_kr920_923_fsk.go:31-33 | a case list with strictly increasing entries names as many distinct frequencies as it has entries |
| `KR920Fsk.PowerTierSizes` | band/band_kr920_923_fsk.go:29-38 | exactly 13 frequencies get 23 dBm and exactly 7 get 10 dBm; the two sets are disjoint; every other frequency gets 4 dBm |
| `KR920Fsk.DefaultMaxUplinkEIRP` | band/band_kr920_923_fsk.go:40-42 | the default maximum uplink EIRP is 14 dBm |
| `KR920Fsk.PingSlotFrequency` | band/band_kr920_923_fsk.go:44-46 | for every device address and beacon time: 923.1 MHz with no error, and that is a 23 dBm frequency |
| `KR920Fsk.RX1ChannelIndexForUplinkChannelIndex` | band/band_kr920_923_fsk.go:48-50 | every channel index, negative or beyond the plan included, maps to itself with no error |
| `KR920Fsk.RX1FrequencyForUplinkFrequency` | band/band_kr920_923_fsk.go:52-54 | every frequency maps to itself with no error |
| `KR920Fsk.RX1ReplyStaysOnUplinkChannel` | band/band_kr920_923_fsk.go:48-54 | for an uplink on any plan channel: the RX1 channel index is a valid downlink channel; that channel has the uplink's frequency; the RX1 frequency query agrees with it; it may be sent at 23 dBm |
| `KR920Fsk.ImplementsTXParamSetup` | band/band_kr920_923_fsk.go:56-58 | false for every protocol version string |
| `KR920Fsk.DataRateTableMatchesReference` | band/band_kr920_923_fsk.go:64-73 | `DataRates`, characterised: keys are exactly DR0..DR7; DR0–5 are LoRa 125 kHz with SF 12 − dr; DR6 is LoRa SF7 at 250 kHz; DR7 is FSK at 50000 bps; every rate is usable for uplink and downlink |
| `KR920Fsk.Rx1TableIsSaturatingSubtraction` | band/band_kr920_923_fsk.go:74-83 | `Rx1DataRateTable`, characterised: there is one row per data rate; each row has 6 entries; the entry for uplink DR d and offset o is max(d − o, 0) |
| `KR920Fsk.Rx1TableResolvesDataRates` | band/band_kr920_923_fsk.go:64-83 | `Rx1DataRateTable` against `DataRates`: every RX1 row is non-increasing in the offset; every entry is ≤ the uplink DR and is a key of the data-rate table |
| `KR920Fsk.TXPowerOffsetsAreTwoDecibelSteps` | band/band_kr920_923_fsk.go:84-93 | `TXPowerOffsets`, characterised: there are 8 offsets; offset i is −2·i dB; index 0 is 0 dB; the sequence strictly decreases |
| `KR920Fsk.ChannelPlanIsFixed` | band/band_kr920_923_fsk.go:94-104 | `UplinkChannels` and `DownlinkChannels`, characterised: the two lists are identical; each has 3 channels at 922.1, 922.3 and 922.5 MHz; all are enabled with DR0..DR5; both bounds are data rates; every channel frequency is a 23 dBm frequency |
| `KR920Fsk.PayloadTableMatchesReference` | band/band_kr920_923_fsk.go:108-138 | `MaxPayloadSizePerDR`, characterised: only the `latest`/`latest` key exists; it covers exactly DR0..DR7; M is 59 (DR0–2), 123 (DR3), or 230/250 (DR4–7, repeater-compatible/not); N = M − 8 |
| `KR920Fsk.RepeaterCompatibleShrinksOnlyFastRates` | band/band_kr920_923_fsk.go:108-138 | `MaxPayloadSizePerDR(true)` against `MaxPayloadSizePerDR(false)`: for each DR, the repeater-compatible M ≤ the standard M; the two entries are equal iff DR ≤ 3; M − N = 8 in both tables |
| `KR920Fsk.NewBand` | band/band_kr920_923_fsk.go:60-141 | construction always succeeds; the band supports extra channels and satisfies `WellFormed` with 6 RX1 offsets; its data rates are exactly DR0..DR7 with the closed-form parameters; its RX1 entry for (d, o) is max(d − o, 0); its 8 TX power offsets are −2·i dB; its uplink and downlink lists are the same 3 channels at 922.1 + 0.2·i MHz, enabled, DR0..DR5; its payload table has only the `latest`/`latest` key, covering DR0..DR7 with the closed-form sizes for the given flag |
| `KR920Fsk.NewBandDiffersOnlyInPayloads` | band/band_kr920_923_fsk.go:108-138 | the bands built with and without repeater compatibility are different; they agree on every table except the payload table |

## Left out

- The generic methods of the embedded base band type are left out. This covers the RX1 data-rate lookup with offset clamping, payload-size resolution with version fallback, channel lookup, and adding or enabling channels. Their code lies outside the modelled file; only the tables they read are modelled.
- `KR920Fsk.DefaultMaxUplinkEIRP` returns a `float32` in the source. The model returns the real number 14.0, which float32 represents exactly. No floating-point behaviour is modelled.
- Durations (`time.Duration`, in nanoseconds) are modelled as integer milliseconds. Every delay in this plan is a whole number of seconds.
- `lorawan.DevAddr` is modelled as a four-byte sequence. The ping-slot query ignores it, and the model does too.
- The Go `error` result is modelled as `Result`, with a string message in its error case. This plan never produces an error.
- The package constant `latest` is defined outside the modelled file. It is modelled as the string `"latest"`; only its use as the same key at both outer levels matters.
- Construction is deterministic: a Dafny function returns equal values for equal arguments. No separate lemma states this.
- Dispatch by region identifier and the other regional plans are not modelled. The band is only read, never mutated, so concurrent readers need no modelling either.
