/**
 Records shared by every LoRaWAN regional band plan, and `WellFormed`: the
 structural invariants the KR920-923 FSK plan's tables keep. `WellFormed` is
 stricter than what every band plan must keep, in three ways: it asks for
 strictly decreasing TX power offsets rather than non-increasing ones, for an
 RX1 row for every data rate rather than only for each legal uplink data rate,
 and for RX1 entries no larger than their uplink data rate.

 Frequencies are in Hz, delays in milliseconds, power in dB / dBm.
 */
module BandTypes {

  /** Modulation of a data rate: LoRa chirp spread spectrum or FSK. */
  datatype Modulation = LoRaModulation | FSKModulation

  /** One row of a data-rate table. As in the Go struct literal, fields that a
      row leaves unset hold zero (a LoRa row has bitRate 0, an FSK row has
      spreadFactor and bandwidth 0). Bandwidth is in kHz, bit rate in bps. */
  datatype DataRate = DataRate(
    modulation: Modulation,
    spreadFactor: int,
    bandwidth: int,
    bitRate: int,
    uplink: bool,
    downlink: bool)

  /** A channel: centre frequency, inclusive data-rate range, enabled flag. */
  datatype Channel = Channel(frequency: int, minDR: int, maxDR: int, enabled: bool)

  /** Maximum MAC payload size M (with FOpts) and application payload size N, in bytes. */
  datatype MaxPayloadSize = MaxPayloadSize(m: int, n: int)

  /** Fixed RX2 and timing defaults of a region. Delays are in milliseconds. */
  datatype Defaults = Defaults(
    rx2Frequency: int,
    rx2DataRate: int,
    maxFCntGap: nat,
    receiveDelay1: nat,
    receiveDelay2: nat,
    joinAcceptDelay1: nat,
    joinAcceptDelay2: nat)

  /** A LoRaWAN device address: four bytes. */
  type DevAddr = s: seq<bv8> | |s| == 4 witness [0, 0, 0, 0]

  /** Outcome of a query whose Go signature returns an `error`. */
  datatype Result<T> = Ok(value: T) | Err(error: string)

  /** Payload-size table: protocol version -> regional-parameters revision -> data rate -> size. */
  type PayloadTable = map<string, map<string, map<int, MaxPayloadSize>>>

  /** Sentinel key used at both outer levels of a payload table that does not
      vary by protocol version or regional-parameters revision. */
  const Latest: string := "latest"

  /** The tables of one regional band plan. */
  datatype Band = Band(
    supportsExtraChannels: bool,
    dataRates: map<int, DataRate>,
    rx1DataRateTable: map<int, seq<int>>,
    txPowerOffsets: seq<int>,
    uplinkChannels: seq<Channel>,
    downlinkChannels: seq<Channel>,
    maxPayloadSizePerDR: PayloadTable)

  /** Every channel's data-rate range is non-empty and both bounds name rows of the data-rate table. */
  predicate ChannelsResolve(chs: seq<Channel>, dataRates: map<int, DataRate>)
  {
    forall i :: 0 <= i < |chs| ==>
      chs[i].minDR <= chs[i].maxDR && chs[i].minDR in dataRates && chs[i].maxDR in dataRates
  }

  /** The RX1 table has one row per data rate (a general band plan needs
      rows only for its uplink data rates), each row has one entry per RX1
      offset 0 .. width - 1, never increases with the offset, never exceeds
      the uplink data rate and only names rows of the data-rate table. */
  predicate Rx1TableResolves(rx1: map<int, seq<int>>, dataRates: map<int, DataRate>, width: nat)
  {
    && rx1.Keys == dataRates.Keys
    && (forall d :: d in rx1 ==> |rx1[d]| == width)
    && (forall d, o :: d in rx1 && 0 <= o < |rx1[d]| ==> rx1[d][o] in dataRates && rx1[d][o] <= d)
    && (forall d, o :: d in rx1 && 0 < o < |rx1[d]| ==> rx1[d][o] <= rx1[d][o - 1])
  }

  /** TX power index 0 is no attenuation and each further index attenuates
      strictly more (a general band plan needs only non-increasing offsets). */
  predicate TXPowerOffsetsDecrease(offsets: seq<int>)
  {
    && |offsets| > 0
    && offsets[0] == 0
    && forall i :: 0 < i < |offsets| ==> offsets[i] < offsets[i - 1]
  }

  /** The `Latest`/`Latest` payload table has an entry for every data rate. */
  predicate PayloadSizesResolve(t: PayloadTable, dataRates: map<int, DataRate>)
  {
    && Latest in t
    && Latest in t[Latest]
    && dataRates.Keys <= t[Latest][Latest].Keys
  }

  /** The structural invariants the KR920-923 FSK plan keeps, for an RX1 table
      with `rx1Width` offsets; stricter than a general band plan needs, as
      the module comment lists. */
  predicate WellFormed(b: Band, rx1Width: nat)
  {
    && ChannelsResolve(b.uplinkChannels, b.dataRates)
    && ChannelsResolve(b.downlinkChannels, b.dataRates)
    && Rx1TableResolves(b.rx1DataRateTable, b.dataRates, rx1Width)
    && TXPowerOffsetsDecrease(b.txPowerOffsets)
    && PayloadSizesResolve(b.maxPayloadSizePerDR, b.dataRates)
  }
}
