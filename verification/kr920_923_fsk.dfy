/**
 The KR920-923 band plan in its FSK-capable variant (region identifier
 KR920_FSK).

 Table values follow the KR920-923MHz chapter of the LoRaWAN Regional
 Parameters (section 2.8 of v1.0.2rB). DR6 (LoRa SF7 / 250 kHz) and DR7
 (FSK 50 kbps) are a vendor extension taken from the EU863-870 chapter
 (section 2.1 of the same document).

 Each table is written out as the band constructor writes it, and each is
 paired with an independent closed-form reference definition; the lemmas
 prove the two agree and derive the structural invariants of `BandTypes`.
 */
module KR920Fsk {
  import opened BandTypes

  /** RX1 data-rate offsets 0 .. 5 are legal, so each RX1 row has six entries. */
  const Rx1OffsetCount: nat := 6

  /** Stable region identifier. */
  function Name(): (r: string)
    ensures r == "KR920_FSK"
  {
    "KR920_FSK"
  }

  /*---------------------------------------------------------------------------
    Downlink TX power by frequency
   ---------------------------------------------------------------------------*/

  /** Case list of the 23 dBm (~200 mW) tier, in the order the switch lists them (ascending). */
  const HighPowerFrequencies: seq<int> :=
    [920900000, 921100000, 921300000, 921500000, 921700000, 921900000, 922100000,
     922300000, 922500000, 922700000, 922900000, 923100000, 923300000]

  /** Case list of the 10 dBm (~10 mW) tier, in the order the switch lists them (ascending). */
  const ReducedPowerFrequencies: seq<int> :=
    [917300000, 917900000, 918500000, 919100000, 919700000, 920300000, 920700000]

  /** Downlink EIRP ceiling in dBm. The cases are tried in order, and every
      frequency matching neither list, in or out of the plan, gets the
      lowest (~3 mW) tier. */
  function DownlinkTXPower(freq: int): (r: int)
    ensures r == 23 || r == 10 || r == 4
    ensures r == 23 <==> freq in HighPowerFrequencies
    ensures r == 10 <==> freq in ReducedPowerFrequencies
    ensures r == 4 <==> freq !in HighPowerFrequencies && freq !in ReducedPowerFrequencies
    ensures r == DownlinkTXPowerByBand(freq)
  {
    HighPowerFrequenciesAreBand(freq);
    ReducedPowerFrequenciesAreBand(freq);
    if freq in HighPowerFrequencies then 23
    else if freq in ReducedPowerFrequencies then 10
    else 4
  }

  /** `f` is one of `count` frequencies spaced `step` Hz apart from `start` on. */
  predicate OnGrid(f: int, start: int, step: int, count: nat)
    requires step > 0
  {
    start <= f < start + step * count && (f - start) % step == 0
  }

  /** 920.9 .. 923.3 MHz on a 200 kHz raster. */
  predicate InHighPowerBand(f: int)
  {
    OnGrid(f, 920900000, 200000, 13)
  }

  /** 917.3 .. 920.3 MHz on a 600 kHz raster, plus 920.7 MHz. */
  predicate InReducedPowerBand(f: int)
  {
    OnGrid(f, 917300000, 600000, 6) || f == 920700000
  }

  /** Reference tiering stated on frequency ranges instead of case lists. */
  function DownlinkTXPowerByBand(f: int): int
  {
    if InHighPowerBand(f) then 23 else if InReducedPowerBand(f) then 10 else 4
  }

  /** Both case lists are strictly increasing, hence free of duplicates. */
  predicate StrictlyIncreasing(s: seq<int>)
  {
    forall i, j :: 0 <= i < j < |s| ==> s[i] < s[j]
  }

  /** The case lists have 13 and 7 entries, each list strictly increasing. */
  lemma PowerFrequencyListsAreIncreasing()
    ensures |HighPowerFrequencies| == 13 && StrictlyIncreasing(HighPowerFrequencies)
    ensures |ReducedPowerFrequencies| == 7 && StrictlyIncreasing(ReducedPowerFrequencies)
  {
  }

  /** The 23 dBm list is exactly the 13 frequencies 920.9 + 0.2 k MHz, k = 0 .. 12. */
  lemma {:induction false} HighPowerFrequenciesAreBand(f: int)
    ensures f in HighPowerFrequencies <==> InHighPowerBand(f)
  {
    assert forall k :: 0 <= k < 13 ==> HighPowerFrequencies[k] == 920900000 + 200000 * k;
    if InHighPowerBand(f) {
      var k := (f - 920900000) / 200000;
      assert 0 <= k < 13;
      assert HighPowerFrequencies[k] == f;
    }
    if f in HighPowerFrequencies {
      var k :| 0 <= k < 13 && HighPowerFrequencies[k] == f;
      assert (f - 920900000) % 200000 == (200000 * k) % 200000 == 0;
    }
  }

  /** The 10 dBm list is exactly 917.3 + 0.6 k MHz, k = 0 .. 5, and 920.7 MHz. */
  lemma {:induction false} ReducedPowerFrequenciesAreBand(f: int)
    ensures f in ReducedPowerFrequencies <==> InReducedPowerBand(f)
  {
    assert forall k :: 0 <= k < 6 ==> ReducedPowerFrequencies[k] == 917300000 + 600000 * k;
    if OnGrid(f, 917300000, 600000, 6) {
      var k := (f - 917300000) / 600000;
      assert 0 <= k < 6;
      assert ReducedPowerFrequencies[k] == f;
    }
    if f in ReducedPowerFrequencies && f != 920700000 {
      var k :| 0 <= k < 7 && ReducedPowerFrequencies[k] == f;
      assert k < 6;
      assert (f - 917300000) % 600000 == (600000 * k) % 600000 == 0;
    }
  }

  /** No frequency is in both case lists, so the order of the cases does not matter. */
  lemma PowerTiersDisjoint(f: int)
    ensures !(f in HighPowerFrequencies && f in ReducedPowerFrequencies)
  {
    HighPowerFrequenciesAreBand(f);
    ReducedPowerFrequenciesAreBand(f);
  }

  /** The frequencies a case list names. */
  function Elements(s: seq<int>): set<int>
  {
    set x | x in s
  }

  /** A strictly increasing list names as many frequencies as it has entries. */
  lemma {:induction false} StrictlyIncreasingElements(s: seq<int>)
    requires StrictlyIncreasing(s)
    ensures |Elements(s)| == |s|
  {
    if |s| > 0 {
      StrictlyIncreasingElements(s[1..]);
      assert Elements(s) == {s[0]} + Elements(s[1..]);
      assert s[0] !in Elements(s[1..]);
    }
  }

  /** Exactly 13 frequencies get 23 dBm and exactly 7 get 10 dBm; every other
      frequency gets 4 dBm. */
  lemma PowerTierSizes()
    ensures |Elements(HighPowerFrequencies)| == 13
    ensures |Elements(ReducedPowerFrequencies)| == 7
    ensures Elements(HighPowerFrequencies) !! Elements(ReducedPowerFrequencies)
    ensures forall f :: DownlinkTXPower(f) == 23 <==> f in Elements(HighPowerFrequencies)
    ensures forall f :: DownlinkTXPower(f) == 10 <==> f in Elements(ReducedPowerFrequencies)
    ensures forall f :: DownlinkTXPower(f) == 4 <==>
      f !in Elements(HighPowerFrequencies) + Elements(ReducedPowerFrequencies)
  {
    PowerFrequencyListsAreIncreasing();
    StrictlyIncreasingElements(HighPowerFrequencies);
    StrictlyIncreasingElements(ReducedPowerFrequencies);
    forall f | f in Elements(HighPowerFrequencies)
      ensures f !in Elements(ReducedPowerFrequencies)
    {
      PowerTiersDisjoint(f);
    }
  }

  /** Uplink EIRP ceiling (dBm) when nothing else was negotiated. */
  function DefaultMaxUplinkEIRP(): (r: real)
    ensures r == 14.0
  {
    14.0
  }

  /*---------------------------------------------------------------------------
    Constant and identity queries
   ---------------------------------------------------------------------------*/

  /** Class-B ping slots always use one fixed frequency, a 23 dBm frequency;
      address and beacon time (in milliseconds) play no part. */
  function PingSlotFrequency(devAddr: DevAddr, beaconTime: int): (r: Result<int>)
    ensures r.Ok? && r.value == 923100000
    ensures DownlinkTXPower(r.value) == 23
  {
    Ok(923100000)
  }

  /** RX1 replies on the uplink's own channel index; no index is rejected. */
  function RX1ChannelIndexForUplinkChannelIndex(uplinkChannel: int): (r: Result<int>)
    ensures r.Ok? && r.value == uplinkChannel
  {
    Ok(uplinkChannel)
  }

  /** RX1 replies on the uplink's own frequency; no frequency is rejected. */
  function RX1FrequencyForUplinkFrequency(uplinkFrequency: int): (r: Result<int>)
    ensures r.Ok? && r.value == uplinkFrequency
  {
    Ok(uplinkFrequency)
  }

  /** The region has no TXParamSetup negotiation, under any protocol version. */
  function ImplementsTXParamSetup(protocolVersion: string): (r: bool)
    ensures !r
  {
    false
  }

  /** RX2 and timing defaults. */
  function GetDefaults(): (d: Defaults)
    ensures d.rx2Frequency == 921900000 && d.rx2DataRate == 0 && d.maxFCntGap == 16384
    ensures d.receiveDelay1 == 1000 && d.joinAcceptDelay1 == 5000
    ensures d.receiveDelay2 == d.receiveDelay1 + 1000
    ensures d.joinAcceptDelay2 == d.joinAcceptDelay1 + 1000
    ensures DownlinkTXPower(d.rx2Frequency) == 23
    ensures d.rx2DataRate in DataRates
  {
    Defaults(
      rx2Frequency := 921900000,
      rx2DataRate := 0,
      maxFCntGap := 16384,
      receiveDelay1 := 1000,
      receiveDelay2 := 2 * 1000,
      joinAcceptDelay1 := 5 * 1000,
      joinAcceptDelay2 := 6 * 1000)
  }

  /*---------------------------------------------------------------------------
    Data-rate table
   ---------------------------------------------------------------------------*/

  const DataRates: map<int, DataRate> := map[
    0 := DataRate(LoRaModulation, 12, 125, 0, true, true),
    1 := DataRate(LoRaModulation, 11, 125, 0, true, true),
    2 := DataRate(LoRaModulation, 10, 125, 0, true, true),
    3 := DataRate(LoRaModulation, 9, 125, 0, true, true),
    4 := DataRate(LoRaModulation, 8, 125, 0, true, true),
    5 := DataRate(LoRaModulation, 7, 125, 0, true, true),
    6 := DataRate(LoRaModulation, 7, 250, 0, true, true),
    7 := DataRate(FSKModulation, 0, 0, 50000, true, true)]

  /** The data rates the plan defines: DR0 .. DR7. */
  predicate IsDataRate(dr: int)
  {
    0 <= dr < 8
  }

  /** Closed form of the data-rate table: DR0-5 are LoRa 125 kHz with
      spreading factor 12 - dr, DR6 is LoRa SF7 / 250 kHz, DR7 is FSK
      50 kbps; all are usable in both directions. */
  function ReferenceDataRate(dr: int): DataRate
    requires IsDataRate(dr)
  {
    if dr <= 5 then DataRate(LoRaModulation, 12 - dr, 125, 0, true, true)
    else if dr == 6 then DataRate(LoRaModulation, 7, 250, 0, true, true)
    else DataRate(FSKModulation, 0, 0, 50000, true, true)
  }

  lemma DataRateTableMatchesReference()
    ensures forall dr :: dr in DataRates <==> IsDataRate(dr)
    ensures forall dr :: dr in DataRates ==> DataRates[dr] == ReferenceDataRate(dr)
    ensures forall dr :: dr in DataRates ==> DataRates[dr].uplink && DataRates[dr].downlink
  {
  }

  /*---------------------------------------------------------------------------
    RX1 data-rate table
   ---------------------------------------------------------------------------*/

  /** Rows are indexed by uplink data rate, columns by RX1 offset 0 .. 5. */
  const Rx1DataRateTable: map<int, seq<int>> := map[
    0 := [0, 0, 0, 0, 0, 0],
    1 := [1, 0, 0, 0, 0, 0],
    2 := [2, 1, 0, 0, 0, 0],
    3 := [3, 2, 1, 0, 0, 0],
    4 := [4, 3, 2, 1, 0, 0],
    5 := [5, 4, 3, 2, 1, 0],
    6 := [6, 5, 4, 3, 2, 1],
    7 := [7, 6, 5, 4, 3, 2]]

  /** Closed form of the RX1 table: the uplink data rate lowered by the
      offset, saturating at DR0. */
  function ReferenceRx1DataRate(uplinkDR: int, offset: int): int
  {
    if uplinkDR - offset > 0 then uplinkDR - offset else 0
  }

  lemma Rx1TableIsSaturatingSubtraction()
    ensures Rx1DataRateTable.Keys == DataRates.Keys
    ensures forall d :: d in Rx1DataRateTable ==> |Rx1DataRateTable[d]| == Rx1OffsetCount
    ensures forall d, o :: d in Rx1DataRateTable && 0 <= o < |Rx1DataRateTable[d]| ==>
      Rx1DataRateTable[d][o] == ReferenceRx1DataRate(d, o)
  {
  }

  /** Row shape, monotonicity and closure of the RX1 table, derived from its closed form. */
  lemma Rx1TableResolvesDataRates()
    ensures Rx1TableResolves(Rx1DataRateTable, DataRates, Rx1OffsetCount)
  {
    Rx1TableIsSaturatingSubtraction();
    DataRateTableMatchesReference();
  }

  /*---------------------------------------------------------------------------
    TX power offsets
   ---------------------------------------------------------------------------*/

  /** Offsets in dB from the maximum EIRP, indexed by TX power index. */
  const TXPowerOffsets: seq<int> := [0, -2, -4, -6, -8, -10, -12, -14]

  lemma TXPowerOffsetsAreTwoDecibelSteps()
    ensures |TXPowerOffsets| == 8
    ensures forall i :: 0 <= i < |TXPowerOffsets| ==> TXPowerOffsets[i] == -2 * i
    ensures TXPowerOffsetsDecrease(TXPowerOffsets)
  {
  }

  /*---------------------------------------------------------------------------
    Channel plan
   ---------------------------------------------------------------------------*/

  const UplinkChannels: seq<Channel> := [
    Channel(922100000, 0, 5, true),
    Channel(922300000, 0, 5, true),
    Channel(922500000, 0, 5, true)]

  const DownlinkChannels: seq<Channel> := [
    Channel(922100000, 0, 5, true),
    Channel(922300000, 0, 5, true),
    Channel(922500000, 0, 5, true)]

  /** Three enabled channels at 922.1, 922.3 and 922.5 MHz carrying DR0 .. DR5,
      the same in both directions, all in the 23 dBm tier. */
  lemma ChannelPlanIsFixed()
    ensures UplinkChannels == DownlinkChannels
    ensures |UplinkChannels| == 3
    ensures forall i :: 0 <= i < |UplinkChannels| ==>
      UplinkChannels[i] == Channel(922100000 + 200000 * i, 0, 5, true)
    ensures ChannelsResolve(UplinkChannels, DataRates)
    ensures forall i :: 0 <= i < |UplinkChannels| ==> DownlinkTXPower(UplinkChannels[i].frequency) == 23
  {
  }

  /** An uplink on any plan channel is answered in RX1 on a downlink channel
      of the same frequency, at full (23 dBm) power. */
  lemma RX1ReplyStaysOnUplinkChannel(c: int)
    requires 0 <= c < |UplinkChannels|
    ensures RX1ChannelIndexForUplinkChannelIndex(c).Ok?
    ensures var rc := RX1ChannelIndexForUplinkChannelIndex(c).value;
      && 0 <= rc < |DownlinkChannels|
      && DownlinkChannels[rc].frequency == UplinkChannels[c].frequency
      && RX1FrequencyForUplinkFrequency(UplinkChannels[c].frequency) == Ok(DownlinkChannels[rc].frequency)
      && DownlinkTXPower(DownlinkChannels[rc].frequency) == 23
  {
    ChannelPlanIsFixed();
  }

  /*---------------------------------------------------------------------------
    Maximum payload sizes
   ---------------------------------------------------------------------------*/

  /** The payload table; DR4 .. DR7 keep 20 bytes in reserve for a repeater
      when `repeaterCompatible` is set. */
  function MaxPayloadSizePerDR(repeaterCompatible: bool): PayloadTable
  {
    if repeaterCompatible then
      map[Latest := map[Latest := map[
        0 := MaxPayloadSize(59, 51),
        1 := MaxPayloadSize(59, 51),
        2 := MaxPayloadSize(59, 51),
        3 := MaxPayloadSize(123, 115),
        4 := MaxPayloadSize(230, 222),
        5 := MaxPayloadSize(230, 222),
        6 := MaxPayloadSize(230, 222),
        7 := MaxPayloadSize(230, 222)]]]
    else
      map[Latest := map[Latest := map[
        0 := MaxPayloadSize(59, 51),
        1 := MaxPayloadSize(59, 51),
        2 := MaxPayloadSize(59, 51),
        3 := MaxPayloadSize(123, 115),
        4 := MaxPayloadSize(250, 242),
        5 := MaxPayloadSize(250, 242),
        6 := MaxPayloadSize(250, 242),
        7 := MaxPayloadSize(250, 242)]]]
  }

  /** The version-independent (`Latest`/`Latest`) part of a payload table. */
  function LatestPayloadSizes(t: PayloadTable): map<int, MaxPayloadSize>
    requires Latest in t && Latest in t[Latest]
  {
    t[Latest][Latest]
  }

  /** Closed form of the payload table: M is 59 for DR0-2, 123 for DR3, and
      230 (repeater-compatible) or 250 for DR4-7; N is always M minus the
      8-byte frame overhead. */
  function ReferenceMaxPayloadSize(repeaterCompatible: bool, dr: int): MaxPayloadSize
    requires IsDataRate(dr)
  {
    var m := if dr <= 2 then 59 else if dr == 3 then 123 else if repeaterCompatible then 230 else 250;
    MaxPayloadSize(m, m - 8)
  }

  lemma PayloadTableMatchesReference(repeaterCompatible: bool)
    ensures var t := MaxPayloadSizePerDR(repeaterCompatible);
      && t.Keys == {Latest}
      && t[Latest].Keys == {Latest}
      && (forall dr :: dr in t[Latest][Latest] <==> IsDataRate(dr))
      && (forall dr :: dr in t[Latest][Latest] ==>
            t[Latest][Latest][dr] == ReferenceMaxPayloadSize(repeaterCompatible, dr))
  {
  }

  /** Reserving room for a repeater never enlarges a payload, it shrinks
      exactly DR4 .. DR7, and the header overhead M - N is 8 bytes throughout. */
  lemma RepeaterCompatibleShrinksOnlyFastRates(dr: int)
    requires IsDataRate(dr)
    ensures var rep := LatestPayloadSizes(MaxPayloadSizePerDR(true));
      var std := LatestPayloadSizes(MaxPayloadSizePerDR(false));
      && dr in rep && dr in std
      && rep[dr].m <= std[dr].m
      && (rep[dr] == std[dr] <==> dr <= 3)
      && rep[dr].m - rep[dr].n == 8 && std[dr].m - std[dr].n == 8
  {
    PayloadTableMatchesReference(true);
    PayloadTableMatchesReference(false);
  }

  /*---------------------------------------------------------------------------
    Construction
   ---------------------------------------------------------------------------*/

  /** Builds the band. Construction never fails, the plan accepts extra
      channels, and the result keeps every structural invariant of a band. */
  function NewBand(repeaterCompatible: bool): (r: Result<Band>)
    ensures r.Ok?
    ensures r.value.supportsExtraChannels
    ensures WellFormed(r.value, Rx1OffsetCount)
    ensures forall dr :: dr in r.value.dataRates <==> IsDataRate(dr)
    ensures forall dr :: dr in r.value.dataRates ==> r.value.dataRates[dr] == ReferenceDataRate(dr)
    ensures forall d, o :: d in r.value.rx1DataRateTable && 0 <= o < Rx1OffsetCount ==>
      r.value.rx1DataRateTable[d][o] == ReferenceRx1DataRate(d, o)
    ensures |r.value.txPowerOffsets| == 8
    ensures forall i :: 0 <= i < 8 ==> r.value.txPowerOffsets[i] == -2 * i
    ensures r.value.downlinkChannels == r.value.uplinkChannels
    ensures |r.value.uplinkChannels| == 3
    ensures forall i :: 0 <= i < 3 ==> r.value.uplinkChannels[i] == Channel(922100000 + 200000 * i, 0, 5, true)
    ensures r.value.maxPayloadSizePerDR.Keys == {Latest}
    ensures r.value.maxPayloadSizePerDR[Latest].Keys == {Latest}
    ensures forall dr :: dr in r.value.maxPayloadSizePerDR[Latest][Latest] <==> IsDataRate(dr)
    ensures forall dr :: dr in r.value.maxPayloadSizePerDR[Latest][Latest] ==>
      r.value.maxPayloadSizePerDR[Latest][Latest][dr] == ReferenceMaxPayloadSize(repeaterCompatible, dr)
  {
    DataRateTableMatchesReference();
    Rx1TableIsSaturatingSubtraction();
    Rx1TableResolvesDataRates();
    TXPowerOffsetsAreTwoDecibelSteps();
    ChannelPlanIsFixed();
    PayloadTableMatchesReference(repeaterCompatible);
    Ok(Band(
      supportsExtraChannels := true,
      dataRates := DataRates,
      rx1DataRateTable := Rx1DataRateTable,
      txPowerOffsets := TXPowerOffsets,
      uplinkChannels := UplinkChannels,
      downlinkChannels := DownlinkChannels,
      maxPayloadSizePerDR := MaxPayloadSizePerDR(repeaterCompatible)))
  }

  /** The two constructions differ only in their payload tables. */
  lemma NewBandDiffersOnlyInPayloads()
    ensures NewBand(true).value.(maxPayloadSizePerDR := map[]) == NewBand(false).value.(maxPayloadSizePerDR := map[])
    ensures NewBand(true) != NewBand(false)
  {
    RepeaterCompatibleShrinksOnlyFastRates(4);
  }
}
