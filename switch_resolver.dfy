/**
 The DIP-switch calculator for the Apple II Super Serial Card: from one
 snapshot of the configuration form it computes the seven switches of bank
 SW1, the seven switches of bank SW2 and the slot to install the card in.
 A bank is a sequence of seven booleans; index i holds switch i + 1 (true = ON).
 */
module SwitchResolver {
  import opened BaudTable

  /** The two ways the card can be used (also the two jumper-block orientations). */
  datatype Mode = Modem | Printer

  /**
   One snapshot of the form. The serial-format fields and the line width are
   kept as the strings the menus produce, since the calculator compares strings.
   */
  datatype Config = Config(
    jumperMode: Mode,
    operationMode: Mode,
    baudRate: string,
    dataBits: string,
    parity: string,
    stopBits: string,
    autoLineFeed: bool,
    enableInterrupts: bool,
    lineWidth: string,
    videoOutput: bool,
    returnDelay: bool)

  /** The form's initial values. */
  const DefaultConfig: Config :=
    Config(Modem, Modem, "9600", "8", "none", "1", false, true, "80", false, false)

  /** SW2-3 and SW2-4 for each printer line width. */
  const WidthMap: map<string, (bool, bool)> :=
    map["40" := (true, true), "72" := (true, false), "80" := (false, true), "132" := (false, false)]

  /** The width pair used when the line width is not in WidthMap (that of 80 columns). */
  const FallbackWidth: (bool, bool) := (false, true)

  /**
   Bank SW1: the baud-rate switches, then modem/printer, then two switches
   that are ON in both modes.
   */
  function Sw1Settings(c: Config): (r: seq<bool>)
    ensures |r| == 7
    ensures forall k :: 0 <= k < |BaudRates| && BaudRates[k].value == c.baudRate ==> r[..4] == BaudRates[k].sw1
    ensures !IsListed(c.baudRate) ==> r[..4] == FallbackPattern
    ensures r[4] <==> c.operationMode == Modem
    ensures r[5] && r[6]
  {
    BaudPattern(c.baudRate) + [c.operationMode == Modem, true, true]
  }

  /**
   Bank SW2. In modem mode switches 1-4 come from the serial format: switch 1
   is first set from the data bits and then cleared when there are two stop
   bits; the parity switches are computed the same way for either stop-bit
   count. In printer mode switch 1 is ON, switch 2 is the return delay and
   switches 3-4 come from the line width. Switches 5-7 are shared.
   */
  function Sw2Settings(c: Config): (r: seq<bool>)
    ensures |r| == 7
    ensures c.operationMode == Modem ==>
      && r[0] == (c.stopBits == "1")
      && r[1] == (c.dataBits == "8")
      && r[2] == (c.parity == "odd")
      && r[3] == (c.parity == "none")
    ensures c.operationMode == Printer ==> r[0] && r[1] == c.returnDelay
    ensures c.operationMode == Printer && c.lineWidth == "40" ==> r[2] && r[3]
    ensures c.operationMode == Printer && c.lineWidth == "72" ==> r[2] && !r[3]
    ensures c.operationMode == Printer && c.lineWidth == "80" ==> !r[2] && r[3]
    ensures c.operationMode == Printer && c.lineWidth == "132" ==> !r[2] && !r[3]
    ensures c.operationMode == Printer && c.lineWidth !in {"40", "72", "80", "132"} ==> !r[2] && r[3]
    ensures r[4] == c.autoLineFeed && r[5] == c.enableInterrupts
    ensures r[6] <==> c.operationMode == Printer && c.lineWidth == "40"
  {
    var (s1, s2, s3, s4) :=
      if c.operationMode == Modem then
        var dataIs8 := c.dataBits == "8";
        var parityNone := c.parity == "none";
        var stopIs1 := c.stopBits == "1";
        var (d1, d2) := if dataIs8 then (true, true) else (true, false);
        var (p3, p4) :=
          if stopIs1 then
            (if parityNone then false else c.parity == "odd", parityNone)
          else
            (if parityNone then false else c.parity == "odd", parityNone);
        (if !stopIs1 then false else d1, d2, p3, p4)
      else
        var (w3, w4) := if c.lineWidth in WidthMap then WidthMap[c.lineWidth] else FallbackWidth;
        (true, c.returnDelay, w3, w4);
    [s1, s2, s3, s4, c.autoLineFeed, c.enableInterrupts, c.operationMode == Printer && c.lineWidth == "40"]
  }

  /** The slot the guide recommends: 1 for a printer, 2 for a modem. */
  function RecommendedSlot(c: Config): (r: string)
    ensures r == "Slot 1" <==> c.operationMode == Printer
    ensures r == "Slot 2" <==> c.operationMode == Modem
  {
    assert "Slot 1" != "Slot 2" by { assert "Slot 1"[5] != "Slot 2"[5]; }
    match c.operationMode
    case Printer => "Slot 1"
    case Modem => "Slot 2"
  }

  /**
   The fields SW2 reads: the mode and the two shared flags always, the serial
   format in modem mode, the line width and the return delay in printer mode.
   */
  predicate SameSw2Inputs(c: Config, d: Config)
  {
    && c.operationMode == d.operationMode
    && c.autoLineFeed == d.autoLineFeed
    && c.enableInterrupts == d.enableInterrupts
    && (c.operationMode == Modem ==>
          c.dataBits == d.dataBits && c.parity == d.parity && c.stopBits == d.stopBits)
    && (c.operationMode == Printer ==>
          c.lineWidth == d.lineWidth && c.returnDelay == d.returnDelay)
  }

  /** Two configurations that agree on the fields SW2 reads give the same SW2. */
  lemma Sw2OnlyReadsItsInputs(c: Config, d: Config)
    requires SameSw2Inputs(c, d)
    ensures Sw2Settings(c) == Sw2Settings(d)
  {
  }

  /** SW1-1..SW1-4 always decode to the rate chosen, or to 9600 when the rate is not in the table. */
  lemma Sw1DecodesToBaud(c: Config)
    ensures DecodeBaud(Sw1Settings(c)[..4]) == Some(if IsListed(c.baudRate) then c.baudRate else "9600")
  {
    assert Sw1Settings(c)[..4] == BaudPattern(c.baudRate);
    EncodeThenDecode(c.baudRate);
  }

  /** Two listed rates give the same SW1 only if they are the same rate. */
  lemma Sw1SeparatesRates(c: Config, d: Config)
    requires IsListed(c.baudRate) && IsListed(d.baudRate)
    requires Sw1Settings(c) == Sw1Settings(d)
    ensures c.baudRate == d.baudRate
  {
    Sw1DecodesToBaud(c);
    Sw1DecodesToBaud(d);
  }

  /** A rate missing from the table sets SW1 exactly as 9600 does. */
  lemma UnknownBaudActsAs9600(c: Config)
    requires !IsListed(c.baudRate)
    ensures Sw1Settings(c) == Sw1Settings(c.(baudRate := "9600"))
  {
    BaudPatternsDistinct();
  }

  /** SW1 depends on the baud rate and the operation mode and on nothing else. */
  lemma Sw1OnlyReadsBaudAndMode(c: Config, d: Config)
    requires c.baudRate == d.baudRate && c.operationMode == d.operationMode
    ensures Sw1Settings(c) == Sw1Settings(d)
  {
  }

  /** The jumper orientation and the video-output flag change neither bank nor the slot. */
  lemma JumperAndVideoNeverMatter(c: Config, jumper: Mode, video: bool)
    ensures Sw1Settings(c.(jumperMode := jumper, videoOutput := video)) == Sw1Settings(c)
    ensures Sw2Settings(c.(jumperMode := jumper, videoOutput := video)) == Sw2Settings(c)
    ensures RecommendedSlot(c.(jumperMode := jumper, videoOutput := video)) == RecommendedSlot(c)
  {
    Sw2OnlyReadsItsInputs(c.(jumperMode := jumper, videoOutput := video), c);
  }

  /** In printer mode the data bits, parity and stop bits do not affect SW2. */
  lemma PrinterIgnoresSerialFormat(c: Config, dataBits: string, parity: string, stopBits: string)
    requires c.operationMode == Printer
    ensures Sw2Settings(c.(dataBits := dataBits, parity := parity, stopBits := stopBits)) == Sw2Settings(c)
  {
    Sw2OnlyReadsItsInputs(c.(dataBits := dataBits, parity := parity, stopBits := stopBits), c);
  }

  /** In modem mode the line width and the return delay do not affect SW2. */
  lemma ModemIgnoresPrinterFormat(c: Config, lineWidth: string, returnDelay: bool)
    requires c.operationMode == Modem
    ensures Sw2Settings(c.(lineWidth := lineWidth, returnDelay := returnDelay)) == Sw2Settings(c)
  {
    Sw2OnlyReadsItsInputs(c.(lineWidth := lineWidth, returnDelay := returnDelay), c);
  }

  /** In modem mode the stop-bit count changes SW2-1 only. */
  lemma StopBitsOnlyMoveSwitch1(c: Config, stopBits: string)
    requires c.operationMode == Modem
    ensures Sw2Settings(c.(stopBits := stopBits))[1..] == Sw2Settings(c)[1..]
  {
  }

  /** In modem mode the two parity switches are never both ON; even parity turns both OFF. */
  lemma ParitySwitchesExclusive(c: Config)
    requires c.operationMode == Modem
    ensures !(Sw2Settings(c)[2] && Sw2Settings(c)[3])
    ensures c.parity == "even" ==> !Sw2Settings(c)[2] && !Sw2Settings(c)[3]
  {
  }

  /** The four printer widths give four different settings of SW2-3 and SW2-4. */
  lemma WidthsDistinguishable(c: Config, d: Config)
    requires c.operationMode == Printer && d.operationMode == Printer
    requires c.lineWidth in WidthMap && d.lineWidth in WidthMap
    requires Sw2Settings(c)[2..4] == Sw2Settings(d)[2..4]
    ensures c.lineWidth == d.lineWidth
  {
    assert Sw2Settings(c)[2..4] == [WidthMap[c.lineWidth].0, WidthMap[c.lineWidth].1];
    assert Sw2Settings(d)[2..4] == [WidthMap[d.lineWidth].0, WidthMap[d.lineWidth].1];
  }

  /** SW2-7 is never ON in modem mode. */
  lemma ModemNeverSetsSwitch7(c: Config)
    requires c.operationMode == Modem
    ensures !Sw2Settings(c)[6]
  {
  }

  /** The recommended slot depends on the operation mode only. */
  lemma SlotOnlyReadsMode(c: Config, d: Config)
    requires c.operationMode == d.operationMode
    ensures RecommendedSlot(c) == RecommendedSlot(d)
  {
  }

  /** 9600 baud sets SW1-1..SW1-4 to OFF, OFF, OFF, ON. */
  lemma Sw1At9600(c: Config)
    requires c.baudRate == "9600"
    ensures Sw1Settings(c)[..4] == FallbackPattern
  {
    assert BaudRates[13].value == "9600";
  }

  /** The form's initial state: 9600 baud, 8 data bits, no parity, 1 stop bit, modem. */
  lemma DefaultSettings(c: Config)
    requires c == DefaultConfig
    ensures Sw1Settings(c)[..4] == FallbackPattern && Sw1Settings(c)[4..] == [true, true, true]
    ensures Sw2Settings(c) == [true, true, false, true, false, true, false]
    ensures RecommendedSlot(c) == "Slot 2"
  {
    Sw1At9600(c);
  }

  /** A 40-column printer with return delay, interrupts on and no auto line feed. */
  lemma Printer40Settings(c: Config)
    requires c.operationMode == Printer && c.lineWidth == "40"
    requires c.returnDelay && !c.autoLineFeed && c.enableInterrupts
    ensures !Sw1Settings(c)[4]
    ensures Sw2Settings(c) == [true, true, true, true, false, true, true]
    ensures RecommendedSlot(c) == "Slot 1"
  {
  }

  /** A 132-column printer: SW2-3 and SW2-4 OFF, and SW2-7 OFF. */
  lemma Printer132Settings(c: Config)
    requires c.operationMode == Printer && c.lineWidth == "132"
    ensures !Sw2Settings(c)[2] && !Sw2Settings(c)[3] && !Sw2Settings(c)[6]
  {
  }
}
