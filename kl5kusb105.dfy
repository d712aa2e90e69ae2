/**
 * The KL5KUSB105 USB-serial converter: the 2-byte little-endian length
 * header on every bulk packet, the mapping of the device status word to
 * modem lines, and the mapping of termios settings to the device's port
 * settings record.
 *
 * USB transfers, the tty layer and locking are outside the model: the
 * write FIFO, the received buffer and the baud rate the tty layer decodes
 * are parameters, and a settings record handed to the device is returned
 * instead of sent.
 */
module Kl5kusb105 {

  import opened KernelTypes

  type Byte = x: int | 0 <= x < 256

  const KLSI_HDR_LEN: nat := 2

  // ---------------------------------------------------------------------
  // Little-endian 16-bit header
  // ---------------------------------------------------------------------

  /** put_unaligned_le16: the low 16 bits of v, low byte first. */
  function Le16Bytes(v: int): (b: seq<Byte>)
    ensures |b| == 2
  {
    [v % 256, (v / 256) % 256]
  }

  /** get_unaligned_le16. */
  function GetLe16(b0: Byte, b1: Byte): (v: nat)
    ensures v < 0x1_0000
  {
    b0 + 256 * b1
  }

  lemma Le16RoundTrip(v: int)
    ensures GetLe16(Le16Bytes(v)[0], Le16Bytes(v)[1]) == v % 0x1_0000
  {
  }

  // ---------------------------------------------------------------------
  // klsi_105_prepare_write_buffer
  // ---------------------------------------------------------------------

  /** The part of usb_serial_port the write path touches. */
  class SerialPort {
    var writeFifo: seq<Byte>

    constructor (fifo: seq<Byte>)
      ensures writeFifo == fifo
    {
      writeFifo := fifo;
    }
  }

  /** A bulk-out packet: the header holding the payload length, then the
      payload. */
  function EncodeFrame(payload: seq<Byte>): (f: seq<Byte>)
    ensures |f| == |payload| + KLSI_HDR_LEN && f[KLSI_HDR_LEN..] == payload
  {
    Le16Bytes(|payload|) + payload
  }

  /** kfifo_out_locked: move up to size bytes from the head of the FIFO
      into dest from offset `at`. */
  method FifoOut(port: SerialPort, dest: array<Byte>, at: nat, size: nat) returns (count: nat)
    requires at + size <= dest.Length
    modifies port, dest
    ensures count == Min(size, |old(port.writeFifo)|)
    ensures port.writeFifo == old(port.writeFifo)[count..]
    ensures dest[..at] == old(dest[..at]) && dest[at + count..] == old(dest[at + count..])
    ensures dest[at..at + count] == old(port.writeFifo)[..count]
  {
    count := Min(size, |port.writeFifo|);
    var i := 0;
    while i < count
      invariant 0 <= i <= count
      invariant dest[..at] == old(dest[..at]) && dest[at + count..] == old(dest[at + count..])
      invariant dest[at..at + i] == old(port.writeFifo)[..i]
      invariant port.writeFifo == old(port.writeFifo)
    {
      dest[at + i] := port.writeFifo[i];
      assert dest[at..at + i + 1] == dest[at..at + i] + [dest[at + i]];
      i := i + 1;
    }
    port.writeFifo := port.writeFifo[count..];
  }

  /** klsi_105_prepare_write_buffer. The destination is taken to hold
      size bytes after the header. */
  method PrepareWriteBuffer(port: SerialPort, dest: array<Byte>, size: nat) returns (r: int)
    requires size + KLSI_HDR_LEN <= dest.Length
    modifies port, dest
    ensures var count := Min(size, |old(port.writeFifo)|);
      && r == count + KLSI_HDR_LEN
      && port.writeFifo == old(port.writeFifo)[count..]
      && dest[..KLSI_HDR_LEN] == Le16Bytes(count)
      && dest[KLSI_HDR_LEN..r] == old(port.writeFifo)[..count]
      && dest[r..] == old(dest[r..])
    ensures var count := Min(size, |old(port.writeFifo)|);
      count < 0x1_0000 ==> dest[..r] == EncodeFrame(old(port.writeFifo)[..count])
  {
    var count := FifoOut(port, dest, KLSI_HDR_LEN, size);
    var header := Le16Bytes(count);
    dest[0] := header[0];
    dest[1] := header[1];
    r := count + KLSI_HDR_LEN;
    assert dest[..r] == dest[..KLSI_HDR_LEN] + dest[KLSI_HDR_LEN..r];
  }

  // ---------------------------------------------------------------------
  // klsi_105_process_read_urb
  // ---------------------------------------------------------------------

  /** What a received bulk-in buffer hands to the tty layer: nothing for
      an empty buffer or one no longer than the header, otherwise the
      payload, clamped to what was received. */
  datatype ReadOutcome = EmptyUrb | Malformed | Delivered(bytes: seq<Byte>, clamped: bool)

  /** The payload length: the header's, unless that exceeds what arrived
      after the header. */
  function PayloadLength(data: seq<Byte>, actualLength: nat): (len: nat)
    requires KLSI_HDR_LEN < actualLength <= |data|
    ensures KLSI_HDR_LEN + len <= actualLength
  {
    var len := GetLe16(data[0], data[1]);
    if len > actualLength - KLSI_HDR_LEN then actualLength - KLSI_HDR_LEN else len
  }

  /** klsi_105_process_read_urb; data holds the actual_length received
      bytes. */
  function ProcessReadUrb(data: seq<Byte>, actualLength: nat): (o: ReadOutcome)
    requires actualLength <= |data|
    ensures actualLength == 0 <==> o == EmptyUrb
    ensures 0 < actualLength <= KLSI_HDR_LEN <==> o == Malformed
    ensures o.Delivered? ==>
      && |o.bytes| == Min(GetLe16(data[0], data[1]), actualLength - KLSI_HDR_LEN)
      && o.bytes == data[KLSI_HDR_LEN..KLSI_HDR_LEN + |o.bytes|]
      && (o.clamped <==> GetLe16(data[0], data[1]) > actualLength - KLSI_HDR_LEN)
  {
    if actualLength == 0 then EmptyUrb
    else if actualLength <= KLSI_HDR_LEN then Malformed
    else
      var len := PayloadLength(data, actualLength);
      Delivered(data[KLSI_HDR_LEN..KLSI_HDR_LEN + len], GetLe16(data[0], data[1]) > actualLength - KLSI_HDR_LEN)
  }

  /** A packet built by the write path, received whole, delivers exactly
      its payload. An empty payload gives a bare header, which the read
      path drops as malformed. */
  lemma FrameRoundTrip(payload: seq<Byte>)
    requires |payload| < 0x1_0000
    ensures |payload| >= 1 ==> ProcessReadUrb(EncodeFrame(payload), |payload| + KLSI_HDR_LEN) == Delivered(payload, false)
    ensures |payload| == 0 ==> ProcessReadUrb(EncodeFrame(payload), KLSI_HDR_LEN) == Malformed
  {
    var f := EncodeFrame(payload);
    Le16RoundTrip(|payload|);
    assert GetLe16(f[0], f[1]) == |payload|;
  }

  /** A buffer shorter than its header claims delivers what arrived. */
  lemma TruncatedFrameDeliversReceived(payload: seq<Byte>, received: nat)
    requires 1 <= received < |payload| < 0x1_0000
    ensures ProcessReadUrb(EncodeFrame(payload), received + KLSI_HDR_LEN) == Delivered(payload[..received], true)
  {
    var f := EncodeFrame(payload);
    Le16RoundTrip(|payload|);
    assert GetLe16(f[0], f[1]) == |payload|;
    assert f[KLSI_HDR_LEN..KLSI_HDR_LEN + received] == payload[..received];
  }

  // ---------------------------------------------------------------------
  // klsi_105_status2linestate
  // ---------------------------------------------------------------------

  /** TIOCM_* modem-line bits. */
  datatype ModemLine = TiocmDsr | TiocmCts | TiocmCar | TiocmRng | TiocmDtr | TiocmRts

  /** klsi_105_status2linestate. KL5KUSB105A_DSR and KL5KUSB105A_CTS are
      masks of the status word whose values live in the driver's header;
      they are parameters here. */
  function Status2LineState(status: bv16, dsrMask: bv16, ctsMask: bv16): (r: set<ModemLine>)
    ensures TiocmDsr in r <==> status & dsrMask != 0
    ensures TiocmCts in r <==> status & ctsMask != 0
    ensures r <= {TiocmDsr, TiocmCts}
  {
    (if status & dsrMask != 0 then {TiocmDsr} else {}) + (if status & ctsMask != 0 then {TiocmCts} else {})
  }

  /** Status bits outside both masks never show up. */
  lemma StatusOtherBitsIgnored(status: bv16, other: bv16, dsrMask: bv16, ctsMask: bv16)
    requires other & (dsrMask | ctsMask) == 0
    ensures Status2LineState(status | other, dsrMask, ctsMask) == Status2LineState(status, dsrMask, ctsMask)
  {
    assert (status | other) & dsrMask == status & dsrMask;
    assert (status | other) & ctsMask == status & ctsMask;
  }

  // ---------------------------------------------------------------------
  // Port settings and klsi_105_set_termios
  // ---------------------------------------------------------------------

  /** kl5kusb105a_sio_b* baud-rate codes. */
  datatype BaudCode = SioB1200 | SioB2400 | SioB4800 | SioB9600 | SioB19200 | SioB38400 | SioB57600 | SioB115200

  /** kl5kusb105a_dtb_* data-bit codes. */
  datatype DataBits = Dtb7 | Dtb8

  /** struct klsi_105_port_settings. */
  datatype PortSettings = PortSettings(pktlen: int, baudrate: BaudCode, databits: DataBits, unknown1: int, unknown2: int)

  /** struct klsi_105_private, without the saved termios and the lock. */
  class KlsiPrivate {
    var cfg: PortSettings
    var lineState: set<ModemLine>

    /** The settings klsi_105_port_probe starts from. */
    constructor ()
      ensures cfg == PortSettings(5, SioB9600, Dtb8, 0, 1) && lineState == {}
    {
      cfg := PortSettings(5, SioB9600, Dtb8, 0, 1);
      lineState := {};
    }
  }

  /** klsi_105_port_probe; allocOk says whether kmalloc succeeds. */
  method PortProbe(allocOk: bool) returns (ret: int, priv: KlsiPrivate?)
    ensures !allocOk ==> ret == -ENOMEM && priv == null
    ensures allocOk ==>
      && ret == 0 && priv != null && fresh(priv)
      && priv.cfg == PortSettings(5, SioB9600, Dtb8, 0, 1) && priv.lineState == {}
  {
    if !allocOk {
      return -ENOMEM, null;
    }
    priv := new KlsiPrivate();
    ret := 0;
  }

  /** The CSIZE field of c_cflag. */
  datatype CharSize = Cs5 | Cs6 | Cs7 | Cs8 | CsOther(code: int)

  /** The c_cflag and c_iflag bits klsi_105_set_termios looks at. */
  datatype Termios = Termios(cbaud: int, csize: CharSize, parenb: bool, parodd: bool, cstopb: bool, crtscts: bool,
                             ixon: bool, ixoff: bool)

  /** The tty's termios; tty_encode_baud_rate rewrites its CBAUD rate. */
  class Tty {
    var termios: Termios

    constructor (t: Termios)
      ensures termios == t
    {
      termios := t;
    }
  }

  /** The device code of a baud rate; None for 0, the 9600 code for any
      rate the table lacks. */
  function BaudCodeOf(baud: int): (c: Option<BaudCode>)
    ensures baud == 0 <==> c.None?
  {
    if baud == 0 then None
    else if baud == 1200 then Some(SioB1200)
    else if baud == 2400 then Some(SioB2400)
    else if baud == 4800 then Some(SioB4800)
    else if baud == 9600 then Some(SioB9600)
    else if baud == 19200 then Some(SioB19200)
    else if baud == 38400 then Some(SioB38400)
    else if baud == 57600 then Some(SioB57600)
    else if baud == 115200 then Some(SioB115200)
    else Some(SioB9600)
  }

  /** The rate of each code. */
  function CodeRate(c: BaudCode): int
  {
    match c
    case SioB1200 => 1200
    case SioB2400 => 2400
    case SioB4800 => 4800
    case SioB9600 => 9600
    case SioB19200 => 19200
    case SioB38400 => 38400
    case SioB57600 => 57600
    case SioB115200 => 115200
  }

  predicate SupportedBaud(baud: int)
  {
    baud in {1200, 2400, 4800, 9600, 19200, 38400, 57600, 115200}
  }

  /** The rate encoded back into the tty: unsupported rates become 9600. */
  function EffectiveBaud(baud: int): (b: int)
  {
    if baud == 0 || SupportedBaud(baud) then baud else 9600
  }

  /** The table is exact on the eight supported rates, and every other
      non-zero rate is treated, coded and re-encoded as 9600. */
  lemma BaudTable(baud: int)
    ensures SupportedBaud(baud) ==> BaudCodeOf(baud).Some? && CodeRate(BaudCodeOf(baud).value) == baud
    ensures baud != 0 && !SupportedBaud(baud) ==> BaudCodeOf(baud) == Some(SioB9600) && EffectiveBaud(baud) == 9600
    ensures baud != 0 ==> CodeRate(BaudCodeOf(baud).value) == EffectiveBaud(baud)
  {
  }

  /** Every code is reached from its own rate. */
  lemma BaudCodesRoundTrip(c: BaudCode)
    ensures SupportedBaud(CodeRate(c)) && BaudCodeOf(CodeRate(c)) == Some(c)
  {
  }

  /** The data-bit code for a CSIZE the device accepts. */
  function DataBitsOf(cs: CharSize): DataBits
    requires cs != Cs5 && cs != Cs6
  {
    if cs == Cs7 then Dtb7 else Dtb8
  }

  /** Whether the CSIZE change stops set_termios before the settings go to
      the device. */
  predicate RejectsCharSize(t: Termios, prev: Termios)
  {
    t.csize != prev.csize && (t.csize == Cs5 || t.csize == Cs6)
  }

  /** The c_cflag after set_termios drops what the device cannot do: the
      parity and stop bits when either changed, CRTSCTS when any flow
      control setting changed. */
  function ClearedFlags(t: Termios, prev: Termios): (r: Termios)
    ensures r.cbaud == t.cbaud && r.csize == t.csize && r.ixon == t.ixon && r.ixoff == t.ixoff
    ensures (t.parenb, t.parodd) != (prev.parenb, prev.parodd) || t.cstopb != prev.cstopb
      ==> !r.parenb && !r.parodd && !r.cstopb
    ensures (t.parenb, t.parodd) == (prev.parenb, prev.parodd) && t.cstopb == prev.cstopb
      ==> r.parenb == t.parenb && r.parodd == t.parodd && r.cstopb == t.cstopb
    ensures r.crtscts == (t.crtscts && t.ixoff == prev.ixoff && t.ixon == prev.ixon && t.crtscts == prev.crtscts)
  {
    var lcrChanged := (t.parenb, t.parodd) != (prev.parenb, prev.parodd) || t.cstopb != prev.cstopb;
    var flowChanged := t.ixoff != prev.ixoff || t.ixon != prev.ixon || t.crtscts != prev.crtscts;
    var afterLcr := if lcrChanged then t.(parenb := false, parodd := false, cstopb := false) else t;
    if flowChanged then afterLcr.(crtscts := false) else afterLcr
  }

  /** Clearing is idempotent: a second pass against the cleared settings
      changes nothing more. */
  lemma ClearedFlagsStable(t: Termios, prev: Termios)
    ensures ClearedFlags(ClearedFlags(t, prev), ClearedFlags(t, prev)) == ClearedFlags(t, prev)
  {
  }

  /** klsi_105_set_termios. `baud` is what tty_get_baud_rate returns and
      allocOk whether the settings buffer is allocated; the result is the
      record passed to klsi_105_chg_port_settings, None when none is. */
  method SetTermios(priv: KlsiPrivate, tty: Tty, prev: Termios, baud: nat, allocOk: bool) returns (sent: Option<PortSettings>)
    modifies priv`cfg, tty
    ensures !allocOk ==>
      && sent.None? && priv.cfg == old(priv.cfg) && tty.termios == old(tty.termios)
    ensures allocOk ==>
      && priv.cfg.baudrate == (if baud == 0 then old(priv.cfg.baudrate) else BaudCodeOf(baud).value)
      && tty.termios.cbaud == EffectiveBaud(baud)
      && priv.cfg.pktlen == old(priv.cfg.pktlen)
      && priv.cfg.unknown1 == old(priv.cfg.unknown1) && priv.cfg.unknown2 == old(priv.cfg.unknown2)
    ensures allocOk && RejectsCharSize(old(tty.termios), prev) ==>
      && sent.None? && priv.cfg.databits == old(priv.cfg.databits)
      && tty.termios == old(tty.termios).(cbaud := EffectiveBaud(baud))
    ensures allocOk && !RejectsCharSize(old(tty.termios), prev) ==>
      && priv.cfg.databits == (if old(tty.termios).csize != prev.csize then DataBitsOf(old(tty.termios).csize)
                               else old(priv.cfg.databits))
      && tty.termios == ClearedFlags(old(tty.termios).(cbaud := EffectiveBaud(baud)), prev)
      && sent == Some(priv.cfg)
  {
    if !allocOk {
      return None;
    }
    var t := tty.termios;
    var cfg := priv.cfg;
    var code := BaudCodeOf(baud);
    if code.Some? {
      cfg := cfg.(baudrate := code.value);
    }
    tty.termios := tty.termios.(cbaud := if code.Some? && !SupportedBaud(baud) then 9600 else baud);

    if t.csize != prev.csize {
      match t.csize
      case Cs5 => priv.cfg := cfg; return None;
      case Cs6 => priv.cfg := cfg; return None;
      case Cs7 => cfg := cfg.(databits := Dtb7);
      case Cs8 => cfg := cfg.(databits := Dtb8);
      case CsOther(_) => cfg := cfg.(databits := Dtb8);
    }

    tty.termios := ClearedFlags(tty.termios, prev);
    priv.cfg := cfg;
    sent := Some(cfg);
  }

  /** Re-applying the settings set_termios leaves behind changes neither
      the data bits nor the flags. */
  lemma SetTermiosSettles(t: Termios, prev: Termios)
    requires !RejectsCharSize(t, prev)
    ensures var t' := ClearedFlags(t, prev);
      !RejectsCharSize(t', t') && ClearedFlags(t', t') == t'
  {
  }

  // ---------------------------------------------------------------------
  // klsi_105_tiocmset
  // ---------------------------------------------------------------------

  /** klsi_105_tiocmset: setting modem lines is not supported, whatever
      is asked, and nothing changes. */
  method Tiocmset(priv: KlsiPrivate, setLines: set<ModemLine>, clearLines: set<ModemLine>) returns (ret: int)
    ensures ret == -EINVAL
  {
    ret := -EINVAL;
  }
}
