/** The CAN frame layouts the controller reads and writes: the little-endian
    words of a received payload, the vehicle-switch frame, the four-character
    tag plus serial-number signature, the periodic telemetry frames and the
    replies to remote requests. */
module CanProtocol {
  import opened BpsTypes
  import opened Telemetry

  // ---------------------------------------------------------------------------
  // Payload words
  // ---------------------------------------------------------------------------

  /** `can.data.data_u16[k]`: bytes 2k and 2k+1, least significant first. */
  function Word(data: Payload8, k: nat): (w: bv16)
    requires k < 4
    ensures (w & 0xFF) as bv8 == data[2 * k]
    ensures (w >> 8) as bv8 == data[2 * k + 1]
  {
    (data[2 * k] as bv16) | ((data[2 * k + 1] as bv16) << 8)
  }

  /** The two output patterns the switch frame tests are values of byte 3. */
  lemma OutputsHighByte(data: Payload8)
    ensures Word(data, 1) & 0xFF00 == 0xFF00 <==> data[3] == 0xFF
    ensures Word(data, 1) & 0xFF00 == 0x0F00 <==> data[3] == 0x0F
  {
  }

  // ---------------------------------------------------------------------------
  // Vehicle-switch frame
  // ---------------------------------------------------------------------------

  /** The three latches the vehicle-switch frame drives. */
  datatype SwitchState = SwitchState(carEnable: bool, startPrecharge: bool, dcChargeMode: bool)

  /** How one vehicle-switch frame updates the latches, given its switch word
      (word 0) and its output word (word 1). Ignition on latches car enable;
      ignition off with output high byte 0xFF latches the precharge request;
      accessory on clears DC charge mode, accessory off with output high byte
      0x0F sets it. Nothing else changes a latch. */
  function DecodeSwitch(swIgnOn: bv16, swIgnAcc: bv16, switches: bv16, outputs: bv16, prev: SwitchState)
    : (r: SwitchState)
    ensures r.carEnable <==> prev.carEnable || switches & swIgnOn != 0
    ensures r.startPrecharge <==> prev.startPrecharge || (switches & swIgnOn == 0 && (outputs >> 8) as bv8 == 0xFF)
    ensures switches & swIgnAcc != 0 ==> !r.dcChargeMode
    ensures switches & swIgnAcc == 0 ==> (r.dcChargeMode <==> prev.dcChargeMode || (outputs >> 8) as bv8 == 0x0F)
  {
    var start := if switches & swIgnOn == 0 && outputs & 0xFF00 == 0xFF00 then true else prev.startPrecharge;
    var car := if switches & swIgnOn == 0 then prev.carEnable else true;
    var dc :=
      if switches & swIgnAcc == 0 then (if outputs & 0xFF00 == 0x0F00 then true else prev.dcChargeMode)
      else false;
    SwitchState(car, start, dc)
  }

  /** The switch frame as received: its first two payload words. */
  function DecodeSwitchFrame(swIgnOn: bv16, swIgnAcc: bv16, data: Payload8, prev: SwitchState): SwitchState
  {
    DecodeSwitch(swIgnOn, swIgnAcc, Word(data, 0), Word(data, 1), prev)
  }

  /** The latches after a run of switch frames. */
  function DecodeAll(swIgnOn: bv16, swIgnAcc: bv16, frames: seq<Payload8>, prev: SwitchState): SwitchState
    decreases |frames|
  {
    if |frames| == 0 then prev
    else DecodeAll(swIgnOn, swIgnAcc, frames[1..], DecodeSwitchFrame(swIgnOn, swIgnAcc, frames[0], prev))
  }

  /** Car enable, once latched, survives any run of switch frames. */
  lemma {:induction false} CarEnableNeverCleared(swIgnOn: bv16, swIgnAcc: bv16, frames: seq<Payload8>, prev: SwitchState)
    requires prev.carEnable
    ensures DecodeAll(swIgnOn, swIgnAcc, frames, prev).carEnable
    decreases |frames|
  {
    if |frames| > 0 {
      CarEnableNeverCleared(swIgnOn, swIgnAcc, frames[1..], DecodeSwitchFrame(swIgnOn, swIgnAcc, frames[0], prev));
    }
  }

  /** A frame with the accessory bit set always leaves DC charge mode off,
      whatever came before it. */
  lemma AccessoryClearsDcCharge(swIgnOn: bv16, swIgnAcc: bv16, data: Payload8, prev: SwitchState)
    requires Word(data, 0) & swIgnAcc != 0
    ensures !DecodeSwitchFrame(swIgnOn, swIgnAcc, data, prev).dcChargeMode
  {
  }

  // ---------------------------------------------------------------------------
  // Signatures: four tag characters in bytes 7..4, a serial number in bytes 0..3
  // ---------------------------------------------------------------------------

  /** The tag characters in the order the source writes them, byte 7 first. */
  datatype Tag = Tag(b7: bv8, b6: bv8, b5: bv8, b4: bv8)

  const TAG_BPV1: Tag := Tag('B' as bv8, 'P' as bv8, 'v' as bv8, '1' as bv8)
  const TAG_BPNP: Tag := Tag('B' as bv8, 'P' as bv8, 'N' as bv8, 'P' as bv8)
  const TAG_ACV1: Tag := Tag('A' as bv8, 'C' as bv8, 'v' as bv8, '1' as bv8)

  function TagOf(data: Payload8): Tag
  {
    Tag(data[7], data[6], data[5], data[4])
  }

  /** `data_u32[0]`: bytes 0..3, least significant first. */
  function SerialOf(data: Payload8): bv32
  {
    (data[0] as bv32) | ((data[1] as bv32) << 8) | ((data[2] as bv32) << 16) | ((data[3] as bv32) << 24)
  }

  /** The eight bytes of a signature frame. */
  function SignaturePayload(tag: Tag, serial: bv32): (r: Payload8)
    ensures TagOf(r) == tag
  {
    [(serial & 0xFF) as bv8, ((serial >> 8) & 0xFF) as bv8, ((serial >> 16) & 0xFF) as bv8, (serial >> 24) as bv8,
     tag.b4, tag.b5, tag.b6, tag.b7]
  }

  /** Decoding a signature gives back the tag and serial number it was built from. */
  lemma SignatureRoundTrip(tag: Tag, serial: bv32)
    ensures TagOf(SignaturePayload(tag, serial)) == tag
    ensures SerialOf(SignaturePayload(tag, serial)) == serial
  {
  }

  /** And every payload is the signature of its own tag and serial number. */
  lemma SignatureDecodeEncode(data: Payload8)
    ensures SignaturePayload(TagOf(data), SerialOf(data)) == data
  {
  }

  /** The AC charger frame asks for charging exactly when its tag reads "ACv1". */
  predicate AcTagValid(data: Payload8)
  {
    TagOf(data) == TAG_ACV1
  }

  /** A signature frame carries "ACv1" only when that is the tag it was built
      with, so none of this controller's own "BPv1"/"BPNP" frames does. */
  lemma AcTagOfSignature(tag: Tag, serial: bv32)
    ensures AcTagValid(SignaturePayload(tag, serial)) <==> tag == TAG_ACV1
    ensures !AcTagValid(SignaturePayload(TAG_BPV1, serial)) && !AcTagValid(SignaturePayload(TAG_BPNP, serial))
  {
  }

  // ---------------------------------------------------------------------------
  // Outbound frames
  // ---------------------------------------------------------------------------

  /** The identification / precharge-done frame: a signature at `address`. */
  function SignatureFrame(address: int, tag: Tag, serial: bv32): (f: Frame)
    ensures f.address == address && f.payload.Bytes?
    ensures TagOf(f.payload.data) == tag && SerialOf(f.payload.data) == serial
  {
    SignatureRoundTrip(tag, serial);
    Frame(address, Bytes(SignaturePayload(tag, serial)))
  }

  function VmaxFrame(cfg: BusConfig, cache: TelemetryCache): Frame
  {
    Frame(cfg.bpBase + cfg.vmax, Floats(cache.maxVoltage, Index(cache.maxVCell)))
  }

  function VminFrame(cfg: BusConfig, cache: TelemetryCache): Frame
  {
    Frame(cfg.bpBase + cfg.vmin, Floats(cache.minVoltage, Index(cache.minVCell)))
  }

  function TmaxFrame(cfg: BusConfig, cache: TelemetryCache): Frame
  {
    Frame(cfg.bpBase + cfg.tmax, Floats(cache.maxTemp, Index(cache.maxTempIdx)))
  }

  function IshFrame(cfg: BusConfig, cache: TelemetryCache, currentMa: int): Frame
  {
    Frame(cfg.bpBase + cfg.ish, Floats(Milliamps(currentMa), TimesScale(cache.maxVoltage)))
  }

  /** The four frames of a periodic telemetry round, in transmit order. */
  function TelemetryFrames(cfg: BusConfig, cache: TelemetryCache, currentMa: int): (r: seq<Frame>)
    ensures |r| == 4
    ensures r[0].address == cfg.bpBase + cfg.vmax && r[1].address == cfg.bpBase + cfg.vmin
    ensures r[2].address == cfg.bpBase + cfg.tmax && r[3].address == cfg.bpBase + cfg.ish
    ensures forall i :: 0 <= i < 4 ==> r[i].payload.Floats?
  {
    [VmaxFrame(cfg, cache), VminFrame(cfg, cache), TmaxFrame(cfg, cache), IshFrame(cfg, cache, currentMa)]
  }

  /** The six addresses this controller answers remote requests on. */
  predicate Answers(cfg: BusConfig, address: int)
  {
    address in {cfg.bpBase, cfg.bpBase + cfg.vmax, cfg.bpBase + cfg.vmin,
                cfg.bpBase + cfg.tmax, cfg.bpBase + cfg.ish, cfg.bpBase + cfg.pcdone}
  }

  /** The reply to a remote request for `address`: the identification frame,
      the current contents of a telemetry frame, or the precharge-done
      signature ("BPv1" in NORMALOP, "BPNP" otherwise); nothing for any
      other address. */
  function RtrReply(cfg: BusConfig, cache: TelemetryCache, currentMa: int, mode: Mode, address: int): (r: seq<Frame>)
    requires ValidConfig(cfg)
    ensures |r| <= 1
    ensures |r| == 1 <==> Answers(cfg, address)
    ensures |r| == 1 ==> r[0].address == address
    ensures address == cfg.bpBase + cfg.pcdone ==>
      r == [SignatureFrame(address, if mode == NormalOp then TAG_BPV1 else TAG_BPNP, cfg.serial)]
    ensures address == cfg.bpBase ==> r == [SignatureFrame(address, TAG_BPV1, cfg.serial)]
  {
    if address == cfg.bpBase then [SignatureFrame(cfg.bpBase, TAG_BPV1, cfg.serial)]
    else if address == cfg.bpBase + cfg.vmax then [VmaxFrame(cfg, cache)]
    else if address == cfg.bpBase + cfg.vmin then [VminFrame(cfg, cache)]
    else if address == cfg.bpBase + cfg.tmax then [TmaxFrame(cfg, cache)]
    else if address == cfg.bpBase + cfg.ish then [IshFrame(cfg, cache, currentMa)]
    else if address == cfg.bpBase + cfg.pcdone then
      [SignatureFrame(address, if mode == NormalOp then TAG_BPV1 else TAG_BPNP, cfg.serial)]
    else []
  }

  /** A remote request for a telemetry address is answered with the very frame
      the periodic round sends for it, built from the same cached values. */
  lemma RtrRepeatsTelemetry(cfg: BusConfig, cache: TelemetryCache, currentMa: int, mode: Mode, k: nat)
    requires ValidConfig(cfg) && k < 4
    ensures RtrReply(cfg, cache, currentMa, mode, TelemetryFrames(cfg, cache, currentMa)[k].address)
         == [TelemetryFrames(cfg, cache, currentMa)[k]]
  {
  }
}
