/**
 * The two video-standard families the STK1160 supports and the constant
 * register tables that program the capture window for each of them.
 */
module Standards {

  /** Register number that ends a table. */
  const SENTINEL: nat := 0xffff

  /** Width of a captured frame in both families. */
  const FRAME_WIDTH: nat := 720

  /** One (register, value) pair of a table (struct regval). */
  datatype RegVal = RegVal(reg: nat, val: nat)

  /**
   * Register numbers from the chip's register header. The 525-line table
   * names each capture-window register; the 625-line table counts up from
   * the two window base registers.
   */
  datatype Registers = Registers(
    cfspoStxL: nat, cfspoStxH: nat, cfspoStyL: nat, cfspoStyH: nat,
    cfepoEnxL: nat, cfepoEnxH: nat, cfepoEnyL: nat, cfepoEnyH: nat,
    cfspo: nat, cfepo: nat)

  /** No register a table writes can be mistaken for the end of the table. */
  predicate ValidRegisters(r: Registers)
  {
    && r.cfspoStxL < SENTINEL && r.cfspoStxH < SENTINEL
    && r.cfspoStyL < SENTINEL && r.cfspoStyH < SENTINEL
    && r.cfepoEnxL < SENTINEL && r.cfepoEnxH < SENTINEL
    && r.cfepoEnyL < SENTINEL && r.cfepoEnyH < SENTINEL
    && r.cfspo + 3 < SENTINEL && r.cfepo + 3 < SENTINEL
  }

  /** A v4l2_std_id bit mask, as the set of its bits. */
  type StdId = set<nat>

  /** The V4L2_STD_525_60 and V4L2_STD_625_50 family masks. */
  datatype NormMasks = NormMasks(std525: StdId, std625: StdId)

  predicate ValidMasks(m: NormMasks)
  {
    m.std525 != {} && m.std625 != {} && m.std525 * m.std625 == {}
  }

  predicate Is525(m: NormMasks, norm: StdId)
  {
    norm * m.std525 != {}
  }

  predicate Is625(m: NormMasks, norm: StdId)
  {
    norm * m.std625 != {}
  }

  predicate InFamily(m: NormMasks, norm: StdId)
  {
    Is525(m, norm) || Is625(m, norm)
  }

  /** Each family mask is in its own family and, the masks being disjoint, in no other. */
  lemma MasksInOwnFamily(m: NormMasks)
    requires ValidMasks(m)
    ensures Is525(m, m.std525) && !Is625(m, m.std525)
    ensures Is625(m, m.std625) && !Is525(m, m.std625)
  {
  }

  /** Frame height of a standard; a norm with the 525-line bit counts as 525-line. */
  function FrameHeight(m: NormMasks, norm: StdId): nat
    requires InFamily(m, norm)
  {
    if Is525(m, norm) then 480 else 576
  }

  /** std525: the 720x480 capture window, frame start before frame end. */
  function Std525Table(r: Registers): seq<RegVal>
  {
    [ RegVal(r.cfspoStxL, 0x0000), RegVal(r.cfspoStxH, 0x0000),
      RegVal(r.cfspoStyL, 0x0003), RegVal(r.cfspoStyH, 0x0000),
      RegVal(r.cfepoEnxL, 0x05a0), RegVal(r.cfepoEnxH, 0x0005),
      RegVal(r.cfepoEnyL, 0x00f3), RegVal(r.cfepoEnyH, 0x0000),
      RegVal(SENTINEL, 0xffff) ]
  }

  /** std625: the 720x576 capture window, frame start before frame end. */
  function Std625Table(r: Registers): seq<RegVal>
  {
    [ RegVal(r.cfspo, 0x0000), RegVal(r.cfspo + 1, 0x0000),
      RegVal(r.cfspo + 2, 0x0001), RegVal(r.cfspo + 3, 0x0000),
      RegVal(r.cfepo, 0x05a0), RegVal(r.cfepo + 1, 0x0005),
      RegVal(r.cfepo + 2, 0x0121), RegVal(r.cfepo + 3, 0x0001),
      RegVal(SENTINEL, 0xffff) ]
  }

  /**
   * The table stk1160_set_std walks for a norm: the 525-line one whenever
   * the 525-line bit is set, else the 625-line one. Either way eight real
   * entries precede the sentinel, so the walk writes exactly eight registers.
   */
  function StdTable(r: Registers, m: NormMasks, norm: StdId): (t: seq<RegVal>)
    requires ValidRegisters(r)
    ensures |t| == 9 && t[8].reg == SENTINEL
    ensures forall j :: 0 <= j < 8 ==> t[j].reg != SENTINEL
    ensures Is525(m, norm) ==> t == Std525Table(r)
  {
    if Is525(m, norm) then Std525Table(r) else Std625Table(r)
  }
}
