/** The integer part of `updateUi`: the values the Network Details screen
    shows for the serving cell, including the split of the E-UTRAN cell
    identity (a 20-bit eNodeB id followed by an 8-bit cell id, section
    9.2.1.38 of 3GPP TS 36.413) and the split of the physical cell id into
    N_ID(2) = PCI mod 3 and N_ID(1) = PCI div 3 (section 6.11 of 3GPP TS
    36.211). Display strings themselves are not modelled. */
module CellView {
  import opened Wrappers
  import opened JavaInt
  import opened LteRecords

  /** The cell-id views: the ECI, `ci >> 8` and `ci & 0xFF`. */
  datatype EciView = EciView(eci: int, eNodeBId: int, sectorId: int)

  /** The PCI view: the PCI with `pci % 3` and `pci / 3`. */
  datatype PciView = PciView(pci: int, primarySync: int, secondarySync: int)

  /** What the text views hold; `None` is an empty text. */
  datatype Screen = Screen(
    mcc: Option<int>, mnc: Option<int>, tac: Option<int>, eci: Option<EciView>,
    earfcn: Option<int>, pci: Option<PciView>,
    rsrp: Option<int>, rsrq: Option<int>, ta: Option<int>)

  const BlankScreen: Screen := Screen(None, None, None, None, None, None, None, None, None)

  function ENodeBId(ci: int): int { ShiftRight(ci, 8) }
  function SectorId(ci: int): int { LowBits(ci, 8) }

  function SplitEci(ci: int): (v: EciView)
    ensures v.eci == ci && 0 <= v.sectorId <= 0xFF
    ensures ci == v.eNodeBId * 256 + v.sectorId
    ensures 0 <= ci ==> 0 <= v.eNodeBId && v.eNodeBId * 256 <= ci
    ensures 0 <= ci < 0x1000_0000 ==> v.eNodeBId < 0x10_0000
  {
    ShiftMask8(ci);
    EciView(ci, ENodeBId(ci), SectorId(ci))
  }

  function SplitPci(pci: int): (v: PciView)
    ensures v.pci == pci && pci == 3 * v.secondarySync + v.primarySync
    ensures 0 <= pci ==> 0 <= v.primarySync <= 2 && 0 <= v.secondarySync
    ensures 0 <= pci <= 503 ==> v.secondarySync <= 167
  {
    JavaDivRem3(pci);
    PciView(pci, JavaRem(pci, 3), JavaDiv(pci, 3))
  }

  /** `updateUi` on a visible screen: every field is refreshed (blank when
      absent) except the ECI and PCI views, which are only written when the
      record has those fields and otherwise keep what an earlier record put
      there. */
  function Render(before: Screen, r: LteRecord): (after: Screen)
    ensures after.mcc == r.radio.mcc && after.mnc == r.radio.mnc && after.tac == r.radio.tac
    ensures after.earfcn == r.radio.earfcn && after.rsrp == r.radio.rsrp
    ensures after.rsrq == r.radio.rsrq && after.ta == r.radio.ta
    ensures r.radio.ci.None? ==> after.eci == before.eci
    ensures r.radio.ci.Some? ==> after.eci == Some(SplitEci(r.radio.ci.value))
    ensures r.radio.pci.None? ==> after.pci == before.pci
    ensures r.radio.pci.Some? ==> after.pci == Some(SplitPci(r.radio.pci.value))
  {
    var f := r.radio;
    Screen(
      f.mcc, f.mnc, f.tac,
      if f.ci.Some? then Some(SplitEci(f.ci.value)) else before.eci,
      f.earfcn,
      if f.pci.Some? then Some(SplitPci(f.pci.value)) else before.pci,
      f.rsrp, f.rsrq, f.ta)
  }

  /** Every ECI or PCI view that `Render` puts on a screen recombines to the
      value it shows, so a screen built from records only ever shows
      consistent splits. */
  predicate Consistent(s: Screen) {
    && (s.eci.Some? ==> s.eci.value == SplitEci(s.eci.value.eci))
    && (s.pci.Some? ==> s.pci.value == SplitPci(s.pci.value.pci))
  }

  lemma RenderConsistent(before: Screen, r: LteRecord)
    requires Consistent(before)
    ensures Consistent(Render(before, r))
  {
  }
}
