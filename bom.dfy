/** The static bill of materials of the factory (src/scheduler_logic/constants.py):
    five products, seven production phases in a fixed order, and the minutes
    each phase needs per unit of each product. */
module Bom {
  import opened Basics

  datatype Phase = SMT | Reflow | THT | AOI | Test | Coating | Pack

  datatype Product = PcbInd100 | Med300 | Iot200 | Agr400 | PcbPwr500

  function PhaseName(ph: Phase): string {
    match ph
    case SMT => "SMT"
    case Reflow => "Reflow"
    case THT => "THT"
    case AOI => "AOI"
    case Test => "Test"
    case Coating => "Coating"
    case Pack => "Pack"
  }

  function ProductName(p: Product): string {
    match p
    case PcbInd100 => "PCB-IND-100"
    case Med300 => "MED-300"
    case Iot200 => "IOT-200"
    case Agr400 => "AGR-400"
    case PcbPwr500 => "PCB-PWR-500"
  }

  /** `PHASES_ORDER`. */
  const PhasesOrder: seq<Phase> := [SMT, Reflow, THT, AOI, Test, Coating, Pack]

  /** The names of `PHASES_ORDER`, as the source spells them. */
  function PhaseNames(): (r: seq<string>)
    ensures |r| == |PhasesOrder|
    ensures forall i :: 0 <= i < |r| ==> r[i] == PhaseName(PhasesOrder[i])
  {
    ["SMT", "Reflow", "THT", "AOI", "Test", "Coating", "Pack"]
  }

  /** Position of a phase in `PHASES_ORDER`. */
  function PhaseIndex(ph: Phase): (r: nat)
    ensures r < |PhasesOrder| && PhasesOrder[r] == ph
  {
    match ph
    case SMT => 0
    case Reflow => 1
    case THT => 2
    case AOI => 3
    case Test => 4
    case Coating => 5
    case Pack => 6
  }

  /** A phase name lookup: `None` for a name outside `PHASES_ORDER`. */
  function ParsePhase(s: string): (r: Option<Phase>)
    ensures r.Some? ==> PhaseName(r.value) == s
    ensures r.None? ==> s !in PhaseNames()
  {
    if s == "SMT" then Some(SMT)
    else if s == "Reflow" then Some(Reflow)
    else if s == "THT" then Some(THT)
    else if s == "AOI" then Some(AOI)
    else if s == "Test" then Some(Test)
    else if s == "Coating" then Some(Coating)
    else if s == "Pack" then Some(Pack)
    else None
  }

  /** A product lookup by internal id: `None` for a product outside the BOM. */
  function ParseProduct(s: string): (r: Option<Product>)
    ensures r.Some? ==> ProductName(r.value) == s
  {
    if s == "PCB-IND-100" then Some(PcbInd100)
    else if s == "MED-300" then Some(Med300)
    else if s == "IOT-200" then Some(Iot200)
    else if s == "AGR-400" then Some(Agr400)
    else if s == "PCB-PWR-500" then Some(PcbPwr500)
    else None
  }

  lemma ParseNames(ph: Phase, p: Product)
    ensures ParsePhase(PhaseName(ph)) == Some(ph)
    ensures ParseProduct(ProductName(p)) == Some(p)
  {
  }

  /** `PHASES_ORDER` lists seven distinct phases and seven distinct names. */
  lemma PhasesOrderDistinct()
    ensures |PhasesOrder| == 7
    ensures forall i, j :: 0 <= i < j < |PhasesOrder| ==> PhasesOrder[i] != PhasesOrder[j]
    ensures forall i, j :: 0 <= i < j < |PhaseNames()| ==> PhaseNames()[i] != PhaseNames()[j]
    ensures forall ph: Phase :: ph in PhasesOrder
  {
    forall i, j | 0 <= i < j < |PhasesOrder| ensures PhasesOrder[i] != PhasesOrder[j] {
      assert PhaseIndex(PhasesOrder[i]) == i && PhaseIndex(PhasesOrder[j]) == j;
    }
    forall ph: Phase ensures ph in PhasesOrder {
      assert PhasesOrder[PhaseIndex(ph)] == ph;
    }
  }

  /** `PHASE_DURATIONS[product][phase]`: minutes per unit. */
  function PerUnit(p: Product, ph: Phase): nat {
    match p
    case PcbInd100 =>
      (match ph case SMT => 30 case Reflow => 15 case THT => 45 case AOI => 12 case Test => 30 case Coating => 9 case Pack => 6)
    case Med300 =>
      (match ph case SMT => 45 case Reflow => 30 case THT => 60 case AOI => 30 case Test => 90 case Coating => 15 case Pack => 9)
    case Iot200 =>
      (match ph case SMT => 18 case Reflow => 12 case THT => 0 case AOI => 9 case Test => 18 case Coating => 0 case Pack => 6)
    case Agr400 =>
      (match ph case SMT => 30 case Reflow => 15 case THT => 30 case AOI => 12 case Test => 45 case Coating => 12 case Pack => 0)
    case PcbPwr500 =>
      (match ph case SMT => 24 case Reflow => 12 case THT => 0 case AOI => 9 case Test => 24 case Coating => 0 case Pack => 6)
  }

  /** Minutes one unit of `p` occupies the line: the sum over every phase. */
  function MinsPerUnit(p: Product): int {
    Sum(PhasesOrder, ph => PerUnit(p, ph))
  }

  /** The per-unit totals of the five products. */
  lemma PerUnitTotals()
    ensures MinsPerUnit(PcbInd100) == 147
    ensures MinsPerUnit(Med300) == 279
    ensures MinsPerUnit(Iot200) == 63
    ensures MinsPerUnit(Agr400) == 144
    ensures MinsPerUnit(PcbPwr500) == 75
  {
  }

  /** Exactly three products have phases of zero minutes: IOT-200 and
      PCB-PWR-500 have no THT or Coating, AGR-400 has no Pack. */
  lemma ZeroMinutePhases(p: Product, ph: Phase)
    ensures PerUnit(p, ph) == 0 <==>
      ((p == Iot200 || p == PcbPwr500) && (ph == THT || ph == Coating)) || (p == Agr400 && ph == Pack)
  {
  }

  /** The sort key of a phase name: its `PHASES_ORDER` position, 99 when it has none. */
  function PhaseOrderIndex(name: string): (r: nat)
    ensures r == 99 <==> name !in PhaseNames()
    ensures r != 99 ==> r < 7 && PhaseNames()[r] == name
  {
    match ParsePhase(name)
    case Some(ph) => PhaseIndex(ph)
    case None => 99
  }
}
