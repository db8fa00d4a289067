/**
 * The phased plan for the next cycle. Each phase is a fixed, ordered list of
 * (condition, checklist item) pairs, evaluated afresh per phase, so that one
 * finding can put items into several phases.
 */
module Protocol {
  import opened Wrappers
  import opened Inputs
  import opened Classifiers
  import opened Codes
  import opened Rules
  import opened Lists

  /** Investigations listed as still pending, in their fixed order. */
  datatype Investigation =
    | CoupleKaryotype
    | ConsiderPgtA
    | FullThrombophiliaPanel
    | Cd138EndometrialBiopsy
    | DiagnosticHysteroscopy
    | ConsiderEraTest
    | UreaplasmaMycoplasmaScreen
    | SpermDnaFragmentationTest

  function InvestigationRank(i: Investigation): nat
  {
    match i
    case CoupleKaryotype => 0
    case ConsiderPgtA => 1
    case FullThrombophiliaPanel => 2
    case Cd138EndometrialBiopsy => 3
    case DiagnosticHysteroscopy => 4
    case ConsiderEraTest => 5
    case UreaplasmaMycoplasmaScreen => 6
    case SpermDnaFragmentationTest => 7
  }

  /** One checklist item (or one block of items rendered together) of the plan. */
  datatype Item =
    // pre-cycle
    | Pending(investigation: Investigation)
    | AllInvestigationsDone
    | SeeCriticalAlerts
    | NoCriticalInterventionPending
    | BaseSupplements
    | AgeSupplements
    | VitaminDTherapeuticDose
    | Metformin
    | Inositol
    | MaleSupplements
    // endometrial preparation
    | EstradiolPreparation
    | ThinEndometriumChecklist
    | AspirinWithPreparation
    | ConsiderGnrhAnalogue
    // transfer day
    | StartEnoxaparinKeepAspirin
    | Hydroxychloroquine
    | ConsiderPrednisoneOrIntralipid
    | TransferLater
    | TransferEarlier
    | LutealPhaseSupport
    | IncreaseProgesterone
    // post-transfer
    | PostTransferCare
    | MaintainAnticoagulation
    | TshMonitoring
    // follow-up
    | FollowUpPlan

  datatype Plan = Plan(
    preCycle: seq<Item>,
    endometrialPrep: seq<Item>,
    transferDay: seq<Item>,
    postTransfer: seq<Item>,
    followUp: seq<Item>)

  /** Whether one investigation is still to do: its own not-done condition. */
  predicate IsPending(s: Snapshot, i: Investigation)
  {
    match i
    case CoupleKaryotype => !s.karyotypeDone
    case ConsiderPgtA => !s.pgtADone && s.age >= 37
    case FullThrombophiliaPanel => !s.thrombophiliaPanelDone
    case Cd138EndometrialBiopsy => s.biopsy == BiopsyNotDone
    case DiagnosticHysteroscopy => s.hysteroscopy == HysteroscopyNotDone
    case ConsiderEraTest => s.era == EraNotDone && s.failures >= 3
    case UreaplasmaMycoplasmaScreen => s.ureaplasma == NotTested
    case SpermDnaFragmentationTest => s.dnaFragmentation == FragmentationNotDone
  }

  /** Whether the investigation is the k-th of the checklist for some ck that holds. */
  predicate Selected(i: Investigation, c1: bool, c2: bool, c3: bool, c4: bool, c5: bool, c6: bool, c7: bool, c8: bool)
  {
    (c1 && i == CoupleKaryotype) || (c2 && i == ConsiderPgtA) || (c3 && i == FullThrombophiliaPanel)
    || (c4 && i == Cd138EndometrialBiopsy) || (c5 && i == DiagnosticHysteroscopy) || (c6 && i == ConsiderEraTest)
    || (c7 && i == UreaplasmaMycoplasmaScreen) || (c8 && i == SpermDnaFragmentationTest)
  }

  /** The checklist with the k-th investigation listed exactly when ck holds. */
  function Checklist(c1: bool, c2: bool, c3: bool, c4: bool, c5: bool, c6: bool, c7: bool, c8: bool): (r: seq<Investigation>)
    ensures forall i :: i in r <==> Selected(i, c1, c2, c3, c4, c5, c6, c7, c8)
  {
    AppendIf(AppendIf(AppendIf(AppendIf(AppendIf(AppendIf(AppendIf(AppendIf(
      [], c1, CoupleKaryotype),
          c2, ConsiderPgtA),
          c3, FullThrombophiliaPanel),
          c4, Cd138EndometrialBiopsy),
          c5, DiagnosticHysteroscopy),
          c6, ConsiderEraTest),
          c7, UreaplasmaMycoplasmaScreen),
          c8, SpermDnaFragmentationTest)
  }

  lemma {:induction false} ChecklistInOrder(c1: bool, c2: bool, c3: bool, c4: bool, c5: bool, c6: bool, c7: bool, c8: bool)
    ensures Ascending(Checklist(c1, c2, c3, c4, c5, c6, c7, c8), InvestigationRank)
  {
    var p1 := AppendIf([], c1, CoupleKaryotype);
    AppendIfAscending([], c1, CoupleKaryotype, InvestigationRank);
    var p2 := AppendIf(p1, c2, ConsiderPgtA);
    AppendIfAscending(p1, c2, ConsiderPgtA, InvestigationRank);
    var p3 := AppendIf(p2, c3, FullThrombophiliaPanel);
    AppendIfAscending(p2, c3, FullThrombophiliaPanel, InvestigationRank);
    var p4 := AppendIf(p3, c4, Cd138EndometrialBiopsy);
    AppendIfAscending(p3, c4, Cd138EndometrialBiopsy, InvestigationRank);
    var p5 := AppendIf(p4, c5, DiagnosticHysteroscopy);
    AppendIfAscending(p4, c5, DiagnosticHysteroscopy, InvestigationRank);
    var p6 := AppendIf(p5, c6, ConsiderEraTest);
    AppendIfAscending(p5, c6, ConsiderEraTest, InvestigationRank);
    var p7 := AppendIf(p6, c7, UreaplasmaMycoplasmaScreen);
    AppendIfAscending(p6, c7, UreaplasmaMycoplasmaScreen, InvestigationRank);
    AppendIfAscending(p7, c8, SpermDnaFragmentationTest, InvestigationRank);
  }

  /** An investigation is pending exactly when the checklist selects it by the eight not-done conditions. */
  lemma PendingIsSelected(s: Snapshot)
    ensures forall i :: IsPending(s, i) <==> Selected(i, !s.karyotypeDone, !s.pgtADone && s.age >= 37, !s.thrombophiliaPanelDone,
                                                  s.biopsy == BiopsyNotDone, s.hysteroscopy == HysteroscopyNotDone,
                                                  s.era == EraNotDone && s.failures >= 3, s.ureaplasma == NotTested,
                                                  s.dnaFragmentation == FragmentationNotDone)
  {
  }

  /**
   * The investigations still to do, as the checklist collects them: each one is
   * listed exactly when its own not-done condition holds (the order is proved in
   * PendingInvestigationsInOrder).
   */
  function PendingInvestigations(s: Snapshot): (pending: seq<Investigation>)
    ensures forall i :: i in pending <==> IsPending(s, i)
  {
    PendingIsSelected(s);
    Checklist(!s.karyotypeDone, !s.pgtADone && s.age >= 37, !s.thrombophiliaPanelDone,
              s.biopsy == BiopsyNotDone, s.hysteroscopy == HysteroscopyNotDone,
              s.era == EraNotDone && s.failures >= 3, s.ureaplasma == NotTested,
              s.dnaFragmentation == FragmentationNotDone)
  }

  /** The pending investigations keep the fixed order of the checklist. */
  lemma PendingInvestigationsInOrder(s: Snapshot)
    ensures Ascending(PendingInvestigations(s), InvestigationRank)
  {
    ChecklistInOrder(!s.karyotypeDone, !s.pgtADone && s.age >= 37, !s.thrombophiliaPanelDone,
                     s.biopsy == BiopsyNotDone, s.hysteroscopy == HysteroscopyNotDone,
                     s.era == EraNotDone && s.failures >= 3, s.ureaplasma == NotTested,
                     s.dnaFragmentation == FragmentationNotDone);
  }

  /** The checklist written out step by step, as the collector builds it. */
  lemma PendingInvestigationsSteps(s: Snapshot)
    ensures PendingInvestigations(s) == AppendIf(AppendIf(AppendIf(AppendIf(AppendIf(AppendIf(AppendIf(AppendIf([],
          !s.karyotypeDone, CoupleKaryotype),
          !s.pgtADone && s.age >= 37, ConsiderPgtA),
          !s.thrombophiliaPanelDone, FullThrombophiliaPanel),
          s.biopsy == BiopsyNotDone, Cd138EndometrialBiopsy),
          s.hysteroscopy == HysteroscopyNotDone, DiagnosticHysteroscopy),
          s.era == EraNotDone && s.failures >= 3, ConsiderEraTest),
          s.ureaplasma == NotTested, UreaplasmaMycoplasmaScreen),
          s.dnaFragmentation == FragmentationNotDone, SpermDnaFragmentationTest)
  {
  }

  function PendingItems(pending: seq<Investigation>): seq<Item>
  {
    seq(|pending|, i requires 0 <= i < |pending| => Pending(pending[i]))
  }

  /**
   * What the plan reads besides the form: the pending checklist and the state
   * the domain evaluators left behind.
   */
  datatype Context = Context(
    pending: seq<Investigation>,
    criticalAlerts: bool,
    thrombophilia: bool,
    safCriteria: seq<SafCriterion>,
    nkElevated: bool,
    thyroidProblem: bool,
    homaIr: Option<real>)
  {
    /** Anticoagulation is planned for a thrombophilia or for any antiphospholipid criterion. */
    predicate AnticoagulationIndicated()
    {
      thrombophilia || safCriteria != []
    }
  }

  /** The context after a full evaluation of s. */
  function ContextOf(s: Snapshot): Context
  {
    Context(PendingInvestigations(s), Evaluate(s).alerts != [], ThrombophiliaPresent(s), SafCriteria(s),
            NkElevated(s), ThyroidProblem(s), HomaIrOf(s))
  }

  predicate AdenomyosisSelected(s: Snapshot)
  {
    AdenomyosisFocal in s.alterations || AdenomyosisDiffuse in s.alterations
  }

  /** The pre-cycle items up to the vitamin D line; the same whether or not the index is defined. */
  function PreCycleHead(s: Snapshot, c: Context): seq<Item>
  {
    (if c.pending == [] then [AllInvestigationsDone] else PendingItems(c.pending))
    + [if c.criticalAlerts then SeeCriticalAlerts else NoCriticalInterventionPending]
    + [BaseSupplements]
    + (if s.age >= 35 then [AgeSupplements] else [])
    + (if VitaminDBand(s.vitaminD) != VitaminDAdequate then [VitaminDTherapeuticDose] else [])
  }

  /** Pre-cycle phase; the metformin and inositol lines are skipped when the index is undefined. */
  function PreCycle(s: Snapshot, c: Context): seq<Item>
  {
    PreCycleHead(s, c)
    + (if HomaIrClass(c.homaIr) == InsulinResistant then [Metformin, Inositol] else [])
    + [MaleSupplements]
  }

  function EndometrialPrep(s: Snapshot, c: Context): seq<Item>
  {
    [EstradiolPreparation]
    + (if ThicknessClass(s.thickness) == ThinEndometrium then [ThinEndometriumChecklist] else [])
    + (if c.AnticoagulationIndicated() then [AspirinWithPreparation] else [])
    + (if AdenomyosisSelected(s) then [ConsiderGnrhAnalogue] else [])
  }

  function TransferDay(s: Snapshot, c: Context): seq<Item>
  {
    (if c.AnticoagulationIndicated() then [StartEnoxaparinKeepAspirin] else [])
    + (if c.safCriteria != [] && s.lupusAnticoagulant == Positive then [Hydroxychloroquine] else [])
    + (if c.nkElevated && s.failures >= 4 then [ConsiderPrednisoneOrIntralipid] else [])
    + (match s.era
       case PreReceptive => [TransferLater]
       case PostReceptive => [TransferEarlier]
       case _ => [])
    + [LutealPhaseSupport]
    + (if s.progesterone < 10.0 then [IncreaseProgesterone] else [])
  }

  function PostTransfer(c: Context): seq<Item>
  {
    [PostTransferCare]
    + (if c.AnticoagulationIndicated() then [MaintainAnticoagulation] else [])
    + (if c.thyroidProblem then [TshMonitoring] else [])
  }

  function PlanFrom(s: Snapshot, c: Context): Plan
  {
    Plan(PreCycle(s, c), EndometrialPrep(s, c), TransferDay(s, c), PostTransfer(c), [FollowUpPlan])
  }

  /** The whole plan after a full evaluation; total on every snapshot. */
  function PlanFor(s: Snapshot): Plan
  {
    PlanFrom(s, ContextOf(s))
  }

  /**
   * The pre-cycle phase as the source writes it: the index is bound only when
   * both operands are positive, yet the metformin test reads it unconditionally.
   * None stands for the NameError that then ends the run.
   */
  function PreCycleAsWritten(s: Snapshot): Option<seq<Item>>
  {
    var homaIr := HomaIr(s.glycemia, s.insulin);
    if homaIr.None? then None
    else Some(PreCycleHead(s, ContextOf(s)) + (if homaIr.value > 2.5 then [Metformin, Inositol] else []) + [MaleSupplements])
  }
}
