/**
 * The six domain evaluators as pure functions. Each one takes the
 * recommendations list and the critical-alerts list as the earlier domains left
 * them and returns them with its own entries appended, in the order its rules
 * run; Evaluate runs the domains in their fixed order on two empty lists. The two
 * lists are independent: a rule may append to either or both.
 */
module Rules {
  import opened Wrappers
  import opened Inputs
  import opened Classifiers
  import opened Codes
  import opened Lists

  /**
   * The two lists as the rules leave them. Each rule maps the lists it finds to
   * the lists it leaves, appending at most one entry to each.
   */
  datatype Findings = Findings(recommendations: seq<Recommendation>, alerts: seq<Alert>)
  {
    function Recommend(condition: bool, r: Recommendation): Findings
    {
      Findings(AppendIf(recommendations, condition, r), alerts)
    }

    function Alarm(condition: bool, a: Alert): Findings
    {
      Findings(recommendations, AppendIf(alerts, condition, a))
    }

    function AlarmAndRecommend(condition: bool, a: Alert, r: Recommendation): Findings
    {
      Findings(AppendIf(recommendations, condition, r), AppendIf(alerts, condition, a))
    }

    /** These lists followed by the entries of later, list by list. */
    function Then(later: Findings): Findings
    {
      Findings(recommendations + later.recommendations, alerts + later.alerts)
    }
  }

  const NoFindings := Findings([], [])

  function OptionToSeq<T>(o: Option<T>): seq<T>
  {
    match o
    case None => []
    case Some(x) => [x]
  }

  // ---------------------------------------------------------------- genetics

  predicate IsCarrier(g: Genotype)
  {
    g == Heterozygous || g == Homozygous
  }

  /** The thrombophilia flag: a Factor V Leiden or prothrombin carrier. */
  predicate ThrombophiliaPresent(s: Snapshot)
  {
    IsCarrier(s.factorV) || IsCarrier(s.prothrombin)
  }

  function Genetics(s: Snapshot, f: Findings): Findings
  {
    f.Recommend(s.age >= 37 && !s.pgtADone, PgtAStronglyRecommended)
     .Alarm(s.pgtAResult == AllAneuploid || s.pgtAResult == MostlyAneuploid, HighAneuploidyRate)
     .AlarmAndRecommend(ThrombophiliaPresent(s), ThrombophiliaDetected, ProphylacticAnticoagulation)
     .Recommend(s.hlaTyped && s.hlaSharedAlleles >= 2, ConsiderImmunotherapy)
  }

  // ---------------------------------------------------------------- infection

  /** The chronic-endometritis flag: a positive CD138 biopsy. */
  predicate EndometritisDetected(s: Snapshot)
  {
    s.biopsy == BiopsyPositive5To10 || s.biopsy == BiopsyPositiveAbove10
  }

  predicate SuggestiveHysteroscopy(h: HysteroscopyFinding)
  {
    h == Micropolyps || h == FocalHyperemia || h == StromalEdema
  }

  function PathogenResult(s: Snapshot, p: Pathogen): TestResult
  {
    match p
    case Ureaplasma => s.ureaplasma
    case Mycoplasma => s.mycoplasma
    case Chlamydia => s.chlamydia
  }

  function PathogenRank(p: Pathogen): nat
  {
    match p
    case Ureaplasma => 0
    case Mycoplasma => 1
    case Chlamydia => 2
  }

  /** The pathogens needing treatment: exactly the positive ones (their order is proved in InfectionsInOrder). */
  function Infections(s: Snapshot): (ps: seq<Pathogen>)
    ensures forall p :: p in ps <==> PathogenResult(s, p) == Positive
  {
    AppendIf(AppendIf(AppendIf([], s.ureaplasma == Positive, Ureaplasma),
                      s.mycoplasma == Positive, Mycoplasma),
             s.chlamydia == Positive, Chlamydia)
  }

  /** The positive pathogens are listed in the fixed order ureaplasma, mycoplasma, chlamydia. */
  lemma InfectionsInOrder(s: Snapshot)
    ensures Ascending(Infections(s), PathogenRank)
  {
    var u := AppendIf([], s.ureaplasma == Positive, Ureaplasma);
    AppendIfAscending([], s.ureaplasma == Positive, Ureaplasma, PathogenRank);
    var m := AppendIf(u, s.mycoplasma == Positive, Mycoplasma);
    AppendIfAscending(u, s.mycoplasma == Positive, Mycoplasma, PathogenRank);
    AppendIfAscending(m, s.chlamydia == Positive, Chlamydia, PathogenRank);
  }

  function Infection(s: Snapshot, f: Findings): Findings
  {
    (if EndometritisDetected(s) then f.AlarmAndRecommend(true, ChronicEndometritis, AntibioticsAndRepeatBiopsy)
     else f.Recommend(SuggestiveHysteroscopy(s.hysteroscopy), PerformCd138Biopsy))
    .AlarmAndRecommend(Infections(s) != [], InfectionDetected(Infections(s)), AntimicrobialTreatment)
    .Recommend(s.microbiome == LactobacillusBelow50, VaginalProbiotics)
  }

  // ---------------------------------------------------------------- immunology and thyroid

  function SafCriterionMet(s: Snapshot, c: SafCriterion): bool
  {
    match c
    case AnticardiolipinIgG => s.aclIgG > 40.0
    case AnticardiolipinIgM => s.aclIgM > 40.0
    case LupusAnticoagulant => s.lupusAnticoagulant == Positive
    case AntiB2gp1IgG => s.b2gp1IgG > 40.0
    case AntiB2gp1IgM => s.b2gp1IgM > 40.0
  }

  function SafRank(c: SafCriterion): nat
  {
    match c
    case AnticardiolipinIgG => 0
    case AnticardiolipinIgM => 1
    case LupusAnticoagulant => 2
    case AntiB2gp1IgG => 3
    case AntiB2gp1IgM => 4
  }

  /** The antiphospholipid criteria met: exactly those over their threshold (their order is proved in SafCriteriaInOrder). */
  function SafCriteria(s: Snapshot): (cs: seq<SafCriterion>)
    ensures forall c :: c in cs <==> SafCriterionMet(s, c)
  {
    SafChecklist(s.aclIgG > 40.0, s.aclIgM > 40.0, s.lupusAnticoagulant == Positive, s.b2gp1IgG > 40.0, s.b2gp1IgM > 40.0)
  }

  /** The criteria list with the k-th criterion listed exactly when ck holds. */
  function SafChecklist(c1: bool, c2: bool, c3: bool, c4: bool, c5: bool): seq<SafCriterion>
  {
    AppendIf(AppendIf(AppendIf(AppendIf(AppendIf(
      [], c1, AnticardiolipinIgG),
          c2, AnticardiolipinIgM),
          c3, LupusAnticoagulant),
          c4, AntiB2gp1IgG),
          c5, AntiB2gp1IgM)
  }

  lemma {:induction false} SafChecklistInOrder(c1: bool, c2: bool, c3: bool, c4: bool, c5: bool)
    ensures Ascending(SafChecklist(c1, c2, c3, c4, c5), SafRank)
  {
    var p1 := AppendIf([], c1, AnticardiolipinIgG);
    AppendIfAscending([], c1, AnticardiolipinIgG, SafRank);
    var p2 := AppendIf(p1, c2, AnticardiolipinIgM);
    AppendIfAscending(p1, c2, AnticardiolipinIgM, SafRank);
    var p3 := AppendIf(p2, c3, LupusAnticoagulant);
    AppendIfAscending(p2, c3, LupusAnticoagulant, SafRank);
    var p4 := AppendIf(p3, c4, AntiB2gp1IgG);
    AppendIfAscending(p3, c4, AntiB2gp1IgG, SafRank);
    AppendIfAscending(p4, c5, AntiB2gp1IgM, SafRank);
  }

  /** The criteria met are listed in their fixed order. */
  lemma SafCriteriaInOrder(s: Snapshot)
    ensures Ascending(SafCriteria(s), SafRank)
  {
    SafChecklistInOrder(s.aclIgG > 40.0, s.aclIgM > 40.0, s.lupusAnticoagulant == Positive, s.b2gp1IgG > 40.0, s.b2gp1IgM > 40.0);
  }

  predicate AutoimmuneMarkers(s: Snapshot)
  {
    s.ana == Ana1To160 || s.ana == Ana1To320 || s.ana == AnaAbove1To320 || s.antiDsDna == Positive
  }

  /** The NK flag: peripheral NK above 18% or endometrial NK moderately or very raised. */
  predicate NkElevated(s: Snapshot)
  {
    s.nkPeripheral > 18.0 || s.nkEndometrial == NkModeratelyRaised || s.nkEndometrial == NkVeryRaised
  }

  /** The thyroid flag: TSH out of the 0.5-2.5 target, or anti-TPO positive. */
  predicate ThyroidProblem(s: Snapshot)
  {
    TshClass(s.tsh) != TshInTarget || s.antiTpo == TpoPositive || s.antiTpo == TpoVeryHigh
  }

  function Immunology(s: Snapshot, f: Findings): Findings
  {
    f.AlarmAndRecommend(SafCriteria(s) != [], AntiphospholipidSyndrome, SafProtocol)
     .Recommend(AutoimmuneMarkers(s), RheumatologyReferral)
     .Recommend(NkElevated(s), DiscussPrednisoneForNk)
     .AlarmAndRecommend(ThyroidProblem(s), ThyroidDysfunction, ThyroidOptimisation)
  }

  // ---------------------------------------------------------------- anatomy and receptivity

  predicate IsHydrosalpinx(a: Alteration)
  {
    a == HydrosalpinxUnilateral || a == HydrosalpinxBilateral
  }

  predicate IsAdenomyosis(a: Alteration)
  {
    a == AdenomyosisFocal || a == AdenomyosisDiffuse
  }

  /** The surgery one selected alteration calls for; only six kinds of finding call for one. */
  function SurgeryFor(a: Alteration): (r: Option<Surgery>)
    ensures r.Some? <==> a in {EndometrialPolyp, SubmucousMyoma, IntramuralMyomaNearEndometrium,
                                UterineSeptum, AshermanSynechiae, HydrosalpinxUnilateral, HydrosalpinxBilateral}
    ensures r == Some(LaparoscopicSalpingectomy) <==> IsHydrosalpinx(a)
  {
    match a
    case EndometrialPolyp => Some(HysteroscopicPolypectomy)
    case SubmucousMyoma => Some(HysteroscopicMyomectomy)
    case IntramuralMyomaNearEndometrium => Some(LaparoscopicOrOpenMyomectomy)
    case UterineSeptum => Some(HysteroscopicSeptoplasty)
    case AshermanSynechiae => Some(HysteroscopicAdhesiolysis)
    case HydrosalpinxUnilateral => Some(LaparoscopicSalpingectomy)
    case HydrosalpinxBilateral => Some(LaparoscopicSalpingectomy)
    case _ => None
  }

  /** The clinical treatment one selected alteration calls for: only adenomyosis calls for one. */
  function TreatmentFor(a: Alteration): (r: Option<ClinicalTreatment>)
    ensures r.Some? <==> IsAdenomyosis(a)
  {
    if IsAdenomyosis(a) then Some(GnrhAnaloguePretreatment) else None
  }

  /** The surgery list after visiting the selection in order. */
  function Surgeries(alts: seq<Alteration>): seq<Surgery>
  {
    if alts == [] then []
    else Surgeries(alts[..|alts| - 1]) + OptionToSeq(SurgeryFor(alts[|alts| - 1]))
  }

  /** The clinical-treatment list after visiting the selection in order. */
  function Treatments(alts: seq<Alteration>): seq<ClinicalTreatment>
  {
    if alts == [] then []
    else Treatments(alts[..|alts| - 1]) + OptionToSeq(TreatmentFor(alts[|alts| - 1]))
  }

  /** The alerts the visit appends: one per hydrosalpinx entry. */
  function HydrosalpinxAlerts(alts: seq<Alteration>): (r: seq<Alert>)
    ensures forall i :: 0 <= i < |r| ==> r[i] == HydrosalpinxSalpingectomy
  {
    if alts == [] then []
    else HydrosalpinxAlerts(alts[..|alts| - 1])
         + (if IsHydrosalpinx(alts[|alts| - 1]) then [HydrosalpinxSalpingectomy] else [])
  }

  /** Visiting one more alteration extends each collected list by that alteration's own entry. */
  lemma VisitOneMore(alts: seq<Alteration>, i: int)
    requires 0 <= i < |alts|
    ensures Surgeries(alts[..i + 1]) == Surgeries(alts[..i]) + OptionToSeq(SurgeryFor(alts[i]))
    ensures Treatments(alts[..i + 1]) == Treatments(alts[..i]) + OptionToSeq(TreatmentFor(alts[i]))
    ensures HydrosalpinxAlerts(alts[..i + 1])
         == HydrosalpinxAlerts(alts[..i]) + (if IsHydrosalpinx(alts[i]) then [HydrosalpinxSalpingectomy] else [])
  {
    assert alts[..i + 1][..i] == alts[..i];
  }

  function SurgeryRecommendations(ss: seq<Surgery>): seq<Recommendation>
  {
    seq(|ss|, i requires 0 <= i < |ss| => SurgeryRequired(ss[i]))
  }

  function TreatmentRecommendations(ts: seq<ClinicalTreatment>): seq<Recommendation>
  {
    seq(|ts|, i requires 0 <= i < |ts| => ClinicalTreatmentRequired(ts[i]))
  }

  /**
   * The visit alerts once per hydrosalpinx entry as it goes; afterwards every
   * surgery is recommended, then every clinical treatment, each in visiting order.
   */
  function AlterationFindings(alts: seq<Alteration>, f: Findings): Findings
  {
    Findings(f.recommendations + SurgeryRecommendations(Surgeries(alts)) + TreatmentRecommendations(Treatments(alts)),
             f.alerts + HydrosalpinxAlerts(alts))
  }

  function EndometrialThickness(mm: real, f: Findings): Findings
  {
    match ThicknessClass(mm)
    case ThinEndometrium => f.AlarmAndRecommend(true, ThinEndometriumAlert, ThinEndometriumProtocol)
    case BorderlineEndometrium => f.Recommend(true, AddVaginalEstradiol)
    case AdequateEndometrium => f
  }

  function EraTiming(e: EraResult, f: Findings): Findings
  {
    match e
    case PreReceptive => f.AlarmAndRecommend(true, EraPreReceptiveWindow, EraDelayTransfer)
    case PostReceptive => f.AlarmAndRecommend(true, EraPostReceptiveWindow, EraAdvanceTransfer)
    case _ => f
  }

  function Anatomy(s: Snapshot, f: Findings): Findings
  {
    EraTiming(s.era, EndometrialThickness(s.thickness, AlterationFindings(s.alterations, f)))
  }

  // ---------------------------------------------------------------- laboratory

  function HomaIrOf(s: Snapshot): Option<real>
  {
    HomaIr(s.glycemia, s.insulin)
  }

  function VitaminD(level: real, f: Findings): Findings
  {
    match VitaminDBand(level)
    case VitaminDDeficient => f.Recommend(true, VitaminDHighDose(level))
    case VitaminDInsufficient => f.Recommend(true, VitaminDModerateDose(level))
    case VitaminDAdequate => f
  }

  function InsulinSensitivity(h: Option<real>, f: Findings): Findings
  {
    match HomaIrClass(h)
    case InsulinResistant => f.AlarmAndRecommend(true, InsulinResistance, MetforminAndInositol)
    case HomaIrBorderline => f.Recommend(true, ConsiderMetforminBorderline)
    case _ => f
  }

  function Inflammation(mgPerL: real, f: Findings): Findings
  {
    match CrpClass(mgPerL)
    case CrpVeryHigh => f.Alarm(true, ActiveInflammation)
    case CrpElevated => f.Recommend(true, InvestigateInflammation)
    case CrpNormal => f
  }

  /** Vitamin D, prolactin and progesterone. */
  function VitaminsAndHormones(s: Snapshot, f: Findings): Findings
  {
    VitaminD(s.vitaminD, f)
      .AlarmAndRecommend(s.prolactin > 25.0, Hyperprolactinemia, CabergolineAndWorkup)
      .Recommend(s.progesterone < 10.0, HigherProgesteroneSupport)
  }

  /** The HOMA-IR rules, then the fasting glucose alert. */
  function Metabolism(s: Snapshot, f: Findings): Findings
  {
    InsulinSensitivity(HomaIrOf(s), f).Alarm(s.glycemia >= 126, UncontrolledDiabetes)
  }

  /** C-reactive protein, homocysteine and the age-driven antioxidant protocol. */
  function InflammationAndOxidation(s: Snapshot, f: Findings): Findings
  {
    Inflammation(s.crp, f)
      .Recommend(s.homocysteine > 15.0, BVitamins)
      .Recommend(s.age >= 37, AntioxidantProtocol)
  }

  function Laboratory(s: Snapshot, f: Findings): Findings
  {
    InflammationAndOxidation(s, Metabolism(s, VitaminsAndHormones(s, f)))
  }

  // ---------------------------------------------------------------- male factor

  predicate HighDnaFragmentation(d: DnaFragmentation)
  {
    d == Fragmentation25To30 || d == FragmentationAbove30
  }

  function MaleFactor(s: Snapshot, f: Findings): Findings
  {
    f.AlarmAndRecommend(HighDnaFragmentation(s.dnaFragmentation), SpermDnaFragmentation, MaleAntioxidants)
     .Recommend(s.semen != SemenNotDone && s.semen != SemenNormal, UrologicalEvaluation)
  }

  // ---------------------------------------------------------------- aggregation

  /**
   * Both output lists of one evaluation: what each domain appends on its own, in
   * the fixed order genetics, infection, immunology, anatomy, laboratory, male factor.
   */
  function Evaluate(s: Snapshot): Findings
  {
    Genetics(s, NoFindings)
      .Then(Infection(s, NoFindings))
      .Then(Immunology(s, NoFindings))
      .Then(Anatomy(s, NoFindings))
      .Then(Laboratory(s, NoFindings))
      .Then(MaleFactor(s, NoFindings))
  }

  /** The six domains run in turn on the same two lists, starting from empty lists, as the program runs them. */
  function RunInTurn(s: Snapshot): Findings
  {
    MaleFactor(s, Laboratory(s, Anatomy(s, Immunology(s, Infection(s, Genetics(s, NoFindings))))))
  }
}
