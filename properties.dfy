/**
 * Properties of the evaluation and of the plan. The first group shows that
 * every domain only appends, and appends the same entries whatever the lists
 * already hold; the whole evaluation is therefore the six contributions one
 * after the other, which the later groups use to count entries.
 */
module Properties {
  import opened Wrappers
  import opened Inputs
  import opened Classifiers
  import opened Codes
  import opened Rules
  import opened Protocol
  import opened Lists

  // ---------------------------------------------------------------- every domain only appends

  lemma RecommendAfter(f: Findings, g: Findings, condition: bool, r: Recommendation)
    ensures f.Then(g).Recommend(condition, r) == f.Then(g.Recommend(condition, r))
  {
    AppendIfAfter(f.recommendations, g.recommendations, condition, r);
  }

  lemma AlarmAfter(f: Findings, g: Findings, condition: bool, a: Alert)
    ensures f.Then(g).Alarm(condition, a) == f.Then(g.Alarm(condition, a))
  {
    AppendIfAfter(f.alerts, g.alerts, condition, a);
  }

  lemma AlarmAndRecommendAfter(f: Findings, g: Findings, condition: bool, a: Alert, r: Recommendation)
    ensures f.Then(g).AlarmAndRecommend(condition, a, r) == f.Then(g.AlarmAndRecommend(condition, a, r))
  {
    AppendIfAfter(f.recommendations, g.recommendations, condition, r);
    AppendIfAfter(f.alerts, g.alerts, condition, a);
  }

  lemma ThenNothing(f: Findings)
    ensures f.Then(NoFindings) == f
  {
    assert f.recommendations + [] == f.recommendations;
    assert f.alerts + [] == f.alerts;
  }

  // Each lemma below says: running the rules on lists that end in g appends
  // exactly what running them on g alone appends, so the rules never read the
  // lists they append to.

  lemma GeneticsAfter(s: Snapshot, f: Findings, g: Findings)
    ensures Genetics(s, f.Then(g)) == f.Then(Genetics(s, g))
  {
    var g1 := g.Recommend(s.age >= 37 && !s.pgtADone, PgtAStronglyRecommended);
    RecommendAfter(f, g, s.age >= 37 && !s.pgtADone, PgtAStronglyRecommended);
    var g2 := g1.Alarm(s.pgtAResult == AllAneuploid || s.pgtAResult == MostlyAneuploid, HighAneuploidyRate);
    AlarmAfter(f, g1, s.pgtAResult == AllAneuploid || s.pgtAResult == MostlyAneuploid, HighAneuploidyRate);
    var g3 := g2.AlarmAndRecommend(ThrombophiliaPresent(s), ThrombophiliaDetected, ProphylacticAnticoagulation);
    AlarmAndRecommendAfter(f, g2, ThrombophiliaPresent(s), ThrombophiliaDetected, ProphylacticAnticoagulation);
    RecommendAfter(f, g3, s.hlaTyped && s.hlaSharedAlleles >= 2, ConsiderImmunotherapy);
  }

  lemma InfectionAfter(s: Snapshot, f: Findings, g: Findings)
    ensures Infection(s, f.Then(g)) == f.Then(Infection(s, g))
  {
    var g1 := if EndometritisDetected(s) then g.AlarmAndRecommend(true, ChronicEndometritis, AntibioticsAndRepeatBiopsy)
              else g.Recommend(SuggestiveHysteroscopy(s.hysteroscopy), PerformCd138Biopsy);
    if EndometritisDetected(s) {
      AlarmAndRecommendAfter(f, g, true, ChronicEndometritis, AntibioticsAndRepeatBiopsy);
    } else {
      RecommendAfter(f, g, SuggestiveHysteroscopy(s.hysteroscopy), PerformCd138Biopsy);
    }
    var g2 := g1.AlarmAndRecommend(Infections(s) != [], InfectionDetected(Infections(s)), AntimicrobialTreatment);
    AlarmAndRecommendAfter(f, g1, Infections(s) != [], InfectionDetected(Infections(s)), AntimicrobialTreatment);
    RecommendAfter(f, g2, s.microbiome == LactobacillusBelow50, VaginalProbiotics);
  }

  lemma ImmunologyAfter(s: Snapshot, f: Findings, g: Findings)
    ensures Immunology(s, f.Then(g)) == f.Then(Immunology(s, g))
  {
    var g1 := g.AlarmAndRecommend(SafCriteria(s) != [], AntiphospholipidSyndrome, SafProtocol);
    AlarmAndRecommendAfter(f, g, SafCriteria(s) != [], AntiphospholipidSyndrome, SafProtocol);
    var g2 := g1.Recommend(AutoimmuneMarkers(s), RheumatologyReferral);
    RecommendAfter(f, g1, AutoimmuneMarkers(s), RheumatologyReferral);
    var g3 := g2.Recommend(NkElevated(s), DiscussPrednisoneForNk);
    RecommendAfter(f, g2, NkElevated(s), DiscussPrednisoneForNk);
    AlarmAndRecommendAfter(f, g3, ThyroidProblem(s), ThyroidDysfunction, ThyroidOptimisation);
  }

  lemma AlterationFindingsAfter(alts: seq<Alteration>, f: Findings, g: Findings)
    ensures AlterationFindings(alts, f.Then(g)) == f.Then(AlterationFindings(alts, g))
  {
    var surgeries := SurgeryRecommendations(Surgeries(alts));
    var treatments := TreatmentRecommendations(Treatments(alts));
    assert f.recommendations + g.recommendations + surgeries + treatments
        == f.recommendations + (g.recommendations + surgeries + treatments);
    assert f.alerts + g.alerts + HydrosalpinxAlerts(alts) == f.alerts + (g.alerts + HydrosalpinxAlerts(alts));
  }

  lemma EndometrialThicknessAfter(mm: real, f: Findings, g: Findings)
    ensures EndometrialThickness(mm, f.Then(g)) == f.Then(EndometrialThickness(mm, g))
  {
    match ThicknessClass(mm)
    case ThinEndometrium => AlarmAndRecommendAfter(f, g, true, ThinEndometriumAlert, ThinEndometriumProtocol);
    case BorderlineEndometrium => RecommendAfter(f, g, true, AddVaginalEstradiol);
    case AdequateEndometrium =>
  }

  lemma EraTimingAfter(e: EraResult, f: Findings, g: Findings)
    ensures EraTiming(e, f.Then(g)) == f.Then(EraTiming(e, g))
  {
    match e
    case PreReceptive => AlarmAndRecommendAfter(f, g, true, EraPreReceptiveWindow, EraDelayTransfer);
    case PostReceptive => AlarmAndRecommendAfter(f, g, true, EraPostReceptiveWindow, EraAdvanceTransfer);
    case _ =>
  }

  lemma AnatomyAfter(s: Snapshot, f: Findings, g: Findings)
    ensures Anatomy(s, f.Then(g)) == f.Then(Anatomy(s, g))
  {
    AlterationFindingsAfter(s.alterations, f, g);
    var g1 := AlterationFindings(s.alterations, g);
    EndometrialThicknessAfter(s.thickness, f, g1);
    EraTimingAfter(s.era, f, EndometrialThickness(s.thickness, g1));
  }

  lemma VitaminsAndHormonesAfter(s: Snapshot, f: Findings, g: Findings)
    ensures VitaminsAndHormones(s, f.Then(g)) == f.Then(VitaminsAndHormones(s, g))
  {
    match VitaminDBand(s.vitaminD)
    case VitaminDDeficient => RecommendAfter(f, g, true, VitaminDHighDose(s.vitaminD));
    case VitaminDInsufficient => RecommendAfter(f, g, true, VitaminDModerateDose(s.vitaminD));
    case VitaminDAdequate =>
    var g1 := VitaminD(s.vitaminD, g);
    AlarmAndRecommendAfter(f, g1, s.prolactin > 25.0, Hyperprolactinemia, CabergolineAndWorkup);
    var g2 := g1.AlarmAndRecommend(s.prolactin > 25.0, Hyperprolactinemia, CabergolineAndWorkup);
    RecommendAfter(f, g2, s.progesterone < 10.0, HigherProgesteroneSupport);
  }

  lemma MetabolismAfter(s: Snapshot, f: Findings, g: Findings)
    ensures Metabolism(s, f.Then(g)) == f.Then(Metabolism(s, g))
  {
    match HomaIrClass(HomaIrOf(s))
    case InsulinResistant => AlarmAndRecommendAfter(f, g, true, InsulinResistance, MetforminAndInositol);
    case HomaIrBorderline => RecommendAfter(f, g, true, ConsiderMetforminBorderline);
    case _ =>
    AlarmAfter(f, InsulinSensitivity(HomaIrOf(s), g), s.glycemia >= 126, UncontrolledDiabetes);
  }

  lemma InflammationAndOxidationAfter(s: Snapshot, f: Findings, g: Findings)
    ensures InflammationAndOxidation(s, f.Then(g)) == f.Then(InflammationAndOxidation(s, g))
  {
    match CrpClass(s.crp)
    case CrpVeryHigh => AlarmAfter(f, g, true, ActiveInflammation);
    case CrpElevated => RecommendAfter(f, g, true, InvestigateInflammation);
    case CrpNormal =>
    var g1 := Inflammation(s.crp, g);
    RecommendAfter(f, g1, s.homocysteine > 15.0, BVitamins);
    RecommendAfter(f, g1.Recommend(s.homocysteine > 15.0, BVitamins), s.age >= 37, AntioxidantProtocol);
  }

  lemma LaboratoryAfter(s: Snapshot, f: Findings, g: Findings)
    ensures Laboratory(s, f.Then(g)) == f.Then(Laboratory(s, g))
  {
    VitaminsAndHormonesAfter(s, f, g);
    var g1 := VitaminsAndHormones(s, g);
    MetabolismAfter(s, f, g1);
    InflammationAndOxidationAfter(s, f, Metabolism(s, g1));
  }

  lemma MaleFactorAfter(s: Snapshot, f: Findings, g: Findings)
    ensures MaleFactor(s, f.Then(g)) == f.Then(MaleFactor(s, g))
  {
    var g1 := g.AlarmAndRecommend(HighDnaFragmentation(s.dnaFragmentation), SpermDnaFragmentation, MaleAntioxidants);
    AlarmAndRecommendAfter(f, g, HighDnaFragmentation(s.dnaFragmentation), SpermDnaFragmentation, MaleAntioxidants);
    RecommendAfter(f, g1, s.semen != SemenNotDone && s.semen != SemenNormal, UrologicalEvaluation);
  }

  /**
   * Running the domains in turn on shared lists gives the six domain
   * contributions one after the other, each computed from empty lists.
   */
  lemma RunInTurnIsEvaluate(s: Snapshot)
    ensures RunInTurn(s) == Evaluate(s)
  {
    var f1 := Genetics(s, NoFindings);
    ThenNothing(f1);
    InfectionAfter(s, f1, NoFindings);
    var f2 := f1.Then(Infection(s, NoFindings));
    ThenNothing(f2);
    ImmunologyAfter(s, f2, NoFindings);
    var f3 := f2.Then(Immunology(s, NoFindings));
    ThenNothing(f3);
    AnatomyAfter(s, f3, NoFindings);
    var f4 := f3.Then(Anatomy(s, NoFindings));
    ThenNothing(f4);
    LaboratoryAfter(s, f4, NoFindings);
    var f5 := f4.Then(Laboratory(s, NoFindings));
    ThenNothing(f5);
    MaleFactorAfter(s, f5, NoFindings);
  }

  // ---------------------------------------------------------------- who appends what

  datatype Domain = GeneticsDomain | InfectionDomain | ImmunologyDomain | AnatomyDomain | LaboratoryDomain | MaleFactorDomain

  /** The one domain whose rules can append each alert. */
  function AlertDomain(a: Alert): Domain
  {
    match a
    case HighAneuploidyRate => GeneticsDomain
    case ThrombophiliaDetected => GeneticsDomain
    case ChronicEndometritis => InfectionDomain
    case InfectionDetected(_) => InfectionDomain
    case AntiphospholipidSyndrome => ImmunologyDomain
    case ThyroidDysfunction => ImmunologyDomain
    case HydrosalpinxSalpingectomy => AnatomyDomain
    case ThinEndometriumAlert => AnatomyDomain
    case EraPreReceptiveWindow => AnatomyDomain
    case EraPostReceptiveWindow => AnatomyDomain
    case Hyperprolactinemia => LaboratoryDomain
    case InsulinResistance => LaboratoryDomain
    case UncontrolledDiabetes => LaboratoryDomain
    case ActiveInflammation => LaboratoryDomain
    case SpermDnaFragmentation => MaleFactorDomain
  }

  /** The one domain whose rules can append each recommendation. */
  function RecommendationDomain(r: Recommendation): Domain
  {
    match r
    case PgtAStronglyRecommended => GeneticsDomain
    case ProphylacticAnticoagulation => GeneticsDomain
    case ConsiderImmunotherapy => GeneticsDomain
    case AntibioticsAndRepeatBiopsy => InfectionDomain
    case PerformCd138Biopsy => InfectionDomain
    case AntimicrobialTreatment => InfectionDomain
    case VaginalProbiotics => InfectionDomain
    case SafProtocol => ImmunologyDomain
    case RheumatologyReferral => ImmunologyDomain
    case DiscussPrednisoneForNk => ImmunologyDomain
    case ThyroidOptimisation => ImmunologyDomain
    case SurgeryRequired(_) => AnatomyDomain
    case ClinicalTreatmentRequired(_) => AnatomyDomain
    case ThinEndometriumProtocol => AnatomyDomain
    case AddVaginalEstradiol => AnatomyDomain
    case EraDelayTransfer => AnatomyDomain
    case EraAdvanceTransfer => AnatomyDomain
    case VitaminDHighDose(_) => LaboratoryDomain
    case VitaminDModerateDose(_) => LaboratoryDomain
    case CabergolineAndWorkup => LaboratoryDomain
    case HigherProgesteroneSupport => LaboratoryDomain
    case MetforminAndInositol => LaboratoryDomain
    case ConsiderMetforminBorderline => LaboratoryDomain
    case InvestigateInflammation => LaboratoryDomain
    case BVitamins => LaboratoryDomain
    case AntioxidantProtocol => LaboratoryDomain
    case MaleAntioxidants => MaleFactorDomain
    case UrologicalEvaluation => MaleFactorDomain
  }

  /** The alerts of each domain, named one by one. */
  lemma AlertDomains(a: Alert)
    ensures (a.HighAneuploidyRate? || a.ThrombophiliaDetected?) ==> AlertDomain(a) == GeneticsDomain
    ensures (a.ChronicEndometritis? || a.InfectionDetected?) ==> AlertDomain(a) == InfectionDomain
    ensures (a.AntiphospholipidSyndrome? || a.ThyroidDysfunction?) ==> AlertDomain(a) == ImmunologyDomain
    ensures (a.HydrosalpinxSalpingectomy? || a.ThinEndometriumAlert? || a.EraPreReceptiveWindow? || a.EraPostReceptiveWindow?) ==> AlertDomain(a) == AnatomyDomain
    ensures (a.Hyperprolactinemia? || a.InsulinResistance? || a.UncontrolledDiabetes? || a.ActiveInflammation?) ==> AlertDomain(a) == LaboratoryDomain
    ensures (a.SpermDnaFragmentation?) ==> AlertDomain(a) == MaleFactorDomain
  {
  }

  /** The recommendations of each domain, named one by one. */
  lemma RecommendationDomains(r: Recommendation)
    ensures (r.PgtAStronglyRecommended? || r.ProphylacticAnticoagulation? || r.ConsiderImmunotherapy?) ==> RecommendationDomain(r) == GeneticsDomain
    ensures (r.AntibioticsAndRepeatBiopsy? || r.PerformCd138Biopsy? || r.AntimicrobialTreatment? || r.VaginalProbiotics?) ==> RecommendationDomain(r) == InfectionDomain
    ensures (r.SafProtocol? || r.RheumatologyReferral? || r.DiscussPrednisoneForNk? || r.ThyroidOptimisation?) ==> RecommendationDomain(r) == ImmunologyDomain
    ensures (r.SurgeryRequired? || r.ClinicalTreatmentRequired? || r.ThinEndometriumProtocol? || r.AddVaginalEstradiol? || r.EraDelayTransfer? || r.EraAdvanceTransfer?) ==> RecommendationDomain(r) == AnatomyDomain
    ensures (r.VitaminDHighDose? || r.VitaminDModerateDose? || r.CabergolineAndWorkup? || r.HigherProgesteroneSupport? || r.MetforminAndInositol? || r.ConsiderMetforminBorderline? || r.InvestigateInflammation? || r.BVitamins? || r.AntioxidantProtocol?) ==> RecommendationDomain(r) == LaboratoryDomain
    ensures (r.MaleAntioxidants? || r.UrologicalEvaluation?) ==> RecommendationDomain(r) == MaleFactorDomain
  {
  }

  lemma GeneticsOwned(s: Snapshot)
    ensures forall a :: a in Genetics(s, NoFindings).alerts ==> AlertDomain(a) == GeneticsDomain
    ensures forall r :: r in Genetics(s, NoFindings).recommendations ==> RecommendationDomain(r) == GeneticsDomain
  {
  }

  lemma InfectionOwned(s: Snapshot)
    ensures forall a :: a in Infection(s, NoFindings).alerts ==> AlertDomain(a) == InfectionDomain
    ensures forall r :: r in Infection(s, NoFindings).recommendations ==> RecommendationDomain(r) == InfectionDomain
  {
  }

  lemma ImmunologyOwned(s: Snapshot)
    ensures forall a :: a in Immunology(s, NoFindings).alerts ==> AlertDomain(a) == ImmunologyDomain
    ensures forall r :: r in Immunology(s, NoFindings).recommendations ==> RecommendationDomain(r) == ImmunologyDomain
  {
    ImmunologyAlertsAmong(s);
    ImmunologyRecommendationsAmong(s);
    forall a | a in Immunology(s, NoFindings).alerts ensures AlertDomain(a) == ImmunologyDomain {
      AlertDomains(a);
    }
    forall r | r in Immunology(s, NoFindings).recommendations ensures RecommendationDomain(r) == ImmunologyDomain {
      RecommendationDomains(r);
    }
  }

  lemma ImmunologyAlertsAmong(s: Snapshot)
    ensures forall a :: a in Immunology(s, NoFindings).alerts ==> a == AntiphospholipidSyndrome || a == ThyroidDysfunction
  {
  }

  lemma ImmunologyRecommendationsAmong(s: Snapshot)
    ensures forall r :: r in Immunology(s, NoFindings).recommendations ==>
      r == SafProtocol || r == RheumatologyReferral || r == DiscussPrednisoneForNk || r == ThyroidOptimisation
  {
  }

  /** Anatomy is its three rule blocks, each run on its own, one after the other. */
  lemma AnatomyParts(s: Snapshot)
    ensures Anatomy(s, NoFindings)
         == AlterationFindings(s.alterations, NoFindings)
              .Then(EndometrialThickness(s.thickness, NoFindings))
              .Then(EraTiming(s.era, NoFindings))
  {
    var f1 := AlterationFindings(s.alterations, NoFindings);
    ThenNothing(f1);
    EndometrialThicknessAfter(s.thickness, f1, NoFindings);
    var f2 := f1.Then(EndometrialThickness(s.thickness, NoFindings));
    ThenNothing(f2);
    EraTimingAfter(s.era, f2, NoFindings);
  }

  lemma AlterationsOwned(alts: seq<Alteration>)
    ensures forall a :: a in AlterationFindings(alts, NoFindings).alerts ==> a == HydrosalpinxSalpingectomy
    ensures forall r :: r in AlterationFindings(alts, NoFindings).recommendations ==> r.SurgeryRequired? || r.ClinicalTreatmentRequired?
  {
    var surgeries := SurgeryRecommendations(Surgeries(alts));
    var treatments := TreatmentRecommendations(Treatments(alts));
    assert forall r :: r in surgeries ==> r.SurgeryRequired?;
    assert forall r :: r in treatments ==> r.ClinicalTreatmentRequired?;
    assert AlterationFindings(alts, NoFindings).recommendations == [] + surgeries + treatments;
  }

  lemma EndometrialThicknessOwned(mm: real)
    ensures forall a :: a in EndometrialThickness(mm, NoFindings).alerts ==> AlertDomain(a) == AnatomyDomain
    ensures forall r :: r in EndometrialThickness(mm, NoFindings).recommendations ==> RecommendationDomain(r) == AnatomyDomain
  {
  }

  lemma EraTimingOwned(e: EraResult)
    ensures forall a :: a in EraTiming(e, NoFindings).alerts ==> AlertDomain(a) == AnatomyDomain
    ensures forall r :: r in EraTiming(e, NoFindings).recommendations ==> RecommendationDomain(r) == AnatomyDomain
  {
  }

  lemma AnatomyOwned(s: Snapshot)
    ensures forall a :: a in Anatomy(s, NoFindings).alerts ==> AlertDomain(a) == AnatomyDomain
    ensures forall r :: r in Anatomy(s, NoFindings).recommendations ==> RecommendationDomain(r) == AnatomyDomain
  {
    AnatomyParts(s);
    AlterationsOwned(s.alterations);
    EndometrialThicknessOwned(s.thickness);
    EraTimingOwned(s.era);
  }

  /** The laboratory domain is its three rule blocks, each run on its own, one after the other. */
  lemma LaboratoryParts(s: Snapshot)
    ensures Laboratory(s, NoFindings)
         == VitaminsAndHormones(s, NoFindings).Then(Metabolism(s, NoFindings)).Then(InflammationAndOxidation(s, NoFindings))
  {
    var f1 := VitaminsAndHormones(s, NoFindings);
    ThenNothing(f1);
    MetabolismAfter(s, f1, NoFindings);
    var f2 := f1.Then(Metabolism(s, NoFindings));
    ThenNothing(f2);
    InflammationAndOxidationAfter(s, f2, NoFindings);
  }

  /** Each laboratory count is the sum of the counts of its three rule blocks. */
  lemma LaboratoryCounts(s: Snapshot, a: Alert, r: Recommendation)
    ensures multiset(Laboratory(s, NoFindings).alerts)[a]
         == multiset(VitaminsAndHormones(s, NoFindings).alerts)[a] + multiset(Metabolism(s, NoFindings).alerts)[a]
          + multiset(InflammationAndOxidation(s, NoFindings).alerts)[a]
    ensures multiset(Laboratory(s, NoFindings).recommendations)[r]
         == multiset(VitaminsAndHormones(s, NoFindings).recommendations)[r] + multiset(Metabolism(s, NoFindings).recommendations)[r]
          + multiset(InflammationAndOxidation(s, NoFindings).recommendations)[r]
  {
    LaboratoryParts(s);
    CountInThree(VitaminsAndHormones(s, NoFindings), Metabolism(s, NoFindings), InflammationAndOxidation(s, NoFindings), a, r);
  }

  lemma VitaminDOwned(level: real)
    ensures forall r :: r in VitaminD(level, NoFindings).recommendations ==> RecommendationDomain(r) == LaboratoryDomain
    ensures VitaminD(level, NoFindings).alerts == []
  {
  }

  lemma VitaminsAndHormonesOwned(s: Snapshot)
    ensures forall a :: a in VitaminsAndHormones(s, NoFindings).alerts ==> AlertDomain(a) == LaboratoryDomain
    ensures forall r :: r in VitaminsAndHormones(s, NoFindings).recommendations ==> RecommendationDomain(r) == LaboratoryDomain
  {
    VitaminDOwned(s.vitaminD);
  }

  lemma MetabolismOwned(s: Snapshot)
    ensures forall a :: a in Metabolism(s, NoFindings).alerts ==> AlertDomain(a) == LaboratoryDomain
    ensures forall r :: r in Metabolism(s, NoFindings).recommendations ==> RecommendationDomain(r) == LaboratoryDomain
  {
  }

  lemma InflammationAndOxidationOwned(s: Snapshot)
    ensures forall a :: a in InflammationAndOxidation(s, NoFindings).alerts ==> AlertDomain(a) == LaboratoryDomain
    ensures forall r :: r in InflammationAndOxidation(s, NoFindings).recommendations ==> RecommendationDomain(r) == LaboratoryDomain
  {
  }

  lemma LaboratoryOwned(s: Snapshot)
    ensures forall a :: a in Laboratory(s, NoFindings).alerts ==> AlertDomain(a) == LaboratoryDomain
    ensures forall r :: r in Laboratory(s, NoFindings).recommendations ==> RecommendationDomain(r) == LaboratoryDomain
  {
    LaboratoryParts(s);
    VitaminsAndHormonesOwned(s);
    MetabolismOwned(s);
    InflammationAndOxidationOwned(s);
  }

  lemma MaleFactorOwned(s: Snapshot)
    ensures forall a :: a in MaleFactor(s, NoFindings).alerts ==> AlertDomain(a) == MaleFactorDomain
    ensures forall r :: r in MaleFactor(s, NoFindings).recommendations ==> RecommendationDomain(r) == MaleFactorDomain
  {
  }

  /** Every entry of f belongs to domain d. */
  predicate Owned(f: Findings, d: Domain)
  {
    && (forall a :: a in f.alerts ==> AlertDomain(a) == d)
    && (forall r :: r in f.recommendations ==> RecommendationDomain(r) == d)
  }

  /** Lists owned by d count no alert of another domain. */
  predicate AlertAbsentUnless(f: Findings, d: Domain, a: Alert)
  {
    AlertDomain(a) != d ==> multiset(f.alerts)[a] == 0
  }

  /** Lists owned by d count no recommendation of another domain. */
  predicate RecommendationAbsentUnless(f: Findings, d: Domain, r: Recommendation)
  {
    RecommendationDomain(r) != d ==> multiset(f.recommendations)[r] == 0
  }

  /** Lists owned by d count no entry of another domain. */
  lemma AbsentUnlessOwner(f: Findings, d: Domain, a: Alert, r: Recommendation)
    requires Owned(f, d)
    ensures AlertAbsentUnless(f, d, a) && RecommendationAbsentUnless(f, d, r)
  {
  }

  /** Counts in lists followed by later lists add up. */
  lemma CountThen(f: Findings, later: Findings, a: Alert, r: Recommendation)
    ensures multiset(f.Then(later).alerts)[a] == multiset(f.alerts)[a] + multiset(later.alerts)[a]
    ensures multiset(f.Then(later).recommendations)[r] == multiset(f.recommendations)[r] + multiset(later.recommendations)[r]
  {
  }

  /** Over three lists one after the other, an entry is counted in each of them. */
  lemma CountInThree(f1: Findings, f2: Findings, f3: Findings, a: Alert, r: Recommendation)
    ensures multiset(f1.Then(f2).Then(f3).alerts)[a] == multiset(f1.alerts)[a] + multiset(f2.alerts)[a] + multiset(f3.alerts)[a]
    ensures multiset(f1.Then(f2).Then(f3).recommendations)[r]
         == multiset(f1.recommendations)[r] + multiset(f2.recommendations)[r] + multiset(f3.recommendations)[r]
  {
  }

  /** Over six lists one after the other, each count is the sum of the six counts. */
  lemma CountInSix(f1: Findings, f2: Findings, f3: Findings, f4: Findings, f5: Findings, f6: Findings,
                   a: Alert, r: Recommendation)
    ensures multiset(f1.Then(f2).Then(f3).Then(f4).Then(f5).Then(f6).alerts)[a]
         == multiset(f1.alerts)[a] + multiset(f2.alerts)[a] + multiset(f3.alerts)[a]
          + multiset(f4.alerts)[a] + multiset(f5.alerts)[a] + multiset(f6.alerts)[a]
    ensures multiset(f1.Then(f2).Then(f3).Then(f4).Then(f5).Then(f6).recommendations)[r]
         == multiset(f1.recommendations)[r] + multiset(f2.recommendations)[r] + multiset(f3.recommendations)[r]
          + multiset(f4.recommendations)[r] + multiset(f5.recommendations)[r] + multiset(f6.recommendations)[r]
  {
    var f12 := f1.Then(f2);
    var f123 := f12.Then(f3);
    var f1234 := f123.Then(f4);
    var f12345 := f1234.Then(f5);
    CountThen(f1, f2, a, r);
    CountThen(f12, f3, a, r);
    CountThen(f123, f4, a, r);
    CountThen(f1234, f5, a, r);
    CountThen(f12345, f6, a, r);
  }

  /** Every domain's own contribution holds its entries only, so the others count none of them. */
  lemma OwnersOnly(s: Snapshot, a: Alert, r: Recommendation)
    ensures AlertAbsentUnless(Genetics(s, NoFindings), GeneticsDomain, a) && RecommendationAbsentUnless(Genetics(s, NoFindings), GeneticsDomain, r)
    ensures AlertAbsentUnless(Infection(s, NoFindings), InfectionDomain, a) && RecommendationAbsentUnless(Infection(s, NoFindings), InfectionDomain, r)
    ensures AlertAbsentUnless(Immunology(s, NoFindings), ImmunologyDomain, a) && RecommendationAbsentUnless(Immunology(s, NoFindings), ImmunologyDomain, r)
    ensures AlertAbsentUnless(Anatomy(s, NoFindings), AnatomyDomain, a) && RecommendationAbsentUnless(Anatomy(s, NoFindings), AnatomyDomain, r)
    ensures AlertAbsentUnless(Laboratory(s, NoFindings), LaboratoryDomain, a) && RecommendationAbsentUnless(Laboratory(s, NoFindings), LaboratoryDomain, r)
    ensures AlertAbsentUnless(MaleFactor(s, NoFindings), MaleFactorDomain, a) && RecommendationAbsentUnless(MaleFactor(s, NoFindings), MaleFactorDomain, r)
  {
    GeneticsOwned(s);
    InfectionOwned(s);
    ImmunologyOwned(s);
    AnatomyOwned(s);
    LaboratoryOwned(s);
    MaleFactorOwned(s);
    AbsentUnlessOwner(Genetics(s, NoFindings), GeneticsDomain, a, r);
    AbsentUnlessOwner(Infection(s, NoFindings), InfectionDomain, a, r);
    AbsentUnlessOwner(Immunology(s, NoFindings), ImmunologyDomain, a, r);
    AbsentUnlessOwner(Anatomy(s, NoFindings), AnatomyDomain, a, r);
    AbsentUnlessOwner(Laboratory(s, NoFindings), LaboratoryDomain, a, r);
    AbsentUnlessOwner(MaleFactor(s, NoFindings), MaleFactorDomain, a, r);
  }

  /** An alert occurs in the evaluation exactly as often as its own domain appends it. */
  lemma AlertsByOwner(s: Snapshot, a: Alert)
    ensures AlertDomain(a) == GeneticsDomain ==> multiset(Evaluate(s).alerts)[a] == multiset(Genetics(s, NoFindings).alerts)[a]
    ensures AlertDomain(a) == InfectionDomain ==> multiset(Evaluate(s).alerts)[a] == multiset(Infection(s, NoFindings).alerts)[a]
    ensures AlertDomain(a) == ImmunologyDomain ==> multiset(Evaluate(s).alerts)[a] == multiset(Immunology(s, NoFindings).alerts)[a]
    ensures AlertDomain(a) == AnatomyDomain ==> multiset(Evaluate(s).alerts)[a] == multiset(Anatomy(s, NoFindings).alerts)[a]
    ensures AlertDomain(a) == LaboratoryDomain ==> multiset(Evaluate(s).alerts)[a] == multiset(Laboratory(s, NoFindings).alerts)[a]
    ensures AlertDomain(a) == MaleFactorDomain ==> multiset(Evaluate(s).alerts)[a] == multiset(MaleFactor(s, NoFindings).alerts)[a]
  {
    OwnersOnly(s, a, PgtAStronglyRecommended);
    CountInSix(Genetics(s, NoFindings), Infection(s, NoFindings), Immunology(s, NoFindings),
               Anatomy(s, NoFindings), Laboratory(s, NoFindings), MaleFactor(s, NoFindings), a, PgtAStronglyRecommended);
  }

  /** A recommendation occurs in the evaluation exactly as often as its own domain appends it. */
  lemma RecommendationsByOwner(s: Snapshot, r: Recommendation)
    ensures RecommendationDomain(r) == GeneticsDomain ==> multiset(Evaluate(s).recommendations)[r] == multiset(Genetics(s, NoFindings).recommendations)[r]
    ensures RecommendationDomain(r) == InfectionDomain ==> multiset(Evaluate(s).recommendations)[r] == multiset(Infection(s, NoFindings).recommendations)[r]
    ensures RecommendationDomain(r) == ImmunologyDomain ==> multiset(Evaluate(s).recommendations)[r] == multiset(Immunology(s, NoFindings).recommendations)[r]
    ensures RecommendationDomain(r) == AnatomyDomain ==> multiset(Evaluate(s).recommendations)[r] == multiset(Anatomy(s, NoFindings).recommendations)[r]
    ensures RecommendationDomain(r) == LaboratoryDomain ==> multiset(Evaluate(s).recommendations)[r] == multiset(Laboratory(s, NoFindings).recommendations)[r]
    ensures RecommendationDomain(r) == MaleFactorDomain ==> multiset(Evaluate(s).recommendations)[r] == multiset(MaleFactor(s, NoFindings).recommendations)[r]
  {
    OwnersOnly(s, HighAneuploidyRate, r);
    CountInSix(Genetics(s, NoFindings), Infection(s, NoFindings), Immunology(s, NoFindings),
               Anatomy(s, NoFindings), Laboratory(s, NoFindings), MaleFactor(s, NoFindings), HighAneuploidyRate, r);
  }

  /** An alert of the genetics domain is counted in the evaluation as often as that domain appends it. */
  lemma AlertFromGenetics(s: Snapshot, a: Alert, n: int)
    requires a.HighAneuploidyRate? || a.ThrombophiliaDetected?
    requires multiset(Genetics(s, NoFindings).alerts)[a] == n
    ensures multiset(Evaluate(s).alerts)[a] == n
  {
    AlertDomains(a);
    AlertsByOwner(s, a);
  }

  /** A recommendation of that domain is counted in the evaluation as often as that domain appends it. */
  lemma RecommendationFromGenetics(s: Snapshot, r: Recommendation, n: int)
    requires r.PgtAStronglyRecommended? || r.ProphylacticAnticoagulation? || r.ConsiderImmunotherapy?
    requires multiset(Genetics(s, NoFindings).recommendations)[r] == n
    ensures multiset(Evaluate(s).recommendations)[r] == n
  {
    RecommendationDomains(r);
    RecommendationsByOwner(s, r);
  }

  /** An alert of the infection domain is counted in the evaluation as often as that domain appends it. */
  lemma AlertFromInfection(s: Snapshot, a: Alert, n: int)
    requires a.ChronicEndometritis? || a.InfectionDetected?
    requires multiset(Infection(s, NoFindings).alerts)[a] == n
    ensures multiset(Evaluate(s).alerts)[a] == n
  {
    AlertDomains(a);
    AlertsByOwner(s, a);
  }

  /** A recommendation of that domain is counted in the evaluation as often as that domain appends it. */
  lemma RecommendationFromInfection(s: Snapshot, r: Recommendation, n: int)
    requires r.AntibioticsAndRepeatBiopsy? || r.PerformCd138Biopsy? || r.AntimicrobialTreatment? ||
          r.VaginalProbiotics?
    requires multiset(Infection(s, NoFindings).recommendations)[r] == n
    ensures multiset(Evaluate(s).recommendations)[r] == n
  {
    RecommendationDomains(r);
    RecommendationsByOwner(s, r);
  }

  /** An alert of the immunology domain is counted in the evaluation as often as that domain appends it. */
  lemma AlertFromImmunology(s: Snapshot, a: Alert, n: int)
    requires a.AntiphospholipidSyndrome? || a.ThyroidDysfunction?
    requires multiset(Immunology(s, NoFindings).alerts)[a] == n
    ensures multiset(Evaluate(s).alerts)[a] == n
  {
    AlertDomains(a);
    AlertsByOwner(s, a);
  }

  /** A recommendation of that domain is counted in the evaluation as often as that domain appends it. */
  lemma RecommendationFromImmunology(s: Snapshot, r: Recommendation, n: int)
    requires r.SafProtocol? || r.RheumatologyReferral? || r.DiscussPrednisoneForNk? || r.ThyroidOptimisation?
    requires multiset(Immunology(s, NoFindings).recommendations)[r] == n
    ensures multiset(Evaluate(s).recommendations)[r] == n
  {
    RecommendationDomains(r);
    RecommendationsByOwner(s, r);
  }

  /** An alert of the anatomy domain is counted in the evaluation as often as that domain appends it. */
  lemma AlertFromAnatomy(s: Snapshot, a: Alert, n: int)
    requires a.HydrosalpinxSalpingectomy? || a.ThinEndometriumAlert? || a.EraPreReceptiveWindow? ||
          a.EraPostReceptiveWindow?
    requires multiset(Anatomy(s, NoFindings).alerts)[a] == n
    ensures multiset(Evaluate(s).alerts)[a] == n
  {
    AlertDomains(a);
    AlertsByOwner(s, a);
  }

  /** A recommendation of that domain is counted in the evaluation as often as that domain appends it. */
  lemma RecommendationFromAnatomy(s: Snapshot, r: Recommendation, n: int)
    requires r.SurgeryRequired? || r.ClinicalTreatmentRequired? || r.ThinEndometriumProtocol? ||
          r.AddVaginalEstradiol? || r.EraDelayTransfer? || r.EraAdvanceTransfer?
    requires multiset(Anatomy(s, NoFindings).recommendations)[r] == n
    ensures multiset(Evaluate(s).recommendations)[r] == n
  {
    RecommendationDomains(r);
    RecommendationsByOwner(s, r);
  }

  /** An alert of the laboratory domain is counted in the evaluation as often as that domain appends it. */
  lemma AlertFromLaboratory(s: Snapshot, a: Alert, n: int)
    requires a.Hyperprolactinemia? || a.InsulinResistance? || a.UncontrolledDiabetes? || a.ActiveInflammation?
    requires multiset(Laboratory(s, NoFindings).alerts)[a] == n
    ensures multiset(Evaluate(s).alerts)[a] == n
  {
    AlertDomains(a);
    AlertsByOwner(s, a);
  }

  /** A recommendation of that domain is counted in the evaluation as often as that domain appends it. */
  lemma RecommendationFromLaboratory(s: Snapshot, r: Recommendation, n: int)
    requires r.VitaminDHighDose? || r.VitaminDModerateDose? || r.CabergolineAndWorkup? ||
          r.HigherProgesteroneSupport? || r.MetforminAndInositol? || r.ConsiderMetforminBorderline? ||
          r.InvestigateInflammation? || r.BVitamins? || r.AntioxidantProtocol?
    requires multiset(Laboratory(s, NoFindings).recommendations)[r] == n
    ensures multiset(Evaluate(s).recommendations)[r] == n
  {
    RecommendationDomains(r);
    RecommendationsByOwner(s, r);
  }

  /** An alert of the male-factor domain is counted in the evaluation as often as that domain appends it. */
  lemma AlertFromMaleFactor(s: Snapshot, a: Alert, n: int)
    requires a.SpermDnaFragmentation?
    requires multiset(MaleFactor(s, NoFindings).alerts)[a] == n
    ensures multiset(Evaluate(s).alerts)[a] == n
  {
    AlertDomains(a);
    AlertsByOwner(s, a);
  }

  /** A recommendation of that domain is counted in the evaluation as often as that domain appends it. */
  lemma RecommendationFromMaleFactor(s: Snapshot, r: Recommendation, n: int)
    requires r.MaleAntioxidants? || r.UrologicalEvaluation?
    requires multiset(MaleFactor(s, NoFindings).recommendations)[r] == n
    ensures multiset(Evaluate(s).recommendations)[r] == n
  {
    RecommendationDomains(r);
    RecommendationsByOwner(s, r);
  }

  lemma InsulinSensitivityEntries(h: Option<real>, diabetic: bool)
    ensures multiset(InsulinSensitivity(h, NoFindings).Alarm(diabetic, UncontrolledDiabetes).alerts)[InsulinResistance]
         == if HomaIrClass(h) == InsulinResistant then 1 else 0
    ensures multiset(InsulinSensitivity(h, NoFindings).recommendations)[MetforminAndInositol]
         == if HomaIrClass(h) == InsulinResistant then 1 else 0
    ensures multiset(InsulinSensitivity(h, NoFindings).recommendations)[ConsiderMetforminBorderline]
         == if HomaIrClass(h) == HomaIrBorderline then 1 else 0
  {
  }

  /** The hormone rules append prolactin and vitamin D and progesterone entries only. */
  lemma VitaminsAndHormonesVocabulary(s: Snapshot, a: Alert, r: Recommendation)
    ensures a != Hyperprolactinemia ==> multiset(VitaminsAndHormones(s, NoFindings).alerts)[a] == 0
    ensures !IsVitaminDAdvice(r) && r != CabergolineAndWorkup && r != HigherProgesteroneSupport
            ==> multiset(VitaminsAndHormones(s, NoFindings).recommendations)[r] == 0
  {
    VitaminsAndHormonesAmong(s);
  }

  lemma VitaminsAndHormonesAmong(s: Snapshot)
    ensures forall a :: a in VitaminsAndHormones(s, NoFindings).alerts ==> a == Hyperprolactinemia
    ensures forall r :: r in VitaminsAndHormones(s, NoFindings).recommendations
                    ==> IsVitaminDAdvice(r) || r == CabergolineAndWorkup || r == HigherProgesteroneSupport
  {
    VitaminDOwned(s.vitaminD);
  }

  /** The metabolism rules append the insulin-index and diabetes entries only. */
  lemma MetabolismVocabulary(s: Snapshot, a: Alert, r: Recommendation)
    ensures a != InsulinResistance && a != UncontrolledDiabetes ==> multiset(Metabolism(s, NoFindings).alerts)[a] == 0
    ensures r != MetforminAndInositol && r != ConsiderMetforminBorderline ==> multiset(Metabolism(s, NoFindings).recommendations)[r] == 0
  {
  }

  /** The inflammation and oxidation rules append the CRP, homocysteine and antioxidant entries only. */
  lemma InflammationAndOxidationVocabulary(s: Snapshot, a: Alert, r: Recommendation)
    ensures a != ActiveInflammation ==> multiset(InflammationAndOxidation(s, NoFindings).alerts)[a] == 0
    ensures r != InvestigateInflammation && r != BVitamins && r != AntioxidantProtocol
            ==> multiset(InflammationAndOxidation(s, NoFindings).recommendations)[r] == 0
  {
  }

  /** Within the laboratory domain, the index rules are the only ones that append these entries. */
  lemma LaboratoryInsulinEntries(s: Snapshot, r: Recommendation)
    requires r == MetforminAndInositol || r == ConsiderMetforminBorderline
    ensures multiset(Laboratory(s, NoFindings).alerts)[InsulinResistance]
         == multiset(Metabolism(s, NoFindings).alerts)[InsulinResistance]
    ensures multiset(Laboratory(s, NoFindings).recommendations)[r]
         == multiset(Metabolism(s, NoFindings).recommendations)[r]
  {
    VitaminsAndHormonesVocabulary(s, InsulinResistance, r);
    InflammationAndOxidationVocabulary(s, InsulinResistance, r);
    LaboratoryCounts(s, InsulinResistance, r);
  }

  lemma LaboratoryHomaIrEntries(s: Snapshot)
    ensures multiset(Laboratory(s, NoFindings).alerts)[InsulinResistance]
         == if HomaIrClass(HomaIrOf(s)) == InsulinResistant then 1 else 0
    ensures multiset(Laboratory(s, NoFindings).recommendations)[MetforminAndInositol]
         == if HomaIrClass(HomaIrOf(s)) == InsulinResistant then 1 else 0
    ensures multiset(Laboratory(s, NoFindings).recommendations)[ConsiderMetforminBorderline]
         == if HomaIrClass(HomaIrOf(s)) == HomaIrBorderline then 1 else 0
  {
    LaboratoryInsulinEntries(s, MetforminAndInositol);
    LaboratoryInsulinEntries(s, ConsiderMetforminBorderline);
    InsulinSensitivityEntries(HomaIrOf(s), s.glycemia >= 126);
  }

  /** The insulin-resistance alert is appended once when the index is above 2.5 and never otherwise. */
  lemma InsulinResistanceAlertCount(s: Snapshot)
    ensures multiset(Evaluate(s).alerts)[InsulinResistance] == if HomaIrClass(HomaIrOf(s)) == InsulinResistant then 1 else 0
  {
    LaboratoryHomaIrEntries(s);
    AlertFromLaboratory(s, InsulinResistance, if HomaIrClass(HomaIrOf(s)) == InsulinResistant then 1 else 0);
  }

  /** Metformin with inositol is recommended once when the index is above 2.5 and never otherwise. */
  lemma MetforminCount(s: Snapshot)
    ensures multiset(Evaluate(s).recommendations)[MetforminAndInositol] == if HomaIrClass(HomaIrOf(s)) == InsulinResistant then 1 else 0
  {
    LaboratoryHomaIrEntries(s);
    RecommendationFromLaboratory(s, MetforminAndInositol, if HomaIrClass(HomaIrOf(s)) == InsulinResistant then 1 else 0);
  }

  /** The borderline advice is given once when the index is above 1.9 up to 2.5 and never otherwise. */
  lemma BorderlineMetforminCount(s: Snapshot)
    ensures multiset(Evaluate(s).recommendations)[ConsiderMetforminBorderline] == if HomaIrClass(HomaIrOf(s)) == HomaIrBorderline then 1 else 0
  {
    LaboratoryHomaIrEntries(s);
    RecommendationFromLaboratory(s, ConsiderMetforminBorderline, if HomaIrClass(HomaIrOf(s)) == HomaIrBorderline then 1 else 0);
  }

  /** Without both operands the index is undefined and none of its three entries appears. */
  lemma UndefinedHomaIrSilent(s: Snapshot)
    requires s.glycemia <= 0 || s.insulin <= 0.0
    ensures InsulinResistance !in Evaluate(s).alerts
    ensures MetforminAndInositol !in Evaluate(s).recommendations
    ensures ConsiderMetforminBorderline !in Evaluate(s).recommendations
  {
    InsulinResistanceAlertCount(s);
    MetforminCount(s);
    BorderlineMetforminCount(s);
  }
}
