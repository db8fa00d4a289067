/**
 * The evaluation as the program runs it: two lists that every domain appends
 * to in place, and the flags the domains leave for the protocol assembler.
 * Each method is proved against the functions of Rules and Protocol
 * (Rules.Evaluate, Protocol.PlanFor and the domain functions they chain); the
 * ghost variable f in a method body holds those functions' lists after the
 * rules run so far.
 */
module Engine {
  import opened Wrappers
  import opened Inputs
  import opened Classifiers
  import opened Codes
  import opened Rules
  import opened Protocol
  import opened Lists
  import opened Properties

  /** The positive pathogens, collected in their fixed order. */
  method PositivePathogens(s: Snapshot) returns (pathogens: seq<Pathogen>)
    ensures pathogens == Infections(s)
  {
    pathogens := [];
    if s.ureaplasma == Positive {
      pathogens := pathogens + [Ureaplasma];
    }
    if s.mycoplasma == Positive {
      pathogens := pathogens + [Mycoplasma];
    }
    if s.chlamydia == Positive {
      pathogens := pathogens + [Chlamydia];
    }
  }

  /** The antiphospholipid criteria met, collected in their fixed order. */
  method MetSafCriteria(s: Snapshot) returns (criteria: seq<SafCriterion>)
    ensures criteria == SafCriteria(s)
  {
    criteria := [];
    if s.aclIgG > 40.0 {
      criteria := criteria + [AnticardiolipinIgG];
    }
    if s.aclIgM > 40.0 {
      criteria := criteria + [AnticardiolipinIgM];
    }
    if s.lupusAnticoagulant == Positive {
      criteria := criteria + [LupusAnticoagulant];
    }
    if s.b2gp1IgG > 40.0 {
      criteria := criteria + [AntiB2gp1IgG];
    }
    if s.b2gp1IgM > 40.0 {
      criteria := criteria + [AntiB2gp1IgM];
    }
  }

  /** The pending-investigations checklist, collected in its fixed order. */
  method CollectPendingInvestigations(s: Snapshot) returns (pending: seq<Investigation>)
    ensures pending == PendingInvestigations(s)
  {
    pending := [];
    ghost var p: seq<Investigation> := [];
    if !s.karyotypeDone {
      pending := pending + [CoupleKaryotype];
    }
    p := AppendIf(p, !s.karyotypeDone, CoupleKaryotype);
    assert pending == p;
    if !s.pgtADone && s.age >= 37 {
      pending := pending + [ConsiderPgtA];
    }
    p := AppendIf(p, !s.pgtADone && s.age >= 37, ConsiderPgtA);
    assert pending == p;
    if !s.thrombophiliaPanelDone {
      pending := pending + [FullThrombophiliaPanel];
    }
    p := AppendIf(p, !s.thrombophiliaPanelDone, FullThrombophiliaPanel);
    assert pending == p;
    if s.biopsy == BiopsyNotDone {
      pending := pending + [Cd138EndometrialBiopsy];
    }
    p := AppendIf(p, s.biopsy == BiopsyNotDone, Cd138EndometrialBiopsy);
    assert pending == p;
    if s.hysteroscopy == HysteroscopyNotDone {
      pending := pending + [DiagnosticHysteroscopy];
    }
    p := AppendIf(p, s.hysteroscopy == HysteroscopyNotDone, DiagnosticHysteroscopy);
    assert pending == p;
    if s.era == EraNotDone && s.failures >= 3 {
      pending := pending + [ConsiderEraTest];
    }
    p := AppendIf(p, s.era == EraNotDone && s.failures >= 3, ConsiderEraTest);
    assert pending == p;
    if s.ureaplasma == NotTested {
      pending := pending + [UreaplasmaMycoplasmaScreen];
    }
    p := AppendIf(p, s.ureaplasma == NotTested, UreaplasmaMycoplasmaScreen);
    assert pending == p;
    if s.dnaFragmentation == FragmentationNotDone {
      pending := pending + [SpermDnaFragmentationTest];
    }
    p := AppendIf(p, s.dnaFragmentation == FragmentationNotDone, SpermDnaFragmentationTest);
    assert pending == p;
    PendingInvestigationsSteps(s);
  }

  class Evaluation {
    var recommendations: seq<Recommendation>
    var alerts: seq<Alert>
    var thrombophiliaPresent: bool
    var endometritisDetected: bool
    var safCriteria: seq<SafCriterion>
    var nkElevated: bool
    var thyroidProblem: bool
    /** None while the index has not been bound. */
    var homaIr: Option<real>

    /** The two lists as they stand. */
    function Current(): Findings
      reads this
    {
      Findings(recommendations, alerts)
    }

    /** The state the protocol assembler reads, once all six domains have run on s. */
    ghost predicate Reflects(s: Snapshot)
      reads this
    {
      && Current() == Evaluate(s)
      && thrombophiliaPresent == ThrombophiliaPresent(s)
      && safCriteria == SafCriteria(s)
      && nkElevated == NkElevated(s)
      && thyroidProblem == ThyroidProblem(s)
      && homaIr == HomaIrOf(s)
    }

    constructor ()
      ensures recommendations == [] && alerts == []
    {
      recommendations := [];
      alerts := [];
      thrombophiliaPresent := false;
      endometritisDetected := false;
      safCriteria := [];
      nkElevated := false;
      thyroidProblem := false;
      homaIr := None;
    }

    // ------------------------------------------------------------ genetics

    /** The thrombophilia flag, set by either carrier test, and its rule. */
    method AddThrombophilia(s: Snapshot)
      modifies this`recommendations, this`alerts, this`thrombophiliaPresent
      ensures Current() == old(Current()).AlarmAndRecommend(ThrombophiliaPresent(s), ThrombophiliaDetected, ProphylacticAnticoagulation)
      ensures thrombophiliaPresent == ThrombophiliaPresent(s)
    {
      thrombophiliaPresent := false;
      if s.factorV == Heterozygous || s.factorV == Homozygous {
        thrombophiliaPresent := true;
      }
      if s.prothrombin == Heterozygous || s.prothrombin == Homozygous {
        thrombophiliaPresent := true;
      }
      if thrombophiliaPresent {
        alerts := alerts + [ThrombophiliaDetected];
        recommendations := recommendations + [ProphylacticAnticoagulation];
      }
    }

    method AddGenetics(s: Snapshot)
      modifies this`recommendations, this`alerts, this`thrombophiliaPresent
      ensures Current() == Genetics(s, old(Current()))
      ensures thrombophiliaPresent == ThrombophiliaPresent(s)
    {
      ghost var f := Current();
      if s.age >= 37 && !s.pgtADone {
        recommendations := recommendations + [PgtAStronglyRecommended];
      }
      f := f.Recommend(s.age >= 37 && !s.pgtADone, PgtAStronglyRecommended);
      assert Current() == f;
      if s.pgtAResult == AllAneuploid || s.pgtAResult == MostlyAneuploid {
        alerts := alerts + [HighAneuploidyRate];
      }
      f := f.Alarm(s.pgtAResult == AllAneuploid || s.pgtAResult == MostlyAneuploid, HighAneuploidyRate);
      assert Current() == f;
      AddThrombophilia(s);
      if s.hlaTyped && s.hlaSharedAlleles >= 2 {
        recommendations := recommendations + [ConsiderImmunotherapy];
      }
    }

    // ------------------------------------------------------------ infection

    method AddInfection(s: Snapshot)
      modifies this`recommendations, this`alerts, this`endometritisDetected
      ensures Current() == Infection(s, old(Current()))
      ensures endometritisDetected == EndometritisDetected(s)
    {
      ghost var f := Current();
      endometritisDetected := false;
      if s.biopsy == BiopsyPositive5To10 || s.biopsy == BiopsyPositiveAbove10 {
        endometritisDetected := true;
        alerts := alerts + [ChronicEndometritis];
        recommendations := recommendations + [AntibioticsAndRepeatBiopsy];
      } else if s.hysteroscopy == Micropolyps || s.hysteroscopy == FocalHyperemia || s.hysteroscopy == StromalEdema {
        recommendations := recommendations + [PerformCd138Biopsy];
      }
      f := if EndometritisDetected(s) then f.AlarmAndRecommend(true, ChronicEndometritis, AntibioticsAndRepeatBiopsy)
           else f.Recommend(SuggestiveHysteroscopy(s.hysteroscopy), PerformCd138Biopsy);
      assert Current() == f;
      var pathogens := PositivePathogens(s);
      if |pathogens| > 0 {
        alerts := alerts + [InfectionDetected(pathogens)];
        recommendations := recommendations + [AntimicrobialTreatment];
      }
      f := f.AlarmAndRecommend(Infections(s) != [], InfectionDetected(Infections(s)), AntimicrobialTreatment);
      assert Current() == f;
      if s.microbiome == LactobacillusBelow50 {
        recommendations := recommendations + [VaginalProbiotics];
      }
    }

    // ------------------------------------------------------------ immunology and thyroid

    method AddAntiphospholipid(s: Snapshot)
      modifies this`recommendations, this`alerts, this`safCriteria
      ensures Current() == old(Current()).AlarmAndRecommend(SafCriteria(s) != [], AntiphospholipidSyndrome, SafProtocol)
      ensures safCriteria == SafCriteria(s)
    {
      safCriteria := MetSafCriteria(s);
      if |safCriteria| > 0 {
        alerts := alerts + [AntiphospholipidSyndrome];
        recommendations := recommendations + [SafProtocol];
      }
    }

    /** The NK flag, set by either NK measurement, and its rule. */
    method AddNaturalKiller(s: Snapshot)
      modifies this`recommendations, this`nkElevated
      ensures Current() == old(Current()).Recommend(NkElevated(s), DiscussPrednisoneForNk)
      ensures nkElevated == NkElevated(s)
    {
      nkElevated := false;
      if s.nkPeripheral > 18.0 {
        nkElevated := true;
      }
      if s.nkEndometrial == NkModeratelyRaised || s.nkEndometrial == NkVeryRaised {
        nkElevated := true;
      }
      if nkElevated {
        recommendations := recommendations + [DiscussPrednisoneForNk];
      }
    }

    /** The thyroid flag, set by TSH outside its target or by anti-TPO, and its rule. */
    method AddThyroid(s: Snapshot)
      modifies this`recommendations, this`alerts, this`thyroidProblem
      ensures Current() == old(Current()).AlarmAndRecommend(ThyroidProblem(s), ThyroidDysfunction, ThyroidOptimisation)
      ensures thyroidProblem == ThyroidProblem(s)
    {
      thyroidProblem := false;
      if s.tsh > 2.5 {
        thyroidProblem := true;
      }
      if s.tsh < 0.5 {
        thyroidProblem := true;
      }
      if s.antiTpo == TpoPositive || s.antiTpo == TpoVeryHigh {
        thyroidProblem := true;
      }
      if thyroidProblem {
        alerts := alerts + [ThyroidDysfunction];
        recommendations := recommendations + [ThyroidOptimisation];
      }
    }

    method AddImmunology(s: Snapshot)
      modifies this`recommendations, this`alerts, this`safCriteria, this`nkElevated, this`thyroidProblem
      ensures Current() == Immunology(s, old(Current()))
      ensures safCriteria == SafCriteria(s)
      ensures nkElevated == NkElevated(s)
      ensures thyroidProblem == ThyroidProblem(s)
    {
      AddAntiphospholipid(s);
      ghost var f := Current();
      if s.ana == Ana1To160 || s.ana == Ana1To320 || s.ana == AnaAbove1To320 || s.antiDsDna == Positive {
        recommendations := recommendations + [RheumatologyReferral];
      }
      assert Current() == f.Recommend(AutoimmuneMarkers(s), RheumatologyReferral);
      AddNaturalKiller(s);
      AddThyroid(s);
    }

    // ------------------------------------------------------------ anatomy and receptivity

    /** One step of the visit: the alteration's surgery or treatment is appended, and a hydrosalpinx alerts. */
    method VisitAlteration(alt: Alteration, surgeries: seq<Surgery>, treatments: seq<ClinicalTreatment>)
      returns (surgeries': seq<Surgery>, treatments': seq<ClinicalTreatment>)
      modifies this`alerts
      ensures surgeries' == surgeries + OptionToSeq(SurgeryFor(alt))
      ensures treatments' == treatments + OptionToSeq(TreatmentFor(alt))
      ensures alerts == old(alerts) + (if IsHydrosalpinx(alt) then [HydrosalpinxSalpingectomy] else [])
    {
      surgeries', treatments' := surgeries, treatments;
      if alt == EndometrialPolyp {
        surgeries' := surgeries' + [HysteroscopicPolypectomy];
      } else if alt == SubmucousMyoma {
        surgeries' := surgeries' + [HysteroscopicMyomectomy];
      } else if alt == IntramuralMyomaNearEndometrium {
        surgeries' := surgeries' + [LaparoscopicOrOpenMyomectomy];
      } else if alt == UterineSeptum {
        surgeries' := surgeries' + [HysteroscopicSeptoplasty];
      } else if alt == AshermanSynechiae {
        surgeries' := surgeries' + [HysteroscopicAdhesiolysis];
      } else if alt == HydrosalpinxUnilateral || alt == HydrosalpinxBilateral {
        surgeries' := surgeries' + [LaparoscopicSalpingectomy];
        alerts := alerts + [HydrosalpinxSalpingectomy];
      } else if alt == AdenomyosisFocal || alt == AdenomyosisDiffuse {
        treatments' := treatments' + [GnrhAnaloguePretreatment];
      }
    }

    /**
     * Visits the selected alterations in order, collecting surgeries and
     * clinical treatments and alerting once per hydrosalpinx entry.
     */
    method VisitAlterations(alts: seq<Alteration>) returns (surgeries: seq<Surgery>, treatments: seq<ClinicalTreatment>)
      modifies this`alerts
      ensures surgeries == Surgeries(alts) && treatments == Treatments(alts)
      ensures alerts == old(alerts) + HydrosalpinxAlerts(alts)
    {
      surgeries := [];
      treatments := [];
      for i := 0 to |alts|
        invariant surgeries == Surgeries(alts[..i])
        invariant treatments == Treatments(alts[..i])
        invariant alerts == old(alerts) + HydrosalpinxAlerts(alts[..i])
      {
        VisitOneMore(alts, i);
        ghost var before := alerts;
        surgeries, treatments := VisitAlteration(alts[i], surgeries, treatments);
        ghost var step := if IsHydrosalpinx(alts[i]) then [HydrosalpinxSalpingectomy] else [];
        assert alerts == before + step;
        assert (old(alerts) + HydrosalpinxAlerts(alts[..i])) + step == old(alerts) + (HydrosalpinxAlerts(alts[..i]) + step);
      }
      assert alts[..|alts|] == alts;
    }

    /** Recommends every collected surgery, in order. */
    method RecommendSurgeries(surgeries: seq<Surgery>)
      modifies this`recommendations
      ensures recommendations == old(recommendations) + SurgeryRecommendations(surgeries)
    {
      for j := 0 to |surgeries|
        invariant recommendations == old(recommendations) + SurgeryRecommendations(surgeries[..j])
      {
        assert SurgeryRecommendations(surgeries[..j + 1])
            == SurgeryRecommendations(surgeries[..j]) + [SurgeryRequired(surgeries[j])];
        recommendations := recommendations + [SurgeryRequired(surgeries[j])];
      }
      assert surgeries[..|surgeries|] == surgeries;
    }

    /** Recommends every collected clinical treatment, in order. */
    method RecommendTreatments(treatments: seq<ClinicalTreatment>)
      modifies this`recommendations
      ensures recommendations == old(recommendations) + TreatmentRecommendations(treatments)
    {
      for j := 0 to |treatments|
        invariant recommendations == old(recommendations) + TreatmentRecommendations(treatments[..j])
      {
        assert TreatmentRecommendations(treatments[..j + 1])
            == TreatmentRecommendations(treatments[..j]) + [ClinicalTreatmentRequired(treatments[j])];
        recommendations := recommendations + [ClinicalTreatmentRequired(treatments[j])];
      }
      assert treatments[..|treatments|] == treatments;
    }

    /** The visit, then every surgery recommended, then every clinical treatment. */
    method AddAlterations(alts: seq<Alteration>)
      modifies this`recommendations, this`alerts
      ensures Current() == AlterationFindings(alts, old(Current()))
    {
      var surgeries, treatments := VisitAlterations(alts);
      RecommendSurgeries(surgeries);
      RecommendTreatments(treatments);
    }

    method AddAnatomy(s: Snapshot)
      modifies this`recommendations, this`alerts
      ensures Current() == Anatomy(s, old(Current()))
    {
      AddAlterations(s.alterations);
      ghost var f := Current();
      if s.thickness < 7.0 {
        alerts := alerts + [ThinEndometriumAlert];
        recommendations := recommendations + [ThinEndometriumProtocol];
      } else if s.thickness >= 7.0 && s.thickness < 9.0 {
        recommendations := recommendations + [AddVaginalEstradiol];
      }
      f := EndometrialThickness(s.thickness, f);
      assert Current() == f;
      if s.era == PreReceptive {
        alerts := alerts + [EraPreReceptiveWindow];
        recommendations := recommendations + [EraDelayTransfer];
      } else if s.era == PostReceptive {
        alerts := alerts + [EraPostReceptiveWindow];
        recommendations := recommendations + [EraAdvanceTransfer];
      }
    }

    // ------------------------------------------------------------ laboratory

    method AddVitaminsAndHormones(s: Snapshot)
      modifies this`recommendations, this`alerts
      ensures Current() == VitaminsAndHormones(s, old(Current()))
    {
      ghost var f := Current();
      if s.vitaminD < 20.0 {
        recommendations := recommendations + [VitaminDHighDose(s.vitaminD)];
      } else if s.vitaminD < 30.0 {
        recommendations := recommendations + [VitaminDModerateDose(s.vitaminD)];
      }
      f := VitaminD(s.vitaminD, f);
      assert Current() == f;
      if s.prolactin > 25.0 {
        alerts := alerts + [Hyperprolactinemia];
        recommendations := recommendations + [CabergolineAndWorkup];
      }
      f := f.AlarmAndRecommend(s.prolactin > 25.0, Hyperprolactinemia, CabergolineAndWorkup);
      assert Current() == f;
      if s.progesterone < 10.0 {
        recommendations := recommendations + [HigherProgesteroneSupport];
      }
    }

    /** Binds the index only when both operands are positive, then applies its rules and the glucose alert. */
    method AddMetabolism(s: Snapshot)
      modifies this`recommendations, this`alerts, this`homaIr
      ensures Current() == Metabolism(s, old(Current()))
      ensures homaIr == HomaIrOf(s)
    {
      ghost var f := Current();
      homaIr := None;
      if s.glycemia > 0 && s.insulin > 0.0 {
        var h := HomaIrValue(s.glycemia, s.insulin);
        homaIr := Some(h);
        if h > 2.5 {
          alerts := alerts + [InsulinResistance];
          recommendations := recommendations + [MetforminAndInositol];
        } else if h > 1.9 {
          recommendations := recommendations + [ConsiderMetforminBorderline];
        }
      }
      assert homaIr == HomaIr(s.glycemia, s.insulin);
      f := InsulinSensitivity(HomaIrOf(s), f);
      assert Current() == f;
      if s.glycemia >= 126 {
        alerts := alerts + [UncontrolledDiabetes];
      }
    }

    method AddInflammationAndOxidation(s: Snapshot)
      modifies this`recommendations, this`alerts
      ensures Current() == InflammationAndOxidation(s, old(Current()))
    {
      ghost var f := Current();
      if s.crp > 10.0 {
        alerts := alerts + [ActiveInflammation];
      } else if s.crp > 3.0 {
        recommendations := recommendations + [InvestigateInflammation];
      }
      f := Inflammation(s.crp, f);
      assert Current() == f;
      if s.homocysteine > 15.0 {
        recommendations := recommendations + [BVitamins];
      }
      f := f.Recommend(s.homocysteine > 15.0, BVitamins);
      assert Current() == f;
      if s.antioxidantOptIn || s.age >= 37 {
        if s.age >= 37 {
          recommendations := recommendations + [AntioxidantProtocol];
        }
      }
    }

    method AddLaboratory(s: Snapshot)
      modifies this`recommendations, this`alerts, this`homaIr
      ensures Current() == Laboratory(s, old(Current()))
      ensures homaIr == HomaIrOf(s)
    {
      AddVitaminsAndHormones(s);
      AddMetabolism(s);
      AddInflammationAndOxidation(s);
    }

    // ------------------------------------------------------------ male factor

    method AddMaleFactor(s: Snapshot)
      modifies this`recommendations, this`alerts
      ensures Current() == MaleFactor(s, old(Current()))
    {
      ghost var f := Current();
      if s.dnaFragmentation == Fragmentation25To30 || s.dnaFragmentation == FragmentationAbove30 {
        alerts := alerts + [SpermDnaFragmentation];
        recommendations := recommendations + [MaleAntioxidants];
      }
      f := f.AlarmAndRecommend(HighDnaFragmentation(s.dnaFragmentation), SpermDnaFragmentation, MaleAntioxidants);
      assert Current() == f;
      if s.semen != SemenNotDone && s.semen != SemenNormal {
        recommendations := recommendations + [UrologicalEvaluation];
      }
    }

    // ------------------------------------------------------------ the whole run

    /** Genetics, infection, then immunology and thyroid, on top of the current lists. */
    method AddClinicalDomains(s: Snapshot)
      modifies this`recommendations, this`alerts, this`thrombophiliaPresent, this`endometritisDetected,
               this`safCriteria, this`nkElevated, this`thyroidProblem
      ensures Current() == Immunology(s, Infection(s, Genetics(s, old(Current()))))
      ensures thrombophiliaPresent == ThrombophiliaPresent(s)
      ensures safCriteria == SafCriteria(s)
      ensures nkElevated == NkElevated(s)
      ensures thyroidProblem == ThyroidProblem(s)
    {
      AddGenetics(s);
      AddInfection(s);
      AddImmunology(s);
    }

    /** Anatomy, laboratory, then male factor, on top of the current lists. */
    method AddRemainingDomains(s: Snapshot)
      modifies this`recommendations, this`alerts, this`homaIr
      ensures Current() == MaleFactor(s, Laboratory(s, Anatomy(s, old(Current()))))
      ensures homaIr == HomaIrOf(s)
    {
      AddAnatomy(s);
      AddLaboratory(s);
      AddMaleFactor(s);
    }

    /** Runs the six domains in their fixed order on a fresh evaluation. */
    method EvaluateAll(s: Snapshot)
      requires recommendations == [] && alerts == []
      modifies this
      ensures Reflects(s)
    {
      AddClinicalDomains(s);
      AddRemainingDomains(s);
      RunInTurnIsEvaluate(s);
    }

    /**
     * Collects the pending investigations, then lays out the five phases from
     * the form and from the state the domains left.
     */
    method AssemblePlan(s: Snapshot) returns (plan: Plan)
      requires Reflects(s)
      ensures plan == PlanFor(s)
    {
      var pending := CollectPendingInvestigations(s);
      var context := Context(pending, |alerts| > 0, thrombophiliaPresent, safCriteria, nkElevated, thyroidProblem, homaIr);
      plan := PlanFrom(s, context);
    }
  }

  /** One full run of the program on one snapshot: both lists and the plan. */
  method RunEvaluation(s: Snapshot) returns (recommendations: seq<Recommendation>, alerts: seq<Alert>, plan: Plan)
    ensures Findings(recommendations, alerts) == Evaluate(s)
    ensures plan == PlanFor(s)
  {
    var evaluation := new Evaluation();
    evaluation.EvaluateAll(s);
    plan := evaluation.AssemblePlan(s);
    recommendations := evaluation.recommendations;
    alerts := evaluation.alerts;
  }
}
