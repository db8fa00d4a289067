/**
 * What each rule contributes to one evaluation, counted entry by entry, and how
 * the plan agrees with the lists. Each count is first taken inside the domain
 * that owns the entry and then carried to the whole evaluation by
 * the AlertFrom and RecommendationFrom lemmas of each domain.
 */
module Clinical {
  import opened Wrappers
  import opened Inputs
  import opened Classifiers
  import opened Codes
  import opened Rules
  import opened Protocol
  import opened Lists
  import opened Properties

  // ---------------------------------------------------------------- genetics

  lemma GeneticsThrombophiliaEntries(s: Snapshot)
    ensures multiset(Genetics(s, NoFindings).alerts)[ThrombophiliaDetected] == if ThrombophiliaPresent(s) then 1 else 0
    ensures multiset(Genetics(s, NoFindings).recommendations)[ProphylacticAnticoagulation] == if ThrombophiliaPresent(s) then 1 else 0
  {
  }

  /** A Factor V Leiden or prothrombin carrier raises the thrombophilia alert exactly once; otherwise it is absent. */
  lemma ThrombophiliaAlertCount(s: Snapshot)
    ensures multiset(Evaluate(s).alerts)[ThrombophiliaDetected] == if ThrombophiliaPresent(s) then 1 else 0
  {
    GeneticsThrombophiliaEntries(s);
    AlertFromGenetics(s, ThrombophiliaDetected, if ThrombophiliaPresent(s) then 1 else 0);
  }

  /** The same carriers get prophylactic anticoagulation recommended exactly once. */
  lemma AnticoagulationAdviceCount(s: Snapshot)
    ensures multiset(Evaluate(s).recommendations)[ProphylacticAnticoagulation] == if ThrombophiliaPresent(s) then 1 else 0
  {
    GeneticsThrombophiliaEntries(s);
    RecommendationFromGenetics(s, ProphylacticAnticoagulation, if ThrombophiliaPresent(s) then 1 else 0);
  }

  lemma GeneticsAneuploidyEntries(s: Snapshot)
    ensures multiset(Genetics(s, NoFindings).alerts)[HighAneuploidyRate]
         == if s.pgtAResult == AllAneuploid || s.pgtAResult == MostlyAneuploid then 1 else 0
  {
  }

  /** A PGT-A result with all or most embryos aneuploid raises the aneuploidy alert exactly once. */
  lemma AneuploidyAlertCount(s: Snapshot)
    ensures multiset(Evaluate(s).alerts)[HighAneuploidyRate]
         == if s.pgtAResult == AllAneuploid || s.pgtAResult == MostlyAneuploid then 1 else 0
  {
    GeneticsAneuploidyEntries(s);
    AlertFromGenetics(s, HighAneuploidyRate, if s.pgtAResult == AllAneuploid || s.pgtAResult == MostlyAneuploid then 1 else 0);
  }

  lemma GeneticsAdviceEntries(s: Snapshot)
    ensures multiset(Genetics(s, NoFindings).recommendations)[PgtAStronglyRecommended] == if s.age >= 37 && !s.pgtADone then 1 else 0
    ensures multiset(Genetics(s, NoFindings).recommendations)[ConsiderImmunotherapy]
         == if s.hlaTyped && s.hlaSharedAlleles >= 2 then 1 else 0
  {
  }

  /** A patient of 37 or more without a PGT-A gets it strongly recommended exactly once. */
  lemma PgtAAdviceCount(s: Snapshot)
    ensures multiset(Evaluate(s).recommendations)[PgtAStronglyRecommended] == if s.age >= 37 && !s.pgtADone then 1 else 0
  {
    GeneticsAdviceEntries(s);
    RecommendationFromGenetics(s, PgtAStronglyRecommended, if s.age >= 37 && !s.pgtADone then 1 else 0);
  }

  /** An HLA typing with two or more shared alleles has immunotherapy considered exactly once. */
  lemma ImmunotherapyAdviceCount(s: Snapshot)
    ensures multiset(Evaluate(s).recommendations)[ConsiderImmunotherapy] == if s.hlaTyped && s.hlaSharedAlleles >= 2 then 1 else 0
  {
    GeneticsAdviceEntries(s);
    RecommendationFromGenetics(s, ConsiderImmunotherapy, if s.hlaTyped && s.hlaSharedAlleles >= 2 then 1 else 0);
  }

  // ---------------------------------------------------------------- endometrial thickness and receptivity

  /** The anatomy entries that only the thickness and receptivity rules append. */
  predicate ReceptivityAlert(a: Alert)
  {
    a == ThinEndometriumAlert || a == EraPreReceptiveWindow || a == EraPostReceptiveWindow
  }

  predicate ReceptivityRecommendation(r: Recommendation)
  {
    r == ThinEndometriumProtocol || r == AddVaginalEstradiol || r == EraDelayTransfer || r == EraAdvanceTransfer
  }

  /** Within the anatomy domain, a receptivity entry is counted in the thickness and receptivity blocks alone. */
  lemma AnatomyReceptivityEntries(s: Snapshot, a: Alert, r: Recommendation)
    requires ReceptivityAlert(a) && ReceptivityRecommendation(r)
    ensures multiset(Anatomy(s, NoFindings).alerts)[a]
         == multiset(EndometrialThickness(s.thickness, NoFindings).alerts)[a] + multiset(EraTiming(s.era, NoFindings).alerts)[a]
    ensures multiset(Anatomy(s, NoFindings).recommendations)[r]
         == multiset(EndometrialThickness(s.thickness, NoFindings).recommendations)[r]
            + multiset(EraTiming(s.era, NoFindings).recommendations)[r]
  {
    AnatomyParts(s);
    var visit := AlterationFindings(s.alterations, NoFindings);
    AlterationsOwned(s.alterations);
    assert a !in visit.alerts && r !in visit.recommendations;
    CountInThree(visit, EndometrialThickness(s.thickness, NoFindings), EraTiming(s.era, NoFindings), a, r);
  }

  lemma EraTimingEntries(e: EraResult)
    ensures multiset(EraTiming(e, NoFindings).alerts)[EraPreReceptiveWindow] == if e == PreReceptive then 1 else 0
    ensures multiset(EraTiming(e, NoFindings).alerts)[EraPostReceptiveWindow] == if e == PostReceptive then 1 else 0
    ensures multiset(EraTiming(e, NoFindings).alerts)[ThinEndometriumAlert] == 0
    ensures multiset(EraTiming(e, NoFindings).recommendations)[EraDelayTransfer] == if e == PreReceptive then 1 else 0
    ensures multiset(EraTiming(e, NoFindings).recommendations)[EraAdvanceTransfer] == if e == PostReceptive then 1 else 0
    ensures multiset(EraTiming(e, NoFindings).recommendations)[ThinEndometriumProtocol] == 0
    ensures multiset(EraTiming(e, NoFindings).recommendations)[AddVaginalEstradiol] == 0
  {
  }

  lemma EndometrialThicknessEntries(mm: real)
    ensures multiset(EndometrialThickness(mm, NoFindings).alerts)[ThinEndometriumAlert] == if mm < 7.0 then 1 else 0
    ensures multiset(EndometrialThickness(mm, NoFindings).alerts)[EraPreReceptiveWindow] == 0
    ensures multiset(EndometrialThickness(mm, NoFindings).alerts)[EraPostReceptiveWindow] == 0
    ensures multiset(EndometrialThickness(mm, NoFindings).recommendations)[ThinEndometriumProtocol] == if mm < 7.0 then 1 else 0
    ensures multiset(EndometrialThickness(mm, NoFindings).recommendations)[AddVaginalEstradiol] == if 7.0 <= mm < 9.0 then 1 else 0
    ensures multiset(EndometrialThickness(mm, NoFindings).recommendations)[EraDelayTransfer] == 0
    ensures multiset(EndometrialThickness(mm, NoFindings).recommendations)[EraAdvanceTransfer] == 0
  {
  }

  lemma AnatomyPreReceptive(s: Snapshot)
    ensures multiset(Anatomy(s, NoFindings).alerts)[EraPreReceptiveWindow] == if s.era == PreReceptive then 1 else 0
    ensures multiset(Anatomy(s, NoFindings).recommendations)[EraDelayTransfer] == if s.era == PreReceptive then 1 else 0
  {
    AnatomyReceptivityEntries(s, EraPreReceptiveWindow, EraDelayTransfer);
    EraTimingEntries(s.era);
    EndometrialThicknessEntries(s.thickness);
  }

  lemma AnatomyPostReceptive(s: Snapshot)
    ensures multiset(Anatomy(s, NoFindings).alerts)[EraPostReceptiveWindow] == if s.era == PostReceptive then 1 else 0
    ensures multiset(Anatomy(s, NoFindings).recommendations)[EraAdvanceTransfer] == if s.era == PostReceptive then 1 else 0
  {
    AnatomyReceptivityEntries(s, EraPostReceptiveWindow, EraAdvanceTransfer);
    EraTimingEntries(s.era);
    EndometrialThicknessEntries(s.thickness);
  }

  lemma AnatomyThin(s: Snapshot)
    ensures multiset(Anatomy(s, NoFindings).alerts)[ThinEndometriumAlert] == if s.thickness < 7.0 then 1 else 0
    ensures multiset(Anatomy(s, NoFindings).recommendations)[ThinEndometriumProtocol] == if s.thickness < 7.0 then 1 else 0
  {
    AnatomyReceptivityEntries(s, ThinEndometriumAlert, ThinEndometriumProtocol);
    EraTimingEntries(s.era);
    EndometrialThicknessEntries(s.thickness);
  }

  lemma AnatomyBorderlineThickness(s: Snapshot)
    ensures multiset(Anatomy(s, NoFindings).recommendations)[AddVaginalEstradiol] == if 7.0 <= s.thickness < 9.0 then 1 else 0
  {
    AnatomyReceptivityEntries(s, ThinEndometriumAlert, AddVaginalEstradiol);
    EraTimingEntries(s.era);
    EndometrialThicknessEntries(s.thickness);
  }

  /** An ERA test reading pre-receptive raises its alert exactly once; any other reading never does. */
  lemma PreReceptiveAlertCount(s: Snapshot)
    ensures multiset(Evaluate(s).alerts)[EraPreReceptiveWindow] == if s.era == PreReceptive then 1 else 0
  {
    AnatomyPreReceptive(s);
    AlertFromAnatomy(s, EraPreReceptiveWindow, if s.era == PreReceptive then 1 else 0);
  }

  /** An ERA test reading post-receptive raises its alert exactly once; any other reading never does. */
  lemma PostReceptiveAlertCount(s: Snapshot)
    ensures multiset(Evaluate(s).alerts)[EraPostReceptiveWindow] == if s.era == PostReceptive then 1 else 0
  {
    AnatomyPostReceptive(s);
    AlertFromAnatomy(s, EraPostReceptiveWindow, if s.era == PostReceptive then 1 else 0);
  }

  /** A pre-receptive window has the transfer delayed exactly once. */
  lemma DelayTransferCount(s: Snapshot)
    ensures multiset(Evaluate(s).recommendations)[EraDelayTransfer] == if s.era == PreReceptive then 1 else 0
  {
    AnatomyPreReceptive(s);
    RecommendationFromAnatomy(s, EraDelayTransfer, if s.era == PreReceptive then 1 else 0);
  }

  /** A post-receptive window has the transfer advanced exactly once. */
  lemma AdvanceTransferCount(s: Snapshot)
    ensures multiset(Evaluate(s).recommendations)[EraAdvanceTransfer] == if s.era == PostReceptive then 1 else 0
  {
    AnatomyPostReceptive(s);
    RecommendationFromAnatomy(s, EraAdvanceTransfer, if s.era == PostReceptive then 1 else 0);
  }

  /** The transfer-day phase moves the transfer later for a pre-receptive window, earlier for a post-receptive one, never both. */
  lemma TransferDayTiming(s: Snapshot, c: Context)
    ensures TransferLater in TransferDay(s, c) <==> s.era == PreReceptive
    ensures TransferEarlier in TransferDay(s, c) <==> s.era == PostReceptive
  {
  }

  /** The plan moves the transfer exactly as the receptivity alerts say. */
  lemma TransferTiming(s: Snapshot)
    ensures TransferLater in PlanFor(s).transferDay <==> EraPreReceptiveWindow in Evaluate(s).alerts
    ensures TransferEarlier in PlanFor(s).transferDay <==> EraPostReceptiveWindow in Evaluate(s).alerts
  {
    PreReceptiveAlertCount(s);
    PostReceptiveAlertCount(s);
    TransferDayTiming(s, ContextOf(s));
  }

  /** No input has both receptivity alerts raised, nor the transfer moved both ways. */
  lemma ReceptivityOneWay(s: Snapshot)
    ensures !(EraPreReceptiveWindow in Evaluate(s).alerts && EraPostReceptiveWindow in Evaluate(s).alerts)
    ensures !(TransferLater in PlanFor(s).transferDay && TransferEarlier in PlanFor(s).transferDay)
  {
    PreReceptiveAlertCount(s);
    PostReceptiveAlertCount(s);
    TransferTiming(s);
  }

  /** An endometrium under 7 mm raises the thin-endometrium alert exactly once. */
  lemma ThinEndometriumAlertCount(s: Snapshot)
    ensures multiset(Evaluate(s).alerts)[ThinEndometriumAlert] == if s.thickness < 7.0 then 1 else 0
  {
    AnatomyThin(s);
    AlertFromAnatomy(s, ThinEndometriumAlert, if s.thickness < 7.0 then 1 else 0);
  }

  /** An endometrium under 7 mm gets the thin-endometrium protocol recommended exactly once. */
  lemma ThinEndometriumProtocolCount(s: Snapshot)
    ensures multiset(Evaluate(s).recommendations)[ThinEndometriumProtocol] == if s.thickness < 7.0 then 1 else 0
  {
    AnatomyThin(s);
    RecommendationFromAnatomy(s, ThinEndometriumProtocol, if s.thickness < 7.0 then 1 else 0);
  }

  /** From 7 mm up to but excluding 9 mm, vaginal estradiol is added exactly once. */
  lemma VaginalEstradiolCount(s: Snapshot)
    ensures multiset(Evaluate(s).recommendations)[AddVaginalEstradiol] == if 7.0 <= s.thickness < 9.0 then 1 else 0
  {
    AnatomyBorderlineThickness(s);
    RecommendationFromAnatomy(s, AddVaginalEstradiol, if 7.0 <= s.thickness < 9.0 then 1 else 0);
  }

  /** The preparation phase carries the thin-endometrium checklist exactly when the alert was raised. */
  lemma ThinEndometriumInPlan(s: Snapshot)
    ensures ThinEndometriumChecklist in PlanFor(s).endometrialPrep <==> ThinEndometriumAlert in Evaluate(s).alerts
  {
    ThinEndometriumAlertCount(s);
    PrepChecklist(s, ContextOf(s));
  }

  lemma PrepChecklist(s: Snapshot, c: Context)
    ensures ThinEndometriumChecklist in EndometrialPrep(s, c) <==> s.thickness < 7.0
  {
  }

  // ---------------------------------------------------------------- infection

  lemma InfectionEndometritisEntries(s: Snapshot)
    ensures multiset(Infection(s, NoFindings).alerts)[ChronicEndometritis] == if EndometritisDetected(s) then 1 else 0
    ensures multiset(Infection(s, NoFindings).recommendations)[PerformCd138Biopsy]
         == if !EndometritisDetected(s) && SuggestiveHysteroscopy(s.hysteroscopy) then 1 else 0
  {
  }

  lemma InfectionPathogenEntries(s: Snapshot, ps: seq<Pathogen>)
    ensures multiset(Infection(s, NoFindings).alerts)[InfectionDetected(ps)] == if ps == Infections(s) && ps != [] then 1 else 0
  {
  }

  /** A CD138 biopsy positive for plasma cells raises the chronic-endometritis alert exactly once. */
  lemma EndometritisAlertCount(s: Snapshot)
    ensures multiset(Evaluate(s).alerts)[ChronicEndometritis] == if EndometritisDetected(s) then 1 else 0
  {
    InfectionEndometritisEntries(s);
    AlertFromInfection(s, ChronicEndometritis, if EndometritisDetected(s) then 1 else 0);
  }

  /** A biopsy is asked for exactly once when it found no endometritis and the hysteroscopy was suggestive. */
  lemma BiopsyAdviceCount(s: Snapshot)
    ensures multiset(Evaluate(s).recommendations)[PerformCd138Biopsy]
         == if !EndometritisDetected(s) && SuggestiveHysteroscopy(s.hysteroscopy) then 1 else 0
  {
    InfectionEndometritisEntries(s);
    RecommendationFromInfection(s, PerformCd138Biopsy, if !EndometritisDetected(s) && SuggestiveHysteroscopy(s.hysteroscopy) then 1 else 0);
  }

  /** The infection alert is raised once, naming exactly the positive pathogens in their fixed order, and only if there is one. */
  lemma InfectionAlertCount(s: Snapshot, ps: seq<Pathogen>)
    ensures multiset(Evaluate(s).alerts)[InfectionDetected(ps)] == if ps == Infections(s) && ps != [] then 1 else 0
  {
    InfectionPathogenEntries(s, ps);
    AlertFromInfection(s, InfectionDetected(ps), if ps == Infections(s) && ps != [] then 1 else 0);
  }

  lemma InfectionTreatmentEntries(s: Snapshot)
    ensures multiset(Infection(s, NoFindings).recommendations)[AntibioticsAndRepeatBiopsy] == if EndometritisDetected(s) then 1 else 0
    ensures multiset(Infection(s, NoFindings).recommendations)[AntimicrobialTreatment] == if Infections(s) != [] then 1 else 0
    ensures multiset(Infection(s, NoFindings).recommendations)[VaginalProbiotics]
         == if s.microbiome == LactobacillusBelow50 then 1 else 0
  {
  }

  /** Chronic endometritis has antibiotics and a repeat biopsy recommended exactly once. */
  lemma AntibioticsAdviceCount(s: Snapshot)
    ensures multiset(Evaluate(s).recommendations)[AntibioticsAndRepeatBiopsy] == if EndometritisDetected(s) then 1 else 0
  {
    InfectionTreatmentEntries(s);
    RecommendationFromInfection(s, AntibioticsAndRepeatBiopsy, if EndometritisDetected(s) then 1 else 0);
  }

  /** Any positive pathogen has antimicrobial treatment recommended exactly once, however many were found. */
  lemma AntimicrobialAdviceCount(s: Snapshot)
    ensures multiset(Evaluate(s).recommendations)[AntimicrobialTreatment] == if Infections(s) != [] then 1 else 0
  {
    InfectionTreatmentEntries(s);
    RecommendationFromInfection(s, AntimicrobialTreatment, if Infections(s) != [] then 1 else 0);
  }

  /** A microbiome under 50% lactobacilli has vaginal probiotics recommended exactly once. */
  lemma ProbioticsAdviceCount(s: Snapshot)
    ensures multiset(Evaluate(s).recommendations)[VaginalProbiotics] == if s.microbiome == LactobacillusBelow50 then 1 else 0
  {
    InfectionTreatmentEntries(s);
    RecommendationFromInfection(s, VaginalProbiotics, if s.microbiome == LactobacillusBelow50 then 1 else 0);
  }

  // ---------------------------------------------------------------- immunology and thyroid

  lemma ImmunologySafEntries(s: Snapshot)
    ensures multiset(Immunology(s, NoFindings).alerts)[AntiphospholipidSyndrome] == if SafCriteria(s) != [] then 1 else 0
    ensures multiset(Immunology(s, NoFindings).recommendations)[SafProtocol] == if SafCriteria(s) != [] then 1 else 0
  {
  }

  lemma ImmunologyThyroidEntries(s: Snapshot)
    ensures multiset(Immunology(s, NoFindings).alerts)[ThyroidDysfunction] == if ThyroidProblem(s) then 1 else 0
    ensures multiset(Immunology(s, NoFindings).recommendations)[ThyroidOptimisation] == if ThyroidProblem(s) then 1 else 0
  {
  }

  lemma ImmunologyNkEntries(s: Snapshot)
    ensures multiset(Immunology(s, NoFindings).recommendations)[DiscussPrednisoneForNk] == if NkElevated(s) then 1 else 0
  {
  }

  /** Any antiphospholipid criterion met raises the antiphospholipid alert exactly once. */
  lemma AntiphospholipidAlertCount(s: Snapshot)
    ensures multiset(Evaluate(s).alerts)[AntiphospholipidSyndrome] == if SafCriteria(s) != [] then 1 else 0
  {
    ImmunologySafEntries(s);
    AlertFromImmunology(s, AntiphospholipidSyndrome, if SafCriteria(s) != [] then 1 else 0);
  }

  /** Any antiphospholipid criterion met has the antiphospholipid protocol recommended exactly once. */
  lemma SafProtocolCount(s: Snapshot)
    ensures multiset(Evaluate(s).recommendations)[SafProtocol] == if SafCriteria(s) != [] then 1 else 0
  {
    ImmunologySafEntries(s);
    RecommendationFromImmunology(s, SafProtocol, if SafCriteria(s) != [] then 1 else 0);
  }

  /** A TSH outside 0.5-2.5 or a positive anti-TPO raises the thyroid alert exactly once. */
  lemma ThyroidAlertCount(s: Snapshot)
    ensures multiset(Evaluate(s).alerts)[ThyroidDysfunction] == if ThyroidProblem(s) then 1 else 0
  {
    ImmunologyThyroidEntries(s);
    AlertFromImmunology(s, ThyroidDysfunction, if ThyroidProblem(s) then 1 else 0);
  }

  /** Raised NK cells have prednisone discussed exactly once. */
  lemma NkAdviceCount(s: Snapshot)
    ensures multiset(Evaluate(s).recommendations)[DiscussPrednisoneForNk] == if NkElevated(s) then 1 else 0
  {
    ImmunologyNkEntries(s);
    RecommendationFromImmunology(s, DiscussPrednisoneForNk, if NkElevated(s) then 1 else 0);
  }

  lemma ImmunologyAutoimmuneEntries(s: Snapshot)
    ensures multiset(Immunology(s, NoFindings).recommendations)[RheumatologyReferral] == if AutoimmuneMarkers(s) then 1 else 0
  {
  }

  /** A high ANA titre or a positive anti-DNA has a rheumatology referral recommended exactly once. */
  lemma RheumatologyAdviceCount(s: Snapshot)
    ensures multiset(Evaluate(s).recommendations)[RheumatologyReferral] == if AutoimmuneMarkers(s) then 1 else 0
  {
    ImmunologyAutoimmuneEntries(s);
    RecommendationFromImmunology(s, RheumatologyReferral, if AutoimmuneMarkers(s) then 1 else 0);
  }

  /** The thyroid problems that raise the alert have thyroid optimisation recommended exactly once. */
  lemma ThyroidOptimisationCount(s: Snapshot)
    ensures multiset(Evaluate(s).recommendations)[ThyroidOptimisation] == if ThyroidProblem(s) then 1 else 0
  {
    ImmunologyThyroidEntries(s);
    RecommendationFromImmunology(s, ThyroidOptimisation, if ThyroidProblem(s) then 1 else 0);
  }

  // ---------------------------------------------------------------- the plan against the lists

  /** The anticoagulation and immunomodulation items of the plan, for any context. */
  lemma PlanAnticoagulation(s: Snapshot, c: Context)
    ensures AspirinWithPreparation in EndometrialPrep(s, c) <==> c.AnticoagulationIndicated()
    ensures StartEnoxaparinKeepAspirin in TransferDay(s, c) <==> c.AnticoagulationIndicated()
    ensures MaintainAnticoagulation in PostTransfer(c) <==> c.AnticoagulationIndicated()
    ensures Hydroxychloroquine in TransferDay(s, c) <==> c.safCriteria != [] && s.lupusAnticoagulant == Positive
    ensures ConsiderPrednisoneOrIntralipid in TransferDay(s, c) <==> c.nkElevated && s.failures >= 4
    ensures TshMonitoring in PostTransfer(c) <==> c.thyroidProblem
  {
  }

  /**
   * Aspirin in the preparation, enoxaparin from the transfer and anticoagulation
   * after it are planned exactly when a thrombophilia or an antiphospholipid
   * alert was raised.
   */
  lemma AnticoagulationInPlan(s: Snapshot)
    ensures AspirinWithPreparation in PlanFor(s).endometrialPrep
        <==> ThrombophiliaDetected in Evaluate(s).alerts || AntiphospholipidSyndrome in Evaluate(s).alerts
    ensures StartEnoxaparinKeepAspirin in PlanFor(s).transferDay
        <==> ThrombophiliaDetected in Evaluate(s).alerts || AntiphospholipidSyndrome in Evaluate(s).alerts
    ensures MaintainAnticoagulation in PlanFor(s).postTransfer
        <==> ThrombophiliaDetected in Evaluate(s).alerts || AntiphospholipidSyndrome in Evaluate(s).alerts
  {
    ThrombophiliaAlertCount(s);
    AntiphospholipidAlertCount(s);
    PlanAnticoagulation(s, ContextOf(s));
  }

  /** Hydroxychloroquine is planned exactly for a positive lupus anticoagulant, which is itself a criterion. */
  lemma HydroxychloroquineInPlan(s: Snapshot)
    ensures Hydroxychloroquine in PlanFor(s).transferDay <==> s.lupusAnticoagulant == Positive
  {
    PlanAnticoagulation(s, ContextOf(s));
    assert s.lupusAnticoagulant == Positive ==> LupusAnticoagulant in SafCriteria(s);
  }

  /** Prednisone or intralipid is considered on the transfer day exactly when NK advice was given and four or more transfers failed. */
  lemma ImmunomodulationInPlan(s: Snapshot)
    ensures ConsiderPrednisoneOrIntralipid in PlanFor(s).transferDay
        <==> DiscussPrednisoneForNk in Evaluate(s).recommendations && s.failures >= 4
  {
    NkAdviceCount(s);
    PlanAnticoagulation(s, ContextOf(s));
  }

  /** TSH is monitored after the transfer exactly when the thyroid alert was raised. */
  lemma ThyroidInPlan(s: Snapshot)
    ensures TshMonitoring in PlanFor(s).postTransfer <==> ThyroidDysfunction in Evaluate(s).alerts
  {
    ThyroidAlertCount(s);
    PlanAnticoagulation(s, ContextOf(s));
  }

  // ---------------------------------------------------------------- vitamin D and the insulin index

  lemma VitaminDEntries(s: Snapshot, level: real)
    ensures multiset(VitaminsAndHormones(s, NoFindings).recommendations)[VitaminDHighDose(level)]
         == if s.vitaminD < 20.0 && level == s.vitaminD then 1 else 0
    ensures multiset(VitaminsAndHormones(s, NoFindings).recommendations)[VitaminDModerateDose(level)]
         == if 20.0 <= s.vitaminD < 30.0 && level == s.vitaminD then 1 else 0
  {
  }

  /** Within the laboratory domain, only the vitamin D rule advises vitamin D. */
  lemma LaboratoryVitaminDEntries(s: Snapshot, r: Recommendation)
    requires IsVitaminDAdvice(r)
    ensures multiset(Laboratory(s, NoFindings).recommendations)[r] == multiset(VitaminsAndHormones(s, NoFindings).recommendations)[r]
  {
    MetabolismVocabulary(s, Hyperprolactinemia, r);
    InflammationAndOxidationVocabulary(s, Hyperprolactinemia, r);
    LaboratoryCounts(s, Hyperprolactinemia, r);
  }

  lemma LaboratoryHighDose(s: Snapshot, level: real)
    ensures multiset(Laboratory(s, NoFindings).recommendations)[VitaminDHighDose(level)]
         == if s.vitaminD < 20.0 && level == s.vitaminD then 1 else 0
  {
    LaboratoryVitaminDEntries(s, VitaminDHighDose(level));
    VitaminDEntries(s, level);
  }

  lemma LaboratoryModerateDose(s: Snapshot, level: real)
    ensures multiset(Laboratory(s, NoFindings).recommendations)[VitaminDModerateDose(level)]
         == if 20.0 <= s.vitaminD < 30.0 && level == s.vitaminD then 1 else 0
  {
    LaboratoryVitaminDEntries(s, VitaminDModerateDose(level));
    VitaminDEntries(s, level);
  }

  /** A level under 20 ng/mL gets the high-dose advice once, quoting that level; no other level appears in it. */
  lemma HighDoseCount(s: Snapshot, level: real)
    ensures multiset(Evaluate(s).recommendations)[VitaminDHighDose(level)]
         == if s.vitaminD < 20.0 && level == s.vitaminD then 1 else 0
  {
    LaboratoryHighDose(s, level);
    RecommendationFromLaboratory(s, VitaminDHighDose(level), if s.vitaminD < 20.0 && level == s.vitaminD then 1 else 0);
  }

  /** A level from 20 up to but excluding 30 ng/mL gets the moderate-dose advice once, quoting that level. */
  lemma ModerateDoseCount(s: Snapshot, level: real)
    ensures multiset(Evaluate(s).recommendations)[VitaminDModerateDose(level)]
         == if 20.0 <= s.vitaminD < 30.0 && level == s.vitaminD then 1 else 0
  {
    LaboratoryModerateDose(s, level);
    RecommendationFromLaboratory(s, VitaminDModerateDose(level), if 20.0 <= s.vitaminD < 30.0 && level == s.vitaminD then 1 else 0);
  }

  lemma MetabolismDiabetes(s: Snapshot)
    ensures multiset(Metabolism(s, NoFindings).alerts)[UncontrolledDiabetes] == if s.glycemia >= 126 then 1 else 0
  {
  }

  lemma LaboratoryDiabetes(s: Snapshot)
    ensures multiset(Laboratory(s, NoFindings).alerts)[UncontrolledDiabetes] == if s.glycemia >= 126 then 1 else 0
  {
    VitaminsAndHormonesVocabulary(s, UncontrolledDiabetes, MetforminAndInositol);
    InflammationAndOxidationVocabulary(s, UncontrolledDiabetes, MetforminAndInositol);
    LaboratoryCounts(s, UncontrolledDiabetes, MetforminAndInositol);
    MetabolismDiabetes(s);
  }

  lemma LaboratoryInflammation(s: Snapshot)
    ensures multiset(Laboratory(s, NoFindings).alerts)[ActiveInflammation] == if s.crp > 10.0 then 1 else 0
  {
    VitaminsAndHormonesVocabulary(s, ActiveInflammation, InvestigateInflammation);
    MetabolismVocabulary(s, ActiveInflammation, InvestigateInflammation);
    LaboratoryCounts(s, ActiveInflammation, InvestigateInflammation);
    InflammationEntries(s.crp);
  }

  lemma InflammationEntries(mgPerL: real)
    ensures multiset(Inflammation(mgPerL, NoFindings).alerts)[ActiveInflammation] == if mgPerL > 10.0 then 1 else 0
  {
  }

  /** A fasting glucose of 126 mg/dL or more raises the diabetes alert exactly once. */
  lemma DiabetesAlertCount(s: Snapshot)
    ensures multiset(Evaluate(s).alerts)[UncontrolledDiabetes] == if s.glycemia >= 126 then 1 else 0
  {
    LaboratoryDiabetes(s);
    AlertFromLaboratory(s, UncontrolledDiabetes, if s.glycemia >= 126 then 1 else 0);
  }

  /** A CRP above 10 mg/L raises the active-inflammation alert exactly once. */
  lemma InflammationAlertCount(s: Snapshot)
    ensures multiset(Evaluate(s).alerts)[ActiveInflammation] == if s.crp > 10.0 then 1 else 0
  {
    LaboratoryInflammation(s);
    AlertFromLaboratory(s, ActiveInflammation, if s.crp > 10.0 then 1 else 0);
  }

  lemma HormoneEntries(s: Snapshot)
    ensures multiset(VitaminsAndHormones(s, NoFindings).alerts)[Hyperprolactinemia] == if s.prolactin > 25.0 then 1 else 0
    ensures multiset(VitaminsAndHormones(s, NoFindings).recommendations)[CabergolineAndWorkup] == if s.prolactin > 25.0 then 1 else 0
    ensures multiset(VitaminsAndHormones(s, NoFindings).recommendations)[HigherProgesteroneSupport]
         == if s.progesterone < 10.0 then 1 else 0
  {
  }

  /** Within the laboratory domain, the prolactin and progesterone entries come from the hormone rules alone. */
  lemma LaboratoryHormones(s: Snapshot, r: Recommendation)
    requires r == CabergolineAndWorkup || r == HigherProgesteroneSupport
    ensures multiset(Laboratory(s, NoFindings).alerts)[Hyperprolactinemia]
         == multiset(VitaminsAndHormones(s, NoFindings).alerts)[Hyperprolactinemia]
    ensures multiset(Laboratory(s, NoFindings).recommendations)[r]
         == multiset(VitaminsAndHormones(s, NoFindings).recommendations)[r]
  {
    MetabolismVocabulary(s, Hyperprolactinemia, r);
    InflammationAndOxidationVocabulary(s, Hyperprolactinemia, r);
    LaboratoryCounts(s, Hyperprolactinemia, r);
  }

  /** A prolactin above 25 ng/mL raises the hyperprolactinaemia alert exactly once. */
  lemma ProlactinAlertCount(s: Snapshot)
    ensures multiset(Evaluate(s).alerts)[Hyperprolactinemia] == if s.prolactin > 25.0 then 1 else 0
  {
    LaboratoryHormones(s, CabergolineAndWorkup);
    HormoneEntries(s);
    AlertFromLaboratory(s, Hyperprolactinemia, if s.prolactin > 25.0 then 1 else 0);
  }

  /** The same prolactin has cabergoline and a work-up recommended exactly once. */
  lemma CabergolineAdviceCount(s: Snapshot)
    ensures multiset(Evaluate(s).recommendations)[CabergolineAndWorkup] == if s.prolactin > 25.0 then 1 else 0
  {
    LaboratoryHormones(s, CabergolineAndWorkup);
    HormoneEntries(s);
    RecommendationFromLaboratory(s, CabergolineAndWorkup, if s.prolactin > 25.0 then 1 else 0);
  }

  /** A progesterone under 10 ng/mL has stronger luteal support recommended exactly once. */
  lemma ProgesteroneAdviceCount(s: Snapshot)
    ensures multiset(Evaluate(s).recommendations)[HigherProgesteroneSupport] == if s.progesterone < 10.0 then 1 else 0
  {
    LaboratoryHormones(s, HigherProgesteroneSupport);
    HormoneEntries(s);
    RecommendationFromLaboratory(s, HigherProgesteroneSupport, if s.progesterone < 10.0 then 1 else 0);
  }

  lemma OxidationEntries(s: Snapshot)
    ensures multiset(InflammationAndOxidation(s, NoFindings).recommendations)[InvestigateInflammation]
         == if 3.0 < s.crp <= 10.0 then 1 else 0
    ensures multiset(InflammationAndOxidation(s, NoFindings).recommendations)[BVitamins] == if s.homocysteine > 15.0 then 1 else 0
    ensures multiset(InflammationAndOxidation(s, NoFindings).recommendations)[AntioxidantProtocol] == if s.age >= 37 then 1 else 0
  {
  }

  /** Within the laboratory domain, these three recommendations come from the inflammation and oxidation rules alone. */
  lemma LaboratoryOxidation(s: Snapshot, r: Recommendation)
    requires r == InvestigateInflammation || r == BVitamins || r == AntioxidantProtocol
    ensures multiset(Laboratory(s, NoFindings).recommendations)[r]
         == multiset(InflammationAndOxidation(s, NoFindings).recommendations)[r]
  {
    VitaminsAndHormonesVocabulary(s, ActiveInflammation, r);
    MetabolismVocabulary(s, ActiveInflammation, r);
    LaboratoryCounts(s, ActiveInflammation, r);
  }

  /** A CRP above 3 and at most 10 mg/L has the cause of the inflammation investigated exactly once. */
  lemma InvestigateInflammationCount(s: Snapshot)
    ensures multiset(Evaluate(s).recommendations)[InvestigateInflammation] == if 3.0 < s.crp <= 10.0 then 1 else 0
  {
    LaboratoryOxidation(s, InvestigateInflammation);
    OxidationEntries(s);
    RecommendationFromLaboratory(s, InvestigateInflammation, if 3.0 < s.crp <= 10.0 then 1 else 0);
  }

  /** A homocysteine above 15 has B vitamins recommended exactly once. */
  lemma BVitaminsCount(s: Snapshot)
    ensures multiset(Evaluate(s).recommendations)[BVitamins] == if s.homocysteine > 15.0 then 1 else 0
  {
    LaboratoryOxidation(s, BVitamins);
    OxidationEntries(s);
    RecommendationFromLaboratory(s, BVitamins, if s.homocysteine > 15.0 then 1 else 0);
  }

  /** A patient of 37 or more has the full antioxidant protocol recommended exactly once. */
  lemma AntioxidantProtocolCount(s: Snapshot)
    ensures multiset(Evaluate(s).recommendations)[AntioxidantProtocol] == if s.age >= 37 then 1 else 0
  {
    LaboratoryOxidation(s, AntioxidantProtocol);
    OxidationEntries(s);
    RecommendationFromLaboratory(s, AntioxidantProtocol, if s.age >= 37 then 1 else 0);
  }

  lemma PendingItemsMembers(pending: seq<Investigation>)
    ensures forall x: Item :: x in PendingItems(pending) <==> x.Pending? && x.investigation in pending
  {
    forall x: Item | x.Pending? && x.investigation in pending
      ensures x in PendingItems(pending)
    {
      var k :| 0 <= k < |pending| && pending[k] == x.investigation;
      assert PendingItems(pending)[k] == x;
    }
  }

  /** The pre-cycle items that follow from the findings, for any context. */
  lemma PreCycleItems(s: Snapshot, c: Context)
    ensures VitaminDTherapeuticDose in PreCycle(s, c) <==> s.vitaminD < 30.0
    ensures Metformin in PreCycle(s, c) <==> HomaIrClass(c.homaIr) == InsulinResistant
    ensures Inositol in PreCycle(s, c) <==> HomaIrClass(c.homaIr) == InsulinResistant
  {
    PendingItemsMembers(c.pending);
  }

  /** The pre-cycle items for the pending checklist and the alerts header, for any context. */
  lemma PreCycleHeader(s: Snapshot, c: Context)
    ensures AllInvestigationsDone in PreCycle(s, c) <==> c.pending == []
    ensures SeeCriticalAlerts in PreCycle(s, c) <==> c.criticalAlerts
    ensures forall i :: Pending(i) in PreCycle(s, c) <==> i in c.pending
  {
    PendingItemsMembers(c.pending);
  }

  /** The pre-cycle phase doses vitamin D exactly when the evaluation advised a vitamin D dose for the measured level. */
  lemma VitaminDInPlan(s: Snapshot)
    ensures VitaminDTherapeuticDose in PlanFor(s).preCycle
        <==> VitaminDHighDose(s.vitaminD) in Evaluate(s).recommendations || VitaminDModerateDose(s.vitaminD) in Evaluate(s).recommendations
  {
    HighDoseCount(s, s.vitaminD);
    ModerateDoseCount(s, s.vitaminD);
    PreCycleItems(s, ContextOf(s));
  }

  /** Metformin and inositol enter the pre-cycle phase exactly when the insulin-resistance alert was raised. */
  lemma MetforminInPlan(s: Snapshot)
    ensures Metformin in PlanFor(s).preCycle <==> InsulinResistance in Evaluate(s).alerts
    ensures Inositol in PlanFor(s).preCycle <==> InsulinResistance in Evaluate(s).alerts
  {
    InsulinResistanceAlertCount(s);
    PreCycleItems(s, ContextOf(s));
  }

  // ---------------------------------------------------------------- pending investigations and the alerts header

  /**
   * The pre-cycle phase lists each investigation exactly when it is still to do,
   * and says all are done exactly when none is.
   */
  lemma PendingInPlan(s: Snapshot)
    ensures forall i :: Pending(i) in PlanFor(s).preCycle <==> IsPending(s, i)
    ensures AllInvestigationsDone in PlanFor(s).preCycle <==> forall i :: !IsPending(s, i)
  {
    PreCycleHeader(s, ContextOf(s));
    var pending := PendingInvestigations(s);
    if pending != [] {
      assert IsPending(s, pending[0]);
    }
  }

  /** The pre-cycle phase points to the critical alerts exactly when there is one. */
  lemma CriticalAlertsInPlan(s: Snapshot)
    ensures SeeCriticalAlerts in PlanFor(s).preCycle <==> Evaluate(s).alerts != []
  {
    PreCycleHeader(s, ContextOf(s));
  }

  /** The mycoplasma and chlamydia results do not bear on the pending list: only the ureaplasma result does. */
  lemma PendingIgnoresOtherPathogens(s: Snapshot, mycoplasma: TestResult, chlamydia: TestResult)
    ensures PendingInvestigations(s.(mycoplasma := mycoplasma, chlamydia := chlamydia)) == PendingInvestigations(s)
  {
  }

  // ---------------------------------------------------------------- anatomical findings

  /** A surgery is called for exactly when some selected finding calls for it. */
  lemma {:induction false} SurgeriesExactly(alts: seq<Alteration>)
    ensures forall x :: x in Surgeries(alts) <==> exists a :: a in alts && SurgeryFor(a) == Some(x)
  {
    if alts != [] {
      var visited := alts[..|alts| - 1];
      var last := alts[|alts| - 1];
      SurgeriesExactly(visited);
      assert alts == visited + [last];
      forall x ensures x in Surgeries(alts) <==> exists a :: a in alts && SurgeryFor(a) == Some(x) {
        if x in Surgeries(alts) && x !in Surgeries(visited) {
          assert SurgeryFor(last) == Some(x);
        }
      }
    }
  }

  /** The visit lists the clinical treatment once per adenomyosis entry. */
  lemma {:induction false} TreatmentsCount(alts: seq<Alteration>)
    ensures |Treatments(alts)| == multiset(alts)[AdenomyosisFocal] + multiset(alts)[AdenomyosisDiffuse]
  {
    if alts != [] {
      var visited := alts[..|alts| - 1];
      TreatmentsCount(visited);
      assert alts == visited + [alts[|alts| - 1]];
    }
  }

  /** The visit alerts once per hydrosalpinx entry. */
  lemma {:induction false} HydrosalpinxCount(alts: seq<Alteration>)
    ensures |HydrosalpinxAlerts(alts)| == multiset(alts)[HydrosalpinxUnilateral] + multiset(alts)[HydrosalpinxBilateral]
  {
    if alts != [] {
      var visited := alts[..|alts| - 1];
      HydrosalpinxCount(visited);
      assert alts == visited + [alts[|alts| - 1]];
    }
  }

  /** A list made of one entry repeated holds it as often as it is long. */
  lemma {:induction false} CountOfRepeated<T>(xs: seq<T>, x: T)
    requires forall i :: 0 <= i < |xs| ==> xs[i] == x
    ensures multiset(xs)[x] == |xs|
  {
    if xs != [] {
      CountOfRepeated(xs[1..], x);
      assert xs == [xs[0]] + xs[1..];
    }
  }

  /** After the visit, every surgery is recommended before any clinical treatment. */
  lemma SurgeriesFirst(alts: seq<Alteration>)
    ensures forall i, j :: 0 <= i < j < |AlterationFindings(alts, NoFindings).recommendations|
              ==> !(AlterationFindings(alts, NoFindings).recommendations[i].ClinicalTreatmentRequired?
                    && AlterationFindings(alts, NoFindings).recommendations[j].SurgeryRequired?)
  {
    var surgeries := SurgeryRecommendations(Surgeries(alts));
    var recommendations := AlterationFindings(alts, NoFindings).recommendations;
    assert recommendations == surgeries + TreatmentRecommendations(Treatments(alts));
    forall i, j | 0 <= i < j < |recommendations| && recommendations[i].ClinicalTreatmentRequired?
      ensures !recommendations[j].SurgeryRequired?
    {
      assert i >= |surgeries|;
    }
  }

  /** The thickness and receptivity blocks append receptivity entries only. */
  lemma ReceptivityVocabulary(mm: real, e: EraResult)
    ensures forall a :: a in EndometrialThickness(mm, NoFindings).alerts ==> ReceptivityAlert(a)
    ensures forall a :: a in EraTiming(e, NoFindings).alerts ==> ReceptivityAlert(a)
    ensures forall r :: r in EndometrialThickness(mm, NoFindings).recommendations ==> ReceptivityRecommendation(r)
    ensures forall r :: r in EraTiming(e, NoFindings).recommendations ==> ReceptivityRecommendation(r)
  {
  }

  /** Within the anatomy domain, an entry that is no receptivity entry comes from the visit of the selection alone. */
  lemma AnatomyAlterationAlerts(s: Snapshot, a: Alert)
    requires !ReceptivityAlert(a)
    ensures multiset(Anatomy(s, NoFindings).alerts)[a] == multiset(AlterationFindings(s.alterations, NoFindings).alerts)[a]
  {
    AnatomyParts(s);
    ReceptivityVocabulary(s.thickness, s.era);
    CountInThree(AlterationFindings(s.alterations, NoFindings), EndometrialThickness(s.thickness, NoFindings),
                 EraTiming(s.era, NoFindings), a, SurgeryRequired(LaparoscopicSalpingectomy));
  }

  lemma AnatomyAlterationRecommendations(s: Snapshot, r: Recommendation)
    requires !ReceptivityRecommendation(r)
    ensures multiset(Anatomy(s, NoFindings).recommendations)[r]
         == multiset(AlterationFindings(s.alterations, NoFindings).recommendations)[r]
  {
    AnatomyParts(s);
    ReceptivityVocabulary(s.thickness, s.era);
    CountInThree(AlterationFindings(s.alterations, NoFindings), EndometrialThickness(s.thickness, NoFindings),
                 EraTiming(s.era, NoFindings), HydrosalpinxSalpingectomy, r);
  }

  lemma AlterationHydrosalpinx(alts: seq<Alteration>)
    ensures multiset(AlterationFindings(alts, NoFindings).alerts)[HydrosalpinxSalpingectomy]
         == multiset(alts)[HydrosalpinxUnilateral] + multiset(alts)[HydrosalpinxBilateral]
  {
    assert AlterationFindings(alts, NoFindings).alerts == HydrosalpinxAlerts(alts);
    CountOfRepeated(HydrosalpinxAlerts(alts), HydrosalpinxSalpingectomy);
    HydrosalpinxCount(alts);
  }

  lemma AlterationAdenomyosis(alts: seq<Alteration>)
    ensures multiset(AlterationFindings(alts, NoFindings).recommendations)[ClinicalTreatmentRequired(GnrhAnaloguePretreatment)]
         == multiset(alts)[AdenomyosisFocal] + multiset(alts)[AdenomyosisDiffuse]
  {
    var r := ClinicalTreatmentRequired(GnrhAnaloguePretreatment);
    var surgeries := SurgeryRecommendations(Surgeries(alts));
    var treatments := TreatmentRecommendations(Treatments(alts));
    assert AlterationFindings(alts, NoFindings).recommendations == surgeries + treatments;
    assert r !in surgeries;
    forall i | 0 <= i < |treatments| ensures treatments[i] == r {
      assert Treatments(alts)[i].GnrhAnaloguePretreatment?;
    }
    CountOfRepeated(treatments, r);
    TreatmentsCount(alts);
  }

  lemma AlterationSurgery(alts: seq<Alteration>, x: Surgery)
    ensures SurgeryRequired(x) in AlterationFindings(alts, NoFindings).recommendations <==> x in Surgeries(alts)
  {
    var surgeries := SurgeryRecommendations(Surgeries(alts));
    assert AlterationFindings(alts, NoFindings).recommendations == surgeries + TreatmentRecommendations(Treatments(alts));
    if x in Surgeries(alts) {
      var k :| 0 <= k < |Surgeries(alts)| && Surgeries(alts)[k] == x;
      assert surgeries[k] == SurgeryRequired(x);
    }
  }

  lemma AnatomyHydrosalpinx(s: Snapshot)
    ensures multiset(Anatomy(s, NoFindings).alerts)[HydrosalpinxSalpingectomy]
         == multiset(s.alterations)[HydrosalpinxUnilateral] + multiset(s.alterations)[HydrosalpinxBilateral]
  {
    AnatomyAlterationAlerts(s, HydrosalpinxSalpingectomy);
    AlterationHydrosalpinx(s.alterations);
  }

  lemma AnatomyAdenomyosis(s: Snapshot)
    ensures multiset(Anatomy(s, NoFindings).recommendations)[ClinicalTreatmentRequired(GnrhAnaloguePretreatment)]
         == multiset(s.alterations)[AdenomyosisFocal] + multiset(s.alterations)[AdenomyosisDiffuse]
  {
    AnatomyAlterationRecommendations(s, ClinicalTreatmentRequired(GnrhAnaloguePretreatment));
    AlterationAdenomyosis(s.alterations);
  }

  lemma AnatomySurgery(s: Snapshot, x: Surgery)
    ensures SurgeryRequired(x) in Anatomy(s, NoFindings).recommendations <==> x in Surgeries(s.alterations)
  {
    AnatomyAlterationRecommendations(s, SurgeryRequired(x));
    AlterationSurgery(s.alterations, x);
  }

  /** The salpingectomy alert is raised once per hydrosalpinx entry of the selection. */
  lemma HydrosalpinxAlertCount(s: Snapshot)
    ensures multiset(Evaluate(s).alerts)[HydrosalpinxSalpingectomy]
         == multiset(s.alterations)[HydrosalpinxUnilateral] + multiset(s.alterations)[HydrosalpinxBilateral]
  {
    AnatomyHydrosalpinx(s);
    AlertFromAnatomy(s, HydrosalpinxSalpingectomy, multiset(s.alterations)[HydrosalpinxUnilateral] + multiset(s.alterations)[HydrosalpinxBilateral]);
  }

  /** GnRH-analogue pretreatment is recommended once per adenomyosis entry of the selection. */
  lemma AdenomyosisTreatmentCount(s: Snapshot)
    ensures multiset(Evaluate(s).recommendations)[ClinicalTreatmentRequired(GnrhAnaloguePretreatment)]
         == multiset(s.alterations)[AdenomyosisFocal] + multiset(s.alterations)[AdenomyosisDiffuse]
  {
    AnatomyAdenomyosis(s);
    RecommendationFromAnatomy(s, ClinicalTreatmentRequired(GnrhAnaloguePretreatment), multiset(s.alterations)[AdenomyosisFocal] + multiset(s.alterations)[AdenomyosisDiffuse]);
  }

  /** A surgery is recommended exactly when some selected finding calls for it. */
  lemma SurgeryAdvice(s: Snapshot, x: Surgery)
    ensures SurgeryRequired(x) in Evaluate(s).recommendations <==> exists a :: a in s.alterations && SurgeryFor(a) == Some(x)
  {
    AnatomySurgery(s, x);
    SurgeriesExactly(s.alterations);
    RecommendationFromAnatomy(s, SurgeryRequired(x), multiset(Anatomy(s, NoFindings).recommendations)[SurgeryRequired(x)]);
  }

  /** The preparation phase considers a GnRH analogue exactly when the pretreatment was recommended. */
  lemma AdenomyosisInPlan(s: Snapshot)
    ensures ConsiderGnrhAnalogue in PlanFor(s).endometrialPrep
        <==> ClinicalTreatmentRequired(GnrhAnaloguePretreatment) in Evaluate(s).recommendations
  {
    AdenomyosisTreatmentCount(s);
    PrepAdenomyosis(s, ContextOf(s));
  }

  lemma PrepAdenomyosis(s: Snapshot, c: Context)
    ensures ConsiderGnrhAnalogue in EndometrialPrep(s, c) <==> AdenomyosisSelected(s)
  {
  }

  // ---------------------------------------------------------------- male factor

  lemma MaleFactorEntries(s: Snapshot)
    ensures multiset(MaleFactor(s, NoFindings).alerts)[SpermDnaFragmentation]
         == if HighDnaFragmentation(s.dnaFragmentation) then 1 else 0
    ensures multiset(MaleFactor(s, NoFindings).recommendations)[MaleAntioxidants]
         == if HighDnaFragmentation(s.dnaFragmentation) then 1 else 0
    ensures multiset(MaleFactor(s, NoFindings).recommendations)[UrologicalEvaluation]
         == if s.semen != SemenNotDone && s.semen != SemenNormal then 1 else 0
  {
  }

  /** Sperm DNA fragmentation of 25% or more raises its alert exactly once; a lower or unmeasured value never does. */
  lemma FragmentationAlertCount(s: Snapshot)
    ensures multiset(Evaluate(s).alerts)[SpermDnaFragmentation]
         == if HighDnaFragmentation(s.dnaFragmentation) then 1 else 0
  {
    MaleFactorEntries(s);
    AlertFromMaleFactor(s, SpermDnaFragmentation, if HighDnaFragmentation(s.dnaFragmentation) then 1 else 0);
  }

  /** The same fragmentation gets antioxidants for the partner recommended exactly once. */
  lemma AntioxidantAdviceCount(s: Snapshot)
    ensures multiset(Evaluate(s).recommendations)[MaleAntioxidants]
         == if HighDnaFragmentation(s.dnaFragmentation) then 1 else 0
  {
    MaleFactorEntries(s);
    RecommendationFromMaleFactor(s, MaleAntioxidants, if HighDnaFragmentation(s.dnaFragmentation) then 1 else 0);
  }

  /** A semen analysis that was done and is not normal gets a urological evaluation recommended exactly once. */
  lemma UrologicalAdviceCount(s: Snapshot)
    ensures multiset(Evaluate(s).recommendations)[UrologicalEvaluation]
         == if s.semen != SemenNotDone && s.semen != SemenNormal then 1 else 0
  {
    MaleFactorEntries(s);
    RecommendationFromMaleFactor(s, UrologicalEvaluation, if s.semen != SemenNotDone && s.semen != SemenNormal then 1 else 0);
  }

  // ---------------------------------------------------------------- inputs the rules do not act on

  /** The inputs the genetics rules read. */
  predicate SameGeneticsInputs(s: Snapshot, t: Snapshot)
  {
    && s.age == t.age && s.pgtADone == t.pgtADone && s.pgtAResult == t.pgtAResult
    && s.factorV == t.factorV && s.prothrombin == t.prothrombin
    && s.hlaTyped == t.hlaTyped && s.hlaSharedAlleles == t.hlaSharedAlleles
  }

  /** The inputs the infection rules read. */
  predicate SameInfectionInputs(s: Snapshot, t: Snapshot)
  {
    && s.biopsy == t.biopsy && s.hysteroscopy == t.hysteroscopy && s.microbiome == t.microbiome
    && s.ureaplasma == t.ureaplasma && s.mycoplasma == t.mycoplasma && s.chlamydia == t.chlamydia
  }

  /** The inputs the immunology and thyroid rules read. */
  predicate SameImmunologyInputs(s: Snapshot, t: Snapshot)
  {
    && s.aclIgG == t.aclIgG && s.aclIgM == t.aclIgM && s.lupusAnticoagulant == t.lupusAnticoagulant
    && s.b2gp1IgG == t.b2gp1IgG && s.b2gp1IgM == t.b2gp1IgM
    && s.ana == t.ana && s.antiDsDna == t.antiDsDna
    && s.nkPeripheral == t.nkPeripheral && s.nkEndometrial == t.nkEndometrial
    && s.tsh == t.tsh && s.antiTpo == t.antiTpo
  }

  /** The inputs the anatomy and receptivity rules read. */
  predicate SameAnatomyInputs(s: Snapshot, t: Snapshot)
  {
    s.alterations == t.alterations && s.thickness == t.thickness && s.era == t.era
  }

  /** The inputs the laboratory rules read. */
  predicate SameLaboratoryInputs(s: Snapshot, t: Snapshot)
  {
    && s.vitaminD == t.vitaminD && s.prolactin == t.prolactin && s.progesterone == t.progesterone
    && s.glycemia == t.glycemia && s.insulin == t.insulin
    && s.crp == t.crp && s.homocysteine == t.homocysteine && s.age == t.age
  }

  /** The inputs the male-factor rules read. */
  predicate SameMaleFactorInputs(s: Snapshot, t: Snapshot)
  {
    s.dnaFragmentation == t.dnaFragmentation && s.semen == t.semen
  }

  lemma GeneticsReads(s: Snapshot, t: Snapshot, f: Findings)
    requires SameGeneticsInputs(s, t)
    ensures Genetics(s, f) == Genetics(t, f)
  {
  }

  lemma InfectionReads(s: Snapshot, t: Snapshot, f: Findings)
    requires SameInfectionInputs(s, t)
    ensures Infection(s, f) == Infection(t, f)
  {
  }

  lemma ImmunologyReads(s: Snapshot, t: Snapshot, f: Findings)
    requires SameImmunologyInputs(s, t)
    ensures Immunology(s, f) == Immunology(t, f)
  {
  }

  lemma AnatomyReads(s: Snapshot, t: Snapshot, f: Findings)
    requires SameAnatomyInputs(s, t)
    ensures Anatomy(s, f) == Anatomy(t, f)
  {
  }

  lemma LaboratoryReads(s: Snapshot, t: Snapshot, f: Findings)
    requires SameLaboratoryInputs(s, t)
    ensures Laboratory(s, f) == Laboratory(t, f)
  {
  }

  lemma MaleFactorReads(s: Snapshot, t: Snapshot, f: Findings)
    requires SameMaleFactorInputs(s, t)
    ensures MaleFactor(s, f) == MaleFactor(t, f)
  {
  }

  /** Two forms that agree on every input some rule reads evaluate to the same two lists. */
  lemma EvaluateReads(s: Snapshot, t: Snapshot)
    requires SameGeneticsInputs(s, t) && SameInfectionInputs(s, t) && SameImmunologyInputs(s, t)
    requires SameAnatomyInputs(s, t) && SameLaboratoryInputs(s, t) && SameMaleFactorInputs(s, t)
    ensures Evaluate(s) == Evaluate(t)
  {
    GeneticsReads(s, t, NoFindings);
    InfectionReads(s, t, NoFindings);
    ImmunologyReads(s, t, NoFindings);
    AnatomyReads(s, t, NoFindings);
    LaboratoryReads(s, t, NoFindings);
    MaleFactorReads(s, t, NoFindings);
  }

  /** The MTHFR genotype is shown but changes neither list. */
  lemma MthfrDisplayOnly(s: Snapshot, g: Genotype)
    ensures Evaluate(s.(mthfr := g)) == Evaluate(s)
  {
    EvaluateReads(s.(mthfr := g), s);
  }

  /** The antioxidant opt-in is read but acted on by no rule: the age alone decides the antioxidant protocol. */
  lemma AntioxidantOptInIgnored(s: Snapshot, optIn: bool)
    ensures Evaluate(s.(antioxidantOptIn := optIn)) == Evaluate(s)
  {
    EvaluateReads(s.(antioxidantOptIn := optIn), s);
  }

  /** A PGT-A result raises an alert at most, and never changes the recommendations. */
  lemma PgtAResultAlertOnly(s: Snapshot, result: PgtAResult)
    ensures Evaluate(s.(pgtAResult := result)).recommendations == Evaluate(s).recommendations
  {
    var t := s.(pgtAResult := result);
    InfectionReads(s, t, NoFindings);
    ImmunologyReads(s, t, NoFindings);
    AnatomyReads(s, t, NoFindings);
    LaboratoryReads(s, t, NoFindings);
    MaleFactorReads(s, t, NoFindings);
  }

  /** The vitamin D level never raises a critical alert. */
  lemma VitaminDNeverAlerts(s: Snapshot, level: real)
    ensures Evaluate(s.(vitaminD := level)).alerts == Evaluate(s).alerts
  {
    var t := s.(vitaminD := level);
    GeneticsReads(s, t, NoFindings);
    InfectionReads(s, t, NoFindings);
    ImmunologyReads(s, t, NoFindings);
    AnatomyReads(s, t, NoFindings);
    MaleFactorReads(s, t, NoFindings);
    LaboratoryParts(s);
    LaboratoryParts(t);
    VitaminDOwned(s.vitaminD);
    VitaminDOwned(level);
  }

  /** With nothing selected, the visit of the selection leaves both lists as they were. */
  lemma EmptySelectionChangesNothing(f: Findings)
    ensures AlterationFindings([], f) == f
  {
    assert f.recommendations + [] + [] == f.recommendations;
    assert f.alerts + [] == f.alerts;
  }

  /** The form as it first appears: the default index 90 x 10 / 405 is borderline, and nothing else fires. */
  lemma DefaultEvaluation()
    ensures Evaluate(DefaultSnapshot()) == Findings([ConsiderMetforminBorderline], [])
  {
  }

  /** Nor does the MTHFR genotype change the plan. */
  lemma MthfrNotPlanned(s: Snapshot, g: Genotype)
    ensures PlanFor(s.(mthfr := g)) == PlanFor(s)
  {
    MthfrDisplayOnly(s, g);
    ContextIgnoresMthfr(s, g);
    PlanIgnoresMthfr(s, g, ContextOf(s));
  }

  lemma ContextIgnoresMthfr(s: Snapshot, g: Genotype)
    requires Evaluate(s.(mthfr := g)) == Evaluate(s)
    ensures ContextOf(s.(mthfr := g)) == ContextOf(s)
  {
    var t := s.(mthfr := g);
    assert PendingInvestigations(t) == PendingInvestigations(s);
    assert SafCriteria(t) == SafCriteria(s);
  }

  lemma PlanIgnoresMthfr(s: Snapshot, g: Genotype, c: Context)
    ensures PlanFrom(s.(mthfr := g), c) == PlanFrom(s, c)
  {
  }

  // ---------------------------------------------------------------- the unbound index in the pre-cycle phase

  /** As written, the pre-cycle phase fails exactly when a glycemia or an insulin of zero leaves the index unbound. */
  lemma PreCycleAsWrittenFails(s: Snapshot)
    ensures PreCycleAsWritten(s).None? <==> s.glycemia <= 0 || s.insulin <= 0.0
  {
  }

  /** Where the code as written gets through, it builds the same pre-cycle phase as the plan. */
  lemma PreCycleAsWrittenAgrees(s: Snapshot)
    ensures PreCycleAsWritten(s).Some? ==> PreCycleAsWritten(s).value == PlanFor(s).preCycle
  {
  }

  /** The form with only the glycemia cleared to its minimum of zero: as written no plan comes out, while the plan skips metformin. */
  lemma ZeroGlycemiaCounterexample()
    ensures PreCycleAsWritten(DefaultSnapshot().(glycemia := 0)).None?
    ensures Metformin !in PlanFor(DefaultSnapshot().(glycemia := 0)).preCycle
  {
    var s := DefaultSnapshot().(glycemia := 0);
    PreCycleItems(s, ContextOf(s));
  }
}
