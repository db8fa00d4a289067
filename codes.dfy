/**
 * The entries of the two output lists. Each constructor stands for one fixed
 * text the rules append; an entry whose text interpolates a value carries that
 * value (the vitamin D level, the pathogens found, the surgery or treatment).
 */
module Codes {

  /** Genital pathogens, in the order the infection rule checks them. */
  datatype Pathogen = Ureaplasma | Mycoplasma | Chlamydia

  /** Antiphospholipid-syndrome criteria, in the order the rule collects them. */
  datatype SafCriterion = AnticardiolipinIgG | AnticardiolipinIgM | LupusAnticoagulant | AntiB2gp1IgG | AntiB2gp1IgM

  datatype Surgery =
    | HysteroscopicPolypectomy
    | HysteroscopicMyomectomy
    | LaparoscopicOrOpenMyomectomy
    | HysteroscopicSeptoplasty
    | HysteroscopicAdhesiolysis
    | LaparoscopicSalpingectomy

  datatype ClinicalTreatment = GnrhAnaloguePretreatment

  /** One entry of the recommendations list. */
  datatype Recommendation =
    | PgtAStronglyRecommended
    | ProphylacticAnticoagulation
    | ConsiderImmunotherapy
    | AntibioticsAndRepeatBiopsy
    | PerformCd138Biopsy
    | AntimicrobialTreatment
    | VaginalProbiotics
    | SafProtocol
    | RheumatologyReferral
    | DiscussPrednisoneForNk
    | ThyroidOptimisation
    | SurgeryRequired(surgery: Surgery)
    | ClinicalTreatmentRequired(treatment: ClinicalTreatment)
    | ThinEndometriumProtocol
    | AddVaginalEstradiol
    | EraDelayTransfer
    | EraAdvanceTransfer
    | VitaminDHighDose(lowLevel: real)
    | VitaminDModerateDose(insufficientLevel: real)
    | CabergolineAndWorkup
    | HigherProgesteroneSupport
    | MetforminAndInositol
    | ConsiderMetforminBorderline
    | InvestigateInflammation
    | BVitamins
    | AntioxidantProtocol
    | MaleAntioxidants
    | UrologicalEvaluation

  /** One entry of the critical-alerts list. */
  datatype Alert =
    | HighAneuploidyRate
    | ThrombophiliaDetected
    | ChronicEndometritis
    | InfectionDetected(pathogens: seq<Pathogen>)
    | AntiphospholipidSyndrome
    | ThyroidDysfunction
    | HydrosalpinxSalpingectomy
    | ThinEndometriumAlert
    | EraPreReceptiveWindow
    | EraPostReceptiveWindow
    | Hyperprolactinemia
    | InsulinResistance
    | UncontrolledDiabetes
    | ActiveInflammation
    | SpermDnaFragmentation

  /** The vitamin D entries, the only ones whose text carries a measured level. */
  predicate IsVitaminDAdvice(r: Recommendation)
  {
    r.VitaminDHighDose? || r.VitaminDModerateDose?
  }
}
