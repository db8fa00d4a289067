/**
 * The input snapshot of one evaluation: the value of every form widget whose
 * value reaches a rule. Each selectbox becomes an enumeration that keeps its
 * "not tested / not performed" choice as a constructor of its own, so that a
 * rule can never read a missing test as a negative one.
 */
module Inputs {

  /** Genotype of a thrombophilia mutation (Factor V Leiden, prothrombin G20210A, MTHFR C677T). */
  datatype Genotype = GenotypeNotTested | WildType | Heterozygous | Homozygous

  /** A qualitative laboratory result (genital pathogens, lupus anticoagulant, anti-dsDNA). */
  datatype TestResult = NotTested | Negative | Positive

  datatype PgtAResult = PgtANotApplicable | AllAneuploid | MostlyAneuploid | MostlyEuploid

  datatype HysteroscopyFinding =
    HysteroscopyNotDone | HysteroscopyNormal | Micropolyps | FocalHyperemia | StromalEdema

  /** Endometrial biopsy with CD138 staining. */
  datatype Cd138Result =
    BiopsyNotDone | BiopsyNegative | BiopsyPositive5To10 | BiopsyPositiveAbove10

  /** Endometrial microbiome analysis (ALICE/EMMA). */
  datatype Microbiome =
    MicrobiomeNotDone | LactobacillusAbove90 | Lactobacillus50To90 | LactobacillusBelow50

  /** Antinuclear antibody titre. */
  datatype AntinuclearTitre =
    AnaNotTested | AnaNegative | Ana1To80 | Ana1To160 | Ana1To320 | AnaAbove1To320

  /** Endometrial (CD56+) natural killer cells. */
  datatype EndometrialNk =
    NkNotTested | NkNormal | NkMildlyRaised | NkModeratelyRaised | NkVeryRaised

  datatype AntiTpo = TpoNotTested | TpoNegative | TpoPositive | TpoVeryHigh

  /** The choices of the multiselect of anatomical findings. */
  datatype Alteration =
    | NoAlteration
    | EndometrialPolyp
    | EndocervicalPolyp
    | SubmucousMyoma
    | IntramuralMyomaNearEndometrium
    | IntramuralMyomaFarFromEndometrium
    | UterineSeptum
    | BicornuateUterus
    | AshermanSynechiae
    | AdenomyosisFocal
    | AdenomyosisDiffuse
    | HydrosalpinxUnilateral
    | HydrosalpinxBilateral
    | OvarianEndometrioma
    | DeepEndometriosis
    | IrregularEndometrialThickening

  /** Endometrial Receptivity Array result. */
  datatype EraResult = EraNotDone | Receptive | PreReceptive | PostReceptive

  datatype SemenAnalysis =
    | SemenNotDone
    | SemenNormal
    | MildOligozoospermia
    | ModerateSevereOligozoospermia
    | Asthenozoospermia
    | Teratozoospermia
    | Oligoasthenoteratozoospermia

  /** Sperm DNA fragmentation index band. */
  datatype DnaFragmentation =
    FragmentationNotDone | FragmentationBelow15 | Fragmentation15To25 | Fragmentation25To30 | FragmentationAbove30

  datatype Snapshot = Snapshot(
    // patient data
    age: int,
    failures: int,
    // genetics
    karyotypeDone: bool,
    pgtADone: bool,
    pgtAResult: PgtAResult,
    thrombophiliaPanelDone: bool,
    hlaTyped: bool,
    hlaSharedAlleles: int,
    factorV: Genotype,
    prothrombin: Genotype,
    mthfr: Genotype,
    // infection
    hysteroscopy: HysteroscopyFinding,
    biopsy: Cd138Result,
    ureaplasma: TestResult,
    mycoplasma: TestResult,
    chlamydia: TestResult,
    microbiome: Microbiome,
    // immunology and thyroid
    aclIgG: real,
    aclIgM: real,
    lupusAnticoagulant: TestResult,
    b2gp1IgG: real,
    b2gp1IgM: real,
    ana: AntinuclearTitre,
    antiDsDna: TestResult,
    nkPeripheral: real,
    nkEndometrial: EndometrialNk,
    tsh: real,
    antiTpo: AntiTpo,
    // anatomy and receptivity
    alterations: seq<Alteration>,
    thickness: real,
    era: EraResult,
    // laboratory
    vitaminD: real,
    prolactin: real,
    progesterone: real,
    glycemia: int,
    insulin: real,
    crp: real,
    homocysteine: real,
    antioxidantOptIn: bool,
    // male factor
    semen: SemenAnalysis,
    dnaFragmentation: DnaFragmentation)

  /** The form as it first appears: every widget at its declared default. */
  function DefaultSnapshot(): Snapshot
  {
    Snapshot(
      35, 3,
      false, false, PgtANotApplicable, false, false, 0,
      GenotypeNotTested, GenotypeNotTested, GenotypeNotTested,
      HysteroscopyNotDone, BiopsyNotDone, NotTested, NotTested, NotTested, MicrobiomeNotDone,
      0.0, 0.0, NotTested, 0.0, 0.0, AnaNotTested, NotTested,
      12.0, NkNotTested, 2.5, TpoNotTested,
      [], 9.0, EraNotDone,
      30.0, 15.0, 10.0, 90, 10.0, 3.0, 10.0, false,
      SemenNotDone, FragmentationNotDone)
  }
}
