# RIF protocol assistant: the clinical rule engine

This project models the decision logic of `rif_app.py` in Dafny. `rif_app.py` is a
Streamlit form that assists the work-up of recurrent implantation failure (RIF).
The form gathers one snapshot of clinical inputs. Six domain evaluators then run in
a fixed order:

- genetics;
- infection;
- immunology and thyroid;
- anatomy and receptivity;
- laboratory, with the derived HOMA-IR index;
- male factor.

Each evaluator appends fixed texts to two module-level lists, the recommendations
and the critical alerts. Along the way it sets the flags the protocol assembler reads
later. The assembler then lays out a five-phase plan:

1. pre-cycle, with the pending investigations;
2. endometrial preparation;
3. transfer day;
4. post-transfer;
5. follow-up.

Module layout:

- `Inputs` holds the snapshot. Each selectbox is an enumeration that keeps its "not
  tested / not performed" choice, integer widgets (age, failures, shared HLA alleles,
  glycemia) are `int`, decimal widgets are `real`, checkboxes are `bool`, and
  the multiselect of anatomical findings is a sequence.
- `Classifiers` holds the pure threshold bands (vitamin D, endometrial thickness, CRP,
  TSH, HOMA-IR) and the HOMA-IR formula.
- `Codes` holds the list entries. One constructor stands for each fixed text. Entries
  that interpolate a value carry that value: the vitamin D level, the pathogens found,
  the surgery or treatment.
- `Rules` defines each domain as a function from the lists it finds to the lists it
  leaves. `Evaluate` chains the six domains from two empty lists.
- `Protocol` holds the plan: pending investigations, the five phases, and the
  pre-cycle phase as the source writes it (see Findings).
- `Engine` is the imperative program. The class `Evaluation` holds the two lists and
  the flags as fields, its methods append in place, and the loops over the anatomical
  findings carry invariants. Every method is proved against `Rules`/`Protocol`.
- `Properties` shows that each domain only appends, and appends the same entries
  whatever the lists already hold. The evaluation is therefore the six contributions
  one after the other, and each entry is owned by exactly one domain.
- `Clinical` counts each entry of the evaluation, links the plan to the lists, and
  shows which inputs the rules never read.
- `Export` builds the name of the downloaded case file, with the date passed in.

Behaviour of the code worth noting:

- The form's defaults are glycemia 90 and insulin 10 (rif_app.py:719, 721). The
  HOMA-IR is then 900/405 ≈ 2.22. That falls in the borderline band of
  rif_app.py:724-745, so the untouched form yields one recommendation
  (`Clinical.DefaultEvaluation`).
- A homozygous MTHFR genotype only shows a warning (rif_app.py:111-112). It never
  adds a list entry or a plan item.
- The antioxidant checkbox only shows an information box (rif_app.py:785-810). The
  age alone decides the antioxidant recommendation.
- An aneuploid PGT-A result raises an alert and no recommendation (rif_app.py:87-88).

## Model

| member | source | states |
|---|---|---|
| Classifiers.VitaminDBand | rif_app.py:690-699 | deficient exactly below 20, insufficient exactly from 20 up to but below 30, adequate from 30 |
| Classifiers.VitaminDMonotone | rif_app.py:690-699 | a lower level is never classed less severe |
| Classifiers.ThicknessClass | rif_app.py:582-617 | thin exactly below 7 mm, borderline exactly from 7 up to but below 9 mm, adequate from 9 mm |
| Classifiers.ThicknessMonotone | rif_app.py:582-617 | a thinner endometrium is never classed less severe |
| Classifiers.CrpClass | rif_app.py:765-771 | very high exactly above 10, elevated exactly above 3 up to 10, normal up to 3 |
| Classifiers.CrpMonotone | rif_app.py:765-771 | a higher CRP is never classed less severe |
| Classifiers.TshClass | rif_app.py:401-406 | elevated exactly above 2.5, suppressed exactly below 0.5, in target otherwise |
| Classifiers.HomaIr | rif_app.py:724-725 | the index is defined exactly when glycemia and insulin are both positive, and is then positive |
| Classifiers.HomaIrFormula | rif_app.py:725 | a defined index times 405 is glycemia times insulin |
| Classifiers.HomaIrClass | rif_app.py:728-745 | resistant exactly above 2.5, borderline exactly above 1.9 up to 2.5, normal up to 1.9, undefined exactly when the index is absent |
| Classifiers.InsulinResistanceByProduct | rif_app.py:724-745 | a defined index is resistant exactly when glycemia times insulin exceeds 1012.5, and borderline exactly when it is above 769.5 up to 1012.5 |
| Classifiers.HomaIrMonotoneInInsulin | rif_app.py:724-745 | at a fixed glycemia, more insulin never gives a less severe class |
| Classifiers.HomaIrValue | rif_app.py:725 | computes glycemia times insulin over 405 |
| Rules.Genetics | rif_app.py:84-139 | computes the lists after the PGT-A advice, the aneuploidy alert, the thrombophilia pair and the HLA advice, appended in that order |
| Rules.Infection | rif_app.py:165-256 | computes the lists after the endometritis pair or else the biopsy advice, then the pathogen pair, then the probiotic advice |
| Rules.Immunology | rif_app.py:284-431 | computes the lists after the antiphospholipid pair, the rheumatology advice, the NK advice and the thyroid pair |
| Rules.Surgeries | rif_app.py:470-533 | computes the surgeries the selected alterations call for, in selection order |
| Rules.Treatments | rif_app.py:470-536 | computes the clinical treatments the selected alterations call for, in selection order |
| Rules.AlterationFindings | rif_app.py:470-569 | computes the lists after one salpingectomy alert per hydrosalpinx entry, and the surgeries then the treatments as recommendations |
| Rules.EndometrialThickness | rif_app.py:582-617 | computes the lists after the thin-endometrium pair below 7 mm, or the estradiol advice from 7 up to but below 9 mm |
| Rules.EraTiming | rif_app.py:643-674 | computes the lists after the pre- or post-receptive alert and its transfer advice |
| Rules.Anatomy | rif_app.py:470-674 | computes the lists after the alteration, thickness and ERA blocks in turn |
| Rules.VitaminD | rif_app.py:690-699 | computes the lists after the high-dose advice below 20 or the moderate-dose advice from 20 up to but below 30, quoting the level |
| Rules.VitaminsAndHormones | rif_app.py:690-714 | computes the lists after the vitamin D rule, the prolactin pair above 25 and the progesterone advice below 10 |
| Rules.InsulinSensitivity | rif_app.py:728-745 | computes the lists after the resistance pair above 2.5 or the borderline advice above 1.9, nothing when the index is undefined |
| Rules.Metabolism | rif_app.py:724-751 | computes the lists after the HOMA-IR rule and the diabetes alert from 126 mg/dL |
| Rules.Inflammation | rif_app.py:765-771 | computes the lists after the inflammation alert above 10 or the investigation advice above 3 |
| Rules.InflammationAndOxidation | rif_app.py:765-810 | computes the lists after the CRP rule, the B-vitamin advice above 15 and the antioxidant advice from age 37 |
| Rules.Laboratory | rif_app.py:690-810 | computes the lists after the hormone, metabolic and inflammation blocks in turn |
| Rules.MaleFactor | rif_app.py:828-865 | computes the lists after the fragmentation pair and, for an abnormal semen analysis, the urological advice |
| Rules.Evaluate | rif_app.py:50-865 | computes the six domains' contributions from empty lists, one after the other |
| Rules.RunInTurn | rif_app.py:50-865 | computes the six domains run in turn, each on the lists the previous one left |
| Rules.Infections | rif_app.py:211-220 | a pathogen is listed exactly when its own result is positive |
| Rules.InfectionsInOrder | rif_app.py:211-220 | the positive pathogens are listed in the order ureaplasma, mycoplasma, chlamydia |
| Rules.SafCriteria | rif_app.py:284-294 | a criterion is listed exactly when it is met (strictly above 40, or lupus anticoagulant positive) |
| Rules.SafChecklistInOrder | rif_app.py:284-294 | whatever criteria hold, they are listed in the fixed order aCL IgG, aCL IgM, lupus, β2GP1 IgG, β2GP1 IgM |
| Rules.SafCriteriaInOrder | rif_app.py:284-294 | the criteria met are listed in that fixed order |
| Rules.SurgeryFor | rif_app.py:474-533 | exactly polyp, submucous myoma, near intramural myoma, septum, Asherman and both hydrosalpinx variants call for a surgery; salpingectomy exactly for hydrosalpinx |
| Rules.TreatmentFor | rif_app.py:535-536 | exactly the two adenomyosis variants call for a clinical treatment |
| Rules.HydrosalpinxAlerts | rif_app.py:520-533 | every alert the visit appends is the salpingectomy alert |
| Protocol.IsPending | rif_app.py:905-921 | holds when the not-done condition of that investigation holds |
| Protocol.ContextOf | rif_app.py:905-1080 | computes the pending list, whether any alert was raised, the flags and the index after a full evaluation |
| Protocol.PreCycleHead | rif_app.py:923-956 | computes the pending items or the all-done line, the alert line, the base and age-35 supplements and the vitamin D line |
| Protocol.PreCycle | rif_app.py:923-971 | computes the head, then metformin and inositol when the index is above 2.5, then the male supplements |
| Protocol.PreCycleAsWritten | rif_app.py:938-960 | computes the pre-cycle phase as written, failing (None) exactly when the index was never bound |
| Protocol.EndometrialPrep | rif_app.py:973-1007 | computes estradiol, then the thin-endometrium checklist, aspirin and the GnRH analogue when their conditions hold |
| Protocol.TransferDay | rif_app.py:1009-1054 | computes enoxaparin, hydroxychloroquine, immunomodulation and the ERA timing when their conditions hold, then luteal support and the higher progesterone |
| Protocol.PostTransfer | rif_app.py:1056-1080 | computes the post-transfer care, then anticoagulation and TSH monitoring when their flags hold |
| Protocol.PlanFrom | rif_app.py:905-1098 | computes the five phases from the snapshot and a context |
| Protocol.PlanFor | rif_app.py:905-1098 | computes the five phases from the context of a full evaluation |
| Protocol.Checklist | rif_app.py:905-921 | an investigation is listed exactly when its own flag holds |
| Protocol.ChecklistInOrder | rif_app.py:905-921 | whatever flags hold, the investigations keep the checklist's fixed order |
| Protocol.PendingInvestigations | rif_app.py:905-921 | an investigation is pending exactly when its own not-done condition holds (ERA needs three failures; the infection screen looks at ureaplasma only) |
| Protocol.PendingInvestigationsInOrder | rif_app.py:905-921 | the pending investigations keep the checklist's fixed order |
| Engine.PositivePathogens | rif_app.py:211-220 | the three ifs collect exactly `Rules.Infections(s)` |
| Engine.MetSafCriteria | rif_app.py:284-294 | the five ifs collect exactly `Rules.SafCriteria(s)` |
| Engine.CollectPendingInvestigations | rif_app.py:905-921 | the eight ifs collect exactly `Protocol.PendingInvestigations(s)` |
| Engine.Evaluation.constructor | rif_app.py:50-51 | both lists start empty |
| Engine.Evaluation.AddThrombophilia | rif_app.py:104-132 | the flag is set exactly for a Factor V or prothrombin carrier, and then one alert and one recommendation are appended |
| Engine.Evaluation.AddGenetics | rif_app.py:84-139 | the lists become the genetics rules applied to the old lists; the thrombophilia flag is set |
| Engine.Evaluation.AddInfection | rif_app.py:165-256 | the lists become the infection rules applied to the old lists; the endometritis flag is set |
| Engine.Evaluation.AddAntiphospholipid | rif_app.py:284-318 | the criteria are stored, and one alert and one recommendation are appended exactly when some criterion is met |
| Engine.Evaluation.AddNaturalKiller | rif_app.py:352-392 | the NK flag is set from both NK tests, and its one recommendation is appended exactly when it holds |
| Engine.Evaluation.AddThyroid | rif_app.py:401-431 | the thyroid flag is set from TSH and anti-TPO, and its alert and recommendation are appended exactly when it holds |
| Engine.Evaluation.AddImmunology | rif_app.py:284-431 | the lists become the immunology rules applied to the old lists; the three flags are set |
| Engine.Evaluation.VisitAlteration | rif_app.py:474-549 | one alteration appends its own surgery or treatment, and a hydrosalpinx its alert, to what was collected |
| Engine.Evaluation.VisitAlterations | rif_app.py:470-549 | the loop over the selection collects the surgeries and treatments in visiting order and appends one alert per hydrosalpinx entry |
| Engine.Evaluation.RecommendSurgeries | rif_app.py:559-563 | each surgery is appended as one recommendation, in order |
| Engine.Evaluation.RecommendTreatments | rif_app.py:565-569 | each clinical treatment is appended as one recommendation, in order |
| Engine.Evaluation.AddAlterations | rif_app.py:470-569 | the lists become the alteration rules applied to the old lists |
| Engine.Evaluation.AddAnatomy | rif_app.py:470-674 | the lists become the anatomy and receptivity rules applied to the old lists |
| Engine.Evaluation.AddVitaminsAndHormones | rif_app.py:690-714 | the lists become the vitamin D, prolactin and progesterone rules applied to the old lists |
| Engine.Evaluation.AddMetabolism | rif_app.py:724-751 | the index is bound exactly when defined, and the lists become the HOMA-IR and glucose rules applied to the old lists |
| Engine.Evaluation.AddInflammationAndOxidation | rif_app.py:765-810 | the lists become the CRP, homocysteine and antioxidant rules applied to the old lists |
| Engine.Evaluation.AddLaboratory | rif_app.py:690-810 | the lists become the laboratory rules applied to the old lists; the index is stored |
| Engine.Evaluation.AddMaleFactor | rif_app.py:828-865 | the lists become the male-factor rules applied to the old lists |
| Engine.Evaluation.AddClinicalDomains | rif_app.py:84-431 | the first three domains run in order on the lists; their flags are set |
| Engine.Evaluation.AddRemainingDomains | rif_app.py:470-865 | the last three domains run in order on the lists; the index is stored |
| Engine.Evaluation.EvaluateAll | rif_app.py:84-865 | from empty lists, the six domains leave exactly `Rules.Evaluate(s)` and the flags it implies |
| Engine.Evaluation.AssemblePlan | rif_app.py:905-1098 | after the evaluation, the plan laid out is `Protocol.PlanFor(s)` |
| Engine.RunEvaluation | rif_app.py:50-1098 | one run yields exactly the evaluated lists and the plan |
| Properties.RecommendAfter | rif_app.py:50-51 | a recommendation rule appends after whatever the lists already hold |
| Properties.AlarmAfter | rif_app.py:50-51 | an alert rule appends after whatever the lists already hold |
| Properties.AlarmAndRecommendAfter | rif_app.py:50-51 | a paired rule appends after whatever the lists already hold |
| Properties.ThenNothing | rif_app.py:50-51 | following lists by two empty lists leaves them as they are |
| Properties.GeneticsAfter | rif_app.py:84-139 | genetics appends the same entries whatever the lists hold |
| Properties.InfectionAfter | rif_app.py:165-256 | infection appends the same entries whatever the lists hold |
| Properties.ImmunologyAfter | rif_app.py:284-431 | immunology appends the same entries whatever the lists hold |
| Properties.AlterationFindingsAfter | rif_app.py:470-569 | the alteration rules append the same entries whatever the lists hold |
| Properties.EndometrialThicknessAfter | rif_app.py:582-617 | the thickness rules append the same entries whatever the lists hold |
| Properties.EraTimingAfter | rif_app.py:643-674 | the ERA rules append the same entries whatever the lists hold |
| Properties.AnatomyAfter | rif_app.py:470-674 | anatomy appends the same entries whatever the lists hold |
| Properties.VitaminsAndHormonesAfter | rif_app.py:690-714 | vitamin D, prolactin and progesterone append the same entries whatever the lists hold |
| Properties.MetabolismAfter | rif_app.py:724-751 | the metabolic rules append the same entries whatever the lists hold |
| Properties.InflammationAndOxidationAfter | rif_app.py:765-810 | the inflammation and antioxidant rules append the same entries whatever the lists hold |
| Properties.LaboratoryAfter | rif_app.py:690-810 | the laboratory appends the same entries whatever the lists hold |
| Properties.MaleFactorAfter | rif_app.py:828-865 | the male factor appends the same entries whatever the lists hold |
| Properties.RunInTurnIsEvaluate | rif_app.py:50-865 | running the six domains in turn on the shared lists gives each domain's own contribution one after the other |
| Properties.GeneticsOwned | rif_app.py:84-139 | genetics appends only genetics entries |
| Properties.InfectionOwned | rif_app.py:165-256 | infection appends only infection entries |
| Properties.ImmunologyOwned | rif_app.py:284-431 | immunology appends only immunology entries |
| Properties.AnatomyParts | rif_app.py:470-674 | anatomy is the alteration, thickness and ERA blocks one after the other |
| Properties.AlterationsOwned | rif_app.py:470-569 | the alteration block appends only salpingectomy alerts and surgery or treatment recommendations |
| Properties.EndometrialThicknessOwned | rif_app.py:582-617 | the thickness block appends only anatomy entries |
| Properties.EraTimingOwned | rif_app.py:643-674 | the ERA block appends only anatomy entries |
| Properties.AnatomyOwned | rif_app.py:470-674 | anatomy appends only anatomy entries |
| Properties.LaboratoryParts | rif_app.py:690-810 | the laboratory is the vitamin-and-hormone, metabolic and inflammation blocks one after the other |
| Properties.VitaminDOwned | rif_app.py:690-699 | the vitamin D rule appends only laboratory recommendations and never an alert |
| Properties.VitaminsAndHormonesOwned | rif_app.py:690-714 | that block appends only laboratory entries |
| Properties.MetabolismOwned | rif_app.py:724-751 | that block appends only laboratory entries |
| Properties.InflammationAndOxidationOwned | rif_app.py:765-810 | that block appends only laboratory entries |
| Properties.LaboratoryOwned | rif_app.py:690-810 | the laboratory appends only laboratory entries |
| Properties.MaleFactorOwned | rif_app.py:828-865 | the male factor appends only male-factor entries |
| Properties.CountInThree | rif_app.py:470-810 | an entry's count over three rule blocks one after the other is the sum of their three counts |
| Properties.LaboratoryCounts | rif_app.py:690-810 | a laboratory count is the sum of the counts of the hormone, metabolic and inflammation blocks |
| Properties.CountInSix | rif_app.py:50-865 | an entry's count over the six contributions one after the other is the sum of its six counts |
| Properties.OwnersOnly | rif_app.py:84-865 | no domain's contribution holds an entry of another domain |
| Properties.AlertsByOwner | rif_app.py:84-865 | an alert occurs in the evaluation exactly as often as its one owning domain appends it |
| Properties.RecommendationsByOwner | rif_app.py:84-865 | a recommendation occurs in the evaluation exactly as often as its one owning domain appends it |
| Properties.AlertFromGenetics | rif_app.py:84-139 | a genetics alert is counted in the evaluation as often as genetics appends it |
| Properties.RecommendationFromGenetics | rif_app.py:84-139 | a genetics recommendation is counted in the evaluation as often as genetics appends it |
| Properties.AlertFromInfection | rif_app.py:165-256 | an infection alert is counted in the evaluation as often as the infection rules append it |
| Properties.RecommendationFromInfection | rif_app.py:165-256 | an infection recommendation is counted in the evaluation as often as the infection rules append it |
| Properties.AlertFromImmunology | rif_app.py:284-431 | an immunology alert is counted in the evaluation as often as immunology appends it |
| Properties.RecommendationFromImmunology | rif_app.py:284-431 | an immunology recommendation is counted in the evaluation as often as immunology appends it |
| Properties.AlertFromAnatomy | rif_app.py:470-674 | an anatomy alert is counted in the evaluation as often as anatomy appends it |
| Properties.RecommendationFromAnatomy | rif_app.py:470-674 | an anatomy recommendation is counted in the evaluation as often as anatomy appends it |
| Properties.AlertFromLaboratory | rif_app.py:690-810 | a laboratory alert is counted in the evaluation as often as the laboratory appends it |
| Properties.RecommendationFromLaboratory | rif_app.py:690-810 | a laboratory recommendation is counted in the evaluation as often as the laboratory appends it |
| Properties.AlertFromMaleFactor | rif_app.py:828-865 | the male-factor alert is counted in the evaluation as often as the male factor appends it |
| Properties.RecommendationFromMaleFactor | rif_app.py:828-865 | a male-factor recommendation is counted in the evaluation as often as the male factor appends it |
| Properties.InsulinSensitivityEntries | rif_app.py:728-751 | the HOMA-IR rule appends one resistance alert and one metformin recommendation when resistant, one borderline recommendation when borderline |
| Properties.VitaminsAndHormonesVocabulary | rif_app.py:690-714 | any alert but the prolactin one, and any advice but vitamin D, cabergoline or progesterone, is counted zero times in that block |
| Properties.MetabolismVocabulary | rif_app.py:724-751 | any alert but the resistance and diabetes ones, and any advice but the two metformin ones, is counted zero times in that block |
| Properties.InflammationAndOxidationVocabulary | rif_app.py:765-810 | any alert but the inflammation one, and any advice but the CRP, B-vitamin and antioxidant ones, is counted zero times in that block |
| Properties.LaboratoryInsulinEntries | rif_app.py:690-810 | inside the laboratory, only the metabolic block appends the index entries |
| Properties.LaboratoryHomaIrEntries | rif_app.py:724-745 | the laboratory appends each index entry once in its own band and never otherwise |
| Properties.InsulinResistanceAlertCount | rif_app.py:728-741 | the resistance alert occurs once exactly when the index is above 2.5 |
| Properties.MetforminCount | rif_app.py:728-742 | metformin with inositol is recommended once exactly when the index is above 2.5 |
| Properties.BorderlineMetforminCount | rif_app.py:743-745 | the borderline advice occurs once exactly when the index is above 1.9 up to 2.5 |
| Properties.UndefinedHomaIrSilent | rif_app.py:724-745 | with a zero glycemia or insulin, none of the three index entries appears |
| Clinical.ThrombophiliaAlertCount | rif_app.py:104-132 | the thrombophilia alert occurs once exactly for a Factor V or prothrombin carrier |
| Clinical.AnticoagulationAdviceCount | rif_app.py:104-131 | prophylactic anticoagulation is recommended once exactly for such a carrier |
| Clinical.AneuploidyAlertCount | rif_app.py:87-88 | the aneuploidy alert occurs once exactly for an all- or mostly-aneuploid result |
| Clinical.PgtAAdviceCount | rif_app.py:84-85 | PGT-A is strongly recommended once exactly from age 37 when none was done |
| Clinical.ImmunotherapyAdviceCount | rif_app.py:133-139 | immunotherapy is to be considered once exactly when HLA was typed with two or more shared alleles |
| Clinical.PreReceptiveAlertCount | rif_app.py:643-655 | the pre-receptive alert occurs once exactly for a pre-receptive ERA result |
| Clinical.PostReceptiveAlertCount | rif_app.py:643-670 | the post-receptive alert occurs once exactly for a post-receptive ERA result |
| Clinical.DelayTransferCount | rif_app.py:643-656 | the later-transfer advice occurs once exactly for a pre-receptive result |
| Clinical.AdvanceTransferCount | rif_app.py:643-671 | the earlier-transfer advice occurs once exactly for a post-receptive result |
| Clinical.TransferDayTiming | rif_app.py:1033-1040 | the transfer day moves the transfer later exactly for pre-receptive and earlier exactly for post-receptive |
| Clinical.TransferTiming | rif_app.py:1033-1040 | the planned transfer timing follows the receptivity alerts both ways |
| Clinical.ReceptivityOneWay | rif_app.py:643-674 | no input raises both receptivity alerts or moves the transfer both ways |
| Clinical.ThinEndometriumAlertCount | rif_app.py:582-611 | the thin-endometrium alert occurs once exactly below 7 mm |
| Clinical.ThinEndometriumProtocolCount | rif_app.py:582-612 | the thin-endometrium protocol is recommended once exactly below 7 mm |
| Clinical.VaginalEstradiolCount | rif_app.py:614-617 | vaginal estradiol is recommended once exactly from 7 up to but below 9 mm |
| Clinical.PrepChecklist | rif_app.py:987-996 | the preparation carries the thin-endometrium checklist exactly below 7 mm |
| Clinical.ThinEndometriumInPlan | rif_app.py:987-996 | the preparation carries it exactly when the thin-endometrium alert was raised |
| Clinical.EndometritisAlertCount | rif_app.py:165-194 | the endometritis alert occurs once exactly for a positive CD138 biopsy |
| Clinical.BiopsyAdviceCount | rif_app.py:196-199 | a biopsy is asked for once exactly when no endometritis was found and the hysteroscopy was suggestive |
| Clinical.InfectionAlertCount | rif_app.py:211-240 | the infection alert occurs once, naming exactly the positive pathogens in order, and only when there is one |
| Clinical.AntibioticsAdviceCount | rif_app.py:165-194 | antibiotics and a repeat biopsy are recommended once exactly for a positive CD138 biopsy |
| Clinical.AntimicrobialAdviceCount | rif_app.py:211-240 | antimicrobial treatment is recommended once exactly when some pathogen is positive |
| Clinical.ProbioticsAdviceCount | rif_app.py:254-256 | vaginal probiotics are recommended once exactly for a microbiome under 50% lactobacilli |
| Clinical.AntiphospholipidAlertCount | rif_app.py:296-317 | the antiphospholipid alert occurs once exactly when some criterion is met, however many |
| Clinical.SafProtocolCount | rif_app.py:296-318 | the antiphospholipid protocol is recommended once exactly when some criterion is met |
| Clinical.ThyroidAlertCount | rif_app.py:401-430 | the thyroid alert occurs once exactly for a TSH outside 0.5-2.5 or a positive anti-TPO |
| Clinical.NkAdviceCount | rif_app.py:352-392 | the prednisone discussion occurs once exactly for raised NK cells |
| Clinical.RheumatologyAdviceCount | rif_app.py:326-328 | a rheumatology referral is recommended once exactly for an ANA of 1:160 or more or a positive anti-DNA |
| Clinical.ThyroidOptimisationCount | rif_app.py:401-431 | thyroid optimisation is recommended once exactly when the thyroid alert is raised |
| Clinical.PlanAnticoagulation | rif_app.py:999-1080 | in any context, aspirin, enoxaparin and maintained anticoagulation are planned exactly when anticoagulation is indicated; hydroxychloroquine, prednisone and TSH monitoring by their own conditions |
| Clinical.AnticoagulationInPlan | rif_app.py:999-1074 | aspirin, enoxaparin and maintained anticoagulation are planned exactly when a thrombophilia or antiphospholipid alert was raised |
| Clinical.HydroxychloroquineInPlan | rif_app.py:1022-1025 | hydroxychloroquine is planned exactly for a positive lupus anticoagulant |
| Clinical.ImmunomodulationInPlan | rif_app.py:1027-1031 | prednisone or intralipid is planned exactly when NK advice was given and four or more transfers failed |
| Clinical.ThyroidInPlan | rif_app.py:1076-1080 | TSH is monitored exactly when the thyroid alert was raised |
| Clinical.HighDoseCount | rif_app.py:690-693 | below 20 the high-dose advice occurs once, quoting the measured level, and never for another level |
| Clinical.ModerateDoseCount | rif_app.py:694-697 | from 20 up to but below 30 the moderate-dose advice occurs once, quoting the measured level |
| Clinical.DiabetesAlertCount | rif_app.py:751 | the diabetes alert occurs once exactly from a glycemia of 126 |
| Clinical.InflammationAlertCount | rif_app.py:765-768 | the inflammation alert occurs once exactly above a CRP of 10 |
| Clinical.LaboratoryHormones | rif_app.py:690-810 | inside the laboratory, only the hormone block appends the prolactin and progesterone entries |
| Clinical.ProlactinAlertCount | rif_app.py:700-709 | the hyperprolactinaemia alert occurs once exactly above 25 ng/mL |
| Clinical.CabergolineAdviceCount | rif_app.py:700-709 | cabergoline with a work-up is recommended once exactly above 25 ng/mL |
| Clinical.ProgesteroneAdviceCount | rif_app.py:711-714 | stronger progesterone support is recommended once exactly below 10 ng/mL |
| Clinical.LaboratoryOxidation | rif_app.py:690-810 | inside the laboratory, only the inflammation and oxidation block appends the CRP, B-vitamin and antioxidant advice |
| Clinical.InvestigateInflammationCount | rif_app.py:765-771 | investigating the inflammation is recommended once exactly for a CRP above 3 up to 10 |
| Clinical.BVitaminsCount | rif_app.py:773-781 | B vitamins are recommended once exactly for a homocysteine above 15 |
| Clinical.AntioxidantProtocolCount | rif_app.py:805-810 | the full antioxidant protocol is recommended once exactly from age 37, whatever the checkbox |
| Clinical.PreCycleItems | rif_app.py:955-960 | in any context, the vitamin D dose is planned exactly below 30, metformin and inositol exactly for a resistant index |
| Clinical.PreCycleHeader | rif_app.py:905-936 | in any context, each investigation is planned exactly when pending, the all-done line exactly when none is, the alerts pointer exactly when there are alerts |
| Clinical.VitaminDInPlan | rif_app.py:955-956 | the vitamin D dose is planned exactly when a vitamin D advice for the measured level was given |
| Clinical.MetforminInPlan | rif_app.py:958-960 | metformin and inositol are planned exactly when the resistance alert was raised |
| Clinical.PendingInPlan | rif_app.py:905-927 | the pre-cycle phase lists each investigation exactly when pending, and says all are done exactly when none is |
| Clinical.CriticalAlertsInPlan | rif_app.py:933-936 | the pre-cycle phase points to the alerts exactly when there is one |
| Clinical.PendingIgnoresOtherPathogens | rif_app.py:918-919 | the mycoplasma and chlamydia results do not change the pending list |
| Clinical.SurgeriesExactly | rif_app.py:473-533 | a surgery is collected exactly when some selected finding calls for it |
| Clinical.TreatmentsCount | rif_app.py:535-536 | the treatment list holds one entry per adenomyosis entry |
| Clinical.HydrosalpinxCount | rif_app.py:520-533 | the visit alerts once per hydrosalpinx entry |
| Clinical.SurgeriesFirst | rif_app.py:559-569 | every surgery is recommended before any clinical treatment |
| Clinical.HydrosalpinxAlertCount | rif_app.py:520-533 | the salpingectomy alert occurs once per hydrosalpinx entry, so both variants give two |
| Clinical.AdenomyosisTreatmentCount | rif_app.py:535-569 | the GnRH-analogue treatment is recommended once per adenomyosis entry |
| Clinical.SurgeryAdvice | rif_app.py:473-563 | a surgery is recommended exactly when some selected finding calls for it |
| Clinical.PrepAdenomyosis | rif_app.py:1004-1007 | the preparation considers the GnRH analogue exactly when adenomyosis is selected |
| Clinical.AdenomyosisInPlan | rif_app.py:1004-1007 | the preparation considers it exactly when the GnRH-analogue treatment was recommended |
| Clinical.EmptySelectionChangesNothing | rif_app.py:470-569 | an empty selection leaves both lists as they were |
| Clinical.GeneticsReads | rif_app.py:84-139 | genetics reads only age, PGT-A, the two carrier tests and HLA |
| Clinical.InfectionReads | rif_app.py:165-256 | infection reads only biopsy, hysteroscopy, the pathogens and the microbiome |
| Clinical.ImmunologyReads | rif_app.py:284-431 | immunology reads only the antiphospholipid, autoimmune, NK and thyroid inputs |
| Clinical.AnatomyReads | rif_app.py:470-674 | anatomy reads only the selection, the thickness and the ERA result |
| Clinical.LaboratoryReads | rif_app.py:690-810 | the laboratory reads only its seven measurements and the age |
| Clinical.MaleFactorReads | rif_app.py:828-865 | the male factor reads only fragmentation and semen analysis |
| Clinical.FragmentationAlertCount | rif_app.py:828-854 | the sperm DNA fragmentation alert occurs once exactly at 25% fragmentation or more |
| Clinical.AntioxidantAdviceCount | rif_app.py:828-854 | the partner's antioxidants are recommended once exactly at 25% fragmentation or more |
| Clinical.UrologicalAdviceCount | rif_app.py:856-865 | a urological evaluation is recommended once exactly for a semen analysis that was done and is not normal |
| Clinical.EvaluateReads | rif_app.py:84-865 | two forms agreeing on every read input evaluate to the same lists |
| Clinical.MthfrDisplayOnly | rif_app.py:111-112 | the MTHFR genotype changes neither list |
| Clinical.MthfrNotPlanned | rif_app.py:111-112 | the MTHFR genotype does not change the plan |
| Clinical.AntioxidantOptInIgnored | rif_app.py:785-810 | the antioxidant checkbox changes neither list |
| Clinical.PgtAResultAlertOnly | rif_app.py:87-88 | the PGT-A result never changes the recommendations |
| Clinical.VitaminDNeverAlerts | rif_app.py:690-699 | the vitamin D level never changes the alerts |
| Clinical.DefaultEvaluation | rif_app.py:719-745 | the untouched form yields only the borderline metformin advice and no alert |
| Clinical.PreCycleAsWrittenFails | rif_app.py:724-958 | as written, the pre-cycle phase fails exactly when glycemia or insulin is zero |
| Clinical.PreCycleAsWrittenAgrees | rif_app.py:938-971 | where the code as written gets through, it builds the modelled pre-cycle phase |
| Clinical.ZeroGlycemiaCounterexample | rif_app.py:719-958 | the default form with glycemia 0 fails as written, while the model plans no metformin |
| Export.SpacesToUnderscores | rif_app.py:1159 | the name keeps its length, with exactly each space turned into an underscore |
| Export.CaseFileName | rif_app.py:1159 | the file name has the fixed prefix and extension around name and date |
| Export.SpacelessNameKept | rif_app.py:1159 | a name without spaces is kept as it is |
| Export.FileNameHasNoSpace | rif_app.py:1159 | the file name holds no space when the date holds none |
| Export.NamePartReadBack | rif_app.py:1159 | the cleaned name can be read back from the file name |

## Left out

- The Streamlit plumbing is not modelled: widgets, layout, tabs, columns and the
  explanatory text blocks, including every `st.error`, `st.warning`, `st.info` and
  `st.markdown` message that never touches a list.
- The texts themselves are left out. Each list entry is a constructor. The vitamin D
  level and the pathogen names are carried as values, and no decimal rendering or
  `", "` join is modelled.
- Display-only inputs and unused inputs have no rule effect and are not part of the
  snapshot:
  - BMI, embryo type and quality, karyotype result, PAI-1, endometrial culture and pattern;
  - Doppler flow and the imaging checkboxes;
  - anti-Tg, free T4, estradiol, HbA1c, ESR.
  - The MTHFR genotype and the antioxidant checkbox are kept, only so that their lack
    of effect can be proved.
- The plan phases are modelled as ordered lists of checklist items, one item per
  conditional block. The fixed lines inside each block are not listed.
- The PDF button, the JSON serialisation and the download are I/O. The case-file name
  takes the date as a string instead of reading the clock.
- Floating point: the decimal widgets are exact reals, and no rounding is modelled.
  The integer widgets are `int`, and every comparison is on values the widgets bound.
- The run is a single pass over one snapshot. Streamlit's re-execution on every
  widget change is not modelled.

## Findings

| source | as written | input that shows it | evidently intended | confidence | as-written member | corrected member |
|---|---|---|---|---|---|---|
| rif_app.py:958 | `homa_ir` is bound only inside `if glicemia > 0 and insulina > 0` (724-725), yet the pre-cycle test `homa_ir > 2.5` reads it unconditionally, which raises NameError | the default form with glycemia set to 0 (the widget's minimum) | with an undefined index, skip the metformin and inositol lines, as the evaluators do | not executed | Clinical.PreCycleAsWrittenFails | Clinical.MetforminInPlan |
