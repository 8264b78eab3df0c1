/** The queue-side domain types (src/types/icu.ts): the five CFM admission
    priorities of Resolution CFM 2.156/2016 with their display metadata, the
    criteria a request is classified by, the queue request and its audit
    trail, and the fixed list of denial reasons. */
module Icu {
  import opened Common

  /** `type CFMPriority = 1 | 2 | 3 | 4 | 5`. */
  type CfmPriority = p: int | 1 <= p <= 5 witness 1

  datatype PriorityInfo = PriorityInfo(
    level: CfmPriority,
    name: string,
    description: string,
    recommendation: string,
    color: string)

  /** `CFM_PRIORITIES`: one metadata entry per priority. */
  const CfmPriorities: map<CfmPriority, PriorityInfo> := map[
    1 := PriorityInfo(1, "Prioridade 1",
      "Necessita de suporte à vida imediato, com alta probabilidade de recuperação e sem limitação terapêutica.",
      "Indicação absoluta para UTI", "priority-1"),
    2 := PriorityInfo(2, "Prioridade 2",
      "Necessita de monitorização intensiva por alto risco de intervenção imediata, sem limitação terapêutica.",
      "UTI ou Unidade Semi-Intensiva", "priority-2"),
    3 := PriorityInfo(3, "Prioridade 3",
      "Necessita de suporte à vida, porém com baixa probabilidade de recuperação ou limitação terapêutica.",
      "Avaliar benefício da UTI", "priority-3"),
    4 := PriorityInfo(4, "Prioridade 4",
      "Necessita de monitorização intensiva com limitação de intervenção terapêutica.",
      "Unidade Semi-Intensiva preferencial", "priority-4"),
    5 := PriorityInfo(5, "Prioridade 5",
      "Fase de terminalidade, sem possibilidade de recuperação. Não elegível para UTI, exceto doação de órgãos.",
      "Cuidados Paliativos", "priority-5")
  ]

  /** The metadata lookup `CFM_PRIORITIES[p]` used by the request form. */
  function PriorityInfoOf(p: CfmPriority): (info: PriorityInfo)
    ensures info.level == p
    ensures info.name == "Prioridade " + [(('0' as int) + p) as char]
  {
    PriorityTableIsComplete();
    CfmPriorities[p]
  }

  /** The table is total over the priority type and every entry is filed
      under its own level. */
  lemma PriorityTableIsComplete()
    ensures CfmPriorities.Keys == {1, 2, 3, 4, 5}
    ensures forall p: CfmPriority :: p in CfmPriorities && CfmPriorities[p].level == p
  {
  }

  /** The queue-side status (`RequestStatus` of this file, distinct from the
      store's request status in src/types/request.ts). */
  datatype QueueStatus = Pending | Approved | Denied | Transferred | Cancelled | Reevaluation

  datatype Gender = M | F | O

  datatype Patient = Patient(
    id: string,
    name: string,
    age: int,
    gender: Gender,
    medicalRecord: string,
    originUnit: string,
    diagnosis: string)

  /** `CFMCriteria`; `isOrganDonor` is an optional field. */
  datatype CfmCriteria = CfmCriteria(
    needsLifeSupport: bool,
    highRecoveryProbability: bool,
    hasTherapeuticLimitation: bool,
    isPotentiallyReversible: bool,
    isOrganDonor: Option<bool>)

  /** A queue audit entry; `date` is a time in milliseconds. */
  datatype AuditEntry = AuditEntry(
    id: string,
    date: int,
    action: string,
    physician: string,
    previousPriority: Option<CfmPriority>,
    newPriority: Option<CfmPriority>,
    justification: string)

  /** `ICURequest`; `requestDate` is a time in milliseconds. */
  datatype IcuRequest = IcuRequest(
    id: string,
    patient: Patient,
    requestDate: int,
    requestingPhysician: string,
    cfmPriority: CfmPriority,
    cfmCriteria: CfmCriteria,
    status: QueueStatus,
    clinicalJustification: string,
    sofa: Option<int>,
    apache: Option<int>,
    history: seq<AuditEntry>)

  datatype DenialReason = DenialReason(code: string, description: string, cfmBased: bool)

  /** `DENIAL_REASONS`, in order. */
  const DenialReasons: seq<DenialReason> := [
    DenialReason("CFM_CRITERIA", "Critérios CFM não atendidos", true),
    DenialReason("THERAPEUTIC_LIMIT", "Limitação terapêutica definida", true),
    DenialReason("LOW_RECOVERY", "Baixa probabilidade de recuperação com terapia intensiva", true),
    DenialReason("PALLIATIVE", "Indicação de cuidados paliativos", true),
    DenialReason("ALTERNATIVE_CARE", "Alternativa assistencial adequada disponível", true),
    DenialReason("SEMI_INTENSIVE", "Perfil para Unidade Semi-Intensiva", true),
    DenialReason("CLINICAL_STABILITY", "Paciente clinicamente estável", false),
    DenialReason("OTHER", "Outro motivo (especificar)", false)
  ]

  /** The codes are pairwise distinct, so a code names one reason. */
  lemma DenialCodesAreDistinct()
    ensures forall i, j :: 0 <= i < j < |DenialReasons| ==> DenialReasons[i].code != DenialReasons[j].code
  {
  }

  /** Exactly six reasons are CFM-based: all but clinical stability and
      "other". */
  lemma DenialReasonsShape()
    ensures Count(DenialReasons, (d: DenialReason) => d.cfmBased) == 6
    ensures forall i :: 0 <= i < |DenialReasons| && !DenialReasons[i].cfmBased ==>
              DenialReasons[i].code in {"CLINICAL_STABILITY", "OTHER"}
  {
    var cfm := (d: DenialReason) => d.cfmBased;
    var rs := DenialReasons;
    assert rs == rs[..6] + rs[6..];
    FilterKeepsAll(rs[..6], cfm);
    assert Filter(rs[6..], cfm) == [] by {
      assert rs[7..][1..] == [];
      assert rs[6..][1..] == rs[7..];
    }
    FilterAppend(rs[..6], rs[6..], cfm);
  }
}
