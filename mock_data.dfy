/** src/data/mockData.ts: the priority classifier of the queue side
    (`calculateCFMPriority`) and the sample requests the queue and the audit
    page are built from. */
module MockData {
  import opened Common
  import opened Icu

  /** The 5-rule of the classifier: not reversible, low recovery and not an
      organ donor (an absent donor flag counts as "not a donor"). */
  predicate TerminalRuleFires(c: CfmCriteria) {
    !c.isPotentiallyReversible && !c.highRecoveryProbability && !c.isOrganDonor.GetOr(false)
  }

  /** `calculateCFMPriority`: a chain of guarded returns, tried in order,
      whose outcomes are characterised one by one. Life support and
      therapeutic limitation play no part in the 5-rule, and the 5-rule can
      never fire when recovery is high. */
  function CalculateCfmPriority(c: CfmCriteria): (p: CfmPriority)
    ensures p == 5 <==> TerminalRuleFires(c)
    ensures p == 1 <==> c.needsLifeSupport && c.highRecoveryProbability && !c.hasTherapeuticLimitation
    ensures p == 2 <==> !c.needsLifeSupport && c.highRecoveryProbability && !c.hasTherapeuticLimitation
    ensures p == 4 <==> !TerminalRuleFires(c) && !c.needsLifeSupport && c.hasTherapeuticLimitation
    ensures p == 3 <==> !TerminalRuleFires(c) &&
                        ((c.needsLifeSupport && (!c.highRecoveryProbability || c.hasTherapeuticLimitation))
                         || (!c.needsLifeSupport && !c.highRecoveryProbability && !c.hasTherapeuticLimitation))
  {
    var needs := c.needsLifeSupport;
    var high := c.highRecoveryProbability;
    var limited := c.hasTherapeuticLimitation;
    if !c.isPotentiallyReversible && !high && !c.isOrganDonor.GetOr(false) then 5
    else if needs && high && !limited then 1
    else if !needs && high && !limited then 2
    else if needs && (!high || limited) then 3
    else if !needs && limited then 4
    else 3
  }

  /** The fallback `return 3` is reachable: no support, low recovery, no
      limitation, and reversible or a donor. */
  lemma FallbackIsReachable(c: CfmCriteria)
    requires !c.needsLifeSupport && !c.highRecoveryProbability && !c.hasTherapeuticLimitation
    requires c.isPotentiallyReversible || c.isOrganDonor == Some(true)
    ensures CalculateCfmPriority(c) == 3
  {
  }

  const Hour: int := 60 * 60 * 1000

  function Criteria(needs: bool, high: bool, limited: bool, reversible: bool): CfmCriteria {
    CfmCriteria(needs, high, limited, reversible, None)
  }

  function Creation(id: string, date: int, physician: string, justification: string): seq<AuditEntry> {
    [AuditEntry(id, date, "Solicitação criada", physician, None, None, justification)]
  }

  /** `mockRequests`, with `Date.now()` as the parameter `now` (milliseconds). */
  function MockRequests(now: int): (rs: seq<IcuRequest>)
    ensures |rs| == 5
  {
    seq(5, i requires 0 <= i < 5 => Sample(i + 1, now))
  }

  /** Sample `k` of `mockRequests`, counting from 1. */
  function Sample(k: nat, now: int): IcuRequest
    requires 1 <= k <= 5
  {
    match k
    case 1 => Sample1(now)
    case 2 => Sample2(now)
    case 3 => Sample3(now)
    case 4 => Sample4(now)
    case _ => Sample5(now)
  }

  const Patient1: Patient := Patient("PAT-001", "Maria Silva Santos", 67, F, "MR-2024-001234",
    "Pronto Socorro", "Sepse de foco pulmonar")
  const Physician1: string := "Dr. Carlos Eduardo Lima"
  const Justification1: string := "Paciente com sepse grave, necessitando de vasopressores e ventilação mecânica. Quadro potencialmente reversível com tratamento intensivo."
  const History1: string := "Solicitação inicial de leito de UTI"

  function Sample1(now: int): IcuRequest {
    IcuRequest("REQ-001", Patient1, now - 2 * Hour, Physician1, 1, Criteria(true, true, false, true),
      Pending, Justification1, Some(8), Some(22),
      Creation("AUD-001", now - 2 * Hour, Physician1, History1))
  }

  const Patient2: Patient := Patient("PAT-002", "João Pedro Oliveira", 45, M, "MR-2024-001235",
    "Centro Cirúrgico", "Pós-operatório de revascularização miocárdica")
  const Physician2: string := "Dra. Ana Paula Ferreira"
  const Justification2: string := "Pós-operatório imediato de CRM, necessita monitorização intensiva nas primeiras 24-48h."
  const History2: string := "Monitorização pós-operatória"

  function Sample2(now: int): IcuRequest {
    IcuRequest("REQ-002", Patient2, now - 4 * Hour, Physician2, 2, Criteria(false, true, false, true),
      Pending, Justification2, Some(4), Some(12),
      Creation("AUD-002", now - 4 * Hour, Physician2, History2))
  }

  const Patient3: Patient := Patient("PAT-003", "Antônia Rodrigues", 82, F, "MR-2024-001236",
    "Enfermaria", "Insuficiência cardíaca descompensada")
  const Physician3: string := "Dr. Roberto Mendes"
  const Justification3: string := "IC classe IV, múltiplas comorbidades. Baixa probabilidade de recuperação completa, mas quadro potencialmente estabilizável."
  const History3: string := "Descompensação aguda de ICC"

  function Sample3(now: int): IcuRequest {
    IcuRequest("REQ-003", Patient3, now - 6 * Hour, Physician3, 3, Criteria(true, false, false, true),
      Pending, Justification3, Some(6), Some(28),
      Creation("AUD-003", now - 6 * Hour, Physician3, History3))
  }

  const Patient4: Patient := Patient("PAT-004", "Francisco Almeida", 58, M, "MR-2024-001237",
    "Pronto Socorro", "Cetoacidose diabética")
  const Physician4: string := "Dra. Mariana Costa"
  const Justification4: string := "CAD grave com pH 7.1, necessita monitorização intensiva e correção metabólica."
  const History4: string := "Emergência metabólica"

  function Sample4(now: int): IcuRequest {
    IcuRequest("REQ-004", Patient4, now - 1 * Hour, Physician4, 2, Criteria(false, true, false, true),
      Pending, Justification4, Some(5), Some(15),
      Creation("AUD-004", now - 1 * Hour, Physician4, History4))
  }

  const Patient5: Patient := Patient("PAT-005", "Tereza Nascimento", 91, F, "MR-2024-001238",
    "Enfermaria", "Neoplasia pulmonar avançada com metástases")
  const Physician5: string := "Dr. Paulo Henrique"
  const Justification5: string := "Paciente em fase terminal, família optou por cuidados de conforto. Encaminhamento para equipe de cuidados paliativos."
  const History5: string := "Avaliação de critérios CFM"

  function Sample5(now: int): IcuRequest {
    IcuRequest("REQ-005", Patient5, now - 3 * Hour, Physician5, 5, Criteria(true, false, true, false),
      Pending, Justification5, Some(12), None,
      Creation("AUD-005", now - 3 * Hour, Physician5, History5))
  }

  /** The classifier on the four criteria combinations the samples use. */
  lemma SamplePriorities()
    ensures CalculateCfmPriority(Criteria(true, true, false, true)) == 1
    ensures CalculateCfmPriority(Criteria(false, true, false, true)) == 2
    ensures CalculateCfmPriority(Criteria(true, false, false, true)) == 3
    ensures CalculateCfmPriority(Criteria(true, false, true, false)) == 5
  {
  }

  lemma Sample1IsConsistent(now: int)
    ensures Sample1(now).cfmPriority == CalculateCfmPriority(Sample1(now).cfmCriteria)
    ensures Sample1(now).status == Pending
  {
    assert Sample1(now).cfmCriteria == Criteria(true, true, false, true);
    SamplePriorities();
  }

  lemma Sample2IsConsistent(now: int)
    ensures Sample2(now).cfmPriority == CalculateCfmPriority(Sample2(now).cfmCriteria)
    ensures Sample2(now).status == Pending
  {
    assert Sample2(now).cfmCriteria == Criteria(false, true, false, true);
    SamplePriorities();
  }

  lemma Sample3IsConsistent(now: int)
    ensures Sample3(now).cfmPriority == CalculateCfmPriority(Sample3(now).cfmCriteria)
    ensures Sample3(now).status == Pending
  {
    assert Sample3(now).cfmCriteria == Criteria(true, false, false, true);
    SamplePriorities();
  }

  lemma Sample4IsConsistent(now: int)
    ensures Sample4(now).cfmPriority == CalculateCfmPriority(Sample4(now).cfmCriteria)
    ensures Sample4(now).status == Pending
  {
    assert Sample4(now).cfmCriteria == Criteria(false, true, false, true);
    SamplePriorities();
  }

  lemma Sample5IsConsistent(now: int)
    ensures Sample5(now).cfmPriority == CalculateCfmPriority(Sample5(now).cfmCriteria)
    ensures Sample5(now).status == Pending
  {
    assert Sample5(now).cfmCriteria == Criteria(true, false, true, false);
    SamplePriorities();
  }

  /** Every sample request stores the priority the classifier computes from
      its own criteria, and every sample is pending. */
  lemma MockRequestsAreConsistent(now: int)
    ensures forall i :: 0 <= i < |MockRequests(now)| ==>
              MockRequests(now)[i].cfmPriority == CalculateCfmPriority(MockRequests(now)[i].cfmCriteria)
              && MockRequests(now)[i].status == Pending
  {
    Sample1IsConsistent(now);
    Sample2IsConsistent(now);
    Sample3IsConsistent(now);
    Sample4IsConsistent(now);
    Sample5IsConsistent(now);
  }
}
