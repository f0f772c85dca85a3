/**
 Who may run what (tools/proof_execution_policy.py): the closed authority postures,
 and the one delegation an authority admits for a request.
 */
module ProofPolicy {
  import opened Bytes

  datatype Class = ReadOnly | Diagnostic | Acceptance

  datatype Status = NoActiveSlice | ActiveMaintenance | ActiveDiagnostic | ActiveAcceptance | OtherStatus
  datatype Phase = NoPhase | Maintenance | Implementation | OtherPhase
  datatype Change = HarnessMaintenance | ProductContract | OtherChange

  datatype Posture = Posture(status: Status, phase: Phase, change: Change, product: bool, live: bool,
                             permitted: Option<Class>, coreReady: bool, backendReady: bool)

  const POSTURES: set<Posture> := {
    Posture(NoActiveSlice, NoPhase, HarnessMaintenance, false, false, None, true, false),
    Posture(NoActiveSlice, NoPhase, HarnessMaintenance, false, false, None, true, true),
    Posture(ActiveMaintenance, Maintenance, HarnessMaintenance, false, false, None, false, false),
    Posture(ActiveMaintenance, Maintenance, HarnessMaintenance, false, false, None, true, false),
    Posture(ActiveDiagnostic, Maintenance, HarnessMaintenance, false, true, Some(Diagnostic), true, true),
    Posture(ActiveAcceptance, Implementation, ProductContract, true, true, Some(Acceptance), true, true)
  }

  /** The authority document; `digest` is that of its bytes. Digests and names are numbers. */
  datatype Authority = Authority(
    digest: nat, posture: Posture, source: nat, plan: nat, contractName: nat, contract: nat, planContent: nat,
    campaign: nat, diagnosticBudget: nat, candidate: nat, acceptanceBudget: nat,
    revisionAuthorized: bool, previousContract: nat, previousPlanContent: nat)

  datatype Delegation = Delegation(
    cls: Class, identity: nat, authority: nat, source: nat, plan: nat, contractName: nat, contract: nat,
    planContent: nat, eligible: bool, maximum: nat)

  /** `authorize_live_request`: the delegation for a request, or the refusal. */
  function Authorize(a: Authority, cls: Class, identity: nat, source: nat, plan: nat): (r: Result<Delegation>)
  {
    if cls == ReadOnly then Err("not a workload request")
    else if a.posture !in POSTURES then Err("posture outside the closed table")
    else if !a.posture.live then Err("live execution disabled")
    else if a.posture.permitted != Some(cls) then Err("execution class differs")
    else if a.source != source then Err("source commit differs")
    else if a.plan != plan then Err("closed plan differs")
    else if !a.posture.coreReady || !a.posture.backendReady then Err("backend not ready")
    else if cls == Diagnostic && a.diagnosticBudget < 1 then Err("diagnostic budget")
    else if cls == Acceptance && a.acceptanceBudget != 1 then Err("acceptance budget")
    else if (if cls == Diagnostic then a.campaign else a.candidate) != identity then Err("execution identity differs")
    else Ok(Delegation(cls, identity, a.digest, source, plan, a.contractName, a.contract, a.planContent,
                       cls == Acceptance, if cls == Diagnostic then a.diagnosticBudget else a.acceptanceBudget))
  }

  /** `validate_delegation`: the value must be the one this authority emits. */
  predicate Admits(a: Authority, d: Delegation) {
    Authorize(a, d.cls, d.identity, d.source, d.plan) == Ok(d)
  }

  /** An admitted delegation runs live only under its class's own posture, is acceptance
      eligible exactly for acceptance, and acceptance has a budget of exactly one. */
  lemma AdmittedDelegation(a: Authority, d: Delegation)
    requires Admits(a, d)
    ensures d.cls != ReadOnly && (d.eligible <==> d.cls == Acceptance)
    ensures d.maximum >= 1 && (d.cls == Acceptance ==> d.maximum == 1)
    ensures d.authority == a.digest && d.source == a.source && d.contract == a.contract
            && d.planContent == a.planContent
    ensures a.posture.product <==> d.cls == Acceptance
    ensures a.posture.status == if d.cls == Acceptance then ActiveAcceptance else ActiveDiagnostic
  {
    var p := a.posture;
    assert p in POSTURES && p.live;
  }

  /** The delegation an authority admits, by the documents' fields: its class's own posture, a
      budget, and every name and digest as the authority has it. */
  lemma AdmitsExactly(a: Authority, d: Delegation)
    ensures Admits(a, d) <==>
              && (match d.cls
                  case ReadOnly => false
                  case Diagnostic =>
                    && a.posture == Posture(ActiveDiagnostic, Maintenance, HarnessMaintenance, false, true,
                                            Some(Diagnostic), true, true)
                    && d.identity == a.campaign && d.maximum == a.diagnosticBudget >= 1 && !d.eligible
                  case Acceptance =>
                    && a.posture == Posture(ActiveAcceptance, Implementation, ProductContract, true, true,
                                            Some(Acceptance), true, true)
                    && d.identity == a.candidate && d.maximum == a.acceptanceBudget == 1 && d.eligible)
              && d.authority == a.digest && d.source == a.source && d.plan == a.plan
              && d.contractName == a.contractName && d.contract == a.contract && d.planContent == a.planContent
  {
    if a.posture in POSTURES && a.posture.live {
      OnePosture(a.posture);
    }
  }

  lemma OnePosture(p: Posture)
    requires p in POSTURES && p.live
    ensures p == Posture(ActiveDiagnostic, Maintenance, HarnessMaintenance, false, true, Some(Diagnostic), true, true)
            || p == Posture(ActiveAcceptance, Implementation, ProductContract, true, true, Some(Acceptance), true, true)
  {
  }

  /** No authority admits two delegations for one request, and none admits both classes. */
  lemma OneDelegation(a: Authority, d: Delegation, e: Delegation)
    requires Admits(a, d) && Admits(a, e)
    ensures d == e
  {
    AdmittedDelegation(a, d);
    AdmittedDelegation(a, e);
  }
}
