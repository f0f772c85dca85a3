/**
 The durable records of one proof transaction (tools/classified_proof_backend.py) as
 values: states and their legal order, the records that name each other by digest,
 the checks made when they are read back, and what every stored transaction satisfies.
 Digests are taken to be collision-free: a digest is the value it was taken of.
 */
module ProofTransaction {
  import opened Bytes
  import opened ProofPolicy

  datatype State =
    | New | Preflighted | Reserved | Launching | Observed | OutcomeUnknown
    | ResultRetained | FailureRetained | Closed | EvidenceRendered

  /** `TRANSITIONS`. */
  function Transitions(s: State): set<State> {
    match s
    case New => {Preflighted}
    case Preflighted => {Reserved, OutcomeUnknown}
    case Reserved => {Launching, Observed, OutcomeUnknown}
    case Launching => {Observed, OutcomeUnknown}
    case OutcomeUnknown => {Observed}
    case Observed => {ResultRetained, FailureRetained}
    case ResultRetained => {Closed}
    case FailureRetained => {Closed}
    case Closed => {EvidenceRendered}
    case EvidenceRendered => {}
  }

  predicate Path(history: seq<State>) {
    forall i :: 0 <= i < |history| - 1 ==> history[i + 1] in Transitions(history[i])
  }

  function Rank(s: State): nat {
    match s
    case New => 0
    case Preflighted => 1
    case Reserved => 2
    case Launching => 3
    case OutcomeUnknown => 4
    case Observed => 5
    case ResultRetained => 6
    case FailureRetained => 6
    case Closed => 7
    case EvidenceRendered => 8
  }

  /** Time never runs back: along a legal history no state comes twice. */
  lemma {:induction false} NoStateTwice(history: seq<State>, i: nat, j: nat)
    requires Path(history) && i < j < |history|
    ensures Rank(history[i]) < Rank(history[j])
    decreases j - i
  {
    assert history[i + 1] in Transitions(history[i]);
    if i + 1 < j {
      NoStateTwice(history, i + 1, j);
    }
  }

  lemma PathGrows(history: seq<State>, next: State)
    requires history != [] && Path(history) && next in Transitions(history[|history| - 1])
    ensures Path(history + [next])
  {
  }

  /** What comes between being preflighted and being observed. */
  const EARLY: set<seq<State>> := {
    [OutcomeUnknown], [Reserved], [Reserved, OutcomeUnknown], [Reserved, Launching],
    [Reserved, Launching, OutcomeUnknown]
  }

  function Course(early: seq<State>, late: State): seq<State> {
    [New, Preflighted] + early + [Observed, late, Closed, EvidenceRendered]
  }

  /** The legal histories are the beginnings of ten courses: preflighted; perhaps reserved and
      launching, and then perhaps of unknown outcome; observed; one of result and failure
      retained; closed; evidence rendered. */
  lemma HistoriesAre(history: seq<State>)
    requires history != [] && history[0] == New
    ensures Path(history) <==>
              exists early, late :: early in EARLY && late in {ResultRetained, FailureRetained}
                                    && history <= Course(early, late)
  {
    if Path(history) {
      var early, late := CourseOf(history);
    }
    forall early, late | early in EARLY && late in {ResultRetained, FailureRetained} && history <= Course(early, late)
      ensures Path(history)
    {
      CourseIsLegal(early, late);
      assert forall i :: 0 <= i < |history| ==> history[i] == Course(early, late)[i];
    }
  }

  lemma CourseIsLegal(early: seq<State>, late: State)
    requires early in EARLY && late in {ResultRetained, FailureRetained}
    ensures Path(Course(early, late))
  {
  }

  lemma CourseOf(history: seq<State>) returns (early: seq<State>, late: State)
    requires history != [] && history[0] == New && Path(history)
    ensures early in EARLY && late in {ResultRetained, FailureRetained} && history <= Course(early, late)
  {
    var k: nat;
    early, k := EarlyOf(history);
    late := if k + 1 < |history| && history[k + 1] == FailureRetained then FailureRetained else ResultRetained;
    if k < |history| {
      LateOf(history, k);
    }
  }

  /** The part before the observation, and where that comes. */
  lemma EarlyOf(history: seq<State>) returns (early: seq<State>, k: nat)
    requires history != [] && history[0] == New && Path(history)
    ensures early in EARLY && k == 2 + |early|
    ensures history[..if k < |history| then k else |history|] <= [New, Preflighted] + early
    ensures k < |history| ==> history[k] == Observed
  {
    assert |history| > 1 ==> history[1] in Transitions(history[0]);
    assert |history| > 2 ==> history[2] in Transitions(history[1]);
    assert |history| > 3 ==> history[3] in Transitions(history[2]);
    assert |history| > 4 ==> history[4] in Transitions(history[3]);
    assert |history| > 5 ==> history[5] in Transitions(history[4]);
    early := if |history| > 2 && history[2] == OutcomeUnknown then [OutcomeUnknown]
             else if |history| > 3 && history[3] == Launching then
               if |history| > 4 && history[4] == OutcomeUnknown then [Reserved, Launching, OutcomeUnknown]
               else [Reserved, Launching]
             else if |history| > 3 && history[3] == OutcomeUnknown then [Reserved, OutcomeUnknown] else [Reserved];
    k := 2 + |early|;
  }

  /** From the observation on there is one choice. */
  lemma LateOf(history: seq<State>, k: nat)
    requires Path(history) && k < |history| && history[k] == Observed
    ensures |history| <= k + 4
    ensures k + 1 < |history| ==> history[k + 1] in {ResultRetained, FailureRetained}
    ensures k + 2 < |history| ==> history[k + 2] == Closed
    ensures k + 3 < |history| ==> history[k + 3] == EvidenceRendered
  {
    assert k + 1 < |history| ==> history[k + 1] in Transitions(history[k]);
    assert k + 2 < |history| ==> history[k + 2] in Transitions(history[k + 1]);
    assert k + 3 < |history| ==> history[k + 3] in Transitions(history[k + 2]);
    assert k + 4 < |history| ==> history[k + 4] in Transitions(history[k + 3]);
  }

  // ------------------------------------------------------------ the records

  datatype Digest<+T> = Sha(of: T)

  /** What a reservation identity is the digest of; not the authority, not the budget. */
  datatype Reservation = Reservation(cls: Class, identity: nat, source: nat, contractName: nat, contract: nat,
                                     plan: nat, planContent: nat)

  function IdentityOf(d: Delegation): Reservation {
    Reservation(d.cls, d.identity, d.source, d.contractName, d.contract, d.plan, d.planContent)
  }

  /** The delegation's fields that results and failures repeat: all but the budget maximum. */
  datatype Binding = Binding(authority: nat, eligible: bool, of: Reservation)

  function BindingOf(d: Delegation): Binding {
    Binding(d.authority, d.eligible, IdentityOf(d))
  }

  /** Effect counts: how many, whether any is "unknown", and which they are. */
  datatype Effects = Effects(entries: nat, unknown: bool, id: nat)
  const LAUNCHES_UNKNOWN := Effects(1, true, 0)

  datatype Cleanup = CleanupComplete | CleanupIncomplete | CleanupUnknown | CleanupOther
  datatype Protected = Unchanged | Restored | Changed | ProtectedUnknown | ProtectedOther
  datatype Kind = Success | Failed | Inconclusive

  datatype Product = AP0 | AP1 | AP2 | AP3 | AP4

  /** Fixed texts by their names, and any other text. */
  datatype Classification =
    | Reported(text: string)
    | DiagnosticObserved | DiagnosticFailed | DiagnosticInconclusive
    | AcceptanceObserved | AcceptanceInconclusive | AcceptanceAdmissionFailed
    | SamplesVerified(product: Product)
    | ProductInconclusive(product: Product) | ProductAdmissionFailed(product: Product)
    | AdmissionFailed | DispositionInadmissible | RenderFailed | RenderOutcomeUnknown | UnknownOutcome

  predicate InSyntax(c: Classification) {
    c.Reported? ==>
      && 1 <= |c.text| <= 128 && 'A' <= c.text[0] <= 'Z'
      && forall i :: 0 < i < |c.text| ==> 'A' <= c.text[i] <= 'Z' || '0' <= c.text[i] <= '9' || c.text[i] == '_'
  }

  datatype Observation = Observation(kind: Kind, classification: Classification, payload: nat,
                                     cleanup: Cleanup, protected: Protected, effects: Effects)

  datatype Admitted = Admitted(value: nat)

  datatype ResultRecord = ResultRecord(binding: Binding, reservation: Reservation, observation: Observation,
                                       admitted: Admitted)

  datatype NextAction = ReconcileNeverRelaunch | NewAuthorityAndBudget

  datatype Failure = Failure(binding: Binding, reservation: Reservation, classification: Classification,
                             cleanup: Cleanup, protected: Protected, effects: Effects, remaining: int, next: NextAction)

  datatype Transaction = Transaction(
    revision: int, state: State, history: seq<State>, delegation: Delegation, delegationDigest: Digest<Delegation>,
    reservation: Reservation, observation: Option<Observation>, result: Option<Digest<ResultRecord>>,
    failure: Option<Digest<Failure>>, claimed: bool, rendered: bool)

  /** Canonical JSON lengths are arbitrary functions; only the bounds are the program's. */
  datatype Lengths = Lengths(observation: Observation -> nat, admitted: Admitted -> nat,
                             result: ResultRecord -> nat, failure: Failure -> nat)

  const FAILURE_MAX := 65536
  const RESULT_MAX := 262144
  const RESULT_ENVELOPE_MAX := 524288

  predicate FailureFits(len: Lengths, f: Failure) {
    len.failure(f) <= FAILURE_MAX
  }

  predicate ResultFits(len: Lengths, r: ResultRecord) {
    len.result(r) <= RESULT_ENVELOPE_MAX
  }

  predicate AdmittedFits(len: Lengths, a: Admitted) {
    len.admitted(a) <= RESULT_MAX
  }

  predicate ClosedDispositions(effects: Effects, cleanup: Cleanup, protected: Protected) {
    effects.entries <= 64 && cleanup != CleanupOther && protected != ProtectedOther
  }

  /** `Observation.record` succeeds. */
  predicate Recordable(len: Lengths, o: Observation) {
    InSyntax(o.classification) && ClosedDispositions(o.effects, o.cleanup, o.protected)
        && len.observation(o) <= RESULT_MAX
  }

  /** What acceptance asks of a successful observation before and after it is retained. */
  predicate Acceptable(o: Observation) {
    o.cleanup == CleanupComplete && o.protected == Unchanged && !o.effects.unknown
  }

  // ------------------------------------------------------------ reading back

  /** The original delegation may differ from the current one only in who authorized a
      diagnostic and how large its budget then was. */
  predicate DelegationFits(original: Delegation, d: Delegation) {
    original == d
    || (&& d.cls == Diagnostic
        && original.(authority := d.authority, maximum := d.maximum) == d
        && 0 < original.maximum <= d.maximum)
  }

  datatype Readback = Fine | DelegationDiffers | Malformed

  /** `_validate_transaction`. */
  function Validate(len: Lengths, t: Transaction, d: Delegation, r: Reservation): Readback {
    if !DelegationFits(t.delegation, d) then DelegationDiffers
    else if || t.delegationDigest != Sha(t.delegation) || t.reservation != r || t.revision < 1
            || |t.history| < 2 || t.history[0] != New || t.history[|t.history| - 1] != t.state || !Path(t.history)
            || (t.rendered && !t.claimed)
            || (t.delegation.cls == Diagnostic && (t.claimed || t.rendered))
            || (t.observation.Some? && !Recordable(len, t.observation.value)) then Malformed
    else Fine
  }

  /** `_verify_failure_pair` on whatever the two files hold. */
  predicate PairVerifies(len: Lengths, failure: Option<Failure>, sidecar: Option<Digest<Failure>>, t: Transaction) {
    && failure.Some? && FailureFits(len, failure.value)
    && t.failure == Some(Sha(failure.value)) && sidecar == Some(Sha(failure.value))
    && failure.value.binding == BindingOf(t.delegation) && failure.value.reservation == t.reservation
    && InSyntax(failure.value.classification)
    && ClosedDispositions(failure.value.effects, failure.value.cleanup, failure.value.protected)
    && failure.value.remaining >= 0
    && failure.value.next == (if failure.value.classification == UnknownOutcome then ReconcileNeverRelaunch
                              else NewAuthorityAndBudget)
  }

  /** The checks of `_readmit_result` before the adapter is asked again. */
  predicate ResultVerifies(len: Lengths, acceptance: bool, result: Option<ResultRecord>, t: Transaction) {
    && result.Some? && ResultFits(len, result.value)
    && t.result == Some(Sha(result.value))
    && result.value.binding == BindingOf(t.delegation) && result.value.reservation == t.reservation
    && Recordable(len, result.value.observation) && result.value.observation.kind == Success
    && (acceptance ==> result.value.binding.eligible && Acceptable(result.value.observation))
  }

  // -------------------------------------------------------- making new ones

  function NewTransaction(d: Delegation): Transaction {
    Transaction(1, Preflighted, [New, Preflighted], d, Sha(d), IdentityOf(d), None, None, None, false, false)
  }

  /** `_transition`, the state's own part; other updates are made on its argument. */
  function Move(t: Transaction, s: State): (moved: Option<Transaction>)
    ensures moved.Some? <==> s in Transitions(t.state)
  {
    if s !in Transitions(t.state) then None
    else Some(t.(revision := t.revision + 1, state := s, history := t.history + [s]))
  }

  function FailureOf(t: Transaction, c: Classification, cleanup: Cleanup, protected: Protected, effects: Effects,
                     remaining: int): Failure {
    Failure(BindingOf(t.delegation), t.reservation, c, cleanup, protected, effects, remaining,
            if c == UnknownOutcome then ReconcileNeverRelaunch else NewAuthorityAndBudget)
  }

  function ResultOf(t: Transaction, o: Observation, admitted: Admitted): ResultRecord {
    ResultRecord(BindingOf(t.delegation), t.reservation, o, admitted)
  }

  // ---------------------------------------------------- what is always stored

  /** Which fields each state carries. */
  ghost predicate Carries(t: Transaction) {
    && (t.rendered <==> t.state.EvidenceRendered?)
    && (t.rendered ==> t.claimed)
    && (t.claimed ==>
          t.result.Some? && t.delegation.cls == Acceptance && (t.state.Closed? || t.state.EvidenceRendered?))
    && (t.result.Some? ==> t.state.ResultRetained? || t.state.Closed? || t.state.EvidenceRendered?)
    && match t.state
       case New => false
       case Preflighted => t.observation.None? && t.failure.None?
       case Reserved => t.observation.None? && t.failure.None?
       case Launching => t.observation.None? && t.failure.None?
       case OutcomeUnknown => t.observation.None? && t.failure.Some?
       case Observed => t.observation.Some?
       case ResultRetained => t.observation.Some? && t.result.Some?
       case FailureRetained => t.observation.Some? && t.failure.Some?
       case Closed => t.observation.Some? && (t.result.Some? || t.failure.Some?)
       case EvidenceRendered => t.observation.Some? && t.result.Some?
  }

  ghost predicate StoredSoundly(len: Lengths, r: Reservation, t: Transaction) {
    && t.delegation.cls != ReadOnly && IdentityOf(t.delegation) == r && Validate(len, t, t.delegation, r) == Fine
    && Carries(t)
  }

  /** What a later revision of a stored transaction keeps of an earlier one. */
  ghost predicate Follows(t: Transaction, u: Transaction) {
    t == u ||
    (&& t.revision < u.revision && t.history <= u.history && t.delegation == u.delegation
     && (t.observation.Some? ==> u.observation == t.observation)
     && (t.result.Some? ==> u.result == t.result)
     && (t.failure.Some? ==> u.failure == t.failure)
     && (t.claimed ==> u.claimed) && (t.rendered ==> u.rendered))
  }

  lemma FollowsOn(t: Transaction, u: Transaction, v: Transaction)
    requires Follows(t, u) && Follows(u, v)
    ensures Follows(t, v)
  {
  }

  /** An execution has come to rest: nothing but reconciliation of an unknown outcome,
      or an explicit rendering recovery, can still change the transaction. */
  ghost predicate Settled(t: Transaction) {
    match t.state
    case OutcomeUnknown => t.failure.Some?
    case FailureRetained => t.failure.Some?
    case Closed => t.failure.Some? || (t.result.Some? && t.delegation.cls == Diagnostic)
    case EvidenceRendered => t.rendered && t.result.Some?
    case _ => false
  }

  /** The read-back checks accept whatever is stored soundly: only a delegation the
      transaction was not made under is refused, that is, one that differs from it, but for a
      diagnostic in who authorized it and in a maximum that did not fall. */
  lemma ReadsBack(len: Lengths, r: Reservation, t: Transaction, d: Delegation)
    requires StoredSoundly(len, r, t)
    ensures Validate(len, t, d, r) == Fine || Validate(len, t, d, r) == DelegationDiffers
    ensures Validate(len, t, d, r) == Fine <==>
              || t.delegation == d
              || (d.cls == Diagnostic && IdentityOf(d) == r && t.delegation.eligible == d.eligible
                  && 0 < t.delegation.maximum <= d.maximum)
  {
  }

  /** The envelope's bound does not follow from its parts' bounds: with any overhead at
      all, two parts each just within theirs make a result that cannot be written. */
  lemma PartsFitButEnvelopeDoesNot(len: Lengths, t: Transaction, o: Observation, a: Admitted, overhead: nat)
    requires overhead > 0 && len.result(ResultOf(t, o, a)) == overhead + len.observation(o) + len.admitted(a)
    requires len.observation(o) == RESULT_MAX && len.admitted(a) == RESULT_MAX
    ensures !ResultFits(len, ResultOf(t, o, a)) && AdmittedFits(len, a)
  {
  }
}
