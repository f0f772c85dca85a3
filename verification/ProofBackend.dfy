/**
 The classified proof transaction (tools/classified_proof_backend.py): one delegation,
 executed at most once, resumed from whatever an earlier process left behind.
 */
module ProofBackend {
  import opened Bytes
  import opened ProofPolicy
  import opened ProofTransaction
  import opened ProofOwner
  import W = ExecutionWorker
  import A = ProofAdapter

  datatype Cause =
    | Crashed
    | AuthorityRefused | AdapterRefused | PreflightFailed
    | DelegationRefused | BudgetRefused | AdjustmentRefused | Exhausted
    | BadDisposition | FailureTooLarge | ResultTooLarge | ReadmissionRefused
    | NothingToRender | RevisionAttempted | RenderRaised | IllegalTransition
    | Corrupt

  datatype Outcome<+T> = Done(value: T) | Stop(cause: Cause) {
    predicate IsFailure() { Stop? }
    function PropagateFailure<U>(): Outcome<U>
      requires Stop?
    {
      Stop(cause)
    }
    function Extract(): T
      requires Done?
    {
      value
    }
  }

  datatype Receipt = Receipt(state: State, reservation: Reservation, consumed: int, remaining: int,
                             result: Option<Digest<ResultRecord>>, failure: Option<Digest<Failure>>, rendered: bool)

  function ReceiptOf(t: Transaction, b: Budget): Receipt {
    Receipt(t.state, t.reservation, b.consumed, b.maximum - b.consumed, t.result, t.failure, t.rendered)
  }

  // ------------------------------------------------- one transaction written

  /** A lawful next version: the same transaction one legal step on, or with more named. */
  ghost predicate Successor(t: Transaction, u: Transaction) {
    && t.revision < u.revision && u.delegation == t.delegation && u.delegationDigest == t.delegationDigest
    && u.reservation == t.reservation
    && ((u.state == t.state && u.history == t.history)
        || (u.state in Transitions(t.state) && u.history == t.history + [u.state]))
    && (t.observation.Some? ==> u.observation == t.observation)
    && (t.result.Some? ==> u.result == t.result) && (t.failure.Some? ==> u.failure == t.failure)
    && (t.claimed ==> u.claimed) && (t.rendered ==> u.rendered)
  }

  ghost predicate FilesVerify(len: Lengths, r: Reservation, s: Slot, u: Transaction) {
    && (u.observation.Some? ==> Recordable(len, u.observation.value))
    && (u.result.Some? ==>
          ResultVerifies(len, r.cls == Acceptance, s.result, u) && u.observation == Some(s.result.value.observation))
    && (u.failure.Some? ==> PairVerifies(len, s.failure, s.sidecar, u))
  }

  lemma Advance(len: Lengths, r: Reservation, s: Slot, t: Transaction, u: Transaction)
    requires SlotSound(len, r, s, true) && s.tx == Some(t)
    requires u == t || (Successor(t, u) && Carries(u) && FilesVerify(len, r, s, u))
    requires u.state.Reserved? ==> s.invokes == 0
    ensures SlotSound(len, r, s.(tx := Some(u)), true) && SlotFollows(s, s.(tx := Some(u)))
  {
    if u != t && u.history != t.history {
      PathGrows(t.history, u.state);
    }
    assert Claimed(s.(tx := Some(u)), u);
  }

  lemma NamesResult(len: Lengths, r: Reservation, s: Slot, t: Transaction, o: Observation, record: ResultRecord,
                    u: Transaction)
    requires SlotSound(len, r, s, true) && s.tx == Some(t) && t.state.Observed? && t.observation == Some(o)
             && o.kind == Success
    requires r.cls == Acceptance ==> t.delegation.eligible && Acceptable(o)
    requires record.binding == BindingOf(t.delegation) && record.reservation == t.reservation && record.observation == o
    requires ResultFits(len, record) && Some(u) == Move(t.(result := Some(Sha(record))), ResultRetained)
    ensures Successor(t, u) && Carries(u) && !u.claimed && FilesVerify(len, r, s.(result := Some(record)), u)
  {
  }

  lemma NamesFailure(len: Lengths, r: Reservation, s: Slot, t: Transaction, kept: Transaction, u: Transaction)
    requires SlotSound(len, r, s, true) && s.tx == Some(t) && t.state.Observed?
    requires kept == t || kept == t.(failure := kept.failure, revision := t.revision + 1)
    requires kept.failure.Some? && (t.failure.Some? ==> kept == t) && PairVerifies(len, s.failure, s.sidecar, kept)
    requires Some(u) == Move(kept, FailureRetained)
    ensures Successor(t, u) && Carries(u) && !u.claimed && FilesVerify(len, r, s, u)
  {
  }

  lemma NamedCloses(len: Lengths, r: Reservation, s: Slot, named: Transaction)
    requires Carries(named) && !named.claimed && FilesVerify(len, r, s, named)
    requires named.state.ResultRetained? || named.state.FailureRetained?
    ensures var moved := Move(named, Closed).value;
            Successor(named, moved) && Carries(moved) && FilesVerify(len, r, s, moved)
  {
  }

  ghost predicate NotBy(renders: seq<Rendering>, caller: Renderer) {
    forall i :: 0 <= i < |renders| ==> renders[i].caller != caller
  }

  /** One more rendering, by a renderer that has been claimed and not yet called. */
  lemma OneMoreRendering(len: Lengths, r: Reservation, s: Slot, t: Transaction, caller: Renderer,
                         evidence: ResultRecord)
    requires SlotSound(len, r, s, true) && s.tx == Some(t) && r.cls == Acceptance && t.result.Some? && !t.rendered
    requires NotBy(s.renders, caller) && s.result == Some(evidence)
    requires match caller case ByExecute => t.claimed case ByRecovery(v) => v in s.recoveries
    ensures var u := s.(renders := s.renders + [Rendering(caller, evidence)]);
            SlotSound(len, r, u, true) && SlotFollows(s, u)
  {
    var u := s.(renders := s.renders + [Rendering(caller, evidence)]);
    assert forall i :: 0 <= i < |s.renders| ==> u.renders[i] == s.renders[i];
    assert OncePerRenderer(u.renders) && Claimed(u, t);
  }

  lemma RecoveryNoted(len: Lengths, r: Reservation, s: Slot, t: Transaction, revision: nat, recovery: Recovery)
    requires SlotSound(len, r, s, true) && s.tx == Some(t) && t.result.Some?
    ensures var u := s.(recoveries := s.recoveries[revision := recovery]);
            SlotSound(len, r, u, true) && SlotFollows(s, u)
    ensures revision !in s.recoveries ==> NotBy(s.renders, ByRecovery(revision))
  {
    assert Claimed(s.(recoveries := s.recoveries[revision := recovery]), t);
  }

  /** The evidence went out under this revision, and the transaction still only names its result. */
  ghost predicate RenderedInVain(s: Slot, revision: nat) {
    && s.tx.Some? && s.tx.value.state.ResultRetained? && s.renders != []
    && s.renders[|s.renders| - 1].caller == ByRecovery(revision)
    && revision in s.recoveries && s.recoveries[revision].state == Complete
  }

  /** Nothing but this reservation's files is touched, nothing is invoked or reserved; a try
      ends well only from a closed transaction, and an illegal transition is a vain rendering. */
  ghost predicate RenderedFrom(r: Outcome<Receipt>, v: World, w: World, of: Reservation, revision: nat) {
    && SlotsElsewhere(v, w, of) && Reservations(w) == Reservations(v) && At(w, of).invokes == At(v, of).invokes
    && (r.Done? ==>
          && At(v, of).tx.Some? && !At(v, of).tx.value.state.ResultRetained?
          && At(w, of).tx.Some? && At(w, of).tx.value.rendered)
    && (r == Stop(IllegalTransition) ==> RenderedInVain(At(w, of), revision))
    && (r != Stop(Crashed) ==> Recovered(r, At(v, of), At(w, of), revision))
  }

  /** What a try at rendering leaves of the files, however it ends but by the process dying.
      The renderer was called with the retained result, once and under a revision not used
      before, exactly if the try ended well on a transaction not yet rendered, or with the
      renderer raising, or with the illegal transition; the revision is marked with how that
      went, and the transaction moves on only if it ended well. */
  ghost predicate Recovered(r: Outcome<Receipt>, s: Slot, u: Slot, revision: nat) {
    if r == Stop(RenderRaised) || r == Stop(IllegalTransition) || (r.Done? && s.tx.Some? && !s.tx.value.rendered) then
      && s.tx.Some? && s.result.Some? && revision !in s.recoveries
      && u.renders == s.renders + [Rendering(ByRecovery(revision), s.result.value)]
      && u.recoveries == s.recoveries[revision := Recovery(Sha(s.result.value),
                                                           if r == Stop(RenderRaised) then RecoveryFailed
                                                           else Complete)]
      && u.result == s.result && u.failure == s.failure && u.sidecar == s.sidecar && u.invokes == s.invokes
      && u.tx == if r.Done? then Some(RenderedOf(s.tx.value)) else s.tx
    else u == s
  }

  /** The transaction once its evidence is rendered. */
  function RenderedOf(t: Transaction): Transaction {
    t.(revision := t.revision + 2, state := EvidenceRendered, history := t.history + [EvidenceRendered],
       claimed := true, rendered := true)
  }

  lemma RenderedSince(r: Outcome<Receipt>, v: World, m: World, w: World, of: Reservation, revision: nat)
    requires m.slots == v.slots && Reservations(m) == Reservations(v) && RenderedFrom(r, m, w, of, revision)
    ensures RenderedFrom(r, v, w, of, revision)
  {
    Untouched(v, m);
  }

  predicate RefusedEarly(r: Outcome<Receipt>) {
    r.Stop? && r.cause in {AdapterRefused, DelegationRefused, NothingToRender, BudgetRefused, AdjustmentRefused}
  }

  /** How a try at rendering a retained result ends, as the files and the adapter have it:
      well, or with this. Of what is not yet rendered under this revision, exactly the
      transaction that is still RESULT_RETAINED is rendered in vain. */
  function Recovering(len: Lengths, s: Slot, revision: nat, admission: Option<Admitted>,
                      willRender: bool): Option<Cause> {
    if s.tx.None? || s.tx.value.result.None? then Some(NothingToRender)
    else if !Readmits(len, s, admission) then Some(ReadmissionRefused)
    else if s.tx.value.rendered then None
    else if revision in s.recoveries then Some(RevisionAttempted)
    else if !willRender then Some(RenderRaised)
    else if s.tx.value.state.ResultRetained? then Some(IllegalTransition)
    else None
  }

  /** The adapter admits the same value again. */
  predicate Readmits(len: Lengths, s: Slot, admission: Option<Admitted>) {
    s.result.Some? && admission == Some(s.result.value.admitted) && AdmittedFits(len, s.result.value.admitted)
  }

  /** The illegal transition comes exactly so, whatever else was ever done to the files, and
      what it leaves behind is refused for this revision ever after. */
  lemma InVainExactly(len: Lengths, r: Reservation, s: Slot, revision: nat, admission: Option<Admitted>,
                      willRender: bool)
    requires SlotSound(len, r, s, true)
    ensures Recovering(len, s, revision, admission, willRender) == Some(IllegalTransition) <==>
              && s.tx.Some? && s.tx.value.state.ResultRetained? && revision !in s.recoveries
              && willRender && Readmits(len, s, admission)
    ensures RenderedInVain(s, revision) && Readmits(len, s, admission) ==>
              Recovering(len, s, revision, admission, willRender) == Some(RevisionAttempted)
  {
  }

  function CauseOf<T>(r: Outcome<T>): Option<Cause> {
    if r.Stop? then Some(r.cause) else None
  }

  lemma UnclaimedIsUnrendered(len: Lengths, r: Reservation, s: Slot, t: Transaction)
    requires SlotSound(len, r, s, true) && s.tx == Some(t) && !t.claimed
    ensures NotBy(s.renders, ByExecute)
  {
  }

  /** Everything but this reservation's files is as it was. */
  ghost predicate OnlyAt(v: World, w: World, r: Reservation) {
    w.budget == v.budget && w.adjustments == v.adjustments && forall q :: q != r ==> At(w, q) == At(v, q)
  }

  // ------------------------------------------------ the two machines together

  ghost predicate SuccessRetained(s: Slot) {
    s.tx.Some? && s.tx.value.observation.Some? && s.tx.value.observation.value.kind == Success
  }

  /** Nothing is asked of the worker for a reservation the budget does not list, and no
      success is retained that the worker's run did not deserve. */
  ghost predicate Joined(w: World, asked: set<Reservation>, roots: map<Reservation, W.Root>) {
    forall r :: (r in asked ==> IsReserved(w, r))
                && (SuccessRetained(At(w, r)) ==> W.ProvedIn(roots, r))
  }

  lemma JoinedWith(w: World, r: Reservation, s: Slot, asked: set<Reservation>, roots: map<Reservation, W.Root>)
    requires Joined(w, asked, roots)
    requires SuccessRetained(s) ==> W.ProvedIn(roots, r)
    ensures Joined(With(w, r, s), asked, roots) && OnlyAt(w, With(w, r, s), r)
  {
    var v := With(w, r, s);
    forall q ensures (q in asked ==> IsReserved(v, q)) && (q != r ==> At(v, q) == At(w, q))
    {
      assert IsReserved(v, q) == IsReserved(w, q);
    }
  }

  // ------------------------------------------------- what an observation comes to

  datatype Verdict = Fails(classification: Classification) | Succeeds(record: ResultRecord)

  /** What becomes of an observation, given what the adapter admits of it. */
  function Judgement(len: Lengths, t: Transaction, o: Observation, admitted: Option<Admitted>): Verdict {
    if o.kind != Success then Fails(o.classification)
    else if admitted.None? || !AdmittedFits(len, admitted.value) then Fails(AdmissionFailed)
    else if t.reservation.cls == Acceptance && !(t.delegation.eligible && Acceptable(o))
        then Fails(DispositionInadmissible)
    else Succeeds(ResultOf(t, o, admitted.value))
  }

  /** A failure that would have to be named now and does not fit its file. */
  predicate Unfit(len: Lengths, t: Transaction, c: Classification, o: Observation, remaining: int) {
    t.failure.None? && !FailureFits(len, FailureOf(t, c, o.cleanup, o.protected, o.effects, remaining))
  }

  /** What a rendering by execution would leave to be said, if anything. */
  function Trouble(t: Transaction, willRender: bool): Option<Classification> {
    if t.rendered then None
    else if t.claimed then Some(RenderOutcomeUnknown)
    else if willRender then None
    else Some(RenderFailed)
  }

  /** Where disposing of an observation stops for want of room in the failure file. */
  predicate NoRoom(len: Lengths, t: Transaction, o: Observation, v: Verdict, willRender: bool, remaining: int) {
    match v
    case Fails(c) => Unfit(len, t, c, o, remaining)
    case Succeeds(record) =>
      ResultFits(len, record) && t.reservation.cls == Acceptance && !willRender
          && Unfit(len, t, RenderFailed, o, remaining)
  }

  /** The files say so: a failure closes without a result, unless one was named before it is
      this one; a success names this very result. */
  ghost predicate Disposed(s: Slot, t: Transaction, o: Observation, v: Verdict, remaining: int) {
    s.tx.Some? && s.tx.value.observation == Some(o) &&
    match v
    case Fails(c) =>
      && s.tx.value.state.Closed? && s.tx.value.result.None? && s.tx.value.failure.Some?
      && (t.failure.None? ==> s.failure == Some(FailureOf(t, c, o.cleanup, o.protected, o.effects, remaining)))
    case Succeeds(record) =>
      && (s.tx.value.state.Closed? || s.tx.value.state.EvidenceRendered?)
      && s.result == Some(record) && s.tx.value.result == Some(Sha(record))
  }

  /** What an observation has come to on disk. It became a result exactly if it was a success,
      what the adapter admits of it fits, and, for acceptance alone, the delegation is eligible
      and everything was left as it should be; the result is this observation with that
      admission. Otherwise it became a failure, with the observation's own classification or
      that of the check that failed, unless a failure had been named before. */
  ghost predicate Disposes(len: Lengths, s: Slot, t: Transaction, o: Observation, admitted: Option<Admitted>) {
    && s.tx.Some? && s.tx.value.observation == Some(o)
    && (s.tx.value.result.Some? <==>
          && o.kind == Success && admitted.Some? && AdmittedFits(len, admitted.value)
          && (t.reservation.cls == Acceptance ==>
                && t.delegation.eligible && o.cleanup == CleanupComplete && o.protected == Unchanged
                && !o.effects.unknown))
    && (s.tx.value.result.Some? ==>
          && s.result == Some(ResultRecord(BindingOf(t.delegation), t.reservation, o, admitted.value))
          && s.tx.value.result == Some(Sha(s.result.value)))
    && (s.tx.value.result.None? && t.failure.None? ==>
          && s.failure.Some? && s.failure.value.cleanup == o.cleanup && s.failure.value.protected == o.protected
          && s.failure.value.effects == o.effects && s.failure.value.reservation == t.reservation
          && s.failure.value.classification ==
             if o.kind != Success then o.classification
             else if admitted.None? || !AdmittedFits(len, admitted.value) then AdmissionFailed
             else DispositionInadmissible)
  }

  lemma JudgedDisposes(len: Lengths, s: Slot, t: Transaction, o: Observation, admitted: Option<Admitted>,
                       remaining: int)
    requires Disposed(s, t, o, Judgement(len, t, o, admitted), remaining)
    ensures Disposes(len, s, t, o, admitted)
  {
  }

  // ------------------------------------------------- what a budget becomes

  function Template(d: Delegation): Budget {
    Budget(d.contractName, d.plan, if d.cls == Acceptance then Some(d.source) else None, d.contract, d.planContent,
           d.maximum, 0, [])
  }

  datatype Plan = Keep(budget: Budget) | Adjust(key: AdjustmentKey, adjustment: Adjustment) | Refuse(cause: Cause)

  /** What `_load_or_initialize_budget` will do: keep the budget, adjust it under a named
      authority with a record of the adjustment, or refuse. */
  function PlanFor(w: World, d: Delegation, a: Authority): Plan {
    if w.budget.None? then Keep(Template(d))
    else
      var b := w.budget.value;
      if b.contractName != d.contractName || b.plan != d.plan || b.candidate != Template(d).candidate
          then Refuse(BudgetRefused)
      else if b.contract != d.contract || b.planContent != d.planContent then
        (if && d.cls == Diagnostic && !d.eligible && b.maximum == d.maximum && a.revisionAuthorized
            && a.previousContract == b.contract && a.previousPlanContent == b.planContent
         then Recorded(w, PlanRevision(b.contract, d.contract, b.planContent, d.planContent),
                       Adjustment(d.authority, b, b.(contract := d.contract, planContent := d.planContent)))
         else Refuse(BudgetRefused))
      else if b.maximum != d.maximum then
        (if d.cls == Diagnostic && !d.eligible && d.maximum > b.maximum
         then Recorded(w, Extension(b.maximum, d.maximum), Adjustment(d.authority, b, b.(maximum := d.maximum)))
         else Refuse(BudgetRefused))
      else Keep(b)
  }

  /** Which budgets are adjusted, and to what: only a diagnostic's, of the same contract and
      plan by name; its product contract and plan content change together under an authority
      that allows the revision and names both as they were, at the same maximum; otherwise its
      maximum rises. Any other difference is refused, and so is an adjustment that is on record
      otherwise. */
  lemma PlanExactly(w: World, d: Delegation, a: Authority)
    requires w.budget.Some? && Admits(a, d)
    ensures var b := w.budget.value; var p := PlanFor(w, d, a);
            var named := b.contractName == d.contractName && b.plan == d.plan
                         && b.candidate == if d.cls == Acceptance then Some(d.source) else None;
            var revised := b.contract != d.contract || b.planContent != d.planContent;
            && (p == Keep(b) <==> named && !revised && b.maximum == d.maximum)
            && (p.Keep? ==> p.budget == b)
            && (p.Adjust? ==> p.adjustment.before == b && p.adjustment.authority == d.authority
                              && p.adjustment.after
                                 == b.(contract := d.contract, planContent := d.planContent, maximum := d.maximum))
            && (p.Adjust? && p.key.PlanRevision? <==>
                  && named && revised && d.cls == Diagnostic && b.maximum == d.maximum && a.revisionAuthorized
                  && a.previousContract == b.contract && a.previousPlanContent == b.planContent
                  && (PlanRevision(b.contract, d.contract, b.planContent, d.planContent) in w.adjustments ==>
                        w.adjustments[PlanRevision(b.contract, d.contract, b.planContent, d.planContent)]
                        == Adjustment(d.authority, b, b.(contract := d.contract, planContent := d.planContent))))
            && (p.Adjust? && p.key.Extension? <==>
                  && named && !revised && d.cls == Diagnostic && b.maximum < d.maximum
                  && (Extension(b.maximum, d.maximum) in w.adjustments ==>
                        w.adjustments[Extension(b.maximum, d.maximum)]
                        == Adjustment(d.authority, b, b.(maximum := d.maximum))))
            && (p == Refuse(AdjustmentRefused) || p == Refuse(BudgetRefused) <==> p.Refuse?)
            && (p == Refuse(AdjustmentRefused) ==> named && d.cls == Diagnostic)
  {
    AdmittedDelegation(a, d);
  }

  /** An adjustment on record must be this one. */
  function Recorded(w: World, key: AdjustmentKey, adjustment: Adjustment): Plan {
    if key in w.adjustments && w.adjustments[key] != adjustment then Refuse(AdjustmentRefused)
    else Adjust(key, adjustment)
  }

  /** The budget an execution will go by, when it is not refused one. */
  function BudgetFor(w: World, d: Delegation, a: Authority): Option<Budget> {
    match PlanFor(w, d, a)
    case Keep(b) => Some(b)
    case Adjust(_, adjustment) => Some(adjustment.after)
    case Refuse(_) => None
  }

  /** Adjustments keep the reservations and their count, and only ever raise the maximum. */
  lemma AdjustmentKeepsReservations(len: Lengths, w: World, d: Delegation, a: Authority)
    requires Sound(len, d.cls, d.identity, w) && Admits(a, d) && BudgetFor(w, d, a).Some?
    ensures var b := BudgetFor(w, d, a).value;
            && BudgetSound(d.cls, d.identity, b) && b.reservations == Reservations(w)
            && (w.budget.Some? ==> BudgetFollows(d.cls, w.budget.value, b))
            && OnTermsOf(b, d)
  {
    AdmittedDelegation(a, d);
  }

  /** At every point of an adjustment, a process that starts over goes by the same budget. */
  lemma AdjustmentIsRepeatable(w: World, d: Delegation, a: Authority)
    requires PlanFor(w, d, a).Adjust? && Admits(a, d)
    ensures var p := PlanFor(w, d, a);
            var noted := w.(adjustments := w.adjustments[p.key := p.adjustment]);
            PlanFor(noted, d, a) == p
                && PlanFor(noted.(budget := Some(p.adjustment.after)), d, a) == Keep(p.adjustment.after)
  {
    AdmittedDelegation(a, d);
  }

  /** Whatever budget is on disk, it has these terms. */
  ghost predicate OnTerms(w: World, b: Budget) {
    w.budget.Some? ==>
      var c := w.budget.value;
      && c.contractName == b.contractName && c.plan == b.plan && c.candidate == b.candidate && c.contract == b.contract
      && c.planContent == b.planContent && c.maximum == b.maximum
  }

  ghost predicate OnTermsOf(b: Budget, d: Delegation) {
    && b.contractName == d.contractName && b.plan == d.plan && b.candidate == Template(d).candidate
       && b.contract == d.contract
    && b.planContent == d.planContent && b.maximum == d.maximum
  }

  lemma TermsAdmit(w: World, d: Delegation, a: Authority, b: Budget)
    requires OnTerms(w, b) && OnTermsOf(b, d)
    ensures BudgetFor(w, d, a).Some?
  {
  }

  /** The policy refuses neither this delegation's budget nor its transaction. */
  ghost predicate Admissible(w: World, d: Delegation, a: Authority) {
    BudgetFor(w, d, a).Some? && !Misfit(w, d)
  }

  /** The transaction on disk was made under a delegation this one does not extend. */
  ghost predicate Misfit(w: World, d: Delegation) {
    var s := At(w, IdentityOf(d));
    s.tx.Some? && !DelegationFits(s.tx.value.delegation, d)
  }

  ghost predicate SlotsElsewhere(v: World, w: World, r: Reservation) {
    forall q :: q != r ==> At(w, q) == At(v, q)
  }

  /** The adapter is only invoked for a reservation that was not consumed before, and once
      for each such that is seen through; a failure left retained stays as it is. */
  ghost predicate Lawful(done: bool, v: World, w: World, of: Reservation) {
    && (At(w, of).invokes > At(v, of).invokes ==> !IsReserved(v, of) && IsReserved(w, of))
    && (done && !IsReserved(v, of) ==> At(w, of).invokes == 1)
    && (At(v, of).tx.Some? && At(v, of).tx.value.state.FailureRetained? ==> At(w, of) == At(v, of))
  }

  /** The observation is on disk and has not been disposed of; where that was so before,
      nothing has changed. */
  ghost predicate LeftObserved(v: World, w: World, of: Reservation) {
    && At(w, of).tx.Some? && At(w, of).tx.value.state.Observed?
    && (At(v, of).tx.Some? && At(v, of).tx.value.state.Observed? ==> At(w, of) == At(v, of))
  }

  /** There is no transaction yet, or one that is only preflighted. */
  ghost predicate NotObserved(w: World, of: Reservation) {
    At(w, of).tx.Some? ==> At(w, of).tx.value.state.Preflighted?
  }

  /** The ways an execution that has consumed its reservation can still stop. */
  ghost predicate LateRefusal(r: Outcome<Receipt>, v: World, w: World, of: Reservation) {
    r.Stop? ==>
      && r.cause in {Crashed, FailureTooLarge, ResultTooLarge, ReadmissionRefused}
      && (r.cause == ResultTooLarge ==> LeftObserved(v, w, of))
  }

  /** Every way of stopping has its reason, and corrupt state is none of them. */
  ghost predicate Accounted(c: Cause, v: World, w: World, d: Delegation, a: Authority) {
    && c !in {Corrupt, BadDisposition, NothingToRender, RevisionAttempted, RenderRaised, IllegalTransition}
    && (c == DelegationRefused ==> Misfit(v, d))
    && (c == BudgetRefused || c == AdjustmentRefused ==> PlanFor(v, d, a) == Refuse(c))
    && (c == ResultTooLarge ==> LeftObserved(v, w, IdentityOf(d)))
    && (c == Exhausted ==>
        !IsReserved(w, IdentityOf(d)) && Reservations(w) == Reservations(v) && |Reservations(w)| >= d.maximum)
  }

  /** The delegation under which the transaction was, or now will be, made. */
  function Made(w: World, d: Delegation): Delegation {
    if At(w, IdentityOf(d)).tx.Some? then At(w, IdentityOf(d)).tx.value.delegation else d
  }

  /** What an execution is to bring home: under whose delegation, which observation, and
      what the adapter admits of it. */
  datatype Errand = Errand(made: Delegation, o: Observation, admitted: Admitted)

  function RecordOf(e: Errand): ResultRecord {
    ResultRecord(BindingOf(e.made), IdentityOf(e.made), e.o, e.admitted)
  }

  /** An execution that went through: invoked once, its observation retained as this result,
      closed, and for acceptance rendered. */
  ghost predicate Fulfilled(r: Outcome<Receipt>, w: World, e: Errand) {
    var s := At(w, IdentityOf(e.made));
    && r.Done? && s.tx.Some? && s.invokes == 1 && s.tx.value.observation == Some(e.o)
    && s.result == Some(RecordOf(e)) && s.tx.value.result == Some(Sha(RecordOf(e)))
    && s.tx.value.state == if e.made.cls == Acceptance then EvidenceRendered else Closed
  }

  /** A reservation not consumed is still at its transaction's beginning at every earlier moment. */
  lemma StillAtStart(len: Lengths, r: Reservation, s: Slot, u: Slot)
    requires SlotSound(len, r, u, false) && SlotFollows(s, u) && s.tx.Some? && StoredSoundly(len, r, s.tx.value)
    ensures s.tx.value.state.Preflighted? && s.tx.value.result.None? && s.tx.value.failure.None?
  {
    var h := u.tx.value.history;
    if |h| > 2 {
      NoStateTwice(h, 0, 1);
      NoStateTwice(h, 1, |h| - 1);
    }
    assert s.tx.value.history <= h;
  }

  lemma Untouched(v: World, w: World)
    requires w.slots == v.slots
    ensures forall q :: At(w, q) == At(v, q)
  {
  }

  lemma SameSlots(v: World, w: World, d: Delegation)
    requires w.slots == v.slots
    ensures forall q :: At(w, q) == At(v, q)
    ensures Made(w, d) == Made(v, d) && Misfit(w, d) == Misfit(v, d)
    ensures SlotsElsewhere(v, w, IdentityOf(d)) && Lawful(false, v, w, IdentityOf(d))
  {
  }

  /** Resuming a consumed reservation without invoking is lawful. */
  lemma ResumedLawfully(v: World, w: World, d: Delegation, done: bool)
    requires IsReserved(v, IdentityOf(d)) && At(w, IdentityOf(d)).invokes == At(v, IdentityOf(d)).invokes
    requires At(v, IdentityOf(d)).tx.Some? && At(v, IdentityOf(d)).tx.value.state.FailureRetained? ==>
               At(w, IdentityOf(d)) == At(v, IdentityOf(d))
    requires SlotFollows(At(v, IdentityOf(d)), At(w, IdentityOf(d))) && At(v, IdentityOf(d)).tx.Some?
    ensures Lawful(done, v, w, IdentityOf(d)) && Misfit(w, d) == Misfit(v, d)
  {
  }

  /** Adjusting the budget moves none of this. */
  lemma AfterAdjustment(r: Outcome<Receipt>, v: World, m: World, w: World, d: Delegation, a: Authority)
    requires m.slots == v.slots && Reservations(m) == Reservations(v)
    requires SlotsElsewhere(m, w, IdentityOf(d)) && Lawful(r.Done?, m, w, IdentityOf(d))
             && (r.Stop? ==> Accounted(r.cause, m, w, d, a))
    requires r.Stop? ==> r.cause !in {BudgetRefused, AdapterRefused, AdjustmentRefused}
    ensures SlotsElsewhere(v, w, IdentityOf(d)) && Lawful(r.Done?, v, w, IdentityOf(d))
            && (r.Stop? ==> Accounted(r.cause, v, w, d, a))
    ensures Misfit(v, d) == Misfit(m, d)
  {
    assert forall q :: At(m, q) == At(v, q);
  }

  /** When each file was read before the lock was held: the transaction first. */
  datatype Moments = Moments(tx: nat, result: nat, failure: nat, sidecar: nat) {
    predicate Ordered(n: nat) {
      tx <= result < n && tx <= failure < n && tx <= sidecar < n
    }
  }

  datatype Prior = Prior(transaction: Option<Transaction>, reconciled: Option<Observation>,
                         readmitted: Option<ResultRecord>)

  predicate NeedsReconciliation(t: Transaction) {
    t.state.Reserved? || t.state.Launching? || t.state.OutcomeUnknown?
  }

  /** What a plan adapter declares itself to be for. */
  datatype Descriptor = Descriptor(cls: Class, plan: nat, contractName: nat, contract: nat, planContent: nat)

  predicate SpeaksFor(p: Descriptor, d: Delegation) {
    && d.cls == p.cls && d.plan == p.plan && d.contractName == p.contractName && d.contract == p.contract
    && d.planContent == p.planContent
  }

  predicate BudgetReads(b: Budget) {
    Distinct(b.reservations) && b.consumed == |b.reservations| && b.maximum >= 1 && |b.reservations| <= b.maximum
  }

  class Backend {
    const owner: Owner
    const adapter: A.Adapter
    const descriptor: Descriptor
    /** The authority document as successive readings find it, and as all later ones do. */
    var authorities: seq<Authority>
    const standing: Option<Authority>

    constructor (owner: Owner, adapter: A.Adapter, descriptor: Descriptor, authorities: seq<Authority>,
                 standing: Option<Authority>)
      ensures this.owner == owner && this.adapter == adapter && this.descriptor == descriptor
      ensures this.authorities == authorities && this.standing == standing
    {
      this.owner, this.adapter, this.descriptor, this.authorities, this.standing :=
        owner, adapter, descriptor, authorities, standing;
    }

    /** The authority on disk is this one, it stays, and it admits the delegation. */
    predicate Steady(a: Authority, d: Delegation)
      reads this`authorities
    {
      authorities == [] && standing == Some(a) && Admits(a, d)
    }

    /** An authority that stands is never the reason for a refusal. */
    ghost predicate NoDrift<T>(steady: bool, r: Outcome<T>, a: Authority, d: Delegation)
      reads this`authorities
    {
      steady ==> Steady(a, d) && !(r.Stop? && r.cause.AuthorityRefused?)
    }

    ghost predicate Ready()
      reads owner, adapter, adapter.worker
    {
      && owner.Valid() && adapter.Valid()
      && Joined(owner.world, adapter.asked, adapter.worker.roots)
    }

    /** The transaction in hand is the one on disk, and its reservation is consumed. */
    ghost predicate Holds(t: Transaction)
      reads owner
    {
      IsReserved(owner.world, t.reservation) && At(owner.world, t.reservation).tx == Some(t)
    }

    /** What is known of a reservation's files as they are on disk. */
    lemma Known(of: Reservation)
      requires owner.Valid()
      ensures SlotSound(owner.len, of, At(owner.world, of), IsReserved(owner.world, of))
    {
      SoundAt(owner.len, owner.cls, owner.identity, owner.world, of);
    }

    ghost function Files(t: Transaction): Slot
      reads owner
    {
      At(owner.world, t.reservation)
    }

    method Put(r: Reservation, s: Slot) returns (alive: bool)
      requires Ready() && SlotSound(owner.len, r, s, IsReserved(owner.world, r)) && SlotFollows(At(owner.world, r), s)
      requires SuccessRetained(s) ==> adapter.Vouched(r)
      modifies owner
      ensures Ready() && old(owner.trail) <= owner.trail && OnlyAt(old(owner.world), owner.world, r)
      ensures At(owner.world, r) == if alive then s else old(At(owner.world, r))
      ensures old(owner.crashIn).None? ==> alive && owner.crashIn.None?
    {
      JoinedWith(owner.world, r, s, adapter.asked, adapter.worker.roots);
      alive := owner.Put(r, s);
    }

    /** `_write_transaction` of a lawful successor. */
    method Save(t: Transaction, u: Transaction) returns (r: Outcome<Transaction>)
      requires Ready() && Holds(t)
      requires u == t || (Successor(t, u) && Carries(u) && FilesVerify(owner.len, t.reservation, Files(t), u))
      requires u.state.Reserved? ==> Files(t).invokes == 0
      requires u.observation.Some? && u.observation.value.kind == Success ==> adapter.Vouched(t.reservation)
      modifies owner
      ensures Ready() && old(owner.trail) <= owner.trail && OnlyAt(old(owner.world), owner.world, t.reservation)
      ensures r == Done(u) || r == Stop(Crashed)
      ensures Files(t) == old(Files(t)).(tx := Some(if r.Done? then u else t))
      ensures old(owner.crashIn).None? ==> r.Done? && owner.crashIn.None?
    {
      Known(t.reservation);
      Advance(owner.len, t.reservation, Files(t), t, u);
      var alive := Put(t.reservation, At(owner.world, t.reservation).(tx := Some(u)));
      r := if alive then Done(u) else Stop(Crashed);
    }

    // --------------------------------------------------------- the failure pair

    /** `_retain_failure`: the diagnostic and its sidecar are written, but nothing names
        them yet. A failure already named is verified and left alone. */
    method RetainFailure(t: Transaction, remaining: int, c: Classification, cleanup: Cleanup, protected: Protected,
                         effects: Effects) returns (r: Outcome<Transaction>)
      requires Ready() && Holds(t) && remaining >= 0
      modifies owner
      ensures Ready() && old(owner.trail) <= owner.trail && OnlyAt(old(owner.world), owner.world, t.reservation)
      ensures Files(t) == old(Files(t)).(failure := Files(t).failure, sidecar := Files(t).sidecar)
      ensures t.failure.Some? ==> r == Done(t) && Files(t) == old(Files(t))
      ensures t.failure.None? ==>
                var f := FailureOf(t, c, cleanup, protected, effects, remaining);
                && (r == Stop(BadDisposition) <==> !InSyntax(c) || !ClosedDispositions(effects, cleanup, protected))
                && (r == Stop(FailureTooLarge) <==> r != Stop(BadDisposition) && !FailureFits(owner.len, f))
                && (r.Done? ==> r.value == t.(failure := Some(Sha(f)),
                                              revision := t.revision + 1) && Files(t).failure == Some(f))
                && (r.Done? || r == Stop(Crashed) || owner.world == old(owner.world))
      ensures r.Done? ==> r.value.failure.Some? && PairVerifies(owner.len, Files(t).failure, Files(t).sidecar, r.value)
      ensures r.Done? || r == Stop(Crashed) || r == Stop(BadDisposition) || r == Stop(FailureTooLarge)
      ensures old(owner.crashIn).None? ==> r != Stop(Crashed) && owner.crashIn.None?
    {
      Known(t.reservation);
      var s := At(owner.world, t.reservation);
      if t.failure.Some? {
        return if PairVerifies(owner.len, s.failure, s.sidecar, t) then Done(t) else Stop(Corrupt);
      }
      if !InSyntax(c) || !ClosedDispositions(effects, cleanup, protected) {
        return Stop(BadDisposition);
      }
      var f := FailureOf(t, c, cleanup, protected, effects, remaining);
      if !FailureFits(owner.len, f) {
        return Stop(FailureTooLarge);
      }
      var alive := WriteFailure(t, f);
      r := if alive then Done(t.(failure := Some(Sha(f)), revision := t.revision + 1)) else Stop(Crashed);
    }

    /** The diagnostic, then its sidecar. */
    method WriteFailure(t: Transaction, f: Failure) returns (alive: bool)
      requires Ready() && Holds(t) && t.failure.None?
      modifies owner
      ensures Ready() && old(owner.trail) <= owner.trail && OnlyAt(old(owner.world), owner.world, t.reservation)
      ensures Files(t) == old(Files(t)).(failure := Files(t).failure, sidecar := Files(t).sidecar)
      ensures alive ==> Files(t).failure == Some(f) && Files(t).sidecar == Some(Sha(f))
      ensures old(owner.crashIn).None? ==> alive && owner.crashIn.None?
    {
      Known(t.reservation);
      var s := At(owner.world, t.reservation);
      alive := Put(t.reservation, s.(failure := Some(f)));
      if alive {
        alive := Put(t.reservation, s.(failure := Some(f), sidecar := Some(Sha(f))));
      }
    }

    /** Nothing observed, and a failure that says what is not known. */
    ghost predicate UnknownRetained(s: Slot, t: Transaction, effects: Effects, cleanup: Cleanup, protected: Protected,
                                    remaining: int) {
      && s.tx.Some? && s.tx.value.state.OutcomeUnknown? && s.tx.value.observation.None?
      && s.failure == Some(FailureOf(t, UnknownOutcome, cleanup, protected, effects, remaining))
    }

    /** `_retain_unknown`: name the failure and rest, reconcilable but never relaunched. */
    method RetainUnknown(t: Transaction, remaining: int, effects: Effects, cleanup: Cleanup, protected: Protected)
      returns (r: Outcome<Transaction>)
      requires Ready() && Holds(t) && remaining >= 0
      requires t.state.Preflighted? || t.state.Reserved? || t.state.Launching?
      requires ClosedDispositions(effects, cleanup, protected)
      modifies owner
      ensures Ready() && old(owner.trail) <= owner.trail && OnlyAt(old(owner.world), owner.world, t.reservation)
      ensures r.Done? ==> Holds(r.value) && r.value.reservation == t.reservation && r.value.failure.Some?
                          && UnknownRetained(Files(t), t, effects, cleanup, protected, remaining)
      ensures r.Stop? ==> Holds(t)
      ensures Files(t).invokes == old(Files(t)).invokes && Files(t).renders == old(Files(t)).renders
      ensures r.Done? || r == Stop(Crashed) || r == Stop(FailureTooLarge)
      ensures old(owner.crashIn).None? ==> r != Stop(Crashed) && owner.crashIn.None?
    {
      Known(t.reservation);
      var kept :- RetainFailure(t, remaining, UnknownOutcome, cleanup, protected, effects);
      var moved := Move(kept, OutcomeUnknown).value;
      r := Save(t, moved);
    }

    /** What a transaction says once its failure is to be named: this one, or the one named before. */
    ghost predicate Keeps(t: Transaction, kept: Transaction, s: Slot, c: Classification, o: Observation,
                          remaining: int) {
      && (kept == t || kept == t.(failure := kept.failure, revision := t.revision + 1))
      && kept.failure.Some? && (t.failure.Some? ==> kept == t) && PairVerifies(owner.len, s.failure, s.sidecar, kept)
      && (t.failure.None? ==> s.failure == Some(FailureOf(t, c, o.cleanup, o.protected, o.effects, remaining)))
    }

    /** `_retain_failure` for what an observation says of its dispositions. */
    method RetainFailureOf(t: Transaction, remaining: int, c: Classification, o: Observation)
      returns (r: Outcome<Transaction>)
      requires Ready() && Holds(t) && remaining >= 0 && InSyntax(c)
               && ClosedDispositions(o.effects, o.cleanup, o.protected)
      modifies owner
      ensures Ready() && old(owner.trail) <= owner.trail && OnlyAt(old(owner.world), owner.world, t.reservation)
      ensures Files(t) == old(Files(t)).(failure := Files(t).failure, sidecar := Files(t).sidecar)
      ensures r.Done? ==> Keeps(t, r.value, Files(t), c, o, remaining)
      ensures r.Done? || r == Stop(Crashed) || r == Stop(FailureTooLarge)
      ensures r == Stop(FailureTooLarge) <==> Unfit(owner.len, t, c, o, remaining)
      ensures r == Stop(FailureTooLarge) ==> owner.world == old(owner.world)
      ensures old(owner.crashIn).None? ==> r != Stop(Crashed) && owner.crashIn.None?
    {
      r := RetainFailure(t, remaining, c, o.cleanup, o.protected, o.effects);
    }

    /** A failure closes the transaction, in two steps. */
    method CloseWithFailure(t: Transaction, remaining: int, c: Classification, o: Observation)
      returns (r: Outcome<Transaction>)
      requires Ready() && Holds(t) && remaining >= 0
      requires t.state.Observed? && t.observation == Some(o) && InSyntax(c)
      modifies owner
      ensures Ready() && old(owner.trail) <= owner.trail && OnlyAt(old(owner.world), owner.world, t.reservation)
      ensures r.Done? ==> Holds(r.value) && r.value.reservation == t.reservation
                          && Disposed(Files(t), t, o, Fails(c), remaining)
      ensures Files(t).invokes == old(Files(t)).invokes && Files(t).renders == old(Files(t)).renders
      ensures r.Done? || r == Stop(Crashed) || r == Stop(FailureTooLarge)
      ensures r == Stop(FailureTooLarge) <==> Unfit(owner.len, t, c, o, remaining)
      ensures r == Stop(FailureTooLarge) ==> owner.world == old(owner.world)
      ensures old(owner.crashIn).None? ==> r != Stop(Crashed) && owner.crashIn.None?
    {
      ObservedIsRecordable(t, o);
      var kept :- RetainFailureOf(t, remaining, c, o);
      r := CloseKept(t, kept, remaining, c, o);
    }

    method CloseKept(t: Transaction, kept: Transaction, remaining: int, c: Classification, o: Observation)
      returns (r: Outcome<Transaction>)
      requires Ready() && Holds(t) && t.state.Observed? && t.observation == Some(o)
               && Keeps(t, kept, Files(t), c, o, remaining)
      modifies owner
      ensures Ready() && old(owner.trail) <= owner.trail && OnlyAt(old(owner.world), owner.world, t.reservation)
      ensures r.Done? ==> Holds(r.value) && r.value.reservation == t.reservation && Disposed(Files(t), t, o, Fails(c),
              remaining)
      ensures Files(t).invokes == old(Files(t)).invokes && Files(t).renders == old(Files(t)).renders
      ensures r.Done? || r == Stop(Crashed)
      ensures old(owner.crashIn).None? ==> r.Done? && owner.crashIn.None?
    {
      ObservedIsRecordable(t, o);
      NamesKept(t, kept, c, o, remaining);
      r := NameAndClose(t, Move(kept, FailureRetained).value);
    }

    lemma ObservedIsRecordable(t: Transaction, o: Observation)
      requires owner.Valid() && Holds(t) && t.state.Observed? && t.observation == Some(o)
      ensures Recordable(owner.len, o) && t.result.None?
    {
      Known(t.reservation);
    }

    lemma NamesKept(t: Transaction, kept: Transaction, c: Classification, o: Observation, remaining: int)
      requires owner.Valid() && Holds(t) && t.state.Observed? && Keeps(t, kept, Files(t), c, o, remaining)
      ensures var named := Move(kept, FailureRetained).value;
              Successor(t, named) && Carries(named) && !named.claimed
                  && FilesVerify(owner.len, t.reservation, Files(t), named)
    {
      Known(t.reservation);
      NamesFailure(owner.len, t.reservation, Files(t), t, kept, Move(kept, FailureRetained).value);
    }

    /** Write the transaction with its result or failure named, then closed. */
    method NameAndClose(t: Transaction, named: Transaction) returns (r: Outcome<Transaction>)
      requires Ready() && Holds(t) && t.state.Observed?
      requires named.state.ResultRetained? || named.state.FailureRetained?
      requires Successor(t, named) && Carries(named) && !named.claimed
               && FilesVerify(owner.len, t.reservation, Files(t), named)
      modifies owner
      ensures Ready() && old(owner.trail) <= owner.trail && OnlyAt(old(owner.world), owner.world, t.reservation)
      ensures r == Stop(Crashed) || (r == Done(Move(named, Closed).value) && Holds(r.value))
      ensures Files(t) == old(Files(t)).(tx := Files(t).tx)
      ensures old(owner.crashIn).None? ==> r != Stop(Crashed) && owner.crashIn.None?
    {
      Known(t.reservation);
      assert SuccessRetained(Files(t)) <==> t.observation.value.kind == Success;
      var saved :- Save(t, named);
      NamedCloses(owner.len, t.reservation, Files(saved), saved);
      r := Save(saved, Move(saved, Closed).value);
    }

    /** The result file, then its name, then closure. */
    method KeepResult(t: Transaction, o: Observation, a: Admitted) returns (r: Outcome<Transaction>)
      requires Ready() && Holds(t)
      requires t.state.Observed? && t.observation == Some(o) && o.kind == Success
      requires t.reservation.cls == Acceptance ==> t.delegation.eligible && Acceptable(o)
      modifies owner
      ensures Ready() && old(owner.trail) <= owner.trail && OnlyAt(old(owner.world), owner.world, t.reservation)
      ensures r.Done? ==> Holds(r.value) && r.value.reservation == t.reservation && r.value.delegation == t.delegation
                          && r.value.failure == t.failure && r.value.state.Closed? && !r.value.claimed
                             && !r.value.rendered
                          && Disposed(Files(t), t, o, Succeeds(ResultOf(t, o, a)), 0)
      ensures Files(t).invokes == old(Files(t)).invokes && Files(t).renders == old(Files(t)).renders
      ensures r.Done? || r == Stop(Crashed) || r == Stop(ResultTooLarge)
      ensures r == Stop(ResultTooLarge) <==> !ResultFits(owner.len, ResultOf(t, o, a))
      ensures r == Stop(ResultTooLarge) ==> owner.world == old(owner.world)
      ensures old(owner.crashIn).None? ==> r != Stop(Crashed) && owner.crashIn.None?
    {
      Known(t.reservation);
      var record := ResultOf(t, o, a);
      if !ResultFits(owner.len, record) {
        return Stop(ResultTooLarge);
      }
      var alive := Put(t.reservation, At(owner.world, t.reservation).(result := Some(record)));
      if !alive {
        return Stop(Crashed);
      }
      var named := Move(t.(result := Some(Sha(record))), ResultRetained).value;
      NamesResult(owner.len, t.reservation, Files(t), t, o, record, named);
      r := NameAndClose(t, named);
    }

    // ------------------------------------------------------- product evidence

    /** The one place where the product renderer is called; false when it raises. */
    method CallRenderer(t: Transaction, caller: Renderer, evidence: ResultRecord) returns (r: Outcome<bool>)
      requires Ready() && Holds(t) && t.reservation.cls == Acceptance && t.result.Some? && !t.rendered
      requires NotBy(Files(t).renders, caller) && Files(t).result == Some(evidence)
      requires match caller case ByExecute => t.claimed case ByRecovery(v) => v in Files(t).recoveries
      modifies owner, adapter`renderings
      ensures Ready() && old(owner.trail) <= owner.trail && OnlyAt(old(owner.world), owner.world, t.reservation)
      ensures r == Done(old(adapter.WillRender())) || r == Stop(Crashed)
      ensures Files(t) == if r.Done?
              then old(Files(t)).(renders := old(Files(t)).renders + [Rendering(caller, evidence)]) else old(Files(t))
      ensures old(owner.crashIn).None? ==> r.Done? && owner.crashIn.None?
    {
      Known(t.reservation);
      var s := At(owner.world, t.reservation);
      OneMoreRendering(owner.len, t.reservation, s, t, caller, evidence);
      var alive := Put(t.reservation, s.(renders := s.renders + [Rendering(caller, evidence)]));
      if !alive {
        return Stop(Crashed);
      }
      var ok := adapter.Render(evidence);
      r := Done(ok);
    }

    /** The result stands, the rendering does not, and a failure says why: this one, unless
        one had been named before. */
    ghost predicate Unrendered(before: Slot, s: Slot, t: Transaction, c: Classification, b: Budget) {
      && s.result.Some? && s.result == before.result && s.tx.Some? && !s.tx.value.rendered && s.tx.value.claimed
      && s.tx.value.failure.Some? && s.tx.value.result == t.result && s.tx.value.state.Closed?
         && s.tx.value.observation == t.observation
      && (t.failure.None? ==>
            var o := s.result.value.observation;
            s.failure == Some(FailureOf(t, c, o.cleanup, o.protected, o.effects, b.maximum - b.consumed)))
    }

    /** What the one rendering by execution comes to: made now if it was not claimed, and
        recorded if it succeeded; otherwise its failure, or that nothing is known of it. */
    ghost predicate RenderingSettled(before: Slot, s: Slot, t: Transaction, result: ResultRecord, willRender: bool,
                                     b: Budget) {
      && s.result == before.result && s.tx.Some? && s.tx.value.claimed && s.tx.value.result == t.result
         && s.tx.value.observation == t.observation
      && (s.tx.value.state.Closed? || s.tx.value.state.EvidenceRendered?)
      && (t.rendered ==> s == before)
      && (t.claimed ==> s.renders == before.renders && (s.tx.value.rendered <==> t.rendered))
      && (t.claimed && !t.rendered ==> Unrendered(before, s, t, RenderOutcomeUnknown, b))
      && (!t.claimed ==>
            && s.renders == before.renders + [Rendering(ByExecute, result)]
            && if willRender then s.tx.value.rendered && s.tx.value.state.EvidenceRendered?
               else Unrendered(before, s, t, RenderFailed, b))
    }

    /** A rendering that failed, or may have happened, is retained once. */
    method RetainRenderFailure(t: Transaction, b: Budget, c: Classification) returns (r: Outcome<Receipt>)
      requires Ready() && Holds(t) && b.maximum >= b.consumed && InSyntax(c)
      requires t.state.Closed? && t.claimed
      modifies owner
      ensures Ready() && old(owner.trail) <= owner.trail && OnlyAt(old(owner.world), owner.world, t.reservation)
      ensures Rests(r, t.reservation, b)
      ensures Files(t).invokes == old(Files(t)).invokes && Files(t).renders == old(Files(t)).renders
      ensures r.Done? ==> Unrendered(old(Files(t)), Files(t), t, c, b)
      ensures Files(t).result.Some? && Files(t).result == old(Files(t)).result
      ensures r == Stop(FailureTooLarge) <==>
                Unfit(owner.len, t, c, Files(t).result.value.observation, b.maximum - b.consumed)
      ensures r.Done? || r == Stop(Crashed) || r == Stop(FailureTooLarge)
      ensures old(owner.crashIn).None? ==> r != Stop(Crashed) && owner.crashIn.None?
    {
      var saved :- NameRenderFailure(t, b, c);
      r := Answer(saved, b);
    }

    method NameRenderFailure(t: Transaction, b: Budget, c: Classification) returns (r: Outcome<Transaction>)
      requires Ready() && Holds(t) && b.maximum >= b.consumed && InSyntax(c)
      requires t.state.Closed? && t.claimed
      modifies owner
      ensures Ready() && old(owner.trail) <= owner.trail && OnlyAt(old(owner.world), owner.world, t.reservation)
      ensures r.Done? ==>
                && Holds(r.value) && r.value.reservation == t.reservation
                && Unrendered(old(Files(t)), Files(t), t, c, b)
      ensures Files(t).invokes == old(Files(t)).invokes && Files(t).renders == old(Files(t)).renders
      ensures Files(t).result.Some? && Files(t).result == old(Files(t)).result
      ensures r == Stop(FailureTooLarge) <==>
                Unfit(owner.len, t, c, Files(t).result.value.observation, b.maximum - b.consumed)
      ensures r.Done? || r == Stop(Crashed) || r == Stop(FailureTooLarge)
      ensures old(owner.crashIn).None? ==> r != Stop(Crashed) && owner.crashIn.None?
    {
      ClaimedHasResult(t);
      var o := At(owner.world, t.reservation).result.value.observation;
      var kept :- RetainFailureOf(t, b.maximum - b.consumed, c, o);
      r := SaveKept(t, kept, b, c, old(Files(t)));
    }

    /** The failure's files are there; the transaction comes to name it. */
    method SaveKept(t: Transaction, kept: Transaction, b: Budget, c: Classification, ghost before: Slot)
      returns (r: Outcome<Transaction>)
      requires Ready() && Holds(t) && t.state.Closed? && t.claimed && Files(t).result.Some?
      requires Keeps(t, kept, Files(t), c, Files(t).result.value.observation, b.maximum - b.consumed)
      requires Files(t).result == before.result
      modifies owner
      ensures Ready() && old(owner.trail) <= owner.trail && OnlyAt(old(owner.world), owner.world, t.reservation)
      ensures r == Done(kept) || r == Stop(Crashed)
      ensures r.Done? ==> Holds(kept) && kept.reservation == t.reservation && Unrendered(before, Files(t), t, c, b)
      ensures Files(t) == old(Files(t)).(tx := Files(t).tx)
      ensures old(owner.crashIn).None? ==> r != Stop(Crashed) && owner.crashIn.None?
    {
      KeepsClaim(t, kept, c, Files(t).result.value.observation, b.maximum - b.consumed);
      r := Save(t, kept);
    }

    lemma ClaimedHasResult(t: Transaction)
      requires owner.Valid() && Holds(t) && t.claimed
      ensures Files(t).result.Some? && Recordable(owner.len, Files(t).result.value.observation) && t.result.Some?
              && !t.state.Reserved?
    {
      Known(t.reservation);
    }

    lemma KeepsClaim(t: Transaction, kept: Transaction, c: Classification, o: Observation, remaining: int)
      requires owner.Valid() && Holds(t) && t.claimed && t.state.Closed? && Keeps(t, kept, Files(t), c, o, remaining)
      ensures kept == t || (Successor(t, kept) && Carries(kept)
                            && FilesVerify(owner.len, t.reservation, Files(t), kept))
      ensures !kept.rendered && kept.observation.Some?
      ensures kept.observation == t.observation && (t.observation.value.kind == Success ==> SuccessRetained(Files(t)))
    {
      Known(t.reservation);
    }

    /** An answer is a receipt of what is on disk, and what is on disk has come to rest. */
    ghost predicate Rests(r: Outcome<Receipt>, of: Reservation, b: Budget)
      reads owner
    {
      r.Done? ==>
        && At(owner.world, of).tx.Some? && r.value == ReceiptOf(At(owner.world, of).tx.value, b)
        && Settled(At(owner.world, of).tx.value)
    }

    method Answer(t: Transaction, b: Budget) returns (r: Outcome<Receipt>)
      requires owner.Valid() && Holds(t)
      requires Settled(t) || (t.state.Closed? && t.result.Some? && t.reservation.cls == Diagnostic)
      ensures Rests(r, t.reservation, b) && r == Done(ReceiptOf(t, b))
    {
      Known(t.reservation);
      r := Done(ReceiptOf(t, b));
    }

    /** `_render_acceptance`: claim the one call, then make it. */
    method RenderAcceptance(t: Transaction, b: Budget, result: ResultRecord) returns (r: Outcome<Receipt>)
      requires Ready() && Holds(t) && b.maximum >= b.consumed && t.reservation.cls == Acceptance
      requires (t.state.Closed? || t.state.EvidenceRendered?) && t.result.Some? && Files(t).result == Some(result)
      modifies owner, adapter`renderings
      ensures Ready() && old(owner.trail) <= owner.trail && OnlyAt(old(owner.world), owner.world, t.reservation)
      ensures Rests(r, t.reservation, b) && Files(t).invokes == old(Files(t)).invokes
      ensures t.claimed ==> Files(t).renders == old(Files(t)).renders
      ensures r.Done? ==> RenderingSettled(old(Files(t)), Files(t), t, result, old(adapter.WillRender()), b)
      ensures r != Stop(Crashed) ==>
                (r == Stop(FailureTooLarge) <==>
                   var c := Trouble(t, old(adapter.WillRender()));
                   c.Some? && Unfit(owner.len, t, c.value, result.observation, b.maximum - b.consumed))
      ensures r.Done? || r == Stop(Crashed) || r == Stop(FailureTooLarge)
      ensures old(owner.crashIn).None? ==> r != Stop(Crashed) && owner.crashIn.None?
    {
      Known(t.reservation);
      if t.rendered {
        r := Answer(t, b);
        return;
      }
      if t.claimed {
        if t.failure.None? {
          r := RetainRenderFailure(t, b, RenderOutcomeUnknown);
          return;
        }
        r := Answer(t, b);
        return;
      }
      r := ClaimAndRender(t, b, result);
    }

    method ClaimAndRender(t: Transaction, b: Budget, result: ResultRecord) returns (r: Outcome<Receipt>)
      requires Ready() && Holds(t) && b.maximum >= b.consumed && t.reservation.cls == Acceptance
      requires t.state.Closed? && !t.claimed && t.result.Some? && Files(t).result == Some(result)
      modifies owner, adapter`renderings
      ensures Ready() && old(owner.trail) <= owner.trail && OnlyAt(old(owner.world), owner.world, t.reservation)
      ensures Rests(r, t.reservation, b) && Files(t).invokes == old(Files(t)).invokes
      ensures r.Done? ==> RenderingSettled(old(Files(t)), Files(t), t, result, old(adapter.WillRender()), b)
      ensures r != Stop(Crashed) ==>
                (r == Stop(FailureTooLarge) <==>
                   var c := Trouble(t, old(adapter.WillRender()));
                   c.Some? && Unfit(owner.len, t, c.value, result.observation, b.maximum - b.consumed))
      ensures r.Done? || r == Stop(Crashed) || r == Stop(FailureTooLarge)
      ensures old(owner.crashIn).None? ==> r != Stop(Crashed) && owner.crashIn.None?
    {
      Known(t.reservation);
      UnclaimedIsUnrendered(owner.len, t.reservation, Files(t), t);
      var claimed :- Save(t, t.(claimed := true, revision := t.revision + 1));
      r := RenderClaimed(claimed, b, result);
    }

    method RenderClaimed(claimed: Transaction, b: Budget, result: ResultRecord) returns (r: Outcome<Receipt>)
      requires Ready() && Holds(claimed) && b.maximum >= b.consumed && claimed.reservation.cls == Acceptance
      requires claimed.state.Closed? && claimed.claimed && claimed.result.Some? && Files(claimed).result == Some(result)
      requires NotBy(Files(claimed).renders, ByExecute)
      modifies owner, adapter`renderings
      ensures Ready() && old(owner.trail) <= owner.trail && OnlyAt(old(owner.world), owner.world, claimed.reservation)
      ensures Rests(r, claimed.reservation, b) && Files(claimed).invokes == old(Files(claimed)).invokes
      ensures r.Done? ==> Files(claimed).renders == old(Files(claimed)).renders + [Rendering(ByExecute, result)]
      ensures r.Done? ==> if old(adapter.WillRender()) then Completed(old(Files(claimed)), Files(claimed), claimed)
                          else Unrendered(old(Files(claimed)), Files(claimed), claimed, RenderFailed, b)
      ensures r != Stop(Crashed) ==>
                (r == Stop(FailureTooLarge) <==>
                 !old(adapter.WillRender())
                     && Unfit(owner.len, claimed, RenderFailed, result.observation, b.maximum - b.consumed))
      ensures r.Done? || r == Stop(Crashed) || r == Stop(FailureTooLarge)
      ensures old(owner.crashIn).None? ==> r != Stop(Crashed) && owner.crashIn.None?
    {
      Known(claimed.reservation);
      var ok :- CallRenderer(claimed, ByExecute, result);
      if !ok {
        r := RetainRenderFailure(claimed, b, RenderFailed);
        return;
      }
      r := FinishRendering(claimed, b);
    }

    ghost predicate Completed(before: Slot, s: Slot, t: Transaction) {
      && s.result == before.result && s.tx.Some? && s.tx.value.rendered && s.tx.value.claimed
         && s.tx.value.state.EvidenceRendered?
      && s.tx.value.result == t.result && s.tx.value.observation == t.observation
    }

    /** The completed rendering is recorded, and is the last. */
    method FinishRendering(t: Transaction, b: Budget) returns (r: Outcome<Receipt>)
      requires Ready() && Holds(t) && t.reservation.cls == Acceptance && t.state.Closed? && t.result.Some?
      modifies owner
      ensures Ready() && old(owner.trail) <= owner.trail && OnlyAt(old(owner.world), owner.world, t.reservation)
      ensures Rests(r, t.reservation, b) && Files(t) == old(Files(t)).(tx := Files(t).tx)
      ensures r.Done? || r == Stop(Crashed)
      ensures r.Done? ==> Completed(old(Files(t)), Files(t), t) && Files(t).tx == Some(RenderedOf(t))
      ensures old(owner.crashIn).None? ==> r.Done? && owner.crashIn.None?
    {
      Known(t.reservation);
      var last := Move(t.(claimed := true, rendered := true, revision := t.revision + 1), EvidenceRendered).value;
      var saved :- Save(t, last);
      r := Answer(saved, b);
    }

    // ---------------------------------------------------------- dispositions

    /** The exchange after `i` others brings this success, and it can be kept as a result. */
    ghost predicate Brings(e: Errand, i: nat)
      reads adapter
    {
      && i < |adapter.exchanges| && Keepable(e)
      && e.o == A.SuccessOf(adapter.RequestFor(IdentityOf(e.made)), A.FactsOf(adapter.exchanges[i]))
    }

    /** It can be kept as a result, and rendered if it is to be. */
    ghost predicate Keepable(e: Errand)
      reads adapter
    {
      && adapter.NextAdmission() == Some(e.admitted) && e.o.kind == Success && Acceptable(e.o)
      && Recordable(owner.len, e.o) && AdmittedFits(owner.len, e.admitted) && ResultFits(owner.len, RecordOf(e))
      && (e.made.cls == Acceptance ==> e.made.eligible && adapter.WillRender())
    }

    /** Nothing stands in the way of this invocation and of keeping what it brings. */
    ghost predicate Serves(e: Errand)
      reads adapter, adapter.worker
    {
      IdentityOf(e.made) !in adapter.worker.roots && adapter.Smooth() && Brings(e, 2)
    }

    lemma ExpectedIsFulfilled(r: Outcome<Receipt>, t: Transaction, e: Errand, willRender: bool, b: Budget)
      requires Processed(r, Files(t), t, e.o, Some(e.admitted), willRender, b)
               && (e.made.cls == Acceptance ==> willRender)
      requires Files(t).invokes == 1 && (r.Done? || r == Stop(ResultTooLarge) || r == Stop(FailureTooLarge))
      requires e.o.kind == Success && Acceptable(e.o) && AdmittedFits(owner.len, e.admitted)
      requires ResultFits(owner.len, RecordOf(e)) && t.delegation == e.made && t.reservation == IdentityOf(e.made)
      requires e.made.cls == Acceptance ==> e.made.eligible
      ensures Fulfilled(r, owner.world, e)
    {
    }

    /** What a processed observation leaves behind, whatever was made of it. */
    ghost predicate Processed(r: Outcome<Receipt>, s: Slot, t: Transaction, o: Observation, admitted: Option<Admitted>,
                              willRender: bool, b: Budget) {
      var v := Judgement(owner.len, t, o, admitted);
      && (r.Done? ==> Disposed(s, t, o, v, b.maximum - b.consumed))
      && (r.Done? && v.Succeeds? && t.reservation.cls == Acceptance ==>
            s.tx.value.state == if willRender then EvidenceRendered else Closed)
      && (r.Done? && (v.Fails? || t.reservation.cls != Acceptance) ==> s.tx.value.state == Closed)
      && (r == Stop(ResultTooLarge) <==> v.Succeeds? && !ResultFits(owner.len, v.record))
      && (r != Stop(Crashed) ==>
          (r == Stop(FailureTooLarge) <==> NoRoom(owner.len, t, o, v, willRender, b.maximum - b.consumed)))
    }

    lemma ProcessedDisposes(r: Outcome<Receipt>, s: Slot, t: Transaction, o: Observation, admitted: Option<Admitted>,
                            willRender: bool, b: Budget)
      requires Processed(r, s, t, o, admitted, willRender, b)
      ensures r.Done? ==> Disposes(owner.len, s, t, o, admitted)
    {
      if r.Done? {
        JudgedDisposes(owner.len, s, t, o, admitted, b.maximum - b.consumed);
      }
    }

    /** As judged. */
    method ProcessJudged(t: Transaction, b: Budget, o: Observation) returns (r: Outcome<Receipt>)
      requires Ready() && Holds(t) && b.maximum >= b.consumed && t.state.Observed? && t.observation == Some(o)
      modifies owner, adapter`renderings, adapter`admissions
      ensures Ready() && old(owner.trail) <= owner.trail && OnlyAt(old(owner.world), owner.world, t.reservation)
      ensures Rests(r, t.reservation, b) && Files(t).invokes == old(Files(t)).invokes
      ensures Processed(r, Files(t), t, o, old(adapter.NextAdmission()), old(adapter.WillRender()), b)
      ensures r == Stop(ResultTooLarge) ==> owner.world == old(owner.world)
      ensures r == Stop(FailureTooLarge) && Judgement(owner.len, t, o, old(adapter.NextAdmission())).Fails? ==>
                owner.world == old(owner.world)
      ensures r.Done? || r == Stop(Crashed) || r == Stop(FailureTooLarge) || r == Stop(ResultTooLarge)
      ensures old(owner.crashIn).None? ==> r != Stop(Crashed) && owner.crashIn.None?
    {
      ObservedIsRecordable(t, o);
      var v := Judge(t, o);
      match v {
        case Fails(c) =>
          r := CloseFailed(t, b, c, o);
        case Succeeds(record) =>
          r := CloseSucceeded(t, b, o, record.admitted);
      }
    }

    /** `_process_observation`: an observed transaction is closed with a result or a failure. */
    method ProcessObservation(t: Transaction, b: Budget, o: Observation) returns (r: Outcome<Receipt>)
      requires Ready() && Holds(t) && b.maximum >= b.consumed && t.state.Observed? && t.observation == Some(o)
      modifies owner, adapter`renderings, adapter`admissions
      ensures Ready() && old(owner.trail) <= owner.trail && OnlyAt(old(owner.world), owner.world, t.reservation)
      ensures Rests(r, t.reservation, b) && Files(t).invokes == old(Files(t)).invokes
      ensures Processed(r, Files(t), t, o, old(adapter.NextAdmission()), old(adapter.WillRender()), b)
      ensures r.Done? ==> Disposes(owner.len, Files(t), t, o, old(adapter.NextAdmission()))
      ensures r == Stop(ResultTooLarge) ==> owner.world == old(owner.world)
      ensures r == Stop(FailureTooLarge) && Judgement(owner.len, t, o, old(adapter.NextAdmission())).Fails? ==>
                owner.world == old(owner.world)
      ensures r.Done? || r == Stop(Crashed) || r == Stop(FailureTooLarge) || r == Stop(ResultTooLarge)
      ensures old(owner.crashIn).None? ==> r != Stop(Crashed) && owner.crashIn.None?
    {
      r := ProcessJudged(t, b, o);
      ProcessedDisposes(r, Files(t), t, o, old(adapter.NextAdmission()), old(adapter.WillRender()), b);
    }

    /** Which of its ways `_process_observation` goes; only a success is put to the adapter. */
    method Judge(t: Transaction, o: Observation) returns (v: Verdict)
      modifies adapter`admissions
      ensures v == Judgement(owner.len, t, o, old(adapter.NextAdmission()))
    {
      if o.kind != Success {
        return Fails(o.classification);
      }
      var admitted := adapter.Admit(o);
      if admitted.None? || !AdmittedFits(owner.len, admitted.value) {
        return Fails(AdmissionFailed);
      }
      if t.reservation.cls == Acceptance && !(t.delegation.eligible && Acceptable(o)) {
        return Fails(DispositionInadmissible);
      }
      return Succeeds(ResultOf(t, o, admitted.value));
    }

    method CloseFailed(t: Transaction, b: Budget, c: Classification, o: Observation) returns (r: Outcome<Receipt>)
      requires Ready() && Holds(t) && b.maximum >= b.consumed && t.state.Observed? && t.observation == Some(o)
               && InSyntax(c)
      modifies owner
      ensures Ready() && old(owner.trail) <= owner.trail && OnlyAt(old(owner.world), owner.world, t.reservation)
      ensures Rests(r, t.reservation, b) && Files(t).invokes == old(Files(t)).invokes
      ensures r.Done? ==> Disposed(Files(t), t, o, Fails(c), b.maximum - b.consumed)
      ensures r == Stop(FailureTooLarge) <==> Unfit(owner.len, t, c, o, b.maximum - b.consumed)
      ensures r == Stop(FailureTooLarge) ==> owner.world == old(owner.world)
      ensures r.Done? || r == Stop(Crashed) || r == Stop(FailureTooLarge)
      ensures old(owner.crashIn).None? ==> r != Stop(Crashed) && owner.crashIn.None?
    {
      var closed :- CloseWithFailure(t, b.maximum - b.consumed, c, o);
      r := Answer(closed, b);
    }

    method CloseSucceeded(t: Transaction, b: Budget, o: Observation, a: Admitted) returns (r: Outcome<Receipt>)
      requires Ready() && Holds(t) && b.maximum >= b.consumed && t.state.Observed? && t.observation == Some(o)
               && o.kind == Success
      requires t.reservation.cls == Acceptance ==> t.delegation.eligible && Acceptable(o)
      modifies owner, adapter`renderings
      ensures Ready() && old(owner.trail) <= owner.trail && OnlyAt(old(owner.world), owner.world, t.reservation)
      ensures Rests(r, t.reservation, b) && Files(t).invokes == old(Files(t)).invokes
      ensures r.Done? ==> Disposed(Files(t), t, o, Succeeds(ResultOf(t, o, a)), 0)
      ensures r.Done? ==>
                Files(t).tx.value.state == if t.reservation.cls == Acceptance && old(adapter.WillRender())
                                           then EvidenceRendered else Closed
      ensures r == Stop(ResultTooLarge) <==> !ResultFits(owner.len, ResultOf(t, o, a))
      ensures r == Stop(ResultTooLarge) ==> owner.world == old(owner.world)
      ensures r != Stop(Crashed) ==>
                (r == Stop(FailureTooLarge) <==>
                   NoRoom(owner.len, t, o, Succeeds(ResultOf(t, o, a)), old(adapter.WillRender()),
                          b.maximum - b.consumed))
      ensures r.Done? || r == Stop(Crashed) || r == Stop(FailureTooLarge) || r == Stop(ResultTooLarge)
      ensures old(owner.crashIn).None? ==> r != Stop(Crashed) && owner.crashIn.None?
    {
      var closed :- KeepResult(t, o, a);
      if t.reservation.cls == Acceptance {
        r := RenderKept(t, closed, b, o, a);
      } else {
        Known(t.reservation);
        r := Answer(closed, b);
      }
    }

    /** A success just closed for acceptance is rendered. */
    method RenderKept(t: Transaction, closed: Transaction, b: Budget, o: Observation, a: Admitted)
      returns (r: Outcome<Receipt>)
      requires Ready() && Holds(closed) && b.maximum >= b.consumed && t.reservation == closed.reservation
               && t.reservation.cls == Acceptance
      requires closed.state.Closed? && !closed.claimed && !closed.rendered && closed.failure == t.failure
               && closed.delegation == t.delegation
      requires Disposed(Files(t), t, o, Succeeds(ResultOf(t, o, a)), 0)
      modifies owner, adapter`renderings
      ensures Ready() && old(owner.trail) <= owner.trail && OnlyAt(old(owner.world), owner.world, t.reservation)
      ensures Rests(r, t.reservation, b) && Files(t).invokes == old(Files(t)).invokes
      ensures r.Done? ==> Disposed(Files(t), t, o, Succeeds(ResultOf(t, o, a)), 0)
      ensures r.Done? ==> Files(t).tx.value.state == if old(adapter.WillRender()) then EvidenceRendered else Closed
      ensures r != Stop(Crashed) ==>
                (r == Stop(FailureTooLarge) <==>
                   !old(adapter.WillRender()) && Unfit(owner.len, t, RenderFailed, o, b.maximum - b.consumed))
      ensures r.Done? || r == Stop(Crashed) || r == Stop(FailureTooLarge)
      ensures old(owner.crashIn).None? ==> r != Stop(Crashed) && owner.crashIn.None?
    {
      r := RenderAcceptance(closed, b, ResultOf(t, o, a));
    }

    lemma ProcessedAlike(r: Outcome<Receipt>, s: Slot, t: Transaction, u: Transaction, o: Observation,
                         admitted: Option<Admitted>, willRender: bool, b: Budget)
      requires u.delegation == t.delegation && u.reservation == t.reservation && u.failure == t.failure
      requires Processed(r, s, u, o, admitted, willRender, b)
      ensures Processed(r, s, t, o, admitted, willRender, b)
    {
    }

    /** The observation is saved, and then judged. */
    method RetainJudged(t: Transaction, b: Budget, o: Observation) returns (r: Outcome<Receipt>)
      requires Ready() && Holds(t) && b.maximum >= b.consumed && Recordable(owner.len, o)
      requires t.state.Reserved? || t.state.Launching? || t.state.OutcomeUnknown?
      requires o.kind == Success ==> adapter.Vouched(t.reservation)
      modifies owner, adapter`renderings, adapter`admissions
      ensures Ready() && old(owner.trail) <= owner.trail && OnlyAt(old(owner.world), owner.world, t.reservation)
      ensures Rests(r, t.reservation, b) && Files(t).invokes == old(Files(t)).invokes
      ensures r != Stop(Crashed) ==>
                Processed(r, Files(t), t, o, old(adapter.NextAdmission()), old(adapter.WillRender()), b)
      ensures LateRefusal(r, old(owner.world), owner.world, t.reservation) && r != Stop(ReadmissionRefused)
      ensures old(owner.crashIn).None? ==> r != Stop(Crashed) && owner.crashIn.None?
    {
      Known(t.reservation);
      var observed := Move(t.(observation := Some(o)), Observed).value;
      var saved :- Save(t, observed);
      r := ProcessJudged(saved, b, o);
      ProcessedAlike(r, Files(t), t, saved, o, old(adapter.NextAdmission()), old(adapter.WillRender()), b);
    }

    /** `_retain_observation`. */
    method RetainObservation(t: Transaction, b: Budget, o: Observation) returns (r: Outcome<Receipt>)
      requires Ready() && Holds(t) && b.maximum >= b.consumed && Recordable(owner.len, o)
      requires t.state.Reserved? || t.state.Launching? || t.state.OutcomeUnknown?
      requires o.kind == Success ==> adapter.Vouched(t.reservation)
      modifies owner, adapter`renderings, adapter`admissions
      ensures Ready() && old(owner.trail) <= owner.trail && OnlyAt(old(owner.world), owner.world, t.reservation)
      ensures Rests(r, t.reservation, b) && Files(t).invokes == old(Files(t)).invokes
      ensures r != Stop(Crashed) ==>
                Processed(r, Files(t), t, o, old(adapter.NextAdmission()), old(adapter.WillRender()), b)
      ensures r.Done? ==> Disposes(owner.len, Files(t), t, o, old(adapter.NextAdmission()))
      ensures LateRefusal(r, old(owner.world), owner.world, t.reservation) && r != Stop(ReadmissionRefused)
      ensures old(owner.crashIn).None? ==> r != Stop(Crashed) && owner.crashIn.None?
    {
      r := RetainJudged(t, b, o);
      if r.Done? {
        ProcessedDisposes(r, Files(t), t, o, old(adapter.NextAdmission()), old(adapter.WillRender()), b);
      }
    }

    /** The same for an observation that may be the one expected. */
    method RetainFor(t: Transaction, b: Budget, o: Observation, ghost e: Errand) returns (r: Outcome<Receipt>)
      requires Ready() && Holds(t) && b.maximum >= b.consumed && Recordable(owner.len, o) && t.state.Launching?
      requires o.kind == Success ==> adapter.Vouched(t.reservation)
      modifies owner, adapter`renderings, adapter`admissions
      ensures Ready() && old(owner.trail) <= owner.trail && OnlyAt(old(owner.world), owner.world, t.reservation)
      ensures Rests(r, t.reservation, b) && Files(t).invokes == old(Files(t)).invokes
      ensures r.Done? ==> Disposes(owner.len, Files(t), t, o, old(adapter.NextAdmission()))
      ensures LateRefusal(r, old(owner.world), owner.world, t.reservation) && r != Stop(ReadmissionRefused)
      ensures old(owner.crashIn).None? ==> r != Stop(Crashed) && owner.crashIn.None?
      ensures old(owner.crashIn.None? && Keepable(e) && Files(t).invokes == 1) && o == e.o
              && t.delegation == e.made && t.reservation == IdentityOf(e.made) ==>
                Fulfilled(r, owner.world, e)
    {
      ghost var willRender := adapter.WillRender();
      r := RetainObservation(t, b, o);
      if old(owner.crashIn.None? && Keepable(e) && Files(t).invokes == 1) && o == e.o
         && t.delegation == e.made && t.reservation == IdentityOf(e.made) {
        ExpectedIsFulfilled(r, t, e, willRender, b);
      }
    }

    /** `_reconcile`: ask what the worker knows; an unrecordable answer is no answer. */
    method Reconcile(of: Reservation) returns (o: Option<Observation>)
      requires Ready()
      modifies adapter`late, adapter`exchanges, adapter.worker
      ensures Ready() && old(owner.trail) <= owner.trail && (o.Some? ==> Recordable(owner.len, o.value))
      ensures o.Some? && o.value.kind == Success ==> adapter.Vouched(of)
      ensures W.Evolves(old(adapter.worker.roots), adapter.worker.roots)
    {
      ghost var at;
      o, at := adapter.Reconcile(of);
      if o.Some? && !Recordable(owner.len, o.value) {
        o := None;
      }
    }

    /** `_readmit_result`: the retained result, verified and admitted once more. */
    method Readmit(t: Transaction, result: Option<ResultRecord>, failure: Option<Failure>,
                   sidecar: Option<Digest<Failure>>)
      returns (r: Outcome<ResultRecord>)
      modifies adapter`admissions
      ensures r == Stop(Corrupt) <==>
                !(ResultVerifies(owner.len, t.reservation.cls == Acceptance, result, t)
                  && (t.failure.Some? ==> PairVerifies(owner.len, failure, sidecar, t)))
      ensures r.Done? ==> Some(r.value) == result && old(adapter.NextAdmission()) == Some(r.value.admitted)
      ensures r == Stop(ReadmissionRefused) ==>
                result.Some? && (old(adapter.NextAdmission()) == Some(result.value.admitted) ==>
                                 !AdmittedFits(owner.len, result.value.admitted))
      ensures r.Done? ==> AdmittedFits(owner.len, r.value.admitted)
      ensures r.Done? || r == Stop(Corrupt) || r == Stop(ReadmissionRefused)
    {
      if !ResultVerifies(owner.len, t.reservation.cls == Acceptance, result, t) {
        return Stop(Corrupt);
      }
      if t.failure.Some? && !PairVerifies(owner.len, failure, sidecar, t) {
        return Stop(Corrupt);
      }
      var admitted := adapter.Admit(result.value.observation);
      if admitted != Some(result.value.admitted) || !AdmittedFits(owner.len, admitted.value) {
        return Stop(ReadmissionRefused);
      }
      r := Done(result.value);
    }

    /** `_resume_result`. */
    method ResumeResult(t: Transaction, b: Budget, readmitted: Option<ResultRecord>) returns (r: Outcome<Receipt>)
      requires Ready() && Holds(t) && b.maximum >= b.consumed && t.result.Some?
      requires readmitted.Some? ==> readmitted == Files(t).result
      modifies owner, adapter`renderings, adapter`admissions
      ensures Ready() && old(owner.trail) <= owner.trail && OnlyAt(old(owner.world), owner.world, t.reservation)
      ensures Rests(r, t.reservation, b) && Files(t).invokes == old(Files(t)).invokes
      ensures r.Done? && t.reservation.cls == Acceptance ==>
                old(Files(t)).result.Some?
                && RenderingSettled(old(Files(t)), Files(t), t, old(Files(t)).result.value, old(adapter.WillRender()),
                                    b)
      ensures r.Done? && t.reservation.cls != Acceptance ==>
                Files(t) == old(Files(t)).(tx := Files(t).tx) && Files(t).tx.value.state.Closed?
      ensures t.claimed ==> Files(t).renders == old(Files(t)).renders
      ensures r.Done? || r == Stop(Crashed) || r == Stop(FailureTooLarge) || r == Stop(ReadmissionRefused)
      ensures old(owner.crashIn).None? ==> r != Stop(Crashed) && owner.crashIn.None?
    {
      Known(t.reservation);
      var record :- RecordFor(t, readmitted);
      r := ResumeWith(t, b, record);
    }

    method RecordFor(t: Transaction, readmitted: Option<ResultRecord>) returns (r: Outcome<ResultRecord>)
      requires Ready() && Holds(t) && t.result.Some?
      requires readmitted.Some? ==> readmitted == Files(t).result
      modifies adapter`admissions
      ensures Ready() && old(owner.trail) <= owner.trail && (r.Done? ==> Some(r.value) == Files(t).result)
      ensures r.Done? || r == Stop(ReadmissionRefused)
      ensures readmitted.None? ==> (r.Done? <==> Readmits(owner.len, Files(t), old(adapter.NextAdmission())))
    {
      Known(t.reservation);
      if readmitted.Some? {
        return Done(readmitted.value);
      }
      var s := At(owner.world, t.reservation);
      r := Readmit(t, s.result, s.failure, s.sidecar);
    }

    /** A transaction that names its result is closed, if it is not yet. */
    method CloseRetained(t: Transaction) returns (r: Outcome<Transaction>)
      requires Ready() && Holds(t) && t.result.Some?
      modifies owner
      ensures Ready() && old(owner.trail) <= owner.trail && OnlyAt(old(owner.world), owner.world, t.reservation)
      ensures r.Done? ==> r.value == if t.state.ResultRetained? then Move(t, Closed).value else t
      ensures r.Done? ==> Holds(r.value) && r.value.reservation == t.reservation && r.value.result == t.result
                          && (r.value.state.Closed? || r.value.state.EvidenceRendered?)
                          && (t.reservation.cls != Acceptance ==> r.value.state.Closed? && Settled(r.value))
      ensures t.rendered || t.claimed ==> r == Done(t) && owner.world == old(owner.world)
      ensures Files(t) == old(Files(t)).(tx := Files(t).tx)
      ensures r.Done? || r == Stop(Crashed)
      ensures old(owner.crashIn).None? ==> r != Stop(Crashed) && owner.crashIn.None?
    {
      Known(t.reservation);
      r := Done(t);
      if t.state.ResultRetained? {
        r := Save(t, Move(t, Closed).value);
      }
    }

    method ResumeWith(t: Transaction, b: Budget, record: ResultRecord) returns (r: Outcome<Receipt>)
      requires Ready() && Holds(t) && b.maximum >= b.consumed && t.result.Some? && Files(t).result == Some(record)
      modifies owner, adapter`renderings
      ensures Ready() && old(owner.trail) <= owner.trail && OnlyAt(old(owner.world), owner.world, t.reservation)
      ensures Rests(r, t.reservation, b) && Files(t).invokes == old(Files(t)).invokes
      ensures r.Done? && t.reservation.cls == Acceptance ==>
                RenderingSettled(old(Files(t)), Files(t), t, record, old(adapter.WillRender()), b)
      ensures r.Done? && t.reservation.cls != Acceptance ==>
                Files(t) == old(Files(t)).(tx := Files(t).tx) && Files(t).tx.value.state.Closed?
      ensures t.claimed ==> Files(t).renders == old(Files(t)).renders
      ensures r.Done? || r == Stop(Crashed) || r == Stop(FailureTooLarge)
      ensures old(owner.crashIn).None? ==> r != Stop(Crashed) && owner.crashIn.None?
    {
      var closed :- CloseRetained(t);
      if t.reservation.cls == Acceptance {
        r := RenderAcceptance(closed, b, record);
      } else {
        r := Answer(closed, b);
      }
    }

    // ----------------------------------------------------------------- budget

    /** The next look at the authority document on disk. */
    method ReadAuthority() returns (a: Option<Authority>)
      modifies this`authorities
      ensures old(authorities) == [] ==> authorities == [] && a == standing
    {
      a := if authorities == [] then standing else Some(authorities[0]);
      authorities := if authorities == [] then [] else authorities[1..];
    }

    /** `_readmit_current_authority`: still the same document, and it admits this delegation. */
    method Readmitted(a: Authority, d: Delegation) returns (ok: bool)
      modifies this`authorities
      ensures ok ==> Admits(a, d)
      ensures old(Steady(a, d)) ==> ok && Steady(a, d)
    {
      var current := ReadAuthority();
      ok := current == Some(a) && Admits(a, d);
    }

    /** Replace the budget file. */
    method WriteBudget(b: Budget) returns (alive: bool)
      requires Ready() && BudgetSound(owner.cls, owner.identity, b)
      requires owner.world.budget.Some? ==> BudgetFollows(owner.cls, owner.world.budget.value, b)
      requires Reservations(owner.world) <= b.reservations
      requires forall i :: |Reservations(owner.world)| <= i < |b.reservations| ==>
                 SlotSound(owner.len, b.reservations[i], At(owner.world, b.reservations[i]), true)
      modifies owner
      ensures Ready() && old(owner.trail) <= owner.trail
      ensures owner.world == if alive then old(owner.world).(budget := Some(b)) else old(owner.world)
      ensures old(owner.crashIn).None? ==> alive && owner.crashIn.None?
    {
      ghost var before := owner.world;
      WithBudget(owner.len, owner.cls, owner.identity, owner.world, b);
      alive := owner.Step(owner.world.(budget := Some(b)));
      forall r ensures IsReserved(before, r) ==> IsReserved(owner.world, r) {
        if IsReserved(before, r) && alive {
          var i :| 0 <= i < |Reservations(before)| && Reservations(before)[i] == r;
          assert b.reservations[i] == r;
        }
      }
      assert forall r :: At(owner.world, r) == At(before, r);
    }

    method NoteAdjustment(key: AdjustmentKey, adjustment: Adjustment) returns (alive: bool)
      requires Ready()
      modifies owner
      ensures Ready() && old(owner.trail) <= owner.trail
      ensures owner.world == if alive
              then old(owner.world).(adjustments := old(owner.world).adjustments[key := adjustment])
                  else old(owner.world)
      ensures old(owner.crashIn).None? ==> alive && owner.crashIn.None?
    {
      ghost var before := owner.world;
      var w := owner.world.(adjustments := owner.world.adjustments[key := adjustment]);
      assert forall r :: At(w, r) == At(before, r) && IsReserved(w, r) == IsReserved(before, r);
      WithAdjustments(owner.len, owner.cls, owner.identity, before, w.adjustments);
      alive := owner.Step(w);
    }

    /** `_load_or_initialize_budget`. However it stops, starting over goes by the same budget. */
    method LoadBudget(d: Delegation, a: Authority) returns (r: Outcome<Budget>)
      requires Ready() && Admits(a, d) && d.cls == owner.cls && d.identity == owner.identity
      modifies this`authorities, owner
      ensures Ready() && old(owner.trail) <= owner.trail && owner.world.slots == old(owner.world.slots)
              && Reservations(owner.world) == old(Reservations(owner.world))
      ensures BudgetFor(owner.world, d, a) == BudgetFor(old(owner.world), d, a)
      ensures r.Done? ==> Some(r.value) == BudgetFor(owner.world, d, a) && (owner.world.budget.Some? ==>
                owner.world.budget == Some(r.value))
      ensures PlanFor(old(owner.world), d, a).Refuse? ==>
                r == Stop(PlanFor(old(owner.world), d, a).cause) && owner.world == old(owner.world)
      ensures !PlanFor(old(owner.world), d, a).Refuse? ==> r.Done? || r == Stop(Crashed) || r == Stop(AuthorityRefused)
      ensures NoDrift(old(Steady(a, d)), r, a, d)
      ensures r.Stop? ==> Accounted(r.cause, old(owner.world), owner.world, d, a) && r != Stop(AdapterRefused)
      ensures old(owner.crashIn).None? ==> r != Stop(Crashed) && owner.crashIn.None?
    {
      if owner.world.budget.Some? && !BudgetReads(owner.world.budget.value) {
        return Stop(Corrupt);
      }
      var plan := PlanFor(owner.world, d, a);
      match plan {
        case Keep(b) =>
          return Done(b);
        case Refuse(cause) =>
          return Stop(cause);
        case Adjust(key, adjustment) =>
          r := AdjustBudget(d, a, key, adjustment);
      }
    }

    method AdjustBudget(d: Delegation, a: Authority, key: AdjustmentKey, adjustment: Adjustment)
      returns (r: Outcome<Budget>)
      requires Ready() && Admits(a, d) && d.cls == owner.cls && d.identity == owner.identity
      requires PlanFor(owner.world, d, a) == Adjust(key, adjustment)
      modifies this`authorities, owner
      ensures Ready() && old(owner.trail) <= owner.trail && owner.world.slots == old(owner.world.slots)
              && Reservations(owner.world) == old(Reservations(owner.world))
      ensures BudgetFor(owner.world, d, a) == Some(adjustment.after)
      ensures r.Done? ==> r.value == adjustment.after && owner.world.budget == Some(r.value)
      ensures NoDrift(old(Steady(a, d)), r, a, d)
      ensures r.Done? || r == Stop(Crashed) || r == Stop(AuthorityRefused)
      ensures old(owner.crashIn).None? ==> r != Stop(Crashed) && owner.crashIn.None?
    {
      AdmittedDelegation(a, d);
      AdjustmentKeepsReservations(owner.len, owner.world, d, a);
      AdjustmentIsRepeatable(owner.world, d, a);
      if d.planContent != owner.world.budget.value.planContent || d.contract != owner.world.budget.value.contract {
        var current := ReadAuthority();
        if current.None? || current.value.digest != d.authority {
          return Stop(AuthorityRefused);
        }
      }
      var alive := true;
      if key !in owner.world.adjustments {
        alive := NoteAdjustment(key, adjustment);
      } else {
        assert owner.world.adjustments[key := adjustment] == owner.world.adjustments;
      }
      if alive {
        alive := WriteBudget(adjustment.after);
      }
      r := if alive then Done(adjustment.after) else Stop(Crashed);
    }

    // ------------------------------------------------- resuming and launching

    /** `_resume`: an earlier process consumed the reservation; reconcile, never relaunch. */
    method Resume(t: Transaction, b: Budget, reconciled: Option<Observation>, readmitted: Option<ResultRecord>)
      returns (r: Outcome<Receipt>)
      requires Ready() && Holds(t) && b.maximum >= b.consumed && !t.state.Preflighted?
      requires reconciled.Some? ==> Recordable(owner.len, reconciled.value)
                                    && (reconciled.value.kind == Success ==> adapter.Vouched(t.reservation))
      requires readmitted.Some? ==> readmitted == Files(t).result && t.result.Some?
      modifies owner, adapter`renderings, adapter`admissions, adapter`late, adapter`exchanges, adapter.worker
      ensures Ready() && old(owner.trail) <= owner.trail && OnlyAt(old(owner.world), owner.world, t.reservation)
      ensures Rests(r, t.reservation, b) && Files(t).invokes == old(Files(t)).invokes
      ensures t.state.FailureRetained? ==> r == Done(ReceiptOf(t, b)) && owner.world == old(owner.world)
      ensures t.state.Observed? && r == Stop(ResultTooLarge) ==> owner.world == old(owner.world)
      ensures t.state.Observed? && t.observation.Some? ==>
                && Processed(r, Files(t), t, t.observation.value, old(adapter.NextAdmission()),
                             old(adapter.WillRender()), b)
                && (r.Done? ==>
                      Disposes(owner.len, Files(t), t, t.observation.value, old(adapter.NextAdmission())))
      ensures t.state.OutcomeUnknown? || t.state.Reserved? || t.state.Launching? ==>
                && (r.Done? && reconciled.Some? ==>
                      Disposes(owner.len, Files(t), t, reconciled.value, old(adapter.NextAdmission())))
                && (r.Done? && Files(t).tx.value.observation.Some? ==>
                      Disposes(owner.len, Files(t), t, Files(t).tx.value.observation.value,
                               old(adapter.NextAdmission())))
      ensures LateRefusal(r, old(owner.world), owner.world, t.reservation)
      ensures old(owner.crashIn).None? ==> r != Stop(Crashed) && owner.crashIn.None?
    {
      Known(t.reservation);
      if t.state.Reserved? || t.state.Launching? || t.state.OutcomeUnknown? {
        r := ResumeUnobserved(t, b, reconciled);
      } else if t.state.Observed? {
        r := ProcessObservation(t, b, t.observation.value);
      } else if t.result.Some? {
        r := ResumeResult(t, b, readmitted);
      } else {
        r := ResumeFailure(t, b);
      }
    }

    method ResumeFailure(t: Transaction, b: Budget) returns (r: Outcome<Receipt>)
      requires Ready() && Holds(t) && t.failure.Some? && Settled(t)
      ensures Rests(r, t.reservation, b) && r == Done(ReceiptOf(t, b))
    {
      Known(t.reservation);
      var s := At(owner.world, t.reservation);
      if !PairVerifies(owner.len, s.failure, s.sidecar, t) {
        return Stop(Corrupt);
      }
      r := Answer(t, b);
    }

    method ResumeUnobserved(t: Transaction, b: Budget, reconciled: Option<Observation>) returns (r: Outcome<Receipt>)
      requires Ready() && Holds(t) && b.maximum >= b.consumed
      requires t.state.Reserved? || t.state.Launching? || t.state.OutcomeUnknown?
      requires reconciled.Some? ==> Recordable(owner.len, reconciled.value)
                                    && (reconciled.value.kind == Success ==> adapter.Vouched(t.reservation))
      modifies owner, adapter`renderings, adapter`admissions, adapter`late, adapter`exchanges, adapter.worker
      ensures Ready() && old(owner.trail) <= owner.trail && OnlyAt(old(owner.world), owner.world, t.reservation)
      ensures Rests(r, t.reservation, b) && Files(t).invokes == old(Files(t)).invokes
      ensures r.Done? && reconciled.Some? ==> Files(t).tx.value.observation == reconciled
      ensures r.Done? && Files(t).tx.value.observation.Some? ==>
                Disposes(owner.len, Files(t), t, Files(t).tx.value.observation.value, old(adapter.NextAdmission()))
      ensures r.Done? && Files(t).tx.value.observation.None? ==>
                if t.state.OutcomeUnknown? then Files(t) == old(Files(t))
                else UnknownRetained(Files(t), t, LAUNCHES_UNKNOWN, CleanupUnknown, ProtectedUnknown,
                                     b.maximum - b.consumed)
      ensures LateRefusal(r, old(owner.world), owner.world, t.reservation) && r != Stop(ReadmissionRefused)
      ensures old(owner.crashIn).None? ==> r != Stop(Crashed) && owner.crashIn.None?
    {
      Known(t.reservation);
      var o := reconciled;
      if o.None? {
        o := Reconcile(t.reservation);
      }
      if o.Some? {
        r := RetainObservation(t, b, o.value);
      } else if t.state.OutcomeUnknown? {
        Known(t.reservation);
        r := ResumeFailure(t, b);
      } else {
        r := RestUnknown(t, b, LAUNCHES_UNKNOWN, CleanupUnknown, ProtectedUnknown);
      }
    }

    method RestUnknown(t: Transaction, b: Budget, effects: Effects, cleanup: Cleanup, protected: Protected)
      returns (r: Outcome<Receipt>)
      requires Ready() && Holds(t) && b.maximum >= b.consumed && (t.state.Reserved? || t.state.Launching?)
      requires ClosedDispositions(effects, cleanup, protected)
      modifies owner
      ensures Ready() && old(owner.trail) <= owner.trail && OnlyAt(old(owner.world), owner.world, t.reservation)
      ensures Rests(r, t.reservation, b) && Files(t).invokes == old(Files(t)).invokes
      ensures r.Done? ==> UnknownRetained(Files(t), t, effects, cleanup, protected, b.maximum - b.consumed)
      ensures r.Done? || r == Stop(Crashed) || r == Stop(FailureTooLarge)
      ensures old(owner.crashIn).None? ==> r != Stop(Crashed) && owner.crashIn.None?
    {
      var u :- RetainUnknown(t, b.maximum - b.consumed, effects, cleanup, protected);
      r := Answer(u, b);
    }

    /** The invocation itself, counted before it is made, and what came of it. */
    method Invoke(t: Transaction) returns (r: Outcome<A.Invoked>)
      requires Ready() && Holds(t) && t.state.Launching? && Files(t).invokes == 0
      modifies owner, adapter`late, adapter`exchanges, adapter`asked, adapter`preflights, adapter.worker
      ensures Ready() && old(owner.trail) <= owner.trail && OnlyAt(old(owner.world), owner.world, t.reservation)
      ensures Holds(t) && Files(t).invokes == if r.Done? then 1 else 0
      ensures r.Done? || r == Stop(Crashed)
      ensures r.Done? && r.value.NotKnown? ==> ClosedDispositions(r.value.effects, r.value.cleanup, r.value.protected)
      ensures t.reservation !in old(adapter.worker.roots) && old(adapter.Smooth()) && r.Done? ==>
                r.value == A.Returned(A.SuccessOf(adapter.RequestFor(t.reservation),
                                                  A.FactsOf(old(adapter.exchanges)[2])))
      ensures r.Done? && r.value.Returned? && r.value.observation.kind == Success ==> adapter.Vouched(t.reservation)
      ensures old(owner.crashIn).None? ==> r.Done? && owner.crashIn.None?
    {
      Known(t.reservation);
      var s := At(owner.world, t.reservation);
      var alive := Put(t.reservation, s.(invokes := 1));
      if !alive {
        return Stop(Crashed);
      }
      var out, _, _, _, _ := adapter.Invoke(t.reservation);
      r := Done(out);
    }

    /** What the adapter returned is what is retained; otherwise, unless reconciliation found
        an observation, an unknown outcome with the dispositions that are known. */
    ghost predicate Concluded(s: Slot, t: Transaction, out: A.Invoked, b: Budget) {
      && s.tx.Some?
      && (out.Returned? && Recordable(owner.len, out.observation) ==> s.tx.value.observation == Some(out.observation))
      && (s.tx.value.observation.None? ==>
            if out.NotKnown? then UnknownRetained(s, t, out.effects, out.cleanup, out.protected, b.maximum - b.consumed)
            else UnknownRetained(s, t, LAUNCHES_UNKNOWN, CleanupUnknown, ProtectedUnknown, b.maximum - b.consumed))
    }

    /** After the launch: an observation if there is one, else a retained unknown outcome. */
    method Conclude(t: Transaction, b: Budget, out: A.Invoked, ghost e: Errand) returns (r: Outcome<Receipt>)
      requires Ready() && Holds(t) && b.maximum >= b.consumed && t.state.Launching?
      requires out.Returned? && out.observation.kind == Success ==> adapter.Vouched(t.reservation)
      requires out.NotKnown? ==> ClosedDispositions(out.effects, out.cleanup, out.protected)
      modifies owner, adapter`renderings, adapter`admissions, adapter`late, adapter`exchanges, adapter.worker
      ensures Ready() && old(owner.trail) <= owner.trail && OnlyAt(old(owner.world), owner.world, t.reservation)
      ensures Rests(r, t.reservation, b) && Files(t).invokes == old(Files(t)).invokes
      ensures r.Done? ==> Concluded(Files(t), t, out, b)
      ensures old(owner.crashIn.None? && Keepable(e) && Files(t).invokes == 1) && out == A.Returned(e.o)
              && t.delegation == e.made && t.reservation == IdentityOf(e.made) ==>
                Fulfilled(r, owner.world, e)
      ensures r.Done? && Files(t).tx.value.observation.Some? ==>
                Disposes(owner.len, Files(t), t, Files(t).tx.value.observation.value, old(adapter.NextAdmission()))
      ensures LateRefusal(r, old(owner.world), owner.world, t.reservation) && r != Stop(ReadmissionRefused)
      ensures old(owner.crashIn).None? ==> r != Stop(Crashed) && owner.crashIn.None?
    {
      if out.Returned? && Recordable(owner.len, out.observation) {
        r := RetainFor(t, b, out.observation, e);
        return;
      }
      var o := Reconcile(t.reservation);
      if o.Some? {
        r := RetainObservation(t, b, o.value);
      } else if out.NotKnown? {
        r := RestUnknown(t, b, out.effects, out.cleanup, out.protected);
      } else {
        r := RestUnknown(t, b, LAUNCHES_UNKNOWN, CleanupUnknown, ProtectedUnknown);
      }
    }

    /** The budget lists the reservation before anything is launched in its name. */
    method Reserve(t: Transaction, b: Budget) returns (r: Outcome<Budget>)
      requires Ready() && At(owner.world, t.reservation).tx == Some(t) && t.state.Preflighted?
               && !IsReserved(owner.world, t.reservation)
      requires BudgetSound(owner.cls, owner.identity, b) && b.reservations == Reservations(owner.world)
               && b.consumed < b.maximum
      requires owner.world.budget.Some? ==> owner.world.budget == Some(b)
      requires owner.cls == Acceptance ==>
                 t.reservation == Reservation(owner.cls, owner.identity, b.candidate.value, b.contractName, b.contract,
                                              b.plan, b.planContent)
      modifies owner
      ensures Ready() && old(owner.trail) <= owner.trail && owner.world.slots == old(owner.world.slots)
      ensures r == Stop(Crashed) ==> owner.world == old(owner.world)
      ensures OnTerms(owner.world, b)
      ensures r.Done? ==> Holds(t) && owner.world.budget == Some(r.value) && r.value.maximum >= r.value.consumed
                          && r.value.reservations == b.reservations + [t.reservation] && r.value.maximum == b.maximum
      ensures r.Done? || r == Stop(Crashed)
      ensures old(owner.crashIn).None? ==> r.Done? && owner.crashIn.None?
    {
      Known(t.reservation);
      var reserved := b.(reservations := b.reservations + [t.reservation], consumed := |b.reservations| + 1);
      assert t.reservation !in b.reservations;
      assert reserved.reservations[|b.reservations|] == t.reservation;
      var alive := WriteBudget(reserved);
      r := if alive then Done(reserved) else Stop(Crashed);
    }

    /** A fresh execution: transaction, reservation, RESERVED, LAUNCHING, and only then the call. */
    method Launch(d: Delegation, tx: Option<Transaction>, b: Budget, ghost e: Errand) returns (r: Outcome<Receipt>)
      requires Ready() && d.cls == owner.cls && d.identity == owner.identity && d.cls != ReadOnly
      requires tx == At(owner.world, IdentityOf(d)).tx && (tx.Some? ==> tx.value.state.Preflighted?)
      requires !Misfit(owner.world, d) && !IsReserved(owner.world, IdentityOf(d)) && b.consumed < b.maximum
      requires BudgetSound(owner.cls, owner.identity, b) && b.reservations == Reservations(owner.world)
      requires owner.world.budget.Some? ==> owner.world.budget == Some(b)
      requires owner.cls == Acceptance ==>
                 IdentityOf(d) == Reservation(owner.cls, owner.identity, b.candidate.value, b.contractName, b.contract,
                                              b.plan, b.planContent)
      modifies owner, adapter`renderings, adapter`admissions, adapter`late, adapter`exchanges, adapter`asked,
          adapter`preflights,
               adapter.worker
      ensures Ready() && old(owner.trail) <= owner.trail && SlotsElsewhere(old(owner.world), owner.world, IdentityOf(d))
      ensures Answers(r, IdentityOf(d)) && OnTerms(owner.world, b)
      ensures !Misfit(owner.world, d)
      ensures LateRefusal(r, old(owner.world), owner.world, IdentityOf(d))
      ensures Lawful(r.Done?, old(owner.world), owner.world, IdentityOf(d))
      ensures old(owner.crashIn).None? ==> r != Stop(Crashed) && owner.crashIn.None?
      ensures old(owner.crashIn.None? && Serves(e) && e.made == Made(owner.world, d)) ==>
                Fulfilled(r, owner.world, e)
    {
      ghost var before := owner.world;
      var t :- PrepareFor(d, tx, e);
      ghost var prepared, n := owner.world, |owner.trail| - 1;
      r := ReserveAndGo(t, b, e);
      AfterPreparation(before, prepared, n, d, r);
    }

    /** Preparing leaves an errand as it was. */
    method PrepareFor(d: Delegation, tx: Option<Transaction>, ghost e: Errand) returns (r: Outcome<Transaction>)
      requires Ready() && d.cls == owner.cls && d.cls != ReadOnly
      requires tx == At(owner.world, IdentityOf(d)).tx && (tx.Some? ==> tx.value.state.Preflighted?)
      requires !IsReserved(owner.world, IdentityOf(d)) && !Misfit(owner.world, d)
      modifies owner
      ensures Ready() && old(owner.trail) <= owner.trail && OnlyAt(old(owner.world), owner.world, IdentityOf(d))
      ensures r.Done? ==> r.value.reservation == IdentityOf(d) && r.value.state.Preflighted?
                          && At(owner.world, IdentityOf(d)).tx == Some(r.value)
                          && r.value.delegation == Made(old(owner.world), d)
      ensures !Misfit(owner.world, d)
      ensures r.Done? || (r == Stop(Crashed) && At(owner.world, IdentityOf(d)) == old(At(owner.world, IdentityOf(d))))
      ensures At(owner.world, IdentityOf(d)).invokes == old(At(owner.world, IdentityOf(d))).invokes
      ensures NotObserved(old(owner.world), IdentityOf(d))
      ensures old(owner.crashIn).None? ==> r.Done? && owner.crashIn.None?
      ensures old(Serves(e)) ==> Serves(e)
    {
      Known(IdentityOf(d));
      r := Prepare(d, tx);
    }

    lemma AfterPreparation(before: World, prepared: World, n: nat, d: Delegation, r: Outcome<Receipt>)
      requires owner.Valid() && n < |owner.trail| && owner.trail[n] == prepared
               && OnlyAt(before, prepared, IdentityOf(d))
      requires At(prepared, IdentityOf(d)).invokes == At(before, IdentityOf(d)).invokes
      requires At(prepared, IdentityOf(d)).tx.Some? && !Misfit(prepared, d) && NotObserved(before, IdentityOf(d))
      requires SlotsElsewhere(prepared, owner.world, IdentityOf(d))
               && Lawful(r.Done?, prepared, owner.world, IdentityOf(d))
      requires LateRefusal(r, prepared, owner.world, IdentityOf(d))
      ensures SlotsElsewhere(before, owner.world, IdentityOf(d)) && Lawful(r.Done?, before, owner.world, IdentityOf(d))
      ensures LateRefusal(r, before, owner.world, IdentityOf(d)) && !Misfit(owner.world, d)
    {
      StaleFollows(IdentityOf(d), n, |owner.trail| - 1);
    }

    method ReserveAndGo(t: Transaction, b: Budget, ghost e: Errand) returns (r: Outcome<Receipt>)
      requires Ready() && At(owner.world, t.reservation).tx == Some(t) && t.state.Preflighted?
               && !IsReserved(owner.world, t.reservation)
      requires BudgetSound(owner.cls, owner.identity, b) && b.reservations == Reservations(owner.world)
               && b.consumed < b.maximum
      requires owner.world.budget.Some? ==> owner.world.budget == Some(b)
      requires owner.cls == Acceptance ==>
                 t.reservation == Reservation(owner.cls, owner.identity, b.candidate.value, b.contractName, b.contract,
                                              b.plan, b.planContent)
      modifies owner, adapter`renderings, adapter`admissions, adapter`late, adapter`exchanges, adapter`asked,
          adapter`preflights,
               adapter.worker
      ensures Ready() && old(owner.trail) <= owner.trail && SlotsElsewhere(old(owner.world), owner.world, t.reservation)
      ensures Answers(r, t.reservation) && OnTerms(owner.world, b)
      ensures LateRefusal(r, old(owner.world), owner.world, t.reservation)
      ensures Lawful(r.Done?, old(owner.world), owner.world, t.reservation)
      ensures old(owner.crashIn).None? ==> r != Stop(Crashed) && owner.crashIn.None?
      ensures old(owner.crashIn.None? && Serves(e)) && t.delegation == e.made ==> Fulfilled(r, owner.world, e)
    {
      Known(t.reservation);
      ghost var before := owner.world;
      var reserved :- Reserve(t, b);
      ghost var listed := owner.world;
      r := Go(t, reserved, e);
      AfterReservation(before, listed, owner.world, t.reservation, r);
    }

    lemma AfterReservation(before: World, listed: World, after: World, of: Reservation, r: Outcome<Receipt>)
      requires listed.slots == before.slots && !IsReserved(before, of) && IsReserved(listed, of)
               && OnlyAt(listed, after, of)
      requires (r.Done? ==> At(after, of).invokes == 1) && NotObserved(before, of) && LateRefusal(r, listed, after, of)
      ensures SlotsElsewhere(before, after, of) && Lawful(r.Done?, before, after, of) && IsReserved(after, of)
      ensures LateRefusal(r, before, after, of)
    {
      Untouched(before, listed);
    }

    /** The preflighted transaction on disk, written unless it is there. */
    method Prepare(d: Delegation, tx: Option<Transaction>) returns (r: Outcome<Transaction>)
      requires Ready() && d.cls == owner.cls && d.cls != ReadOnly
      requires tx == At(owner.world, IdentityOf(d)).tx && (tx.Some? ==> tx.value.state.Preflighted?)
      requires !IsReserved(owner.world, IdentityOf(d)) && !Misfit(owner.world, d)
      modifies owner
      ensures Ready() && old(owner.trail) <= owner.trail && OnlyAt(old(owner.world), owner.world, IdentityOf(d))
      ensures r.Done? ==> r.value.reservation == IdentityOf(d) && r.value.state.Preflighted? && (tx.None? ==>
                r.value.delegation == d)
                          && At(owner.world, IdentityOf(d)).tx == Some(r.value) && (tx.Some? ==> tx == Some(r.value))
      ensures !Misfit(owner.world, d)
      ensures r.Done? || (r == Stop(Crashed) && At(owner.world, IdentityOf(d)) == old(At(owner.world, IdentityOf(d))))
      ensures At(owner.world, IdentityOf(d)).invokes == old(At(owner.world, IdentityOf(d))).invokes
      ensures old(owner.crashIn).None? ==> r.Done? && owner.crashIn.None?
    {
      Known(IdentityOf(d));
      var slot := At(owner.world, IdentityOf(d));
      if tx.Some? {
        return Done(tx.value);
      }
      var t := NewTransaction(d);
      var alive := Put(IdentityOf(d), slot.(tx := Some(t)));
      r := if alive then Done(t) else Stop(Crashed);
    }

    method Go(t: Transaction, b: Budget, ghost e: Errand) returns (r: Outcome<Receipt>)
      requires Ready() && Holds(t) && t.state.Preflighted? && b.maximum >= b.consumed && owner.world.budget == Some(b)
      modifies owner, adapter`renderings, adapter`admissions, adapter`late, adapter`exchanges, adapter`asked,
          adapter`preflights,
               adapter.worker
      ensures Ready() && old(owner.trail) <= owner.trail && OnlyAt(old(owner.world), owner.world, t.reservation)
      ensures Rests(r, t.reservation, b) && (r.Done? ==> Files(t).invokes == 1)
      ensures LateRefusal(r, old(owner.world), owner.world, t.reservation)
      ensures old(owner.crashIn).None? ==> r != Stop(Crashed) && owner.crashIn.None?
      ensures old(owner.crashIn.None? && Serves(e)) && t.delegation == e.made ==> Fulfilled(r, owner.world, e)
    {
      var launching :- MarkLaunching(t);
      r := Call(launching, b, e);
    }

    /** The call and what comes of it. */
    method Call(launching: Transaction, b: Budget, ghost e: Errand) returns (r: Outcome<Receipt>)
      requires Ready() && Holds(launching) && launching.state.Launching? && Files(launching).invokes == 0
      requires b.maximum >= b.consumed
      modifies owner, adapter`renderings, adapter`admissions, adapter`late, adapter`exchanges, adapter`asked,
          adapter`preflights,
               adapter.worker
      ensures Ready() && old(owner.trail) <= owner.trail && OnlyAt(old(owner.world), owner.world, launching.reservation)
      ensures Rests(r, launching.reservation, b) && (r.Done? ==> Files(launching).invokes == 1)
      ensures LateRefusal(r, old(owner.world), owner.world, launching.reservation)
      ensures old(owner.crashIn).None? ==> r != Stop(Crashed) && owner.crashIn.None?
      ensures old(owner.crashIn.None? && Serves(e)) && launching.delegation == e.made ==> Fulfilled(r, owner.world, e)
    {
      var out :- InvokeFor(launching, e);
      r := Conclude(launching, b, out, e);
    }

    method InvokeFor(t: Transaction, ghost e: Errand) returns (r: Outcome<A.Invoked>)
      requires Ready() && Holds(t) && t.state.Launching? && Files(t).invokes == 0
      modifies owner, adapter`late, adapter`exchanges, adapter`asked, adapter`preflights, adapter.worker
      ensures Ready() && old(owner.trail) <= owner.trail && OnlyAt(old(owner.world), owner.world, t.reservation)
      ensures Holds(t) && Files(t).invokes == (if r.Done? then 1 else 0) && t.reservation == IdentityOf(t.delegation)
      ensures r.Done? || r == Stop(Crashed)
      ensures r.Done? && r.value.NotKnown? ==> ClosedDispositions(r.value.effects, r.value.cleanup, r.value.protected)
      ensures r.Done? && r.value.Returned? && r.value.observation.kind == Success ==> adapter.Vouched(t.reservation)
      ensures old(owner.crashIn).None? ==> r.Done? && owner.crashIn.None?
      ensures old(Serves(e)) && t.delegation == e.made && r.Done? ==> r.value == A.Returned(e.o) && Keepable(e)
    {
      Known(t.reservation);
      r := Invoke(t);
    }

    /** RESERVED and then LAUNCHING, both on disk before the call is made. */
    method MarkLaunching(t: Transaction) returns (r: Outcome<Transaction>)
      requires Ready() && Holds(t) && t.state.Preflighted?
      modifies owner
      ensures Ready() && old(owner.trail) <= owner.trail && OnlyAt(old(owner.world), owner.world, t.reservation)
      ensures r.Done? ==> Holds(r.value) && r.value.reservation == t.reservation && r.value.delegation == t.delegation
                          && r.value.state.Launching?
                          && r.value.history == t.history + [Reserved, Launching] && Files(t).invokes == 0
      ensures r.Done? || r == Stop(Crashed)
      ensures old(owner.crashIn).None? ==> r.Done? && owner.crashIn.None?
    {
      Known(t.reservation);
      var reserved :- Save(t, Move(t, Reserved).value);
      r := Save(reserved, Move(reserved, Launching).value);
    }

    /** A receipt states the budget and the transaction on disk, and the latter is at rest. */
    ghost predicate Answers(r: Outcome<Receipt>, of: Reservation)
      reads owner
    {
      r.Done? ==> owner.world.budget.Some? && Rests(r, of, owner.world.budget.value)
    }

    // ---------------------------------------------------------------- execute

    /** `_admit_adapter`: the adapter speaks for exactly this plan and contract. */
    predicate AdapterAdmitted(d: Delegation) {
      SpeaksFor(descriptor, d)
    }

    /** What a look at the files, before the lock and at four different moments, yields. */
    method LookBefore(d: Delegation, when: Moments) returns (r: Outcome<Prior>)
      requires Ready() && when.Ordered(|owner.trail|) && d.cls == owner.cls
      modifies adapter`admissions, adapter`late, adapter`exchanges, adapter.worker
      ensures Ready()
      ensures r.Done? ==> Grounded(r.value, IdentityOf(d))
      ensures r == Stop(DelegationRefused) ==> Misfit(owner.world, d)
      ensures r.Done? || r == Stop(DelegationRefused) || r == Stop(ReadmissionRefused)
      ensures !IsReserved(owner.world, IdentityOf(d)) && !Misfit(owner.world, d) ==>
                r.Done? && adapter.late == old(adapter.late) && adapter.exchanges == old(adapter.exchanges)
                && adapter.admissions == old(adapter.admissions)
                && adapter.worker.roots == old(adapter.worker.roots)
    {
      var of := IdentityOf(d);
      StaleReads(of, when);
      AtStartBefore(of, when.tx);
      var before := At(owner.trail[when.tx], of);
      if before.tx.None? {
        return Done(Prior(None, None, None));
      }
      var t := before.tx.value;
      ReadsBack(owner.len, of, t, d);
      var readback := Validate(owner.len, t, d, of);
      if readback != Fine {
        return Stop(if readback == DelegationDiffers then DelegationRefused else Corrupt);
      }
      r := Consult(t, of, At(owner.trail[when.result], of).result, At(owner.trail[when.failure], of).failure,
                   At(owner.trail[when.sidecar], of).sidecar);
    }

    lemma AtStartBefore(of: Reservation, i: nat)
      requires owner.Valid() && i < |owner.trail|
      ensures !IsReserved(owner.world, of) && At(owner.trail[i], of).tx.Some? ==>
                var t := At(owner.trail[i], of).tx.value;
                t.state.Preflighted? && t.result.None? && t.failure.None?
    {
      SoundAt(owner.len, owner.cls, owner.identity, owner.trail[i], of);
      Known(of);
      StaleFollows(of, i, |owner.trail| - 1);
      if !IsReserved(owner.world, of) && At(owner.trail[i], of).tx.Some? {
        StillAtStart(owner.len, of, At(owner.trail[i], of), At(owner.world, of));
      }
    }

    /** Ask about the transaction that was seen, according to what it names. */
    method Consult(t: Transaction, of: Reservation, result: Option<ResultRecord>, failure: Option<Failure>,
                   sidecar: Option<Digest<Failure>>) returns (r: Outcome<Prior>)
      requires Ready() && t.reservation == of && At(owner.world, of).tx.Some?
               && Follows(t, At(owner.world, of).tx.value)
      requires t.result.Some? ==>
                ResultVerifies(owner.len, of.cls == Acceptance, result, t) && result == At(owner.world, of).result
      requires t.failure.Some? ==> PairVerifies(owner.len, failure, sidecar, t)
      modifies adapter`admissions, adapter`late, adapter`exchanges, adapter.worker
      ensures Ready() && (r.Done? ==> Grounded(r.value, of))
      ensures r.Done? || r == Stop(ReadmissionRefused)
      ensures t.state.Preflighted? && t.result.None? && t.failure.None? ==>
                r.Done? && adapter.late == old(adapter.late) && adapter.exchanges == old(adapter.exchanges)
                && adapter.admissions == old(adapter.admissions)
                && adapter.worker.roots == old(adapter.worker.roots)
    {
      if t.result.Some? {
        var record :- Readmit(t, result, failure, sidecar);
        return Done(Prior(Some(t), None, Some(record)));
      }
      if NeedsReconciliation(t) {
        var o := Reconcile(of);
        return Done(Prior(Some(t), o, None));
      }
      if t.failure.Some? && !PairVerifies(owner.len, failure, sidecar, t) {
        return Stop(Corrupt);
      }
      return Done(Prior(Some(t), None, None));
    }

    /** What an earlier transaction names, a later moment still finds, and it verifies. */
    lemma StaleReads(of: Reservation, when: Moments)
      requires owner.Valid() && when.Ordered(|owner.trail|)
      ensures var t := At(owner.trail[when.tx], of).tx;
              t.Some? ==>
                && StoredSoundly(owner.len, of, t.value)
                && At(owner.world, of).tx.Some? && Follows(t.value, At(owner.world, of).tx.value)
                && (t.value.result.Some? ==>
                      && ResultVerifies(owner.len, of.cls == Acceptance, At(owner.trail[when.result], of).result,
                                        t.value)
                      && At(owner.trail[when.result], of).result == At(owner.world, of).result)
                && (t.value.failure.Some? ==>
                      PairVerifies(owner.len, At(owner.trail[when.failure], of).failure,
                                   At(owner.trail[when.sidecar], of).sidecar, t.value))
    {
      SoundAt(owner.len, owner.cls, owner.identity, owner.trail[when.tx], of);
      StaleFollows(of, when.tx, |owner.trail| - 1);
      StaleFollows(of, when.tx, when.result);
      StaleFollows(of, when.tx, when.failure);
      StaleFollows(of, when.tx, when.sidecar);
    }

    lemma StaleFollows(of: Reservation, i: nat, j: nat)
      requires owner.Valid() && i <= j < |owner.trail|
      ensures SlotFollows(At(owner.trail[i], of), At(owner.trail[j], of))
    {
      assert Evolves(owner.cls, owner.trail[i], owner.trail[j]);
    }

    /** What was seen before the lock still stands for a transaction with the same revision. */
    ghost predicate Grounded(p: Prior, of: Reservation)
      reads owner, adapter.worker
    {
      && (p.transaction.None? ==> p.reconciled.None? && p.readmitted.None?)
      && (p.reconciled.Some? ==> Recordable(owner.len, p.reconciled.value)
                                 && (p.reconciled.value.kind == Success ==> adapter.Vouched(of)))
      && (p.transaction.Some? ==>
            && At(owner.world, of).tx.Some? && Follows(p.transaction.value, At(owner.world, of).tx.value)
            && (p.readmitted.Some? ==> p.transaction.value.result.Some? && p.readmitted == At(owner.world, of).result))
    }

    /** `execute`: everything up to the lock reads only; under the lock the authority is
        looked at once more before, and again before anything is launched. */
    method Execute(d: Delegation, a: Authority, when: Moments, ghost e: Errand) returns (r: Outcome<Receipt>)
      requires Ready() && when.Ordered(|owner.trail|) && d.cls == owner.cls && d.identity == owner.identity
      modifies this`authorities, owner, adapter, adapter.worker
      ensures Ready() && old(owner.trail) <= owner.trail && SlotsElsewhere(old(owner.world), owner.world, IdentityOf(d))
      ensures Answers(r, IdentityOf(d))
      ensures Lawful(r.Done?, old(owner.world), owner.world, IdentityOf(d))
      ensures r.Stop? ==> Accounted(r.cause, old(owner.world), owner.world, d, a)
      ensures old(Admissible(owner.world, d, a)) ==> Admissible(owner.world, d, a)
      ensures r == Stop(AdapterRefused) ==> !AdapterAdmitted(d)
      ensures NoDrift(old(Steady(a, d)), r, a, d)
      ensures old(owner.crashIn).None? ==> r != Stop(Crashed)
      ensures old(Due(d, a, e)) ==> Fulfilled(r, owner.world, e)
    {
      var prior := BeforeLock(d, a, when, e);
      if prior.Stop? {
        return Stop(prior.cause);
      }
      r := Locked(d, a, prior.value, e);
    }

    /** A first execution under an authority that stands, over a link that loses nothing. */
    ghost predicate Due(d: Delegation, a: Authority, e: Errand)
      reads this`authorities, owner, adapter, adapter.worker
    {
      && owner.crashIn.None? && Steady(a, d) && AdapterAdmitted(d) && Admissible(owner.world, d, a)
      && !IsReserved(owner.world, IdentityOf(d)) && |Reservations(owner.world)| < d.maximum
      && adapter.Calm(5) && e.made == Made(owner.world, d) && Brings(e, 4)
    }

    lemma DueStart(d: Delegation, a: Authority, e: Errand)
      requires owner.Valid()
      ensures Due(d, a, e) ==> Afresh(d, a, e.made) && IdentityOf(e.made) == IdentityOf(d)
    {
      Known(IdentityOf(d));
    }

    /** The adapter's own preflight. */
    method Preflights(of: Reservation, ghost e: Errand) returns (ready: bool)
      requires Ready()
      modifies adapter`late, adapter`exchanges, adapter`preflights, adapter.worker
      ensures Ready()
      ensures !IsReserved(owner.world, of) && IdentityOf(e.made) == of && old(adapter.Calm(5) && Brings(e, 4)) ==>
                ready && Serves(e)
    {
      var ok, _, _ := adapter.PreflightPlan(of);
      ready := ok;
    }

    /** All that `execute` does before it holds the lock; nothing of the owner's changes. */
    method BeforeLock(d: Delegation, a: Authority, when: Moments, ghost e: Errand) returns (r: Outcome<Prior>)
      requires Ready() && when.Ordered(|owner.trail|) && d.cls == owner.cls && d.identity == owner.identity
      modifies this`authorities, adapter, adapter.worker
      ensures Ready() && (r.Done? ==> Grounded(r.value, IdentityOf(d)) && Admits(a, d))
      ensures r.Stop? ==> r.cause in {AuthorityRefused, AdapterRefused, PreflightFailed, DelegationRefused,
                                      ReadmissionRefused}
      ensures NoDrift(old(Steady(a, d)), r, a, d) && (r == Stop(AdapterRefused) ==> !AdapterAdmitted(d))
      ensures r == Stop(DelegationRefused) ==> Misfit(owner.world, d)
      ensures old(Due(d, a, e)) ==> r.Done? && Afresh(d, a, e.made) && Serves(e)
    {
      DueStart(d, a, e);
      var admitted := Readmitted(a, d);
      if !admitted {
        return Stop(AuthorityRefused);
      }
      if !AdapterAdmitted(d) {
        return Stop(AdapterRefused);
      }
      r := Ask(d, when, e);
      if r.Done? {
        admitted := Readmitted(a, d);
        if admitted {
          admitted := Readmitted(a, d);
        }
        r := if admitted then r else Stop(AuthorityRefused);
      }
    }

    /** The adapter's preflight and a first look at the files. */
    method Ask(d: Delegation, when: Moments, ghost e: Errand) returns (r: Outcome<Prior>)
      requires Ready() && when.Ordered(|owner.trail|) && d.cls == owner.cls && d.identity == owner.identity
      modifies adapter, adapter.worker
      ensures Ready() && (r.Done? ==> Grounded(r.value, IdentityOf(d)))
      ensures r.Stop? ==> r.cause in {PreflightFailed, DelegationRefused, ReadmissionRefused}
      ensures r == Stop(DelegationRefused) ==> Misfit(owner.world, d)
      ensures !IsReserved(owner.world, IdentityOf(d)) && !Misfit(owner.world, d)
              && IdentityOf(e.made) == IdentityOf(d) && old(adapter.Calm(5) && Brings(e, 4)) ==>
                r.Done? && Serves(e)
    {
      var ready := Preflights(IdentityOf(d), e);
      if !ready {
        return Stop(PreflightFailed);
      }
      r := LookBefore(d, when);
    }

    /** The part of `execute` that holds the lock. */
    method Locked(d: Delegation, a: Authority, prior: Prior, ghost e: Errand) returns (r: Outcome<Receipt>)
      requires Ready() && Admits(a, d) && d.cls == owner.cls && d.identity == owner.identity
               && Grounded(prior, IdentityOf(d))
      modifies this`authorities, owner, adapter, adapter.worker
      ensures Ready() && old(owner.trail) <= owner.trail && SlotsElsewhere(old(owner.world), owner.world, IdentityOf(d))
      ensures Answers(r, IdentityOf(d))
      ensures Lawful(r.Done?, old(owner.world), owner.world, IdentityOf(d))
      ensures r.Stop? ==> Accounted(r.cause, old(owner.world), owner.world, d, a)
      ensures old(Admissible(owner.world, d, a)) ==> Admissible(owner.world, d, a)
      ensures r != Stop(AdapterRefused)
      ensures NoDrift(old(Steady(a, d)), r, a, d)
      ensures old(owner.crashIn).None? ==> r != Stop(Crashed)
      ensures old(Afresh(d, a, e.made) && Serves(e) && Admissible(owner.world, d, a)) ==> Fulfilled(r, owner.world, e)
    {
      ghost var before := owner.world;
      var loaded := LoadFor(d, a, e);
      if loaded.Stop? {
        return Stop(loaded.cause);
      }
      r := LockedWith(d, a, prior, loaded.value, before, e);
    }

    /** The budget, for an execution that may be a first one. */
    method LoadFor(d: Delegation, a: Authority, ghost e: Errand) returns (r: Outcome<Budget>)
      requires Ready() && Admits(a, d) && d.cls == owner.cls && d.identity == owner.identity
      modifies this`authorities, owner
      ensures Ready() && old(owner.trail) <= owner.trail && owner.world.slots == old(owner.world.slots)
              && Reservations(owner.world) == old(Reservations(owner.world))
      ensures BudgetFor(owner.world, d, a) == BudgetFor(old(owner.world), d, a)
      ensures r.Done? ==> Some(r.value) == BudgetFor(owner.world, d, a) && (owner.world.budget.Some? ==>
                owner.world.budget == Some(r.value))
      ensures r.Stop? ==> Accounted(r.cause, old(owner.world), owner.world, d, a) && r != Stop(AdapterRefused)
      ensures NoDrift(old(Steady(a, d)), r, a, d)
      ensures old(owner.crashIn).None? ==> r != Stop(Crashed) && owner.crashIn.None?
      ensures SlotsElsewhere(old(owner.world), owner.world, IdentityOf(d))
              && Lawful(false, old(owner.world), owner.world, IdentityOf(d))
      ensures old(Admissible(owner.world, d, a)) ==> Admissible(owner.world, d, a)
      ensures old(Afresh(d, a, e.made) && Serves(e) && Admissible(owner.world, d, a)) ==>
                r.Done? && Afresh(d, a, e.made) && Serves(e)
    {
      ghost var before := owner.world;
      r := LoadBudget(d, a);
      SameSlots(before, owner.world, d);
    }

    /** Once the budget is loaded, and adjusted if that was due since `before`. */
    method LockedWith(d: Delegation, a: Authority, prior: Prior, b: Budget, ghost before: World, ghost e: Errand)
      returns (r: Outcome<Receipt>)
      requires Ready() && Admits(a, d) && d.cls == owner.cls && d.identity == owner.identity
               && Grounded(prior, IdentityOf(d))
      requires Some(b) == BudgetFor(owner.world, d, a) == BudgetFor(before, d, a)
               && (owner.world.budget.Some? ==> owner.world.budget == Some(b))
      requires owner.world.slots == before.slots && Reservations(owner.world) == Reservations(before)
      modifies this`authorities, owner, adapter, adapter.worker
      ensures Ready() && old(owner.trail) <= owner.trail && SlotsElsewhere(before, owner.world, IdentityOf(d))
      ensures Answers(r, IdentityOf(d))
      ensures Lawful(r.Done?, before, owner.world, IdentityOf(d))
      ensures r.Stop? ==> Accounted(r.cause, before, owner.world, d, a)
      ensures Admissible(before, d, a) ==> Admissible(owner.world, d, a)
      ensures r != Stop(AdapterRefused)
      ensures NoDrift(old(Steady(a, d)), r, a, d)
      ensures old(owner.crashIn).None? ==> r != Stop(Crashed)
      ensures old(Afresh(d, a, e.made) && Serves(e)) ==> Fulfilled(r, owner.world, e)
    {
      ghost var adjusted := owner.world;
      AdjustmentKeepsReservations(owner.len, owner.world, d, a);
      r := Proceed(d, a, b, prior, e);
      TermsAdmit(owner.world, d, a, b);
      AfterAdjustment(r, before, adjusted, owner.world, d, a);
    }

    /** A reservation that was never consumed, room for it, and nothing in the way. */
    ghost predicate Afresh(d: Delegation, a: Authority, made: Delegation)
      reads this`authorities, owner
    {
      && owner.crashIn.None? && Steady(a, d) && made == Made(owner.world, d) && !Misfit(owner.world, d)
      && !IsReserved(owner.world, IdentityOf(d)) && |Reservations(owner.world)| < d.maximum
    }

    /** With the budget in hand: read the transaction back, then resume it or launch. */
    method Proceed(d: Delegation, a: Authority, b: Budget, prior: Prior, ghost e: Errand) returns (r: Outcome<Receipt>)
      requires Ready() && Admits(a, d) && d.cls == owner.cls && d.identity == owner.identity
               && Grounded(prior, IdentityOf(d))
      requires BudgetSound(owner.cls, owner.identity, b) && b.reservations == Reservations(owner.world)
               && OnTermsOf(b, d)
      requires owner.world.budget.Some? ==> owner.world.budget == Some(b)
      modifies this`authorities, owner, adapter, adapter.worker
      ensures Ready() && old(owner.trail) <= owner.trail && SlotsElsewhere(old(owner.world), owner.world, IdentityOf(d))
      ensures Answers(r, IdentityOf(d)) && OnTerms(owner.world, b)
      ensures Lawful(r.Done?, old(owner.world), owner.world, IdentityOf(d))
      ensures old(Misfit(owner.world, d)) <==> r == Stop(DelegationRefused)
      ensures !old(Misfit(owner.world, d)) ==> !Misfit(owner.world, d)
      ensures r.Stop? ==> r.cause !in {BudgetRefused, AdapterRefused, AdjustmentRefused} && Accounted(r.cause,
              old(owner.world), owner.world, d, a)
      ensures NoDrift(old(Steady(a, d)), r, a, d)
      ensures old(owner.crashIn).None? ==> r != Stop(Crashed)
      ensures old(Afresh(d, a, e.made) && Serves(e)) ==> Fulfilled(r, owner.world, e)
    {
      var tx :- ReadTransaction(d);
      r := ProceedFrom(d, a, b, prior, tx, e);
    }

    method ProceedFrom(d: Delegation, a: Authority, b: Budget, prior: Prior, tx: Option<Transaction>, ghost e: Errand)
      returns (r: Outcome<Receipt>)
      requires Ready() && Admits(a, d) && d.cls == owner.cls && d.identity == owner.identity
               && Grounded(prior, IdentityOf(d))
      requires BudgetSound(owner.cls, owner.identity, b) && b.reservations == Reservations(owner.world)
               && OnTermsOf(b, d)
      requires owner.world.budget.Some? ==> owner.world.budget == Some(b)
      requires tx == At(owner.world, IdentityOf(d)).tx && !Misfit(owner.world, d)
      requires tx.Some? ==>
                 && tx.value.reservation == IdentityOf(d)
                 && (IsReserved(owner.world, IdentityOf(d)) || tx.value.state.Preflighted?)
      requires tx.None? ==> !IsReserved(owner.world, IdentityOf(d))
      modifies this`authorities, owner, adapter, adapter.worker
      ensures Ready() && old(owner.trail) <= owner.trail && SlotsElsewhere(old(owner.world), owner.world, IdentityOf(d))
      ensures Answers(r, IdentityOf(d)) && OnTerms(owner.world, b)
      ensures Lawful(r.Done?, old(owner.world), owner.world, IdentityOf(d))
      ensures !Misfit(owner.world, d)
      ensures r.Stop? ==> r.cause !in {BudgetRefused, AdapterRefused, AdjustmentRefused,
                                       DelegationRefused} && Accounted(r.cause, old(owner.world), owner.world, d, a)
      ensures NoDrift(old(Steady(a, d)), r, a, d)
      ensures old(owner.crashIn).None? ==> r != Stop(Crashed)
      ensures old(Afresh(d, a, e.made) && Serves(e)) ==> Fulfilled(r, owner.world, e)
    {
      if IdentityOf(d) in b.reservations {
        if tx.None? {
          return Stop(Corrupt);
        }
        r := ResumeFor(d, tx.value, b, prior);
        return;
      }
      if tx.Some? && !tx.value.state.Preflighted? {
        return Stop(Corrupt);
      }
      if b.consumed >= b.maximum {
        return Stop(Exhausted);
      }
      r := LaunchIfStillAdmitted(d, a, tx, b, e);
    }

    /** `_read_transaction_if_present`, for the delegation's own reservation. */
    method ReadTransaction(d: Delegation) returns (r: Outcome<Option<Transaction>>)
      requires owner.Valid()
      ensures r == if Misfit(owner.world, d) then Stop(DelegationRefused) else Done(At(owner.world, IdentityOf(d)).tx)
      ensures r.Done? && r.value.None? ==> !IsReserved(owner.world, IdentityOf(d))
      ensures r.Done? && r.value.Some? ==> r.value.value.reservation == IdentityOf(d)
                                           && (IsReserved(owner.world, IdentityOf(d))
                                               || r.value.value.state.Preflighted?)
    {
      var of := IdentityOf(d);
      var tx := At(owner.world, of).tx;
      Known(of);
      if tx.Some? {
        ReadsBack(owner.len, of, tx.value, d);
        var readback := Validate(owner.len, tx.value, d, of);
        if readback != Fine {
          return Stop(if readback == DelegationDiffers then DelegationRefused else Corrupt);
        }
      }
      r := Done(tx);
    }

    method ResumeFor(d: Delegation, t: Transaction, b: Budget, prior: Prior) returns (r: Outcome<Receipt>)
      requires Ready() && Holds(t) && b.maximum >= b.consumed && Grounded(prior, t.reservation)
      requires owner.world.budget == Some(b) && t.reservation == IdentityOf(d) && !Misfit(owner.world, d)
      modifies owner, adapter`renderings, adapter`admissions, adapter`late, adapter`exchanges, adapter.worker
      ensures Ready() && old(owner.trail) <= owner.trail && OnlyAt(old(owner.world), owner.world, IdentityOf(d))
      ensures Rests(r, IdentityOf(d), b)
              && At(owner.world, IdentityOf(d)).invokes == old(At(owner.world, IdentityOf(d))).invokes
      ensures Lawful(r.Done?, old(owner.world), owner.world, IdentityOf(d))
      ensures LateRefusal(r, old(owner.world), owner.world, t.reservation) && !Misfit(owner.world, d)
      ensures old(owner.crashIn).None? ==> r != Stop(Crashed)
    {
      ghost var n := |owner.trail| - 1;
      r := ResumeReserved(t, b, prior);
      StaleFollows(IdentityOf(d), n, |owner.trail| - 1);
      ResumedLawfully(old(owner.world), owner.world, d, r.Done?);
    }

    /** The final look at the authority before anything is published for a launch. */
    method LaunchIfStillAdmitted(d: Delegation, a: Authority, tx: Option<Transaction>, b: Budget, ghost e: Errand)
      returns (r: Outcome<Receipt>)
      requires Ready() && Admits(a, d) && d.cls == owner.cls && d.identity == owner.identity
      requires BudgetSound(owner.cls, owner.identity, b) && b.reservations == Reservations(owner.world)
               && OnTermsOf(b, d)
      requires owner.world.budget.Some? ==> owner.world.budget == Some(b)
      requires tx == At(owner.world, IdentityOf(d)).tx && (tx.Some? ==> tx.value.state.Preflighted?)
      requires !IsReserved(owner.world, IdentityOf(d)) && b.consumed < b.maximum && !Misfit(owner.world, d)
      modifies this`authorities, owner, adapter, adapter.worker
      ensures Ready() && old(owner.trail) <= owner.trail && SlotsElsewhere(old(owner.world), owner.world, IdentityOf(d))
      ensures Answers(r, IdentityOf(d)) && OnTerms(owner.world, b)
      ensures Lawful(r.Done?, old(owner.world), owner.world, IdentityOf(d)) && !Misfit(owner.world, d)
      ensures LateRefusal(r, old(owner.world), owner.world, IdentityOf(d)) || r == Stop(AuthorityRefused)
      ensures NoDrift(old(Steady(a, d)), r, a, d)
      ensures old(owner.crashIn).None? ==> r != Stop(Crashed)
      ensures old(owner.crashIn.None? && Steady(a, d) && Serves(e) && e.made == Made(owner.world, d)) ==>
                Fulfilled(r, owner.world, e)
    {
      AdmittedDelegation(a, d);
      var admitted := Readmitted(a, d);
      if !admitted {
        return Stop(AuthorityRefused);
      }
      r := Launch(d, tx, b, e);
    }

    /** A reservation found consumed: what was seen before the lock is used only if the
        transaction has not moved on since. */
    method ResumeReserved(t: Transaction, b: Budget, prior: Prior) returns (r: Outcome<Receipt>)
      requires Ready() && Holds(t) && b.maximum >= b.consumed && Grounded(prior, t.reservation)
      requires owner.world.budget == Some(b)
      modifies owner, adapter`renderings, adapter`admissions, adapter`late, adapter`exchanges, adapter.worker
      ensures Ready() && old(owner.trail) <= owner.trail && OnlyAt(old(owner.world), owner.world, t.reservation)
      ensures Rests(r, t.reservation, b) && Files(t).invokes == old(Files(t)).invokes
      ensures t.state.FailureRetained? ==> owner.world == old(owner.world)
      ensures LateRefusal(r, old(owner.world), owner.world, t.reservation)
      ensures old(owner.crashIn).None? ==> r != Stop(Crashed) && owner.crashIn.None?
    {
      Known(t.reservation);
      var same := prior.transaction.Some? && prior.transaction.value.revision == t.revision;
      var reconciled := prior.reconciled;
      if NeedsReconciliation(t) && !same {
        reconciled := Reconcile(t.reservation);
      }
      if t.state.Preflighted? {
        r := ResumePreflighted(t, b);
      } else {
        r := Resume(t, b, reconciled, if same then prior.readmitted else None);
      }
    }

    /** Reserved but never marked so: the batch counts as consumed, its outcome as unknown. */
    method ResumePreflighted(t: Transaction, b: Budget) returns (r: Outcome<Receipt>)
      requires Ready() && Holds(t) && b.maximum >= b.consumed && t.state.Preflighted?
      modifies owner, adapter`renderings, adapter`admissions, adapter`late, adapter`exchanges, adapter.worker
      ensures Ready() && old(owner.trail) <= owner.trail && OnlyAt(old(owner.world), owner.world, t.reservation)
      ensures Rests(r, t.reservation, b) && Files(t).invokes == old(Files(t)).invokes
      ensures LateRefusal(r, old(owner.world), owner.world, t.reservation)
      ensures old(owner.crashIn).None? ==> r != Stop(Crashed) && owner.crashIn.None?
    {
      var u :- RetainUnknown(t, b.maximum - b.consumed, LAUNCHES_UNKNOWN, CleanupUnknown, ProtectedUnknown);
      r := Resume(u, b, None, None);
    }

    // -------------------------------------------------- rendering recovery

    /** `render_retained`: one more try at rendering a retained result, per renderer
        revision; nothing is preflighted, reconciled or invoked. Called while the transaction
        is still RESULT_RETAINED it renders first and only then meets the illegal step. */
    method RenderRetained(d: Delegation, a: Authority, revision: nat) returns (r: Outcome<Receipt>)
      requires Ready() && d.cls == owner.cls && d.identity == owner.identity
      modifies this`authorities, owner, adapter`renderings, adapter`admissions
      ensures Ready() && old(owner.trail) <= owner.trail && Answers(r, IdentityOf(d)) && r != Stop(Corrupt)
      ensures RenderedFrom(r, old(owner.world), owner.world, IdentityOf(d), revision)
      ensures r != Stop(Crashed) && r != Stop(AuthorityRefused) ==>
                if d.cls == Acceptance && AdapterAdmitted(d) && old(Admissible(owner.world, d, a))
                then CauseOf(r) == Recovering(owner.len, old(At(owner.world, IdentityOf(d))), revision,
                                              old(adapter.NextAdmission()), old(adapter.WillRender()))
                else RefusedEarly(r)
      ensures old(Admissible(owner.world, d, a)) ==> Admissible(owner.world, d, a)
      ensures NoDrift(old(Steady(a, d)), r, a, d)
      ensures old(owner.crashIn).None? ==> r != Stop(Crashed) && owner.crashIn.None?
    {
      var admitted := Readmitted(a, d);
      if !admitted {
        return Stop(AuthorityRefused);
      }
      if d.cls != Acceptance || !AdapterAdmitted(d) {
        return Stop(AdapterRefused);
      }
      r := RenderLocked(d, a, revision);
    }

    /** The part of `render_retained` that holds the lock. */
    method RenderLocked(d: Delegation, a: Authority, revision: nat) returns (r: Outcome<Receipt>)
      requires Ready() && Admits(a, d) && d.cls == Acceptance && d.cls == owner.cls && d.identity == owner.identity
      modifies this`authorities, owner, adapter`renderings, adapter`admissions
      ensures Ready() && old(owner.trail) <= owner.trail && Answers(r, IdentityOf(d)) && r != Stop(Corrupt)
      ensures RenderedFrom(r, old(owner.world), owner.world, IdentityOf(d), revision)
      ensures r != Stop(Crashed) && r != Stop(AuthorityRefused) ==>
                if old(Admissible(owner.world, d, a))
                then CauseOf(r) == Recovering(owner.len, old(At(owner.world, IdentityOf(d))), revision,
                                              old(adapter.NextAdmission()), old(adapter.WillRender()))
                else RefusedEarly(r)
      ensures old(Admissible(owner.world, d, a)) ==> Admissible(owner.world, d, a)
      ensures NoDrift(old(Steady(a, d)), r, a, d)
      ensures old(owner.crashIn).None? ==> r != Stop(Crashed) && owner.crashIn.None?
    {
      var tx :- ReadTransaction(d);
      if tx.None? || tx.value.result.None? {
        return Stop(NothingToRender);
      }
      r := RenderRead(d, a, tx.value, revision);
    }

    method RenderRead(d: Delegation, a: Authority, t: Transaction, revision: nat) returns (r: Outcome<Receipt>)
      requires Ready() && Admits(a, d) && d.cls == Acceptance && d.cls == owner.cls && d.identity == owner.identity
      requires !Misfit(owner.world, d) && At(owner.world, IdentityOf(d)).tx == Some(t) && t.reservation == IdentityOf(d)
               && t.result.Some?
      modifies this`authorities, owner, adapter`renderings, adapter`admissions
      ensures Ready() && old(owner.trail) <= owner.trail && Answers(r, IdentityOf(d)) && r != Stop(Corrupt)
      ensures RenderedFrom(r, old(owner.world), owner.world, IdentityOf(d), revision)
      ensures r != Stop(Crashed) && r != Stop(AuthorityRefused) ==>
                if old(Admissible(owner.world, d, a))
                then CauseOf(r) == Recovering(owner.len, old(At(owner.world, IdentityOf(d))), revision,
                                              old(adapter.NextAdmission()), old(adapter.WillRender()))
                else RefusedEarly(r)
      ensures old(Admissible(owner.world, d, a)) ==> Admissible(owner.world, d, a)
      ensures NoDrift(old(Steady(a, d)), r, a, d)
      ensures old(owner.crashIn).None? ==> r != Stop(Crashed) && owner.crashIn.None?
    {
      ghost var before := owner.world;
      var loaded := LoadBudget(d, a);
      if loaded.Stop? {
        Untouched(before, owner.world);
        return Stop(loaded.cause);
      }
      Untouched(before, owner.world);
      r := RenderLoaded(d, a, t, loaded.value, revision, before);
    }

    /** Once the budget is loaded, and adjusted if that was due since `before`. */
    method RenderLoaded(d: Delegation, a: Authority, t: Transaction, b: Budget, revision: nat, ghost before: World)
      returns (r: Outcome<Receipt>)
      requires Ready() && At(owner.world, t.reservation).tx == Some(t) && t.reservation == IdentityOf(d)
      requires t.result.Some? && d.cls == Acceptance && !Misfit(owner.world, d)
      requires Some(b) == BudgetFor(owner.world, d, a) == BudgetFor(before, d, a)
               && (owner.world.budget.Some? ==> owner.world.budget == Some(b))
      requires b.reservations == Reservations(owner.world)
      requires owner.world.slots == before.slots && Reservations(owner.world) == Reservations(before)
      modifies owner, adapter`renderings, adapter`admissions
      ensures Ready() && old(owner.trail) <= owner.trail && Answers(r, IdentityOf(d)) && r != Stop(Corrupt)
              && r != Stop(AuthorityRefused)
      ensures RenderedFrom(r, before, owner.world, IdentityOf(d), revision)
      ensures r != Stop(Crashed) ==>
                CauseOf(r) == Recovering(owner.len, At(before, IdentityOf(d)), revision,
                                         old(adapter.NextAdmission()), old(adapter.WillRender()))
      ensures Admissible(owner.world, d, a)
      ensures old(owner.crashIn).None? ==> r != Stop(Crashed) && owner.crashIn.None?
    {
      ghost var adjusted := owner.world;
      r := RecoverRendering(d, t, b, revision);
      RenderedSince(r, before, adjusted, owner.world, IdentityOf(d), revision);
    }

    method RecoverRendering(d: Delegation, t: Transaction, b: Budget, revision: nat) returns (r: Outcome<Receipt>)
      requires Ready() && At(owner.world, t.reservation).tx == Some(t) && t.reservation == IdentityOf(d)
      requires t.result.Some? && d.cls == Acceptance && (owner.world.budget.Some? ==> owner.world.budget == Some(b))
      requires b.reservations == Reservations(owner.world)
      modifies owner, adapter`renderings, adapter`admissions
      ensures Ready() && old(owner.trail) <= owner.trail && Answers(r, t.reservation)
      ensures owner.world.budget == old(owner.world.budget)
              && RenderedFrom(r, old(owner.world), owner.world, t.reservation, revision)
      ensures old(Misfit(owner.world, d)) == Misfit(owner.world, d)
      ensures r != Stop(Crashed) ==>
                CauseOf(r) == Recovering(owner.len, old(Files(t)), revision, old(adapter.NextAdmission()),
                                         old(adapter.WillRender()))
      ensures old(owner.crashIn).None? ==> r != Stop(Crashed) && owner.crashIn.None?
    {
      Known(t.reservation);
      if t.reservation !in b.reservations {
        return Stop(Corrupt);
      }
      ghost var n := |owner.trail| - 1;
      r := RecoverReserved(t, b, revision);
      StaleFollows(t.reservation, n, |owner.trail| - 1);
    }

    method RecoverReserved(t: Transaction, b: Budget, revision: nat) returns (r: Outcome<Receipt>)
      requires Ready() && Holds(t) && t.result.Some? && t.reservation.cls == Acceptance && owner.world.budget == Some(b)
      modifies owner, adapter`renderings, adapter`admissions
      ensures Ready() && old(owner.trail) <= owner.trail && OnlyAt(old(owner.world), owner.world, t.reservation)
      ensures Rests(r, t.reservation, b) && Files(t).invokes == old(Files(t)).invokes
      ensures r.Done? ==> Files(t).tx.value.rendered && !t.state.ResultRetained?
      ensures r == Stop(IllegalTransition) ==> RenderedInVain(Files(t), revision)
      ensures r != Stop(Crashed) ==> Recovered(r, old(Files(t)), Files(t), revision)
      ensures r != Stop(Crashed) ==>
                CauseOf(r) == Recovering(owner.len, old(Files(t)), revision, old(adapter.NextAdmission()),
                                         old(adapter.WillRender()))
      ensures old(owner.crashIn).None? ==> r != Stop(Crashed) && owner.crashIn.None?
    {
      Known(t.reservation);
      var record :- RecordFor(t, None);
      if t.rendered {
        r := Answer(t, b);
        return;
      }
      if revision in At(owner.world, t.reservation).recoveries {
        return Stop(RevisionAttempted);
      }
      r := TryRendering(t, b, revision, record);
      if r == Stop(IllegalTransition) {
        assert Files(t).renders[|Files(t).renders| - 1] == Rendering(ByRecovery(revision), record);
      }
    }

    /** The revision is claimed on disk, then the renderer is called. */
    method TryRendering(t: Transaction, b: Budget, revision: nat, record: ResultRecord) returns (r: Outcome<Receipt>)
      requires Ready() && Holds(t) && t.result.Some? && !t.rendered && t.reservation.cls == Acceptance
      requires Files(t).result == Some(record) && revision !in Files(t).recoveries && owner.world.budget == Some(b)
      modifies owner, adapter`renderings
      ensures Ready() && old(owner.trail) <= owner.trail && OnlyAt(old(owner.world), owner.world, t.reservation)
      ensures Rests(r, t.reservation, b) && Files(t).invokes == old(Files(t)).invokes
      ensures r.Done? ==> Files(t).tx.value.rendered && !t.state.ResultRetained?
      ensures r != Stop(Crashed) ==> Recovered(r, old(Files(t)), Files(t), revision)
      ensures r != Stop(Crashed) ==>
                CauseOf(r) == if !old(adapter.WillRender()) then Some(RenderRaised)
                              else if t.state.ResultRetained? then Some(IllegalTransition) else None
      ensures old(owner.crashIn).None? ==> r != Stop(Crashed) && owner.crashIn.None?
    {
      Known(t.reservation);
      var ok :- AttemptRendering(t, revision, record);
      if !ok {
        return Stop(RenderRaised);
      }
      if EvidenceRendered !in Transitions(t.state) {
        return Stop(IllegalTransition);
      }
      r := FinishRendering(t, b);
    }

    method AttemptRendering(t: Transaction, revision: nat, record: ResultRecord) returns (r: Outcome<bool>)
      requires Ready() && Holds(t) && t.result.Some? && !t.rendered && t.reservation.cls == Acceptance
      requires Files(t).result == Some(record) && revision !in Files(t).recoveries
      modifies owner, adapter`renderings
      ensures Ready() && old(owner.trail) <= owner.trail && OnlyAt(old(owner.world), owner.world, t.reservation)
      ensures Holds(t) && Files(t).invokes == old(Files(t)).invokes
      ensures r == Done(old(adapter.WillRender())) || r == Stop(Crashed)
      ensures r.Done? ==>
                Files(t) == old(Files(t)).(renders := old(Files(t)).renders + [Rendering(ByRecovery(revision), record)],
                                           recoveries := old(Files(t)).recoveries
                                             [revision := Recovery(Sha(record), if r.value then Complete
                                                                                else RecoveryFailed)])
      ensures old(owner.crashIn).None? ==> r.Done? && owner.crashIn.None?
    {
      var ok :- StartRendering(t, revision, record);
      var ended := Recovery(Sha(record), if ok then Complete else RecoveryFailed);
      var noted :- NoteRecovery(t, revision, ended);
      assert Files(t).recoveries == old(Files(t)).recoveries[revision := ended];
      r := Done(ok);
    }

    method StartRendering(t: Transaction, revision: nat, record: ResultRecord) returns (r: Outcome<bool>)
      requires Ready() && Holds(t) && t.result.Some? && !t.rendered && t.reservation.cls == Acceptance
      requires Files(t).result == Some(record) && revision !in Files(t).recoveries
      modifies owner, adapter`renderings
      ensures Ready() && old(owner.trail) <= owner.trail && OnlyAt(old(owner.world), owner.world, t.reservation)
      ensures Holds(t) && Files(t).invokes == old(Files(t)).invokes
      ensures r.Done? ==>
                Files(t) == old(Files(t)).(renders := old(Files(t)).renders + [Rendering(ByRecovery(revision), record)],
                                           recoveries := old(Files(t)).recoveries
                                             [revision := Recovery(Sha(record), Started)])
      ensures r == Done(old(adapter.WillRender())) || r == Stop(Crashed)
      ensures old(owner.crashIn).None? ==> r.Done? && owner.crashIn.None?
    {
      var noted :- NoteRecovery(t, revision, Recovery(Sha(record), Started));
      r := CallRenderer(t, ByRecovery(revision), record);
    }

    method NoteRecovery(t: Transaction, revision: nat, recovery: Recovery) returns (r: Outcome<bool>)
      requires Ready() && Holds(t) && t.result.Some?
      modifies owner
      ensures Ready() && old(owner.trail) <= owner.trail && OnlyAt(old(owner.world), owner.world, t.reservation)
      ensures Holds(t) && (r == Done(true) || r == Stop(Crashed))
      ensures Files(t) == if r.Done? then old(Files(t)).(recoveries := old(Files(t)).recoveries[revision := recovery])
              else old(Files(t))
      ensures revision !in old(Files(t)).recoveries ==> NotBy(Files(t).renders, ByRecovery(revision))
      ensures old(owner.crashIn).None? ==> r.Done? && owner.crashIn.None?
    {
      Known(t.reservation);
      var s := At(owner.world, t.reservation);
      RecoveryNoted(owner.len, t.reservation, s, t, revision, recovery);
      var alive := Put(t.reservation, s.(recoveries := s.recoveries[revision := recovery]));
      r := if alive then Done(true) else Stop(Crashed);
    }
  }
}
