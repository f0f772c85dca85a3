/**
 Whole runs of the two machines: any calls, by any processes, each of which may die
 before any of its durable steps, over a link that may lose, delay or repeat requests.
 */
module ProofRuns {
  import opened Bytes
  import opened ProofPolicy
  import opened ProofTransaction
  import opened ProofOwner
  import W = ExecutionWorker
  import A = ProofAdapter
  import B = ProofBackend

  // ------------------------------------------------------ what always holds

  /** A reservation is invoked at most once, only when the budget lists it, and only when its
      transaction had been written as launching. */
  lemma InvokedAtMostOnce(len: Lengths, cls: Class, identity: nat, w: World, r: Reservation)
    requires Sound(len, cls, identity, w)
    ensures At(w, r).invokes <= 1
    ensures At(w, r).invokes == 1 ==>
              IsReserved(w, r) && At(w, r).tx.Some? && Launching in At(w, r).tx.value.history
  {
    SoundAt(len, cls, identity, w, r);
  }

  /** The budget's law: distinct reservations, each with its transaction, counted exactly and
      never beyond the maximum; for acceptance that is one at most. */
  lemma BudgetLaw(len: Lengths, cls: Class, identity: nat, w: World)
    requires Sound(len, cls, identity, w) && w.budget.Some?
    ensures var b := w.budget.value;
            && Distinct(b.reservations) && b.consumed == |b.reservations| <= b.maximum
            && (cls == Acceptance ==> |b.reservations| <= 1)
            && forall i :: 0 <= i < |b.reservations| ==> At(w, b.reservations[i]).tx.Some?
  {
    var b := w.budget.value;
    forall i | 0 <= i < |b.reservations| ensures At(w, b.reservations[i]).tx.Some? {
      SoundAt(len, cls, identity, w, b.reservations[i]);
    }
  }

  /** Product evidence: for acceptance only, always the one retained result whose digest the
      transaction names, a success with complete cleanup, unchanged protected state and no
      unknown effect; rendered once at most by execution and once per recovery revision. */
  lemma EvidenceLaw(len: Lengths, cls: Class, identity: nat, w: World, r: Reservation, i: nat)
    requires Sound(len, cls, identity, w) && i < |At(w, r).renders|
    ensures var s := At(w, r); var evidence := s.renders[i].evidence;
            && r.cls == Acceptance && s.tx.Some? && s.result == Some(evidence)
               && s.tx.value.result == Some(Sha(evidence))
            && evidence.reservation == r && evidence.binding.eligible
            && evidence.observation.kind == Success && Acceptable(evidence.observation)
            && forall j :: 0 <= j < |s.renders| && s.renders[j].caller == s.renders[i].caller ==> j == i
  {
    SoundAt(len, cls, identity, w, r);
  }

  /** Every transaction on disk is of its reservation, has a legal history that ends in its
      state, and names an observation exactly from OBSERVED on. The result and the failure it
      names are the files beside it: that observation's success, and a failure of its own
      binding whose sidecar agrees and whose next action follows from its classification. */
  lemma RecordsLaw(len: Lengths, cls: Class, identity: nat, w: World, r: Reservation)
    requires Sound(len, cls, identity, w) && At(w, r).tx.Some?
    ensures var s := At(w, r); var t := s.tx.value;
            && t.reservation == r == IdentityOf(t.delegation) && t.delegationDigest == Sha(t.delegation)
            && |t.history| >= 2 && t.history[..2] == [New, Preflighted] && Path(t.history)
            && t.history[|t.history| - 1] == t.state
            && (t.observation.Some? <==>
                  t.state in {Observed, ResultRetained, FailureRetained, Closed, EvidenceRendered})
            && (t.result.Some? ==>
                  && s.result.Some? && t.result == Some(Sha(s.result.value)) && len.result(s.result.value) <= 524288
                  && s.result.value.reservation == r && s.result.value.binding == BindingOf(t.delegation)
                  && t.observation == Some(s.result.value.observation)
                  && s.result.value.observation.kind == Success)
            && (t.failure.Some? ==>
                  && s.failure.Some? && t.failure == Some(Sha(s.failure.value)) && s.sidecar == t.failure
                  && len.failure(s.failure.value) <= 65536
                  && s.failure.value.reservation == r && s.failure.value.binding == BindingOf(t.delegation)
                  && s.failure.value.remaining >= 0
                  && (s.failure.value.next == ReconcileNeverRelaunch
                      <==> s.failure.value.classification == UnknownOutcome))
            && (t.state in {FailureRetained, OutcomeUnknown} ==> t.failure.Some?)
            && (t.state in {ResultRetained, EvidenceRendered} ==> t.result.Some?)
            && (t.state == Closed ==> t.result.Some? || t.failure.Some?)
  {
    SoundAt(len, cls, identity, w, r);
    var t := At(w, r).tx.value;
    assert t.history[1] in Transitions(t.history[0]);
  }

  /** Over time: lists only grow, maxima only rise, what is named stays, and once a rendering
      is recorded as complete no other is made. */
  lemma OverTime(owner: Owner, i: nat, j: nat, r: Reservation)
    requires owner.Valid() && i <= j < |owner.trail|
    ensures Reservations(owner.trail[i]) <= Reservations(owner.trail[j])
    ensures owner.trail[i].budget.Some? ==>
              owner.trail[j].budget.Some? && owner.trail[i].budget.value.maximum <= owner.trail[j].budget.value.maximum
    ensures var s, u := At(owner.trail[i], r), At(owner.trail[j], r);
            s.tx.Some? ==>
              && u.tx.Some? && s.tx.value.history <= u.tx.value.history
              && (s.tx.value.result.Some? ==> u.tx.value.result == s.tx.value.result && u.result == s.result)
              && (s.tx.value.failure.Some? ==>
                  u.tx.value.failure == s.tx.value.failure && u.failure == s.failure && u.sidecar == s.sidecar)
              && (s.tx.value.rendered ==> u.renders == s.renders)
  {
    assert Evolves(owner.cls, owner.trail[i], owner.trail[j]);
    assert SlotFollows(At(owner.trail[i], r), At(owner.trail[j], r));
  }

  /** Both machines at once: the supervisor runs once at most for a reservation, only if the
      controller's budget lists it, and a retained success is of a run that earned it. */
  ghost predicate Together(owner: Owner, adapter: A.Adapter)
    reads owner, adapter, adapter.worker
  {
    forall r ::
      && W.Supervisions(adapter.worker.roots, r) <= 1
      && (r in adapter.worker.roots ==> IsReserved(owner.world, r))
      && (B.SuccessRetained(At(owner.world, r)) ==> adapter.Vouched(r))
  }

  // --------------------------------------------------------- arbitrary runs

  /** One process: what it was started for, what it reads of the authority, which earlier
      states it looks at, and when it dies. */
  datatype Call =
    | Execute(d: Delegation, a: Authority, party: Party, when: B.Moments, dies: Option<nat>)
    | Render(d: Delegation, a: Authority, party: Party, revision: nat, dies: Option<nat>)

  /** What else a process finds: its adapter's descriptor, the authority document reading by
      reading, and the worker program then deployed. */
  datatype Party = Party(descriptor: B.Descriptor, readings: seq<Authority>, standing: Option<Authority>,
                         program: nat, product: Option<Product>)

  ghost predicate Consistent(owner: Owner, adapter: A.Adapter)
    reads owner, adapter, adapter.worker
  {
    && owner.Valid() && adapter.Valid()
    && B.Joined(owner.world, adapter.asked, adapter.worker.roots)
  }

  /** Where nothing in particular is expected to come of an execution. */
  ghost function NoErrand(d: Delegation): B.Errand {
    B.Errand(d, Observation(Failed, UnknownOutcome, 0, CleanupUnknown, ProtectedUnknown, A.UNSTATED), Admitted(0))
  }

  method Process(owner: Owner, adapter: A.Adapter, c: Call) returns (r: B.Outcome<B.Receipt>)
    requires Consistent(owner, adapter)
    modifies owner, adapter, adapter.worker
    ensures Consistent(owner, adapter) && old(owner.trail) <= owner.trail
    ensures r != B.Stop(B.Corrupt)
  {
    owner.crashIn := c.dies;
    adapter.program, adapter.product := c.party.program, c.party.product;
    var backend := new B.Backend(owner, adapter, c.party.descriptor, c.party.readings, c.party.standing);
    if c.d.cls != owner.cls || c.d.identity != owner.identity {
      return B.Stop(B.AdapterRefused);
    }
    match c {
      case Execute(d, a, _, when, _) =>
        var moments := if when.Ordered(|owner.trail|) then when else B.Moments(0, 0, 0, 0);
        r := backend.Execute(d, a, moments, NoErrand(d));
      case Render(d, a, _, revision, _) =>
        r := backend.RenderRetained(d, a, revision);
    }
  }

  /** Any sequence of processes, from an empty directory and a worker that knows nothing. */
  method Run(owner: Owner, adapter: A.Adapter, calls: seq<Call>)
    requires Consistent(owner, adapter)
    modifies owner, adapter, adapter.worker
    ensures owner.Valid() && old(owner.trail) <= owner.trail
    ensures Sound(owner.len, owner.cls, owner.identity, owner.world) && Together(owner, adapter)
  {
    var i := 0;
    while i < |calls|
      invariant 0 <= i <= |calls| && Consistent(owner, adapter) && old(owner.trail) <= owner.trail
    {
      var r := Process(owner, adapter, calls[i]);
      i := i + 1;
    }
    forall r
      ensures W.Supervisions(adapter.worker.roots, r) <= 1
              && (r in adapter.worker.roots ==> IsReserved(owner.world, r))
    {
      if r in adapter.worker.roots {
        assert W.RootSound(r, adapter.worker.roots[r]);
      }
    }
  }

  /** Nothing is left to do: the outcome is unknown, or known and a failure says so or nothing
      remains to be rendered. */
  ghost predicate AtRest(t: Transaction) {
    && t.state in {OutcomeUnknown, FailureRetained, Closed, EvidenceRendered}
    && (t.failure.Some? || t.rendered || (t.result.Some? && t.delegation.cls == Diagnostic))
  }

  /** A process that dies anywhere, then one that does not, under an authority that stands
      and with the adapter it names: the second never finds its own state unreadable or its
      budget refused. Where the reservation was consumed it ends at rest, unless the adapter
      or a size bound stops it. */
  method DieThenRunAgain(owner: Owner, adapter: A.Adapter, descriptor: B.Descriptor, d: Delegation, a: Authority,
                         first: seq<Authority>, dies: nat)
    returns (r: B.Outcome<B.Receipt>, ghost consumed: bool)
    requires Consistent(owner, adapter) && B.Admissible(owner.world, d, a)
    requires d.cls == owner.cls && d.identity == owner.identity && Admits(a, d) && B.SpeaksFor(descriptor, d)
    modifies owner, adapter, adapter.worker
    ensures Consistent(owner, adapter) && B.Admissible(owner.world, d, a)
    ensures old(IsReserved(owner.world, IdentityOf(d))) ==> consumed
    ensures r.Done? ==> At(owner.world, IdentityOf(d)).tx.Some? && AtRest(At(owner.world, IdentityOf(d)).tx.value)
    ensures r.Stop? ==> r.cause in {B.PreflightFailed, B.ReadmissionRefused, B.FailureTooLarge, B.ResultTooLarge}
                        || (!consumed && r.cause == B.Exhausted)
  {
    var died := ExecuteOnce(owner, adapter, descriptor, d, a, first, None, Some(dies));
    consumed := IsReserved(owner.world, IdentityOf(d));
    r := ExecuteOnce(owner, adapter, descriptor, d, a, [], Some(a), None);
  }

  /** And a first execution does what it is for. Under an authority that stands, with room in
      the budget, over a link that delivers, a run without trouble is supervised once and its
      observation, as it was and with what the adapter admits of it, is the result; for
      acceptance it is rendered too. That holds of a diagnostic whatever the renderer does. */
  method FirstExecution(owner: Owner, adapter: A.Adapter, descriptor: B.Descriptor, d: Delegation, a: Authority,
                        admitted: Admitted)
    returns (r: B.Outcome<B.Receipt>)
    requires Consistent(owner, adapter) && B.Admissible(owner.world, d, a) && owner.crashIn.None?
    requires d.cls == owner.cls && d.identity == owner.identity && Admits(a, d) && B.SpeaksFor(descriptor, d)
    requires At(owner.world, IdentityOf(d)).tx.None? && |Reservations(owner.world)| < d.maximum
    requires adapter.Calm(5) && adapter.NextAdmission() == Some(admitted) && AdmittedFits(owner.len, admitted)
    requires d.cls == Acceptance ==> adapter.WillRender()
    requires var o := Brought(adapter, d);
             Recordable(owner.len, o)
             && ResultFits(owner.len, ResultRecord(BindingOf(d), IdentityOf(d), o, admitted))
    modifies owner, adapter, adapter.worker
    ensures Consistent(owner, adapter) && r.Done?
    ensures r.value.state == if d.cls == Acceptance then EvidenceRendered else Closed
    ensures var o, s := old(Brought(adapter, d)), At(owner.world, IdentityOf(d));
            && s.invokes == 1 && IsReserved(owner.world, IdentityOf(d))
            && s.result == Some(ResultRecord(BindingOf(d), IdentityOf(d), o, admitted))
            && s.tx.Some? && s.tx.value.result == Some(Sha(s.result.value)) && s.tx.value.observation == Some(o)
    ensures W.Supervisions(adapter.worker.roots, IdentityOf(d)) == 1
  {
    ghost var e := B.Errand(d, Brought(adapter, d), admitted);
    r := Send(owner, adapter, descriptor, d, a, e);
    SoundAt(owner.len, owner.cls, owner.identity, owner.world, IdentityOf(d));
    assert B.SuccessRetained(At(owner.world, IdentityOf(d)));
  }

  method Send(owner: Owner, adapter: A.Adapter, descriptor: B.Descriptor, d: Delegation, a: Authority,
              ghost e: B.Errand)
    returns (r: B.Outcome<B.Receipt>)
    requires Consistent(owner, adapter) && B.Admissible(owner.world, d, a) && owner.crashIn.None?
    requires d.cls == owner.cls && d.identity == owner.identity && Admits(a, d) && B.SpeaksFor(descriptor, d)
    requires At(owner.world, IdentityOf(d)).tx.None? && |Reservations(owner.world)| < d.maximum
    requires adapter.Calm(5) && adapter.NextAdmission() == Some(e.admitted) && AdmittedFits(owner.len, e.admitted)
    requires d.cls == Acceptance ==> adapter.WillRender()
    requires e.made == d && e.o == Brought(adapter, d)
    requires Recordable(owner.len, e.o) && ResultFits(owner.len, B.RecordOf(e))
    modifies owner, adapter, adapter.worker
    ensures Consistent(owner, adapter) && B.Fulfilled(r, owner.world, e)
    ensures r.value.state == At(owner.world, IdentityOf(d)).tx.value.state
  {
    var n := |owner.trail| - 1;
    var backend := new B.Backend(owner, adapter, descriptor, [], Some(a));
    IsDue(backend, d, a, e);
    r := backend.Execute(d, a, B.Moments(n, n, n, n), e);
  }

  lemma IsDue(backend: B.Backend, d: Delegation, a: Authority, e: B.Errand)
    requires backend.owner.Valid() && backend.owner.crashIn.None? && B.Admissible(backend.owner.world, d, a)
    requires backend.Steady(a, d) && backend.AdapterAdmitted(d)
    requires At(backend.owner.world, IdentityOf(d)).tx.None? && |Reservations(backend.owner.world)| < d.maximum
    requires backend.adapter.Calm(5) && backend.adapter.NextAdmission() == Some(e.admitted)
    requires d.cls == Acceptance ==> backend.adapter.WillRender()
    requires e.made == d && e.o == Brought(backend.adapter, d) && AdmittedFits(backend.owner.len, e.admitted)
    requires Recordable(backend.owner.len, e.o) && ResultFits(backend.owner.len, B.RecordOf(e))
    ensures backend.Due(d, a, e)
  {
    AdmittedDelegation(a, d);
    backend.Known(IdentityOf(d));
  }

  /** The observation of the fifth exchange, whose run meets no trouble. */
  ghost function Brought(adapter: A.Adapter, d: Delegation): Observation
    requires |adapter.exchanges| > 4
    reads adapter
  {
    var product := adapter.product;
    Observation(Success,
                if product.Some? then SamplesVerified(product.value)
                else if d.cls == Acceptance then AcceptanceObserved else DiagnosticObserved,
                A.FactsOf(adapter.exchanges[4]), CleanupComplete, Unchanged, A.ONE_PUBLISHED)
  }

  method ExecuteOnce(owner: Owner, adapter: A.Adapter, descriptor: B.Descriptor, d: Delegation, a: Authority,
                     readings: seq<Authority>, standing: Option<Authority>, dies: Option<nat>)
    returns (r: B.Outcome<B.Receipt>)
    requires Consistent(owner, adapter) && B.Admissible(owner.world, d, a)
    requires d.cls == owner.cls && d.identity == owner.identity && B.SpeaksFor(descriptor, d)
    modifies owner, adapter, adapter.worker
    ensures Consistent(owner, adapter) && B.Admissible(owner.world, d, a)
    ensures old(IsReserved(owner.world, IdentityOf(d))) ==> IsReserved(owner.world, IdentityOf(d))
    ensures r.Done? ==> At(owner.world, IdentityOf(d)).tx.Some? && Settled(At(owner.world, IdentityOf(d)).tx.value)
    ensures r.Stop? ==> r.cause in {B.AuthorityRefused, B.PreflightFailed, B.ReadmissionRefused, B.FailureTooLarge,
                                    B.ResultTooLarge, B.Crashed}
                        || (!old(IsReserved(owner.world, IdentityOf(d))) && r.cause == B.Exhausted)
    ensures dies.None? ==> r != B.Stop(B.Crashed)
    ensures readings == [] && standing == Some(a) && Admits(a, d) ==> r != B.Stop(B.AuthorityRefused)
  {
    owner.crashIn := dies;
    var backend := new B.Backend(owner, adapter, descriptor, readings, standing);
    var n := |owner.trail| - 1;
    r := backend.Execute(d, a, B.Moments(n, n, n, n), NoErrand(d));
    StillReserved(owner, n, IdentityOf(d));
  }

  lemma StillReserved(owner: Owner, n: nat, r: Reservation)
    requires owner.Valid() && n < |owner.trail|
    ensures IsReserved(owner.trail[n], r) ==> IsReserved(owner.world, r)
  {
    OverTime(owner, n, |owner.trail| - 1, r);
    if IsReserved(owner.trail[n], r) {
      var i :| 0 <= i < |Reservations(owner.trail[n])| && Reservations(owner.trail[n])[i] == r;
      assert Reservations(owner.world)[i] == r;
    }
  }
}
