/**
 States that do arise: the program's own steps from an empty directory, up to where a
 property that might be hoped for fails.
 */
module ProofWitnesses {
  import opened Bytes
  import opened ProofPolicy
  import opened ProofTransaction
  import opened ProofOwner
  import W = ExecutionWorker
  import A = ProofAdapter
  import B = ProofBackend

  const POSTURE := Posture(ActiveAcceptance, Implementation, ProductContract, true, true, Some(Acceptance), true, true)
  const AUTHORITY := Authority(1, POSTURE, 2, 3, 4, 5, 6, 0, 0, 7, 1, false, 0, 0)
  const DELEGATION := Delegation(Acceptance, 7, 1, 2, 3, 4, 5, 6, true, 1)
  const DESCRIPTOR := B.Descriptor(Acceptance, 3, 4, 5, 6)
  const OF := Reservation(Acceptance, 7, 2, 4, 5, 3, 6)

  /** A worker's run in which nothing goes wrong, and the exchanges of such a launch. */
  function Clean(): W.Script {
    W.Script(true, W.InFull, true, true, [],
             W.Returned(W.Observed(W.Available(1, true), true, false), 2),
             true, Some(true), Some(true), true, true, true, [], W.InFull, W.InFull)
  }

  function Exchanges(): seq<A.Exchange> {
    var x := A.Exchange(A.Delivered, Clean(), 0, None, false, true);
    [x, x, x]
  }

  lemma Delegated()
    ensures Admits(AUTHORITY, DELEGATION) && IdentityOf(DELEGATION) == OF && B.SpeaksFor(DESCRIPTOR, DELEGATION)
  {
    assert POSTURE in POSTURES;
  }

  /** Where the steps below have got to, and whose they are. */
  ghost predicate Underway(backend: B.Backend, t: Transaction, b: Budget)
    reads backend, backend.owner, backend.adapter, backend.adapter.worker
  {
    && backend.Ready() && backend.Holds(t) && t.reservation == OF && t.delegation == DELEGATION
    && backend.owner.cls == Acceptance && backend.owner.identity == 7 && backend.owner.crashIn.None?
    && backend.owner.world.budget == Some(b) && b.maximum >= b.consumed
    && B.PlanFor(backend.owner.world, DELEGATION, AUTHORITY) == B.Keep(b)
    && backend.Steady(AUTHORITY, DELEGATION) && backend.descriptor == DESCRIPTOR
  }

  /** The adapter has yet to be used. */
  predicate Ahead(adapter: A.Adapter)
    reads adapter, adapter.worker
  {
    adapter.exchanges == Exchanges() && adapter.late == [] && adapter.preflights == [] && adapter.worker.roots == map[]
  }

  lemma AheadIsSmooth(adapter: A.Adapter)
    requires Ahead(adapter)
    ensures adapter.Smooth()
  {
    assert adapter.LocallyReady();
    assert adapter.LaunchesFrom(1);
  }

  /** A controller with an empty directory, a worker that knows nothing, and a smooth link. */
  method Open(len: Lengths) returns (backend: B.Backend)
    ensures fresh(backend) && fresh(backend.owner) && fresh(backend.adapter) && fresh(backend.adapter.worker)
    ensures backend.Ready() && backend.owner.world == EMPTY && backend.owner.crashIn.None?
    ensures backend.owner.len == len && backend.owner.cls == Acceptance && backend.owner.identity == 7
    ensures backend.Steady(AUTHORITY, DELEGATION) && backend.descriptor == DESCRIPTOR
    ensures Ahead(backend.adapter)
  {
    Delegated();
    var owner := new Owner(len, Acceptance, 7);
    var worker := new W.Worker();
    var adapter := new A.Adapter(worker, 1, None);
    adapter.exchanges := Exchanges();
    backend := new B.Backend(owner, adapter, DESCRIPTOR, [], Some(AUTHORITY));
  }

  /** An acceptance execution up to its launch. */
  method Launch(len: Lengths) returns (backend: B.Backend, t: Transaction, b: Budget)
    ensures fresh(backend) && fresh(backend.owner) && fresh(backend.adapter) && fresh(backend.adapter.worker)
    ensures Underway(backend, t, b) && backend.owner.len == len && t.state.Launching? && backend.Files(t).invokes == 0
    ensures Ahead(backend.adapter)
  {
    Delegated();
    backend := Open(len);
    var prepared := backend.Prepare(DELEGATION, None);
    var reserved := backend.Reserve(prepared.value, B.Template(DELEGATION));
    b := reserved.value;
    var launching := backend.MarkLaunching(prepared.value);
    t := launching.value;
  }

  /** And on to its successful observation on disk. */
  method Observe(len: Lengths) returns (backend: B.Backend, t: Transaction, b: Budget, o: Observation)
    requires forall o :: len.observation(o) <= RESULT_MAX
    ensures fresh(backend) && fresh(backend.owner) && fresh(backend.adapter) && fresh(backend.adapter.worker)
    ensures Underway(backend, t, b) && backend.owner.len == len && t.state.Observed? && t.observation == Some(o)
    ensures o.kind == Success && Acceptable(o) && t.failure.None?
  {
    var launching;
    backend, launching, b := Launch(len);
    AheadIsSmooth(backend.adapter);
    var out := backend.Invoke(launching);
    o := out.value.observation;
    t := SaveObserved(backend, launching, b, o);
  }

  method SaveObserved(backend: B.Backend, launching: Transaction, b: Budget, o: Observation) returns (t: Transaction)
    requires Underway(backend, launching, b) && launching.state.Launching? && Recordable(backend.owner.len, o)
    requires o.kind == Success ==> backend.adapter.Vouched(OF)
    modifies backend.owner
    ensures Underway(backend, t, b) && t.state.Observed? && t.observation == Some(o) && t.failure.None?
  {
    t := Move(launching.(observation := Some(o)), Observed).value;
    Observes(backend, launching, o, t);
    var saved := backend.Save(launching, t);
  }

  lemma Observes(backend: B.Backend, launching: Transaction, o: Observation, t: Transaction)
    requires backend.owner.Valid() && backend.Holds(launching) && launching.state.Launching?
             && Recordable(backend.owner.len, o)
    requires t == Move(launching.(observation := Some(o)), Observed).value
    ensures B.Successor(launching, t) && Carries(t) && t.failure.None?
    ensures B.FilesVerify(backend.owner.len, launching.reservation, backend.Files(launching), t)
  {
    backend.Known(launching.reservation);
  }

  const ANSWER := Admitted(0)

  // --------------------------------------------- verified, and never retained

  const DIAGNOSTIC := Reservation(Diagnostic, 8, 2, 4, 5, 3, 6)

  /** A run that is verified without any error, and then finds the protected state changed. */
  function Disturbed(): W.Script {
    Clean().(after := Some(false))
  }

  const WANTED := W.Request(DIAGNOSTIC, 1, None)
  const MARRED := W.Value(WANTED, Inconclusive, DiagnosticInconclusive, W.Verified(2), CleanupComplete, Changed)

  lemma OnlyMarred(kind: Kind, summary: W.Summary, cleanup: Cleanup, protected: Protected)
    requires W.Tells(WANTED, kind, summary, cleanup, protected, Disturbed())
    ensures W.Value(WANTED, kind, W.Label(WANTED, kind), summary, cleanup, protected) == MARRED
  {
  }

  /** The worker publishes what it verified as inconclusive; the controller's adapter takes
      that for no answer, when it asked for the run and whenever it asks again, so that
      nothing of it is ever retained. */
  method VerifiedInVain() returns (out: A.Invoked, again: Option<Observation>, worker: W.Worker)
    ensures worker.Valid() && W.Inspect(worker.roots, WANTED) == W.Seen(MARRED)
    ensures out == A.NotKnown(A.WORKLOADS_UNKNOWN, CleanupUnknown, ProtectedUnknown) && again == None
  {
    worker := new W.Worker();
    var adapter := new A.Adapter(worker, 1, None);
    out := AskFirst(adapter);
    again := AskAgain(adapter);
  }

  method AskFirst(adapter: A.Adapter) returns (out: A.Invoked)
    requires adapter.Valid() && adapter.worker.roots == map[] && adapter.program == 1 && adapter.product == None
    requires adapter.late == [] && adapter.preflights == []
    modifies adapter, adapter.worker
    ensures adapter.Valid() && adapter.program == 1 && adapter.product == None
    ensures out == A.NotKnown(A.WORKLOADS_UNKNOWN, CleanupUnknown, ProtectedUnknown)
    ensures W.Inspect(adapter.worker.roots, WANTED) == W.Seen(MARRED)
  {
    var x := A.Exchange(A.Delivered, Disturbed(), 0, None, false, true);
    adapter.exchanges := [x, x, x];
    assert adapter.LocallyReady();
    ghost var seen, at, last, attempted;
    out, seen, at, last, attempted := adapter.Invoke(DIAGNOSTIC);
    var v := last.reply.value;
    OnlyMarred(v.kind, v.summary, v.cleanup, v.protected);
  }

  /** However often it is asked again of what is there now. */
  method AskAgain(adapter: A.Adapter) returns (again: Option<Observation>)
    requires adapter.Valid() && adapter.program == 1 && adapter.product == None
    requires W.Inspect(adapter.worker.roots, WANTED) == W.Seen(MARRED)
    modifies adapter, adapter.worker
    ensures adapter.Valid() && again == None && adapter.worker.roots == old(adapter.worker.roots)
  {
    adapter.exchanges := [A.Exchange(A.Delivered, Disturbed(), |adapter.worker.trail|, None, false, true)];
    adapter.late := [];
    ghost var at;
    again, at := adapter.Reconcile(DIAGNOSTIC);
  }

  // ------------------------------------------------------ a result too large

  function Sized(observation: nat, admitted: nat, result: nat, failure: nat): Lengths {
    Lengths((o: Observation) => observation, (a: Admitted) => admitted, (r: ResultRecord) => result,
            (f: Failure) => failure)
  }

  /** The observation and what the adapter admits of it are each within their bounds, and one
      byte joins them: the result does not fit, and the transaction stays as it is, run after
      run. */
  method ResultNeverFits() returns (backend: B.Backend, t: Transaction, first: B.Outcome<B.Receipt>,
                                    second: B.Outcome<B.Receipt>)
    ensures backend.Ready() && backend.Holds(t) && t.state.Observed? && AdmittedFits(backend.owner.len, ANSWER)
    ensures t.observation.Some? && Recordable(backend.owner.len, t.observation.value)
    ensures first == second == B.Stop(B.ResultTooLarge)
  {
    var b, o;
    backend, t, b, o := Observe(Sized(RESULT_MAX, RESULT_MAX, 2 * RESULT_MAX + 1, 0));
    backend.ObservedIsRecordable(t, o);
    JudgedTooLarge(backend.owner.len, t, o);
    first := AdmitAnew(backend, t, b, o);
    second := AdmitAnew(backend, t, b, o);
  }

  lemma JudgedTooLarge(len: Lengths, t: Transaction, o: Observation)
    requires len == Sized(RESULT_MAX, RESULT_MAX, 2 * RESULT_MAX + 1, 0)
    requires t.reservation.cls == Acceptance && o.kind == Success && Acceptable(o) && t.delegation.eligible
    ensures AdmittedFits(len, ANSWER) && !ResultFits(len, ResultOf(t, o, ANSWER))
    ensures B.Judgement(len, t, o, Some(ANSWER)) == B.Succeeds(ResultOf(t, o, ANSWER))
  {
    PartsFitButEnvelopeDoesNot(len, t, o, ANSWER, 1);
  }

  /** One run: the adapter admits the answer, and nothing comes of it. */
  method AdmitAnew(backend: B.Backend, t: Transaction, b: Budget, o: Observation) returns (r: B.Outcome<B.Receipt>)
    requires backend.Ready() && backend.Holds(t) && b.maximum >= b.consumed && backend.owner.crashIn.None?
    requires t.state.Observed? && t.observation == Some(o)
    requires B.Judgement(backend.owner.len, t, o, Some(ANSWER)) == B.Succeeds(ResultOf(t, o, ANSWER))
    requires !ResultFits(backend.owner.len, ResultOf(t, o, ANSWER))
    modifies backend.owner, backend.adapter, backend.adapter.worker
    ensures backend.Ready() && backend.Holds(t) && backend.owner.crashIn.None?
    ensures r == B.Stop(B.ResultTooLarge) && backend.owner.world == old(backend.owner.world)
  {
    backend.adapter.admissions := [Some(ANSWER)];
    r := backend.Resume(t, b, None, None);
  }

  /** Nor need a failure fit: a success the adapter does not admit is then left as it is. */
  method FailureNeverFits() returns (backend: B.Backend, t: Transaction, r: B.Outcome<B.Receipt>)
    ensures backend.Ready() && backend.Holds(t) && t.state.Observed? && r == B.Stop(B.FailureTooLarge)
  {
    var b, o;
    backend, t, b, o := Observe(Sized(0, 0, 0, FAILURE_MAX + 1));
    backend.adapter.admissions := [None];
    r := backend.ProcessObservation(t, b, o);
  }

  // ------------------------------------------------------- rendered in vain

  /** The process dies between naming the result and closing. */
  method Retain() returns (backend: B.Backend, t: Transaction)
    ensures fresh(backend) && fresh(backend.owner) && fresh(backend.adapter) && fresh(backend.adapter.worker)
    ensures Renderable(backend, DELEGATION, AUTHORITY, ANSWER) && backend.Files(t).recoveries == map[]
            && t.reservation == OF
  {
    var b, o, seen;
    backend, seen, b, o := Observe(Sized(0, 0, 0, 0));
    t := NameResult(backend, seen, b, o);
  }

  method NameResult(backend: B.Backend, seen: Transaction, b: Budget, o: Observation) returns (t: Transaction)
    requires Underway(backend, seen, b) && seen.state.Observed? && seen.observation == Some(o)
    requires o.kind == Success && Acceptable(o) && ResultFits(backend.owner.len, ResultOf(seen, o, ANSWER))
    modifies backend.owner
    ensures Underway(backend, t, b) && t.state.ResultRetained? && backend.Files(t).recoveries == map[]
    ensures backend.Files(t).result == Some(ResultOf(seen, o, ANSWER))
  {
    var record := ResultOf(seen, o, ANSWER);
    WritesResult(backend, seen, o, record);
    var alive := backend.Put(OF, At(backend.owner.world, OF).(result := Some(record)));
    t := Move(seen.(result := Some(Sha(record))), ResultRetained).value;
    Retains(backend, seen, o, record, t);
    var saved := backend.Save(seen, t);
  }

  lemma WritesResult(backend: B.Backend, t: Transaction, o: Observation, record: ResultRecord)
    requires backend.owner.Valid() && backend.Holds(t) && t.state.Observed? && t.observation == Some(o)
    ensures var s := backend.Files(t).(result := Some(record));
            && SlotSound(backend.owner.len, t.reservation, s, true) && SlotFollows(backend.Files(t), s)
            && s.recoveries == map[] && (o.kind == Success ==> B.SuccessRetained(backend.Files(t)))
  {
    backend.Known(t.reservation);
  }

  lemma Retains(backend: B.Backend, seen: Transaction, o: Observation, record: ResultRecord, t: Transaction)
    requires backend.owner.Valid() && backend.Holds(seen) && seen.state.Observed? && seen.observation == Some(o)
    requires o.kind == Success && Acceptable(o) && seen.delegation.eligible && record == ResultOf(seen, o, ANSWER)
    requires ResultFits(backend.owner.len, record) && backend.Files(seen).result == Some(record)
    requires t == Move(seen.(result := Some(Sha(record))), ResultRetained).value
    ensures B.Successor(seen, t) && Carries(t)
    ensures B.FilesVerify(backend.owner.len, seen.reservation, backend.Files(seen), t)
  {
    backend.Known(seen.reservation);
    B.NamesResult(backend.owner.len, seen.reservation, backend.Files(seen), seen, o, record, t);
  }

  /** A retained result that the adapter would admit again, under an authority that stands. */
  ghost predicate Renderable(backend: B.Backend, d: Delegation, a: Authority, answer: Admitted)
    reads backend, backend.owner, backend.adapter, backend.adapter.worker
  {
    && backend.Ready() && d.cls == Acceptance == backend.owner.cls && d.identity == backend.owner.identity
    && backend.Steady(a, d) && backend.AdapterAdmitted(d) && backend.owner.crashIn.None?
    && B.Admissible(backend.owner.world, d, a)
    && At(backend.owner.world, IdentityOf(d)).tx.Some?
       && At(backend.owner.world, IdentityOf(d)).tx.value.state.ResultRetained?
    && B.Readmits(backend.owner.len, At(backend.owner.world, IdentityOf(d)), Some(answer))
  }

  /** Called on any such transaction for a revision not used before, `render_retained` makes
      the evidence and then meets the illegal step. */
  method RenderOnce(backend: B.Backend, d: Delegation, a: Authority, answer: Admitted, revision: nat)
    returns (r: B.Outcome<B.Receipt>)
    requires Renderable(backend, d, a, answer) && revision !in At(backend.owner.world, IdentityOf(d)).recoveries
    requires backend.adapter.NextAdmission() == Some(answer) && backend.adapter.WillRender()
    modifies backend`authorities, backend.owner, backend.adapter`renderings, backend.adapter`admissions
    ensures r == B.Stop(B.IllegalTransition) && B.RenderedInVain(At(backend.owner.world, IdentityOf(d)), revision)
    ensures Renderable(backend, d, a, answer)
  {
    ghost var before, n := backend.owner.world, |backend.owner.trail| - 1;
    EndsInVain(backend, d, answer, revision);
    r := backend.RenderRetained(d, a, revision);
    StillReadmits(backend, before, n, IdentityOf(d), answer);
  }

  lemma EndsInVain(backend: B.Backend, d: Delegation, answer: Admitted, revision: nat)
    requires backend.owner.Valid() && At(backend.owner.world, IdentityOf(d)).tx.Some?
    requires At(backend.owner.world, IdentityOf(d)).tx.value.state.ResultRetained?
    requires revision !in At(backend.owner.world, IdentityOf(d)).recoveries
    requires B.Readmits(backend.owner.len, At(backend.owner.world, IdentityOf(d)), Some(answer))
    ensures B.Recovering(backend.owner.len, At(backend.owner.world, IdentityOf(d)), revision, Some(answer), true)
            == Some(B.IllegalTransition)
  {
    backend.Known(IdentityOf(d));
    B.InVainExactly(backend.owner.len, IdentityOf(d), At(backend.owner.world, IdentityOf(d)), revision, Some(answer),
                    true);
  }

  lemma StillReadmits(backend: B.Backend, before: World, n: nat, of: Reservation, answer: Admitted)
    requires backend.owner.Valid() && n < |backend.owner.trail| && backend.owner.trail[n] == before
    requires At(before, of).tx.Some? && At(before, of).tx.value.state.ResultRetained?
    requires B.Readmits(backend.owner.len, At(before, of), Some(answer))
    ensures B.Readmits(backend.owner.len, At(backend.owner.world, of), Some(answer))
  {
    SoundAt(backend.owner.len, backend.owner.cls, backend.owner.identity, before, of);
    backend.StaleFollows(of, n, |backend.owner.trail| - 1);
  }

  /** The same revision is refused afterwards, though nothing says the evidence was rendered. */
  method RenderAgain(backend: B.Backend, d: Delegation, a: Authority, answer: Admitted, revision: nat)
    returns (r: B.Outcome<B.Receipt>)
    requires Renderable(backend, d, a, answer) && B.RenderedInVain(At(backend.owner.world, IdentityOf(d)), revision)
    requires backend.adapter.NextAdmission() == Some(answer)
    modifies backend`authorities, backend.owner, backend.adapter`renderings, backend.adapter`admissions
    ensures r == B.Stop(B.RevisionAttempted)
  {
    backend.Known(IdentityOf(d));
    B.InVainExactly(backend.owner.len, IdentityOf(d), At(backend.owner.world, IdentityOf(d)), revision, Some(answer),
                    backend.adapter.WillRender());
    r := backend.RenderRetained(d, a, revision);
  }

  /** Both, from an empty directory. */
  method RenderTwice() returns (backend: B.Backend, first: B.Outcome<B.Receipt>, second: B.Outcome<B.Receipt>)
    ensures first == B.Stop(B.IllegalTransition) && second == B.Stop(B.RevisionAttempted)
  {
    var t;
    Delegated();
    backend, t := Retain();
    backend.adapter.admissions, backend.adapter.renderings := [Some(ANSWER)], [];
    first := RenderOnce(backend, DELEGATION, AUTHORITY, ANSWER, 1);
    backend.adapter.admissions := [Some(ANSWER)];
    second := RenderAgain(backend, DELEGATION, AUTHORITY, ANSWER, 1);
  }
}
