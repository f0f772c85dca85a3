/**
 The reservation worker on the other machine (tools/pc0_execution_worker.py): one run
 per reservation, its checkpoints, and a publication that a crash may tear.
 */
module ExecutionWorker {
  import opened Bytes
  import opened ProofPolicy
  import opened ProofTransaction

  /** What binds a request: the reservation, the worker program that serves it, and the
      product it is for, if any. */
  datatype Request = Request(of: Reservation, worker: nat, product: Option<Product>)

  /** A file that is created exclusively and written in place. */
  datatype File<+T> = Missing | Torn | Whole(content: T)

  /** What a supervisor has to show: a projection of it, and whether all processes are gone. */
  datatype Available = Available(facts: nat, contained: bool)

  /** A supervisor's ordinary result. */
  datatype Observed = Observed(available: Available, scannerCompleted: bool, supervisionException: bool)

  datatype Stage =
    | AtReserved | AtGuard | AtCreate | AtSupervise | AtCallback(n: nat) | AtRetained | AtNormalize
    | BeforeRetirement | AtRetirement | AtProtected | AtReadback | AtReport | AtAdmission
    | AtPublication | PublicationFailed

  datatype Retirement = NotAttemptedContainment | Retired | RetirementFailed | NotAttemptedUnretained

  datatype Trouble = Trouble(stage: Stage, observation: Option<nat>, primary: Option<Stage>, secondary: seq<Stage>,
                             persistence: seq<Stage>, retirement: Retirement)

  ghost predicate NoErrors(t: Trouble) {
    t.primary.None? && t.secondary == [] && t.persistence == []
  }

  datatype Summary = Verified(facts: nat) | FailureReport(facts: nat) | Troubleshooting(trouble: Trouble)

  datatype Value = Value(binding: Request, kind: Kind, classification: Classification, summary: Summary,
                         cleanup: Cleanup, protected: Protected)

  /** The classification an observation is published with. Acceptance and products know
      only a success and everything else. */
  function Label(q: Request, kind: Kind): Classification {
    if q.product.Some? then
      (if kind == Success then SamplesVerified(q.product.value) else ProductInconclusive(q.product.value))
    else if q.of.cls == Acceptance then (if kind == Success then AcceptanceObserved else AcceptanceInconclusive)
    else match kind
      case Success => DiagnosticObserved
      case Failed => DiagnosticFailed
      case Inconclusive => DiagnosticInconclusive
  }

  /** A success states complete cleanup, unchanged protected state and what was verified. */
  predicate Complete(v: Value) {
    v.cleanup == CleanupComplete && v.protected == Unchanged && v.summary.Verified?
  }

  /** What a published observation looks like: labelled by its kind, and a plain failure has
      a report, or for a product the troubles. */
  ghost predicate Publishable(v: Value) {
    && v.classification == Label(v.binding, v.kind)
    && (v.kind == Success ==> Complete(v))
    && (v.kind == Failed ==> if v.binding.product.Some? then v.summary.Troubleshooting? else v.summary.FailureReport?)
  }

  /** What was really done for a request, beside its files: how often the supervisor ran,
      what it returned, what retirement and the readbacks answered, and what troubles
      were on record when publication began. */
  datatype Deeds = Deeds(supervised: nat, returned: Option<Observed>, retired: bool, same: bool, guarded: bool,
                         troubles: Option<Trouble>)

  datatype Root = Root(intent: File<Request>, locked: bool, checkpoint: Option<Value>, observation: File<Value>,
                       sidecar: File<Digest<Value>>, deeds: Deeds)

  const IDLE := Deeds(0, None, false, false, false, None)
  const FRESH := Root(Missing, false, None, Missing, Missing, IDLE)

  /** A run that deserves to be called a success. */
  ghost predicate Proved(d: Deeds) {
    && d.supervised == 1 && d.returned.Some? && d.returned.value.scannerCompleted
       && d.returned.value.available.contained
    && !d.returned.value.supervisionException && d.retired && d.same && d.guarded
    && d.troubles.Some? && NoErrors(d.troubles.value)
  }

  // ------------------------------------------------------------- inspection

  datatype Reply = Absent | Unknown | Seen(value: Value) | Raises

  /** `inspect`: bounded retrieval, touching nothing. */
  function Inspect(roots: map<Reservation, Root>, q: Request): (r: Reply)
  {
    if q.of !in roots then Absent
    else
      var root := roots[q.of];
      if root.intent.Missing? then Unknown
      else if root.intent != Whole(q) then Raises
      else if root.observation.Missing? || root.sidecar.Missing? then
        match root.checkpoint
        case None => Unknown
        case Some(v) => if v.binding != q || v.kind != Inconclusive then Raises else Seen(v)
      else if !root.observation.Whole? || root.sidecar != Whole(Sha(root.observation.content)) then Raises
      else if root.observation.content.binding != q then Raises
      else Seen(root.observation.content)
  }

  predicate Succeeds(r: Reply) {
    r.Seen? && r.value.kind == Success
  }

  /** A success is seen exactly when a successful observation and its sidecar are whole. */
  lemma InspectIs(roots: map<Reservation, Root>, q: Request)
    requires q.of in roots && RootSound(q.of, roots[q.of])
    ensures Succeeds(Inspect(roots, q)) <==>
              && roots[q.of].intent == Whole(q) && roots[q.of].observation.Whole? && roots[q.of].sidecar.Whole?
              && roots[q.of].observation.content.kind == Success
  {
  }

  ghost predicate RootSound(of: Reservation, root: Root) {
    && (root.intent.Whole? ==> root.intent.content.of == of)
    && (!root.intent.Whole? ==> root == FRESH.(intent := root.intent))
    && root.deeds.supervised <= 1
    && (root.checkpoint.Some? ==>
          && root.checkpoint.value.binding == root.intent.content && root.checkpoint.value.kind == Inconclusive
          && root.checkpoint.value.classification == DiagnosticInconclusive
          && root.checkpoint.value.summary.Troubleshooting?)
    && (root.sidecar.Missing? || root.observation.Whole?)
    && (root.sidecar.Whole? ==> root.sidecar.content == Sha(root.observation.content))
    && (root.observation.Whole? ==>
          && root.observation.content.binding == root.intent.content
          && Publishable(root.observation.content)
          && (root.observation.content.kind == Success ==> Proved(root.deeds)))
  }

  ghost predicate RootFollows(a: Root, b: Root) {
    && (a.intent.Missing? || b.intent == a.intent)
    && (a.observation.Missing? || b.observation == a.observation)
    && (a.sidecar.Missing? || b.sidecar == a.sidecar)
    && (a.checkpoint.Some? ==> b.checkpoint.Some?)
    && a.deeds.supervised <= b.deeds.supervised
    && (a.deeds.troubles.Some? ==> b.deeds == a.deeds)
  }

  /** Each state of an observation and its sidecar being put in place is sound and follows. */
  lemma PublishedSoundly(q: Request, before: Root, root: Root, value: Value)
    requires RootSound(q.of, before) && before.intent == Whole(q) && before.deeds.troubles.None?
    requires before.observation.Missing? && before.sidecar.Missing? && root == before.(deeds := root.deeds)
    requires root.deeds == before.deeds.(troubles := root.deeds.troubles)
    requires value.binding == q && Publishable(value) && (value.kind == Success ==> Proved(root.deeds))
    ensures var seen := root.(observation := Whole(value));
            && RootSound(q.of, root.(observation := Torn)) && RootFollows(before, root.(observation := Torn))
            && RootSound(q.of, seen) && RootFollows(before, seen)
            && RootSound(q.of, seen.(sidecar := Torn)) && RootFollows(seen, seen.(sidecar := Torn))
            && RootSound(q.of, seen.(sidecar := Whole(Sha(value))))
            && RootFollows(seen, seen.(sidecar := Whole(Sha(value))))
  {
  }

  ghost predicate Sound(roots: map<Reservation, Root>) {
    forall r :: r in roots ==> RootSound(r, roots[r])
  }

  ghost predicate Evolves(a: map<Reservation, Root>, b: map<Reservation, Root>) {
    forall r :: r in a ==> r in b && RootFollows(a[r], b[r])
  }

  /** Some run for this reservation deserved a success. */
  ghost predicate ProvedIn(roots: map<Reservation, Root>, r: Reservation) {
    r in roots && Proved(roots[r].deeds)
  }

  /** Whatever instant it reads, inspection says SUCCESS only of a proved run, and a run
      once proved, like an observation once published, stays so. */
  lemma InspectedSuccessIsProved(earlier: map<Reservation, Root>, now: map<Reservation, Root>, q: Request)
    requires Sound(earlier) && Evolves(earlier, now)
    ensures Inspect(earlier, q).Seen? ==> Inspect(earlier, q).value.binding == q
    ensures Inspect(earlier, q).Seen? && Inspect(earlier, q).value.kind == Success ==>
              && ProvedIn(earlier, q.of) && ProvedIn(now, q.of) && Inspect(now, q) == Inspect(earlier, q)
              && Complete(Inspect(earlier, q).value)
  {
    if q.of in earlier {
      assert RootSound(q.of, earlier[q.of]) && RootFollows(earlier[q.of], now[q.of]);
    }
  }

  /** A reservation belongs to the program whose intent came first: from then on another
      program's requests for it are refused at every inspection, and so by every execution. */
  lemma OneProgram(earlier: map<Reservation, Root>, now: map<Reservation, Root>, p: Request, q: Request)
    requires Evolves(earlier, now) && p.of == q.of && p != q && p.of in earlier && earlier[p.of].intent == Whole(p)
    ensures Inspect(earlier, q) == Raises && Inspect(now, q) == Raises
  {
    assert RootFollows(earlier[p.of], now[p.of]);
  }

  class Worker {
    var roots: map<Reservation, Root>
    var trail: seq<map<Reservation, Root>>
    var crashIn: Option<nat>

    ghost predicate Valid()
      reads this
    {
      && trail != [] && trail[|trail| - 1] == roots
      && (forall i :: 0 <= i < |trail| ==> Sound(trail[i]))
      && (forall i, j :: 0 <= i <= j < |trail| ==> Evolves(trail[i], trail[j]))
    }

    constructor ()
      ensures Valid() && roots == map[]
    {
      roots, trail, crashIn := map[], [map[]], None;
    }

    method Put(of: Reservation, root: Root) returns (alive: bool)
      requires Valid() && RootSound(of, root) && (of in roots ==> RootFollows(roots[of], root))
      modifies this
      ensures Valid() && old(trail) <= trail
      ensures roots == if alive then old(roots)[of := root] else old(roots)
      ensures old(crashIn).None? ==> alive && crashIn.None?
    {
      if crashIn.Some? && crashIn.value == 0 {
        return false;
      }
      crashIn := if crashIn.Some? then Some(crashIn.value - 1) else None;
      var now := roots[of := root];
      assert Evolves(roots, now);
      forall i | 0 <= i < |trail| ensures Evolves(trail[i], now) {
        EvolvesOn(trail[i], roots, now);
      }
      roots, trail, alive := now, trail + [now], true;
    }
  }

  lemma EvolvesOn(a: map<Reservation, Root>, b: map<Reservation, Root>, c: map<Reservation, Root>)
    requires Evolves(a, b) && Evolves(b, c)
    ensures Evolves(a, c)
  {
  }

  // -------------------------------------------------------------- one run

  /** How a publication goes: in full; refused before a byte; raising with a partial or
      with the whole file left behind; or the process dying with a partial one. */
  datatype Fault = InFull | RefusedEarly | RaisedTorn | RaisedWhole | DiedTorn

  /** How saving a checkpoint goes; the file is replaced atomically or not at all. */
  datatype Save = Saved | NotSaved | SavedThenRaised

  datatype Callback = Callback(stage: nat, available: Option<Available>, error: bool, save: Save)
  datatype Supervision = Returned(observed: Observed, facts: nat) | SupervisionRaised

  /** Everything outside the worker's own logic that one run meets. */
  datatype Script = Script(
    preflight: bool, intent: Fault, guard: bool, create: bool, callbacks: seq<Callback>, supervision: Supervision,
    normalize: bool, retirement: Option<bool>, after: Option<bool>, guardAfter: bool, report: bool, admission: bool,
    saves: seq<Save>, observation: Fault, sidecar: Fault)

  datatype Published = InPlace | Raised | Dead

  /** Workloads an answer owns up to: none (it found a record), one, or that it cannot say,
      and for the last two whether the observation was published; or nothing is stated. */
  datatype Workloads = NoneHere | One(published: bool) | CannotSay(published: bool) | NotStated

  /** The answer to an execute request. */
  datatype Answer = Died | Refused | Answered(reply: Reply, workloads: Workloads)

  /** What `checkpoint` keeps up to date across calls. */
  datatype Progress = Progress(trouble: Trouble, contained: bool, availableSaved: bool)

  const BEGUN := Progress(Trouble(AtReserved, None, None, [], [], NotAttemptedContainment), false, false)

  /** What counts as saved is what the checkpoint on disk says. */
  ghost predicate Faithful(p: Progress, root: Root) {
    && (p.availableSaved ==> p.trouble.observation.Some? && OnDisk(root) == p.trouble.observation)
    && (p.trouble.primary.None? ==> p.trouble.secondary == [])
  }

  /** The progress after a checkpoint that noted `noted` and was saved so. */
  function After(p: Progress, noted: Trouble, available: Option<Available>, save: Save, alive: bool): Progress {
    Progress(if save.Saved? || |noted.persistence| >= 4 then noted
             else noted.(persistence := noted.persistence + [noted.stage]),
             if available.Some? then available.value.contained else p.contained,
             if alive && save.Saved? then noted.observation.Some? else p.availableSaved && available.None?)
  }

  lemma AfterFaithful(p: Progress, before: Root, stage: Stage, available: Option<Available>, error: bool, save: Save,
                      alive: bool,
                      value: Value, root: Root)
    requires Faithful(p, before) && value.summary == Troubleshooting(Noted(p.trouble, stage, available, error))
    requires root == if save.NotSaved? || !alive then before else before.(checkpoint := Some(value))
    ensures Faithful(After(p, Noted(p.trouble, stage, available, error), available, save, alive), root)
  {
  }

  /** The supervisor returned, its scanner completed, and every process was gone. */
  ghost predicate Supervised(d: Deeds, p: Progress) {
    && d.supervised == 1 && d.returned.Some? && d.returned.value.scannerCompleted
    && d.returned.value.available.contained && p.contained
    && (d.returned.value.supervisionException ==> p.trouble.primary.Some?)
  }

  /** The variables of one run of `execute` after its intent is published. */
  datatype Variables = Variables(progress: Progress, environment: bool, observed: Option<Observed>, retired: bool,
                                 kind: Kind, summary: Option<Summary>, cleanup: Cleanup, protected: Protected)

  const INITIAL := Variables(BEGUN, false, None, false, Inconclusive, None, CleanupUnknown, ProtectedUnknown)

  /** What the variables claim was really done. */
  ghost predicate Consistent(v: Variables, root: Root) {
    && v.observed == root.deeds.returned && v.retired == root.deeds.retired && Faithful(v.progress, root)
    && (v.kind == Success ==>
        Supervised(root.deeds, v.progress) && v.summary.Some? && v.summary.value.Verified? && v.observed.Some?)
    && (v.protected == Unchanged ==> root.deeds.same)
    && (v.cleanup == CleanupComplete ==> v.retired && root.deeds.guarded)
  }

  function ErrorIn(v: Variables, stage: Stage): (w: Variables)
    ensures w == v.(progress := w.progress)
            && w.progress == v.progress.(trouble := WithError(v.progress.trouble, stage))
    ensures w.progress.trouble.primary.Some?
  {
    v.(progress := v.progress.(trouble := WithError(v.progress.trouble, stage)))
  }

  /** No error is on record, of the run or of its checkpoints. */
  predicate Spotless(v: Variables) {
    v.progress.trouble.primary.None? && v.progress.trouble.persistence == []
  }

  /** Neither retirement nor any readback has been tried. */
  predicate Undecided(v: Variables) {
    v.cleanup == CleanupUnknown && v.protected == ProtectedUnknown && !v.retired
        && (v.kind != Success ==> v.summary.None?)
  }

  /** The supervisor returned, its scanner completed, nothing runs any more, and what it
      returned could be normalized. */
  predicate Sees(s: Script) {
    && s.guard && s.create && s.supervision.Returned? && s.normalize
    && s.supervision.observed.scannerCompleted && s.supervision.observed.available.contained
  }

  predicate Quiet(callbacks: seq<Callback>) {
    forall i :: 0 <= i < |callbacks| ==> !callbacks[i].error && callbacks[i].save.Saved?
  }

  predicate Starts(s: Script) {
    s.guard && s.create
  }

  /** The last thing a supervisor's own checkpoints had to show. */
  function LastSeen(callbacks: seq<Callback>): Option<Available> {
    if callbacks == [] then None
    else
      var last := callbacks[|callbacks| - 1];
      if last.available.Some? then last.available else LastSeen(callbacks[..|callbacks| - 1])
  }

  /** The last thing seen of a run: its result, or else what its checkpoints had to show. */
  function SeenLast(s: Script): Option<Available> {
    if !Starts(s) then None
    else if s.supervision.Returned? then Some(s.supervision.observed.available)
    else LastSeen(s.callbacks)
  }

  predicate Gone(s: Script) {
    SeenLast(s).Some? && SeenLast(s).value.contained
  }

  /** The supervisor returned, and nothing went wrong up to there. */
  predicate Faultless(s: Script) {
    && Starts(s) && s.supervision.Returned? && !s.supervision.observed.supervisionException
    && (s.supervision.observed.scannerCompleted && s.supervision.observed.available.contained ==> s.normalize)
  }

  /** Nor did retirement or a readback raise. */
  predicate Unblemished(s: Script) {
    && Faultless(s) && s.after.Some?
    && (Gone(s) ==> s.retirement.Some? && (s.retirement == Some(true) ==> s.guardAfter))
  }

  /** What was last seen is in the checkpoint on disk. */
  ghost predicate Kept(p: Progress, seen: Option<Available>) {
    && p.availableSaved == seen.Some? && p.contained == (seen.Some? && seen.value.contained)
    && p.trouble.observation == if seen.Some? then Some(seen.value.facts) else None
  }

  lemma KeptOn(p: Progress, callbacks: seq<Callback>, i: nat)
    requires i < |callbacks| && Quiet(callbacks) && Kept(p, LastSeen(callbacks[..i]))
    ensures var c := callbacks[i];
            var q := After(p, Noted(p.trouble, AtCallback(c.stage), c.available, c.error), c.available, c.save, true);
            && Kept(q, LastSeen(callbacks[..i + 1])) && q.trouble.primary == p.trouble.primary
            && q.trouble.persistence == p.trouble.persistence
  {
    assert callbacks[..i + 1][..i] == callbacks[..i];
  }

  /** Where the guarded part of a run ends when every checkpoint is saved. */
  ghost predicate Watched(v: Variables, s: Script) {
    && v.environment == Starts(s) && Kept(v.progress, SeenLast(s))
    && v.observed == (if Starts(s) && s.supervision.Returned? then Some(s.supervision.observed) else None)
    && (v.kind == Success <==> Sees(s))
    && (v.kind == Failed <==>
          && Starts(s) && s.supervision.Returned?
          && !(s.supervision.observed.scannerCompleted && s.supervision.observed.available.contained))
    && v.summary == (if Sees(s) then Some(Verified(s.supervision.facts)) else None)
    && (Spotless(v) <==> Faultless(s))
  }

  /** And where it stands once retirement and the readbacks have been tried. */
  ghost predicate Ended(v: Variables, s: Script) {
    && v.observed == (if Starts(s) && s.supervision.Returned? then Some(s.supervision.observed) else None)
    && (v.kind == Success <==> Sees(s))
    && (v.kind == Failed <==>
          && Starts(s) && s.supervision.Returned?
          && !(s.supervision.observed.scannerCompleted && s.supervision.observed.available.contained))
    && v.summary == (if Sees(s) then Some(Verified(s.supervision.facts)) else None)
    && v.cleanup == (if Gone(s) && s.retirement == Some(true) && s.guardAfter then CleanupComplete
                     else CleanupIncomplete)
    && v.protected == (if s.after.None? then ProtectedUnknown else if s.after.value then Unchanged else Changed)
    && (Spotless(v) <==> Unblemished(s))
  }

  /** Every process was seen gone, the environment was retired, and both readbacks agreed. */
  predicate Clean(s: Script) {
    Gone(s) && s.retirement == Some(true) && s.after == Some(true) && s.guardAfter
  }

  /** What a run whose checkpoints are all saved tells of itself, kind by kind. */
  ghost predicate Tells(q: Request, kind: Kind, summary: Summary, cleanup: Cleanup, protected: Protected, s: Script) {
    && (kind == Success <==>
          && Sees(s) && !s.supervision.observed.supervisionException && Clean(s)
          && (q.product.Some? || q.of.cls == Acceptance ==> s.admission))
    && (kind == Failed <==>
          && Starts(s) && s.supervision.Returned? && !s.supervision.observed.scannerCompleted
          && !s.supervision.observed.supervisionException && Clean(s) && (q.product.Some? || s.report))
    && (cleanup == CleanupComplete <==> Gone(s) && s.retirement == Some(true) && s.guardAfter)
    && (cleanup == CleanupIncomplete <==> cleanup != CleanupComplete)
    && (protected == Unchanged <==> s.after == Some(true)) && (protected == Changed <==> s.after == Some(false))
    && (protected == ProtectedUnknown <==> s.after == None)
    && (kind == Success ==> summary.Verified?)
    && (summary.Verified? ==> Sees(s) && summary.facts == s.supervision.facts)
    && (summary.FailureReport? <==> q.product.None? && Unblemished(s) && !Sees(s) && s.report)
    && (summary.FailureReport? ==> summary.facts == s.supervision.observed.available.facts)
    && (summary.Verified? && kind != Success <==> Sees(s) && Unblemished(s) && !Clean(s))
  }

  /** The keeping of records meets no trouble: every checkpoint is saved and both files are
      published, and the supervisor reports no error of its own on the way. */
  ghost predicate Recorded(s: Script) {
    s.saves == [] && Quiet(s.callbacks) && s.observation == InFull && s.sidecar == InFull
  }

  /** The answer of such a run. */
  ghost predicate Told(answer: Answer, q: Request, s: Script) {
    && answer.Answered? && answer.reply.Seen?
    && var v := answer.reply.value;
    && Tells(q, v.kind, v.summary, v.cleanup, v.protected, s)
    && v.binding == q && v.classification == Label(q, v.kind)
    && (q.product.None? && q.of.cls != Acceptance ==>
          && (v.classification == DiagnosticObserved <==> v.kind == Success)
          && (v.classification == DiagnosticFailed <==> v.kind == Failed)
          && (v.classification == DiagnosticInconclusive <==> v.kind == Inconclusive))
    && (q.product.None? && q.of.cls == Acceptance ==>
          v.classification == if v.kind == Success then AcceptanceObserved else AcceptanceInconclusive)
    && (q.product.Some? ==>
          && (v.classification == SamplesVerified(q.product.value) <==> v.kind == Success)
          && (v.classification == ProductInconclusive(q.product.value) <==> v.kind != Success))
    && answer.workloads == if Starts(s) && s.supervision.Returned? then One(true) else CannotSay(true)
  }

  predicate Owned(w: Workloads) {
    w.One? || w.CannotSay?
  }

  /** Nothing goes wrong from the process guard to the publication. */
  ghost predicate Untroubled(s: Script) {
    && Sees(s) && !s.supervision.observed.supervisionException && s.saves == []
    && Quiet(s.callbacks)
    && s.retirement == Some(true) && s.after == Some(true) && s.guardAfter && s.admission
    && s.observation == InFull && s.sidecar == InFull
  }

  class Execution {
    const worker: Worker
    const request: Request
    var now: Variables
    var saves: seq<Save>

    constructor (worker: Worker, request: Request, saves: seq<Save>)
      ensures this.worker == worker && this.request == request && fresh(this) && now == INITIAL && this.saves == saves
    {
      this.worker, this.request, this.saves, now := worker, request, saves, INITIAL;
    }

    ghost predicate Owns()
      reads worker
    {
      worker.Valid() && request.of in worker.roots && Mine().intent == Whole(request)
    }

    ghost function Mine(): Root
      requires request.of in worker.roots
      reads worker
    {
      worker.roots[request.of]
    }

    /** Nothing is published yet. */
    ghost predicate Unpublished()
      reads worker
    {
      Owns() && Mine().observation.Missing? && Mine().sidecar.Missing? && Mine().deeds.troubles.None?
    }

    function Workloads(published: bool): Workloads
      reads this
    {
      if now.observed.Some? then One(published) else CannotSay(published)
    }

    function ComingSave(): Save
      reads this`saves
    {
      if saves == [] then Saved else saves[0]
    }

    method NextSave() returns (s: Save)
      modifies this`saves
      ensures now == old(now) && s == old(ComingSave()) && (old(saves) == [] ==> saves == [])
    {
      s := if saves == [] then Saved else saves[0];
      saves := if saves == [] then [] else saves[1..];
    }

    /** `checkpoint`, whoever calls it. */
    method Checkpoint(stage: Stage, available: Option<Available>, error: bool, save: Save) returns (alive: bool)
      requires Owns() && Faithful(now.progress, Mine())
      modifies this`now, worker
      ensures Owns() && Faithful(now.progress, Mine()) && OnlyAt(old(worker.roots), worker.roots, request.of)
      ensures Mine() == old(Mine()).(checkpoint := Mine().checkpoint) && RootFollows(old(Mine()), Mine())
      ensures now == old(now).(progress := After(old(now.progress),
                                                 Noted(old(now.progress.trouble), stage, available, error), available,
                                                     save, alive))
      ensures old(worker.crashIn).None? ==> alive && worker.crashIn.None?
    {
      var p := now.progress;
      var noted := Noted(p.trouble, stage, available, error);
      var value := Value(request, Inconclusive, DiagnosticInconclusive, Troubleshooting(noted), now.cleanup,
                         now.protected);
      ghost var before := Mine();
      alive := SaveValue(value, save);
      AfterFaithful(p, before, stage, available, error, save, alive, value, Mine());
      now := now.(progress := After(p, noted, available, save, alive));
    }

    /** Something was done for the request. */
    method Did(d: Deeds) returns (alive: bool)
      requires Unpublished() && d.troubles.None? && Mine().deeds.supervised <= d.supervised <= 1
      modifies worker
      ensures Unpublished() && OnlyAt(old(worker.roots), worker.roots, request.of)
      ensures Mine() == if alive then old(Mine()).(deeds := d) else old(Mine())
      ensures old(worker.crashIn).None? ==> alive && worker.crashIn.None?
    {
      alive := worker.Put(request.of, worker.roots[request.of].(deeds := d));
    }

    /** Everything after the lock. */
    method Perform(s: Script) returns (answer: Answer)
      requires Unpublished() && now == INITIAL && Mine().deeds == IDLE
      modifies this, worker
      ensures Owns() && OnlyAt(old(worker.roots), worker.roots, request.of) && Mine().deeds.supervised <= 1
      ensures !answer.Refused?
      ensures answer.Answered? ==>
                answer.reply.Seen? && answer.reply.value.binding == request && Owned(answer.workloads)
      ensures answer.Answered? && Succeeds(answer.reply) ==>
                Proved(Mine().deeds) && Complete(answer.reply.value) && answer.workloads == One(true)
      ensures answer.Answered? && old(saves) == s.saves && Recorded(s) ==>
                Told(answer, request, s) && Inspect(worker.roots, request) == answer.reply
      ensures Mine().deeds.supervised == 1 ==> Starts(s)
      ensures answer.Answered? && Starts(s) ==> Mine().deeds.supervised == 1
      ensures old(worker.crashIn).None? && s.observation != DiedTorn && s.sidecar != DiedTorn ==> answer.Answered?
    {
      var alive := RunToEnd(s);
      if !alive {
        return Died;
      }
      answer := Publish(s.observation, s.sidecar);
    }

    /** Everything up to the publication. */
    method RunToEnd(s: Script) returns (alive: bool)
      requires Unpublished() && now == INITIAL && Mine().deeds == IDLE
      modifies this, worker
      ensures Unpublished() && OnlyAt(old(worker.roots), worker.roots, request.of) && Mine().deeds.supervised <= 1
      ensures alive ==> now.summary.Some? && Faithful(now.progress, Mine()) && (now.kind == Success ==>
                Earned(now, Mine()))
      ensures alive && now.kind == Failed ==> PlainlyTold(now.summary.value)
      ensures alive && old(saves) == [] && Quiet(s.callbacks) ==>
                && Tells(request, now.kind, now.summary.value, now.cleanup, now.protected, s)
                && (now.observed.Some? <==> Starts(s) && s.supervision.Returned?)
      ensures Mine().deeds.supervised == 1 ==> Starts(s)
      ensures alive && Starts(s) ==> Mine().deeds.supervised == 1
      ensures old(worker.crashIn).None? ==> alive && worker.crashIn.None?
    {
      alive := Supervise(s);
      if alive {
        alive := Conclude(s);
      }
      if alive {
        alive := Decide(s);
      }
    }

    /** Replace the checkpoint file, or fail to. */
    method SaveValue(value: Value, save: Save) returns (alive: bool)
      requires Owns() && value.binding == request && value.kind == Inconclusive
               && value.classification == DiagnosticInconclusive && value.summary.Troubleshooting?
      modifies worker
      ensures Owns() && OnlyAt(old(worker.roots), worker.roots, request.of)
      ensures Mine() == if save.NotSaved? || !alive then old(Mine()) else old(Mine()).(checkpoint := Some(value))
      ensures save.NotSaved? ==> alive
      ensures old(worker.crashIn).None? ==> alive && worker.crashIn.None?
    {
      alive := true;
      if !save.NotSaved? {
        alive := worker.Put(request.of, worker.roots[request.of].(checkpoint := Some(value)));
      }
    }

    /** The checkpoints a supervisor makes of its own accord. */
    method Callbacks(callbacks: seq<Callback>) returns (alive: bool)
      requires Unpublished() && Faithful(now.progress, Mine())
      modifies this`now, worker
      ensures Unpublished() && OnlyAt(old(worker.roots), worker.roots, request.of)
      ensures Mine().deeds == old(Mine().deeds) && now == old(now).(progress := now.progress)
              && Faithful(now.progress, Mine())
      ensures alive && old(Kept(now.progress, None)) && Quiet(callbacks) ==>
                Kept(now.progress, LastSeen(callbacks)) && Spotless(now) == old(Spotless(now))
      ensures old(worker.crashIn).None? ==> alive && worker.crashIn.None?
    {
      alive := true;
      var i := 0;
      while i < |callbacks| && alive
        invariant 0 <= i <= |callbacks| && Unpublished() && OnlyAt(old(worker.roots), worker.roots, request.of)
        invariant Mine().deeds == old(Mine().deeds) && now == old(now).(progress := now.progress)
                  && Faithful(now.progress, Mine())
        invariant alive && old(Kept(now.progress, None)) && Quiet(callbacks) ==>
                    Kept(now.progress, LastSeen(callbacks[..i])) && Spotless(now) == old(Spotless(now))
        invariant old(worker.crashIn).None? ==> alive && worker.crashIn.None?
      {
        var c := callbacks[i];
        if Quiet(callbacks) && Kept(now.progress, LastSeen(callbacks[..i])) {
          KeptOn(now.progress, callbacks, i);
        }
        alive := Checkpoint(AtCallback(c.stage), c.available, c.error, c.save);
        i := i + 1;
      }
      assert callbacks[..|callbacks|] == callbacks;
    }

    /** The guarded part of a run: the process guard, the environment, the supervisor with
        its own checkpoints, and the reading of its result. */
    method Supervise(s: Script) returns (alive: bool)
      requires Unpublished() && now == INITIAL && Mine().deeds == IDLE
      modifies this, worker
      ensures Unpublished() && OnlyAt(old(worker.roots), worker.roots, request.of)
      ensures alive ==> Consistent(now, Mine()) && Undecided(now)
      ensures alive ==> (now.kind == Success <==> Sees(s)) && (Sees(s) ==> now.environment && now.progress.contained)
      ensures old(saves) == [] ==> saves == [] && (alive && Quiet(s.callbacks) ==> Watched(now, s))
      ensures Mine().deeds.supervised == 1 ==> Starts(s)
      ensures alive && Starts(s) ==> Mine().deeds.supervised == 1
      ensures old(worker.crashIn).None? ==> alive && worker.crashIn.None?
    {
      var save := NextSave();
      alive := Checkpoint(AtGuard, None, false, save);
      if alive {
        if !s.guard {
          now := ErrorIn(now, AtGuard);
        } else if !s.create {
          now := ErrorIn(now, AtCreate);
        } else {
          alive := Observe(s);
        }
      }
    }

    method Observe(s: Script) returns (alive: bool)
      requires Unpublished() && Mine().deeds == IDLE && Faithful(now.progress, Mine())
      requires now == INITIAL.(progress := now.progress)
      modifies this, worker
      ensures Unpublished() && OnlyAt(old(worker.roots), worker.roots, request.of)
      ensures alive ==> Mine().deeds.supervised == 1
      ensures alive ==> Consistent(now, Mine()) && Undecided(now)
      ensures alive && Starts(s) ==>
                (now.kind == Success <==> Sees(s)) && (Sees(s) ==> now.environment && now.progress.contained)
      ensures old(saves) == [] ==>
                saves == [] && (alive && Starts(s) && old(Spotless(now))
                                && Kept(old(now.progress), None) && Quiet(s.callbacks) ==>
                                Watched(now, s))
      ensures old(worker.crashIn).None? ==> alive && worker.crashIn.None?
    {
      now := now.(environment := true,
                  progress := now.progress.(trouble := now.progress.trouble.(stage := AtSupervise)));
      alive := Did(IDLE.(supervised := 1));
      if alive {
        alive := Callbacks(s.callbacks);
      }
      if alive {
        alive := TakeResult(s);
      }
    }

    method TakeResult(s: Script) returns (alive: bool)
      requires Unpublished() && Mine().deeds == IDLE.(supervised := 1) && Faithful(now.progress, Mine())
      requires now == INITIAL.(progress := now.progress, environment := true)
      modifies this, worker
      ensures Unpublished() && OnlyAt(old(worker.roots), worker.roots, request.of)
      ensures alive ==> Mine().deeds.supervised == 1
      ensures alive ==> Consistent(now, Mine()) && Undecided(now)
      ensures alive && Starts(s) ==>
                (now.kind == Success <==> Sees(s)) && (Sees(s) ==> now.environment && now.progress.contained)
      ensures old(saves) == [] ==>
                saves == [] && (alive && Starts(s) && old(Spotless(now))
                                && Kept(old(now.progress), LastSeen(s.callbacks)) ==>
                                Watched(now, s))
      ensures old(worker.crashIn).None? ==> alive && worker.crashIn.None?
    {
      alive := true;
      match s.supervision {
        case SupervisionRaised =>
          now := ErrorIn(now, now.progress.trouble.stage);
        case Returned(result, facts) =>
          alive := Interpret(result, facts, s.normalize);
      }
    }

    method Interpret(result: Observed, facts: nat, normalize: bool) returns (alive: bool)
      requires Unpublished() && Mine().deeds == IDLE.(supervised := 1) && Faithful(now.progress, Mine())
      requires now == INITIAL.(progress := now.progress, environment := true)
      modifies this, worker
      ensures Unpublished() && OnlyAt(old(worker.roots), worker.roots, request.of)
      ensures alive ==> Mine().deeds.supervised == 1
      ensures alive ==> Consistent(now, Mine()) && Undecided(now)
      ensures alive ==> (now.kind == Success <==> result.scannerCompleted && result.available.contained && normalize)
      ensures alive ==> now.environment && now.progress.contained == result.available.contained
      ensures old(saves) == [] ==> saves == []
      ensures alive ==>
                && now.observed == Some(result)
                && (now.kind == Failed <==> !(result.scannerCompleted && result.available.contained))
                && now.summary == (if now.kind == Success then Some(Verified(facts)) else None)
      ensures alive && old(saves) == [] && old(Spotless(now)) ==>
                && Kept(now.progress, Some(result.available))
                && (Spotless(now) <==> !result.supervisionException
                                       && (result.scannerCompleted && result.available.contained ==> normalize))
      ensures old(worker.crashIn).None? ==> alive && worker.crashIn.None?
    {
      alive := KeepReturned(result);
      if alive {
        now := Interpreted(now.(observed := Some(result)), result, facts, normalize);
      }
    }

    /** What the supervisor returned is checkpointed before it is looked at. */
    method KeepReturned(result: Observed) returns (alive: bool)
      requires Unpublished() && Mine().deeds == IDLE.(supervised := 1) && Faithful(now.progress, Mine())
      modifies this, worker
      ensures Unpublished() && OnlyAt(old(worker.roots), worker.roots, request.of) && Faithful(now.progress, Mine())
      ensures now == old(now).(progress := now.progress)
      ensures alive ==> Mine().deeds == IDLE.(supervised := 1, returned := Some(result))
                        && now.progress.contained == result.available.contained
      ensures old(saves) == [] ==> saves == []
      ensures alive && old(saves) == [] && old(Spotless(now)) ==>
                Spotless(now) && Kept(now.progress, Some(result.available))
      ensures old(worker.crashIn).None? ==> alive && worker.crashIn.None?
    {
      alive := Did(IDLE.(supervised := 1, returned := Some(result)));
      if alive {
        var save := NextSave();
        alive := Checkpoint(AtRetained, Some(result.available), false, save);
      }
    }

    /** The environment goes only after every process is known gone and what was last seen
        of the run is in the checkpoint on disk. */
    method Retire(answer: Option<bool>) returns (alive: bool)
      requires Unpublished() && Consistent(now, Mine()) && !now.retired && now.cleanup == CleanupUnknown
      requires now.environment && now.progress.contained
      requires now.progress.trouble.observation.Some? && OnDisk(Mine()) == now.progress.trouble.observation
      modifies this`now, worker
      ensures Unpublished() && OnlyAt(old(worker.roots), worker.roots, request.of)
      ensures Mine().deeds.supervised == old(Mine().deeds.supervised)
      ensures alive ==> Consistent(now, Mine()) && now.cleanup == CleanupUnknown && now.protected == old(now.protected)
                        && now.kind == old(now.kind) && now.summary == old(now.summary)
      ensures alive ==> now.retired == (answer == Some(true)) && now.progress.contained
      ensures alive ==> now.observed == old(now.observed) && (Spotless(now) <==> old(Spotless(now)) && answer.Some?)
      ensures old(worker.crashIn).None? ==> alive && worker.crashIn.None?
    {
      alive := true;
      if answer.None? {
        now := Disposed(ErrorIn(now, AtRetirement), RetirementFailed);
      } else {
        alive := Did(worker.roots[request.of].deeds.(retired := answer.value));
        now := Disposed(now.(retired := answer.value), if answer.value then Retired else RetirementFailed);
      }
    }

    /** Everything is gone, and what was last seen will be on disk once the next checkpoint
        has been tried. */
    predicate Retirable()
      reads this
    {
      && now.environment && now.progress.contained
      && if ComingSave().Saved? then now.progress.trouble.observation.Some? else now.progress.availableSaved
    }

    /** A last checkpoint, then retirement if that is allowed. */
    method Clear(answer: Option<bool>) returns (alive: bool)
      requires Unpublished() && Consistent(now, Mine()) && now.cleanup == CleanupUnknown
               && now.protected == ProtectedUnknown
      requires !now.retired
      modifies this, worker
      ensures Unpublished() && OnlyAt(old(worker.roots), worker.roots, request.of)
      ensures Mine().deeds.supervised == old(Mine().deeds.supervised)
      ensures alive ==> Consistent(now, Mine()) && now.kind == old(now.kind) && now.summary == old(now.summary)
      ensures alive ==> now.cleanup == CleanupUnknown && now.protected == ProtectedUnknown
      ensures alive ==> (now.retired <==> answer == Some(true) && old(Retirable()))
      ensures alive && old(saves) == [] ==>
                && now.observed == old(now.observed) && now.progress.contained == old(now.progress.contained)
                && (Spotless(now) <==> old(Spotless(now)) && (old(Retirable()) ==> answer.Some?))
      ensures old(saves) == [] ==> saves == []
      ensures old(worker.crashIn).None? ==> alive && worker.crashIn.None?
    {
      var save := NextSave();
      alive := Checkpoint(BeforeRetirement, None, false, save);
      if alive && now.environment && now.progress.contained {
        if now.progress.availableSaved {
          alive := Retire(answer);
        } else {
          now := Disposed(now, NotAttemptedUnretained);
        }
      }
    }

    /** The end of a run whose supervisor has had its say: what is left is cleared away if
        that is allowed, and the protected state and the process guard are read back. */
    method Conclude(s: Script) returns (alive: bool)
      requires Unpublished() && Consistent(now, Mine()) && now.cleanup == CleanupUnknown
               && now.protected == ProtectedUnknown
      requires !now.retired
      modifies this, worker
      ensures Unpublished() && OnlyAt(old(worker.roots), worker.roots, request.of)
      ensures Mine().deeds.supervised == old(Mine().deeds.supervised)
      ensures alive ==> Consistent(now, Mine()) && now.kind == old(now.kind) && now.summary == old(now.summary)
      ensures alive ==> (now.retired <==> s.retirement == Some(true) && old(Retirable()))
      ensures alive ==> (now.protected == Unchanged <==> s.after == Some(true))
      ensures alive ==> (now.cleanup == CleanupComplete <==> now.retired && now.progress.contained && s.guardAfter)
      ensures old(saves) == [] ==> saves == [] && (alive && old(Watched(now, s)) ==> Ended(now, s))
      ensures old(worker.crashIn).None? ==> alive && worker.crashIn.None?
    {
      alive := Clear(s.retirement);
      if alive {
        alive := ReadBack(s);
      }
    }

    method ReadBack(s: Script) returns (alive: bool)
      requires Unpublished() && Consistent(now, Mine()) && now.cleanup == CleanupUnknown
               && now.protected == ProtectedUnknown
      modifies this`now, worker
      ensures Unpublished() && OnlyAt(old(worker.roots), worker.roots, request.of)
      ensures Mine().deeds.supervised == old(Mine().deeds.supervised)
      ensures alive ==> Consistent(now, Mine()) && now.kind == old(now.kind) && now.summary == old(now.summary)
      ensures alive ==> Read(old(now), now, s.after, s.guardAfter)
      ensures saves == old(saves)
      ensures old(worker.crashIn).None? ==> alive && worker.crashIn.None?
    {
      var gone := now.retired && now.progress.contained && s.guardAfter;
      ghost var before := Mine();
      alive := Did(worker.roots[request.of].deeds.(same := s.after == Some(true), guarded := gone));
      if alive {
        ReadingsConsistent(now, before, Mine(), s.after, s.guardAfter);
        now := ReadingsIn(now, s.after, s.guardAfter);
      }
    }

    /** No error on record, complete cleanup, protected state unchanged, and where product
        or acceptance evidence is at stake the final admission too. */
    predicate Succeeding(s: Script)
      reads this
    {
      && now.kind == Success && Spotless(now) && now.cleanup == CleanupComplete && now.protected == Unchanged
      && (request.product.Some? || request.of.cls == Acceptance ==> s.admission)
    }

    /** How a plain failure is told of. */
    predicate PlainlyTold(summary: Summary) {
      if request.product.Some? then summary.Troubleshooting? else summary.FailureReport?
    }

    /** What will be published, once the last checkpoint has been tried. */
    method Decide(s: Script) returns (alive: bool)
      requires Unpublished() && Consistent(now, Mine()) && (now.kind != Success ==> now.summary.None?)
      modifies this, worker
      ensures Unpublished() && OnlyAt(old(worker.roots), worker.roots, request.of)
      ensures Mine().deeds.supervised == old(Mine().deeds.supervised) && now.observed == old(now.observed)
      ensures alive ==> now.summary.Some? && Faithful(now.progress, Mine()) && (now.kind == Success ==>
                Earned(now, Mine()))
      ensures alive ==> (now.kind == Success <==> old(Succeeding(s)) && now.progress.trouble.persistence == [])
      ensures alive ==> now.cleanup == old(now.cleanup) && now.protected == old(now.protected)
      ensures alive && now.kind == Success ==> now.summary == old(now.summary)
      ensures alive && old(saves) == [] && old(Succeeding(s)) ==> now.kind == Success
      ensures alive && old(saves) == [] && old(Ended(now, s)) ==>
                Tells(request, now.kind, now.summary.value, now.cleanup, now.protected, s)
      ensures alive && now.kind == Failed ==> PlainlyTold(now.summary.value)
      ensures alive && now.summary.value.Troubleshooting? ==> now.summary.value.trouble == now.progress.trouble
      ensures old(worker.crashIn).None? ==> alive && worker.crashIn.None?
    {
      Settle(s);
      ghost var decided := now;
      alive := LastCheckpoint();
      if old(saves) == [] && old(Ended(now, s)) {
        StillTells(request, decided, now, s);
      }
    }

    /** The outcome before the last checkpoint. */
    method Settle(s: Script)
      requires Unpublished() && Consistent(now, Mine()) && (now.kind != Success ==> now.summary.None?)
      modifies this`now
      ensures Settling(old(now), now, Mine(), request, s)
    {
      DecidedSettles(now, Mine(), request, s);
      now := Decided(now, request.product.Some?, request.of.cls == Acceptance, s.report, s.admission);
    }

    method LastCheckpoint() returns (alive: bool)
      requires Unpublished() && Faithful(now.progress, Mine()) && now.summary.Some?
      requires now.kind == Success ==> Earned(now, Mine())
      requires now.kind == Failed ==> PlainlyTold(now.summary.value)
      modifies this, worker
      ensures Unpublished() && OnlyAt(old(worker.roots), worker.roots, request.of)
      ensures now.summary.Some? && Faithful(now.progress, Mine()) && (now.kind == Success ==> Earned(now, Mine()))
      ensures now.kind == Failed ==> PlainlyTold(now.summary.value)
      ensures now.summary.value.Troubleshooting? ==> now.summary.value.trouble == now.progress.trouble
      ensures if now.progress.trouble.persistence == []
              then now.kind == old(now.kind) && SameButTroubles(old(now.summary.value), now.summary.value)
              else now.kind == Inconclusive && now.summary.value.Troubleshooting?
      ensures Mine().deeds == old(Mine().deeds) && now.observed == old(now.observed)
      ensures now.kind == Success <==> old(now.kind) == Success && now.progress.trouble.persistence == []
      ensures now.cleanup == old(now.cleanup) && now.protected == old(now.protected)
      ensures now.kind == Success ==> now.summary == old(now.summary)
      ensures old(saves) == [] ==> now.progress.trouble.persistence == old(now.progress.trouble.persistence)
      ensures old(worker.crashIn).None? ==> alive && worker.crashIn.None?
    {
      ghost var before := Mine();
      ghost var decided := now;
      var save := NextSave();
      alive := Checkpoint(AtPublication, None, false, save);
      LastEarned(decided, before, Mine(), save, alive);
      now := Withheld(now);
    }

    /** Publish the observation and then its sidecar; when that raises, the answer is a
        troubleshooting checkpoint. The answer and what inspection finds afterwards can
        differ about success in one case only: the sidecar's publication raised after the
        whole sidecar was in place. */
    method Publish(observation: Fault, sidecar: Fault) returns (answer: Answer)
      requires Unpublished() && Faithful(now.progress, Mine()) && now.summary.Some?
      requires now.kind == Success ==> Earned(now, Mine())
      requires now.kind == Failed ==> PlainlyTold(now.summary.value)
      modifies this, worker
      ensures Owns() && OnlyAt(old(worker.roots), worker.roots, request.of)
              && Mine().deeds.supervised == old(Mine().deeds.supervised)
      ensures !answer.Refused?
      ensures answer.Answered? ==>
                answer.reply.Seen? && answer.reply.value.binding == request && Owned(answer.workloads)
      ensures answer.Answered? && answer.reply.value.kind == Success ==>
                Proved(Mine().deeds) && observation == InFull && sidecar == InFull
      ensures answer.Answered? && old(now.kind) == Success ==>
                (answer.reply.value.kind != Success && Succeeds(Inspect(worker.roots, request))
                 <==> observation == InFull && sidecar == RaisedWhole)
      ensures answer.Answered? && observation == InFull && sidecar == InFull ==>
                && answer.reply.value == Value(request, old(now.kind), Label(request, old(now.kind)),
                                               old(now.summary.value), old(now.cleanup), old(now.protected))
                && Inspect(worker.roots, request) == answer.reply
      ensures answer.Answered? && answer.reply.value.kind == Success ==>
                Complete(answer.reply.value) && answer.workloads == One(true)
      ensures answer.Answered? ==>
                answer.workloads == if old(now.observed).Some? then One(observation == InFull && sidecar == InFull)
                                    else CannotSay(observation == InFull && sidecar == InFull)
      ensures answer.Answered? && !(observation == InFull && sidecar == InFull) ==>
                answer.reply.value.kind == Inconclusive && answer.reply.value.summary.Troubleshooting?
                && answer.reply.value.classification == DiagnosticInconclusive
      ensures old(worker.crashIn).None? && observation != DiedTorn && sidecar != DiedTorn ==> answer.Answered?
    {
      var value := Value(request, now.kind, Label(request, now.kind), now.summary.value, now.cleanup, now.protected);
      var p := PutBoth(value, observation, sidecar);
      if p == Dead {
        return Died;
      }
      InspectIs(worker.roots, request);
      if p == InPlace {
        return Answered(Seen(value), Workloads(true));
      }
      answer := Troubled();
    }

    /** The answer when publication raised. */
    method Troubled() returns (answer: Answer)
      requires Owns() && Faithful(now.progress, Mine())
      modifies this, worker
      ensures Owns() && OnlyAt(old(worker.roots), worker.roots, request.of)
      ensures Mine() == old(Mine()).(checkpoint := Mine().checkpoint)
      ensures !answer.Refused?
      ensures answer.Answered? ==> answer.reply.Seen? && answer.reply.value.binding == request
                                   && answer.reply.value.kind == Inconclusive
                                   && answer.reply.value.summary.Troubleshooting?
                                   && answer.reply.value.classification == DiagnosticInconclusive
      ensures answer.Answered? ==>
                answer.workloads == if old(now.observed).Some? then One(false) else CannotSay(false)
      ensures Succeeds(Inspect(worker.roots, request)) <==> old(Succeeds(Inspect(worker.roots, request)))
      ensures old(worker.crashIn).None? ==> answer.Answered?
    {
      InspectIs(worker.roots, request);
      answer := Confess();
      InspectIs(worker.roots, request);
    }

    /** The trouble in the checkpoint, and in the answer. */
    method Confess() returns (answer: Answer)
      requires Owns() && Faithful(now.progress, Mine())
      modifies this, worker
      ensures Owns() && OnlyAt(old(worker.roots), worker.roots, request.of)
      ensures Mine() == old(Mine()).(checkpoint := Mine().checkpoint)
      ensures !answer.Refused?
      ensures answer.Answered? ==> answer.reply.Seen? && answer.reply.value.binding == request
                                   && answer.reply.value.kind == Inconclusive
                                   && answer.reply.value.summary.Troubleshooting?
                                   && answer.reply.value.classification == DiagnosticInconclusive
      ensures answer.Answered? ==>
                answer.workloads == if old(now.observed).Some? then One(false) else CannotSay(false)
      ensures old(worker.crashIn).None? ==> answer.Answered?
    {
      now := ErrorIn(now, AtPublication);
      var save := NextSave();
      var alive := Checkpoint(PublicationFailed, None, false, save);
      if !alive {
        return Died;
      }
      var told := Value(request, Inconclusive, DiagnosticInconclusive, Troubleshooting(now.progress.trouble),
                        now.cleanup, now.protected);
      return Answered(Seen(told), Workloads(false));
    }

    method PutBoth(value: Value, observation: Fault, sidecar: Fault) returns (p: Published)
      requires Unpublished() && Faithful(now.progress, Mine()) && value.binding == request
      requires Publishable(value) && (value.kind == Success ==> Earned(now, Mine()))
      modifies worker
      ensures Owns() && OnlyAt(old(worker.roots), worker.roots, request.of)
      ensures Mine() == old(Mine()).(observation := Mine().observation, sidecar := Mine().sidecar,
                                     deeds := Mine().deeds)
      ensures Mine().deeds == old(Mine().deeds)
              || Mine().deeds == old(Mine().deeds).(troubles := Some(now.progress.trouble))
      ensures p == InPlace ==> Mine().observation == Whole(value) && Mine().sidecar == Whole(Sha(value))
                               && Mine().deeds == old(Mine().deeds).(troubles := Some(now.progress.trouble))
                               && observation == InFull && sidecar == InFull
      ensures p == Raised ==> (Mine().observation == Whole(value) && Mine().sidecar == Whole(Sha(value))
                               <==> observation == InFull && sidecar == RaisedWhole)
      ensures p == Raised ==> !(observation == InFull && sidecar == InFull)
      ensures Mine().observation.Whole? ==> Mine().observation.content == value
      ensures Mine().sidecar.Whole? ==> Mine().observation.Whole? && Mine().sidecar.content == Sha(value)
      ensures old(worker.crashIn).None? && observation != DiedTorn && sidecar != DiedTorn ==>
                p != Dead && worker.crashIn.None?
    {
      var root :=
        worker.roots[request.of].(deeds := worker.roots[request.of].deeds.(troubles := Some(now.progress.trouble)));
      PublishedSoundly(request, Mine(), root, value);
      p := PutFile(root.(observation := Torn), root.(observation := Whole(value)), observation);
      if p == InPlace {
        root := root.(observation := Whole(value));
        p := PutFile(root.(sidecar := Torn), root.(sidecar := Whole(Sha(value))), sidecar);
      }
    }

    /** `publish`: nothing, part or all of the file may be there afterwards. */
    method PutFile(torn: Root, whole: Root, fault: Fault) returns (p: Published)
      requires Owns() && RootSound(request.of, torn) && RootSound(request.of, whole)
      requires RootFollows(Mine(), torn) && RootFollows(Mine(), whole) && torn.intent == whole.intent == Whole(request)
      modifies worker
      ensures Owns() && OnlyAt(old(worker.roots), worker.roots, request.of)
      ensures p == InPlace ==> fault == InFull && Mine() == whole
      ensures p == Raised ==> (match fault case RefusedEarly => Mine() == old(Mine()) case RaisedTorn => Mine() == torn
                                           case RaisedWhole => Mine() == whole case _ => false)
      ensures p == Dead ==> Mine() == old(Mine()) || Mine() == torn
      ensures old(worker.crashIn).None? && fault != DiedTorn ==> p != Dead && worker.crashIn.None?
    {
      match fault {
        case RefusedEarly =>
          return Raised;
        case InFull =>
          var alive := worker.Put(request.of, whole);
          return if alive then InPlace else Dead;
        case RaisedWhole =>
          var alive := worker.Put(request.of, whole);
          return if alive then Raised else Dead;
        case RaisedTorn =>
          var alive := worker.Put(request.of, torn);
          return if alive then Raised else Dead;
        case DiedTorn =>
          var alive := worker.Put(request.of, torn);
          return Dead;
      }
    }
  }

  function Disposed(v: Variables, r: Retirement): Variables {
    v.(progress := v.progress.(trouble := v.progress.trouble.(retirement := r)))
  }

  /** The protected snapshot compared, and after retirement the process guard once more. */
  function ReadingsIn(v: Variables, after: Option<bool>, guardAfter: bool): Variables {
    var w := if after.None? then ErrorIn(v, AtProtected)
             else v.(protected := if after.value then Unchanged else Changed);
    if !(w.retired && w.progress.contained) then w.(cleanup := CleanupIncomplete)
    else if guardAfter then w.(cleanup := CleanupComplete)
    else ErrorIn(w.(cleanup := CleanupIncomplete), AtReadback)
  }

  /** The outcome so far: any recorded error, incomplete cleanup or changed protected
      state makes it inconclusive, and a success must pass its own admission. */
  function Decided(v: Variables, product: bool, acceptance: bool, report: bool, admission: bool): (d: Variables)
    ensures d.summary.Some?
  {
    var told := if v.summary.Some? then v
                else if product then v.(summary := Some(Troubleshooting(v.progress.trouble)))
                else if v.observed.None? then v
                else if report then v.(summary := Some(FailureReport(v.observed.value.available.facts)))
                else ErrorIn(v, AtReport);
    var clean := if told.summary.None? || told.progress.trouble.primary.Some? || told.progress.trouble.persistence != []
                 then told.(summary := Some(Troubleshooting(told.progress.trouble)), kind := Inconclusive) else told;
    var settled := if clean.cleanup != CleanupComplete || clean.protected != Unchanged
                   then clean.(kind := Inconclusive) else clean;
    if settled.kind == Success && (product || acceptance) && !admission then
      var refused := ErrorIn(settled, AtAdmission);
      refused.(kind := Inconclusive, summary := Some(Troubleshooting(refused.progress.trouble)))
    else settled
  }

  /** What the readbacks establish. */
  ghost predicate Read(v: Variables, w: Variables, after: Option<bool>, guardAfter: bool) {
    && w.retired == v.retired && w.progress.contained == v.progress.contained
    && (w.protected == Unchanged <==> after == Some(true))
    && (w.cleanup == CleanupComplete <==> v.retired && v.progress.contained && guardAfter)
    && (w.cleanup == CleanupIncomplete <==> w.cleanup != CleanupComplete)
    && (w.protected == Changed <==> after == Some(false)) && (w.protected == ProtectedUnknown <==> after == None)
    && (Spotless(w) <==> Spotless(v) && after.Some? && (v.retired && v.progress.contained ==> guardAfter))
    && w.observed == v.observed
  }

  lemma ReadingsConsistent(v: Variables, before: Root, root: Root, after: Option<bool>, guardAfter: bool)
    requires Consistent(v, before) && v.cleanup == CleanupUnknown && v.protected == ProtectedUnknown
    requires root == before.(deeds := before.deeds.(same := after == Some(true),
                                                    guarded := v.retired && v.progress.contained && guardAfter))
    ensures Consistent(ReadingsIn(v, after, guardAfter), root)
    ensures ReadingsIn(v, after, guardAfter).kind == v.kind && ReadingsIn(v, after, guardAfter).summary == v.summary
    ensures Read(v, ReadingsIn(v, after, guardAfter), after, guardAfter)
  {
  }

  /** A checkpoint that could not be saved withholds the success; troubles are told as they
      stand after the last checkpoint. */
  function Withheld(v: Variables): Variables {
    if v.progress.trouble.persistence != []
    then v.(kind := Inconclusive, summary := Some(Troubleshooting(v.progress.trouble)))
    else if v.summary.Some? && v.summary.value.Troubleshooting?
    then v.(summary := Some(Troubleshooting(v.progress.trouble)))
    else v
  }

  lemma LastEarned(v: Variables, before: Root, root: Root, save: Save, alive: bool)
    requires v.kind == Success ==> Earned(v, before)
    requires root.deeds == before.deeds
    ensures var p := After(v.progress, Noted(v.progress.trouble, AtPublication, None, false), None, save, alive);
            var w := Withheld(v.(progress := p));
            w.progress == p && (w.kind == Success ==> Earned(w, root))
  {
  }

  /** The same summary; troubles may have been added to. */
  predicate SameButTroubles(a: Summary, b: Summary) {
    a == b || (a.Troubleshooting? && b.Troubleshooting?)
  }

  lemma DecidedTells(v: Variables, q: Request, s: Script)
    requires Ended(v, s)
    ensures var d := Decided(v, q.product.Some?, q.of.cls == Acceptance, s.report, s.admission);
            && d.summary.Some? && Tells(q, d.kind, d.summary.value, d.cleanup, d.protected, s)
            && (d.progress.trouble.persistence != [] ==> d.kind == Inconclusive && d.summary.value.Troubleshooting?)
  {
  }

  lemma StillTells(q: Request, v: Variables, w: Variables, s: Script)
    requires v.summary.Some? && Tells(q, v.kind, v.summary.value, v.cleanup, v.protected, s)
    requires w.summary.Some? && w.kind == v.kind && w.cleanup == v.cleanup && w.protected == v.protected
    requires SameButTroubles(v.summary.value, w.summary.value)
    ensures Tells(q, w.kind, w.summary.value, w.cleanup, w.protected, s)
  {
  }

  lemma DecidedEarned(v: Variables, root: Root, product: bool, acceptance: bool, report: bool, admission: bool)
    requires Consistent(v, root) && (v.kind != Success ==> v.summary.None?)
    ensures var d := Decided(v, product, acceptance, report, admission);
            && Faithful(d.progress, root) && (d.kind == Success ==> Earned(d, root))
            && (d.kind == Failed ==>
                  if product then d.summary.value.Troubleshooting? else d.summary.value.FailureReport?)
            && d.cleanup == v.cleanup && d.protected == v.protected && (d.kind == Success ==> d.summary == v.summary)
            && (d.kind == Success ==> Spotless(d))
            && (d.kind == Success <==>
                  && v.kind == Success && Spotless(v) && v.cleanup == CleanupComplete && v.protected == Unchanged
                  && (product || acceptance ==> admission))
  {
  }

  /** What the decision keeps and what it makes of the kind and the summary. */
  ghost predicate Settling(v: Variables, d: Variables, root: Root, q: Request, s: Script) {
    && d.summary.Some? && Faithful(d.progress, root) && (d.kind == Success ==> Earned(d, root))
    && (d.kind == Success <==>
          && v.kind == Success && Spotless(v) && v.cleanup == CleanupComplete && v.protected == Unchanged
          && (q.product.Some? || q.of.cls == Acceptance ==> s.admission))
    && (d.kind == Success ==> d.summary == v.summary && d.progress.trouble.persistence == [])
    && (d.kind == Failed ==>
          if q.product.Some? then d.summary.value.Troubleshooting? else d.summary.value.FailureReport?)
    && d.cleanup == v.cleanup && d.protected == v.protected && d.observed == v.observed
    && (Ended(v, s) ==>
          && Tells(q, d.kind, d.summary.value, d.cleanup, d.protected, s)
          && (d.progress.trouble.persistence != [] ==> d.kind == Inconclusive && d.summary.value.Troubleshooting?))
  }

  lemma DecidedSettles(v: Variables, root: Root, q: Request, s: Script)
    requires Consistent(v, root) && (v.kind != Success ==> v.summary.None?)
    ensures Settling(v, Decided(v, q.product.Some?, q.of.cls == Acceptance, s.report, s.admission), root, q, s)
  {
    if Ended(v, s) {
      DecidedTells(v, q, s);
    }
    DecidedEarned(v, root, q.product.Some?, q.of.cls == Acceptance, s.report, s.admission);
  }

  /** A success about to be published is a proved run in all but the publication. */
  ghost predicate Earned(v: Variables, root: Root) {
    && Proved(root.deeds.(troubles := Some(v.progress.trouble))) && v.observed.Some?
    && v.cleanup == CleanupComplete && v.protected == Unchanged && v.summary.Some? && v.summary.value.Verified?
  }

  /** How an ordinary result is read. */
  function Interpreted(v: Variables, result: Observed, facts: nat, normalize: bool): Variables {
    var t := v.progress.trouble;
    var noted := if result.supervisionException && t.primary.None?
                 then v.(progress := v.progress.(trouble := t.(primary := Some(AtSupervise)))) else v;
    if !(result.scannerCompleted && v.progress.contained) then noted.(kind := Failed)
    else if !normalize then ErrorIn(noted, AtNormalize)
    else noted.(kind := Success, summary := Some(Verified(facts)))
  }

  ghost predicate OnlyAt(a: map<Reservation, Root>, b: map<Reservation, Root>, r: Reservation) {
    forall p :: p != r ==> (p in a <==> p in b) && (p in a ==> a[p] == b[p])
  }

  /** The troubles as the next checkpoint states them: its stage, an error of it, what is newly available. */
  function Noted(t: Trouble, stage: Stage, available: Option<Available>, error: bool): (n: Trouble)
    ensures n.persistence == t.persistence
    ensures n.observation == if available.Some? then Some(available.value.facts) else t.observation
    ensures n.primary == if error && t.primary.None? then Some(stage) else t.primary
    ensures (t.primary.None? ==> t.secondary == []) ==> (n.primary.None? ==> n.secondary == [])
  {
    var seen := t.(stage := stage,
                   observation := if available.Some? then Some(available.value.facts) else t.observation);
    if error then WithError(seen, stage) else seen
  }

  function WithError(t: Trouble, stage: Stage): Trouble {
    if t.primary.None? then t.(primary := Some(stage))
    else if |t.secondary| < 8 then t.(secondary := t.secondary + [stage])
    else t
  }

  /** The observation that the checkpoint on disk preserves. */
  ghost function OnDisk(root: Root): Option<nat> {
    if root.checkpoint.Some? && root.checkpoint.value.summary.Troubleshooting?
    then root.checkpoint.value.summary.trouble.observation else None
  }

  function Supervisions(roots: map<Reservation, Root>, r: Reservation): nat {
    if r in roots then roots[r].deeds.supervised else 0
  }

  /** If the reservation's intent is on disk, it is this request. */
  ghost predicate IntendedFor(roots: map<Reservation, Root>, q: Request) {
    q.of in roots && roots[q.of].intent.Whole? ==> roots[q.of].intent.content == q
  }

  /** Nothing goes wrong before the run either. */
  ghost predicate Smooth(s: Script) {
    s.preflight && s.intent == InFull && Untroubled(s)
  }

  /** `execute`. Its first look may be at any earlier state: other processes may be serving
      the same request. Only the one that makes the directory goes on to supervise. */
  method Execute(worker: Worker, q: Request, seen: nat, s: Script) returns (answer: Answer)
    requires worker.Valid() && seen < |worker.trail|
    modifies worker
    ensures worker.Valid() && Evolves(old(worker.roots), worker.roots) && OnlyAt(old(worker.roots), worker.roots, q.of)
    ensures Supervisions(worker.roots, q.of) <= 1
    ensures q.of in old(worker.roots) ==> worker.roots == old(worker.roots)
    ensures q.of !in old(worker.roots) ==> IntendedFor(worker.roots, q)
    ensures !IntendedFor(old(worker.trail)[seen], q) ==> answer == Refused && worker.roots == old(worker.roots)
    ensures answer.Answered? ==>
              answer.reply != Absent && answer.reply != Raises
                  && (answer.workloads.NoneHere? ==> q.of in old(worker.roots))
    ensures var retained := Inspect(old(worker.trail)[seen], q);
            && (retained == Raises ==> answer == Refused && worker.roots == old(worker.roots))
            && (retained != Raises && retained != Absent ==>
                  answer == Answered(retained, NoneHere) && worker.roots == old(worker.roots))
            && (retained == Absent && !s.preflight ==> answer == Refused && worker.roots == old(worker.roots))
            && (retained == Absent && s.preflight && q.of in old(worker.roots) ==>
                  answer == Answered(Unknown, NotStated))
    ensures Supervisions(worker.roots, q.of) > Supervisions(old(worker.roots), q.of) ==>
              s.preflight && s.intent == InFull && Starts(s)
    ensures q.of !in old(worker.roots) && s.preflight ==>
              && (answer.Answered? ==>
                    && s.intent == InFull
                    && (Recorded(s) ==> Told(answer, q, s) && Inspect(worker.roots, q) == answer.reply))
              && (answer.Answered? && Starts(s) ==> Supervisions(worker.roots, q.of) == 1)
              && (answer == Refused ==> s.intent != InFull)
    ensures answer.Answered? && answer.reply.Seen? ==>
              answer.reply.value.binding == q
                  && (Succeeds(answer.reply) ==> ProvedIn(worker.roots, q.of) && Complete(answer.reply.value))
    ensures q.of !in old(worker.roots) && old(worker.crashIn).None? && Smooth(s) ==>
              answer.Answered? && Succeeds(answer.reply) && answer.workloads == One(true) && Told(answer, q, s)
    ensures old(worker.crashIn).None? && s.intent != DiedTorn && s.observation != DiedTorn && s.sidecar != DiedTorn ==>
              !answer.Died?
  {
    var retained := Inspect(worker.trail[seen], q);
    InspectedSuccessIsProved(worker.trail[seen], worker.roots, q);
    if retained == Raises {
      return Refused;
    }
    if retained != Absent {
      return Answered(retained, NoneHere);
    }
    if !s.preflight {
      return Refused;
    }
    if q.of in worker.roots {
      return Answered(Unknown, NotStated);
    }
    answer := Run(worker, q, s);
  }

  /** The winner of the directory: intent, lock, run, publication. */
  method Run(worker: Worker, q: Request, s: Script) returns (answer: Answer)
    requires worker.Valid() && q.of !in worker.roots
    modifies worker
    ensures worker.Valid() && OnlyAt(old(worker.roots), worker.roots, q.of)
    ensures Supervisions(worker.roots, q.of) <= 1
    ensures IntendedFor(worker.roots, q)
    ensures answer.Answered? ==> answer.reply.Seen? && Owned(answer.workloads) && answer.reply.value.binding == q
                                 && (Succeeds(answer.reply) ==>
                                     ProvedIn(worker.roots, q.of) && Complete(answer.reply.value)
                                         && answer.workloads == One(true))
    ensures answer.Answered? ==> s.intent == InFull && (Recorded(s) ==> Told(answer, q, s))
    ensures answer.Answered? && Recorded(s) ==> Inspect(worker.roots, q) == answer.reply
    ensures answer == Refused ==> s.intent != InFull
    ensures Supervisions(worker.roots, q.of) == 1 ==> s.intent == InFull && Starts(s)
    ensures answer.Answered? && Starts(s) ==> Supervisions(worker.roots, q.of) == 1
    ensures old(worker.crashIn).None? && s.intent == InFull && Untroubled(s) ==> answer.Answered?
    ensures old(worker.crashIn).None? && s.intent != DiedTorn && s.observation != DiedTorn && s.sidecar != DiedTorn ==>
              !answer.Died?
  {
    var p := Begin(worker, q, s.intent);
    if p != InPlace {
      return if p == Dead then Died else Refused;
    }
    var run := new Execution(worker, q, s.saves);
    answer := run.Perform(s);
  }

  /** The directory, the intent in it and the lock beside that. */
  method Begin(worker: Worker, q: Request, fault: Fault) returns (p: Published)
    requires worker.Valid() && q.of !in worker.roots
    modifies worker
    ensures worker.Valid() && OnlyAt(old(worker.roots), worker.roots, q.of)
    ensures q.of in worker.roots ==> worker.roots[q.of].deeds == IDLE
    ensures IntendedFor(worker.roots, q)
    ensures p == InPlace ==> fault == InFull && q.of in worker.roots
                             && worker.roots[q.of] == FRESH.(intent := Whole(q), locked := true)
    ensures p == Raised ==> fault != InFull
    ensures old(worker.crashIn).None? && fault == InFull ==> p == InPlace
    ensures old(worker.crashIn).None? && fault != DiedTorn ==> p != Dead && worker.crashIn.None?
  {
    var alive := worker.Put(q.of, FRESH);
    if !alive {
      return Dead;
    }
    p := PutIntent(worker, q, fault);
    if p == InPlace {
      alive := worker.Put(q.of, FRESH.(intent := Whole(q), locked := true));
      p := if alive then InPlace else Dead;
    }
  }

  method PutIntent(worker: Worker, q: Request, fault: Fault) returns (p: Published)
    requires worker.Valid() && q.of in worker.roots && worker.roots[q.of] == FRESH
    modifies worker
    ensures worker.Valid() && OnlyAt(old(worker.roots), worker.roots, q.of) && q.of in worker.roots
    ensures worker.roots[q.of] == FRESH || worker.roots[q.of] == FRESH.(intent := Torn)
            || worker.roots[q.of] == FRESH.(intent := Whole(q))
    ensures p == InPlace ==> fault == InFull && worker.roots[q.of] == FRESH.(intent := Whole(q))
    ensures p == Raised ==> fault != InFull
    ensures old(worker.crashIn).None? && fault == InFull ==> p == InPlace
    ensures old(worker.crashIn).None? && fault != DiedTorn ==> p != Dead && worker.crashIn.None?
  {
    if fault == RefusedEarly {
      return Raised;
    }
    var alive := worker.Put(q.of, FRESH.(intent := if fault == InFull || fault == RaisedWhole then Whole(q) else Torn));
    p := if !alive || fault == DiedTorn then Dead else if fault == InFull then InPlace else Raised;
  }
}
