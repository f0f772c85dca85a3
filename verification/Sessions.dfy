/**
 Preview sessions (tools/ap4_preview.py): what one connection's supervisor does with the
 environment it creates, and how many such sessions a listener lets be at once.
 */
module Sessions {
  import opened Bytes

  // ----------------------------------------------------------- one session

  /** Everything a session meets: whether each step up to supervision works, what the
      supervisor's checkpoints and its end say about its processes, and whether the
      records can be written, the environment retired and the peer told. */
  datatype Script = Script(
    greets: bool, creates: bool, replies: bool, control: bool,
    checkpoints: seq<Checkpoint>, supervision: Supervision,
    reportReads: bool, firstWrite: bool, retires: bool, secondWrite: bool)

  datatype Checkpoint = Checkpoint(available: Option<bool>, writes: bool)
  datatype Supervision = Returned(contained: bool) | SupervisionRaised

  datatype Outcome = Finished | SessionFailed | ContainmentFailed | Failed

  /** Supervision was entered; before that there is no process to contain. */
  predicate Entered(s: Script) {
    s.greets && s.creates && s.replies && s.control
  }

  /** The last thing known about the processes of a supervised session. */
  function LastWord(cs: seq<Checkpoint>): bool {
    if cs == [] then false
    else if cs[|cs| - 1].available.Some? then cs[|cs| - 1].available.value
    else LastWord(cs[..|cs| - 1])
  }

  predicate Contained(s: Script) {
    !Entered(s)
        || (match s.supervision case Returned(contained) => contained case SupervisionRaised => LastWord(s.checkpoints))
  }

  /** Every record of the session could be written, and its report read. */
  predicate Reported(s: Script) {
    && s.reportReads && s.firstWrite && s.secondWrite
    && forall i :: 0 <= i < |s.checkpoints| ==> s.checkpoints[i].writes
  }

  /** `serve_connected`. Retirement is tried exactly for an environment that was created and
      whose processes are last known to be gone; a created environment that is not positively
      retired is a containment error, and nothing else is. */
  method ServeConnected(s: Script) returns (o: Outcome, created: bool, retired: bool)
    ensures created == (s.greets && s.creates)
    ensures retired == (created && Contained(s) && s.retires)
    ensures o == ContainmentFailed <==> created && !retired
    ensures o == Failed <==> !created
    ensures o == Finished <==> Entered(s) && s.supervision.Returned? && retired && Reported(s)
  {
    created, retired := false, false;
    var containment, failed, reportingErrors := true, true, 0;
    if s.greets && s.creates {
      created := true;
      if s.replies && s.control {
        containment, failed, reportingErrors := Supervised(s);
      }
    }
    if created {
      reportingErrors := reportingErrors + (if s.reportReads then 0 else 1) + (if s.firstWrite then 0 else 1);
      if !containment {
        return ContainmentFailed, created, retired;
      }
      retired := Retire(s, containment);
      reportingErrors := reportingErrors + (if s.secondWrite then 0 else 1);
      if !retired {
        return ContainmentFailed, created, retired;
      }
      if failed || reportingErrors > 0 {
        return SessionFailed, created, retired;
      }
    }
    o := if failed then Failed else Finished;
  }

  /** `retire_environment`, which only a contained session may reach. */
  method Retire(s: Script, containment: bool) returns (retired: bool)
    requires containment && Contained(s)
    ensures retired == s.retires
  {
    retired := s.retires;
  }

  /** Supervision, with its checkpoints updating what is known of the processes. */
  method Supervised(s: Script) returns (containment: bool, failed: bool, errors: nat)
    requires Entered(s)
    ensures containment == Contained(s) && failed == s.supervision.SupervisionRaised?
    ensures errors == 0 <==> forall i :: 0 <= i < |s.checkpoints| ==> s.checkpoints[i].writes
  {
    containment, errors := false, 0;
    var i := 0;
    while i < |s.checkpoints|
      invariant 0 <= i <= |s.checkpoints| && containment == LastWord(s.checkpoints[..i])
      invariant errors == 0 <==> forall k :: 0 <= k < i ==> s.checkpoints[k].writes
    {
      var c := s.checkpoints[i];
      if c.available.Some? {
        containment := c.available.value;
      }
      errors := errors + if c.writes then 0 else 1;
      assert s.checkpoints[..i + 1][..i] == s.checkpoints[..i];
      i := i + 1;
    }
    assert s.checkpoints[..i] == s.checkpoints;
    failed := s.supervision.SupervisionRaised?;
    if s.supervision.Returned? {
      containment := s.supervision.contained;
    }
  }

  // ------------------------------------------------------- many sessions

  const CAPACITY := 4

  /** Where a session's thread is: serving; with its outcome, which it must still act on;
      past that; or gone. */
  datatype Stage = Serving | Ended(outcome: Outcome) | Closing | Dead

  datatype Session = Session(stage: Stage, created: bool, retired: bool)

  /** A session weighs on the machine while its thread lives, and for ever if its
      environment was created and not positively retired. */
  predicate Weighs(s: Session) {
    !s.stage.Dead? || (s.created && !s.retired)
  }

  predicate SessionSound(s: Session, blocked: bool) {
    match s.stage
    case Serving => true
    case Ended(o) => o == ContainmentFailed <==> s.created && !s.retired
    case Closing => s.created && !s.retired ==> blocked
    case Dead => s.created && !s.retired ==> blocked
  }

  /** What one step makes of a session and of `blocked`. */
  method Turn(s: Session, blocked: bool, script: Script) returns (next: Session, now: bool)
    requires SessionSound(s, blocked)
    ensures (blocked ==> now) && SessionSound(next, now) && (Weighs(next) ==> Weighs(s))
            && (s.stage.Dead? ==> next.stage.Dead?)
    ensures now == (blocked || s.stage == Ended(ContainmentFailed)) && Turned(s, next)
  {
    next, now := s, blocked;
    match s.stage {
      case Serving =>
        var o, created, retired := ServeConnected(script);
        next := Session(Ended(o), created, retired);
      case Ended(o) =>
        now := blocked || o == ContainmentFailed;
        next := s.(stage := Closing);
      case Closing =>
        next := s.(stage := Dead);
      case Dead =>
    }
  }

  ghost predicate Turned(s: Session, next: Session) {
    match s.stage
    case Serving =>
      next.stage.Ended? && (next.stage.outcome == ContainmentFailed <==> next.created && !next.retired)
    case Ended(o) => next == s.(stage := Closing)
    case Closing => next == s.(stage := Dead)
    case Dead => next == s
  }

  /** One thread's step: it serves, then acts on its outcome, then is gone; no other
      session is touched, and what became of its environment is settled by serving alone. */
  ghost predicate Stepped(before: seq<Session>, after: seq<Session>, id: nat) {
    id < |before| && |after| == |before| && after == before[id := after[id]] && Turned(before[id], after[id])
  }

  /** The listed threads that are not gone, in their order: what `reap` keeps. */
  function Living(sessions: seq<Session>, threads: seq<nat>): (l: seq<nat>)
    requires forall i :: 0 <= i < |threads| ==> threads[i] < |sessions|
    ensures |l| <= |threads|
  {
    if threads == [] then []
    else if sessions[threads[0]].stage.Dead? then Living(sessions, threads[1..])
    else [threads[0]] + Living(sessions, threads[1..])
  }

  /** The listener: idle, or part way through `admit`. */
  datatype Listener = Idle | Filtering(kept: seq<nat>, left: seq<nat>) | Checking | Admitting

  datatype Step = Listen | Thread(id: nat, script: Script)

  ghost function Weighing(sessions: seq<Session>): set<nat> {
    set i | 0 <= i < |sessions| && Weighs(sessions[i])
  }

  ghost predicate EachSound(sessions: seq<Session>, blocked: bool) {
    forall i :: 0 <= i < |sessions| ==> SessionSound(sessions[i], blocked)
  }

  /** What weighs is listed, or was reaped unresolved, and then `blocked` is set; both
      together fit the capacity. */
  ghost predicate Fits(sessions: seq<Session>, blocked: bool, listed: set<nat>, lost: set<nat>) {
    && Weighing(sessions) <= listed + lost && |listed| + |lost| <= CAPACITY && (lost != {} ==> blocked)
    && forall k :: k in listed ==> k < |sessions|
  }

  /** Threads neither kept nor still to be looked at are dead. */
  ghost predicate Sifted(sessions: seq<Session>, listed: set<nat>, kept: set<nat>, left: set<nat>) {
    && kept + left <= listed
    && forall k :: k in listed && k < |sessions| && k !in kept + left ==> sessions[k].stage.Dead?
  }

  /** One thread's own step keeps everything: it never adds weight, and sets `blocked` before
      it can die unresolved. */
  lemma StepFits(sessions: seq<Session>, id: nat, next: Session, blocked: bool, now: bool, listed: set<nat>,
                 lost: set<nat>)
    requires id < |sessions| && EachSound(sessions, blocked) && Fits(sessions, blocked, listed, lost)
    requires (blocked ==> now) && SessionSound(next, now) && (Weighs(next) ==> Weighs(sessions[id]))
    ensures EachSound(sessions[id := next], now) && Fits(sessions[id := next], now, listed, lost)
  {
    assert Weighing(sessions[id := next]) <= Weighing(sessions);
  }

  lemma StepSifted(sessions: seq<Session>, id: nat, next: Session, listed: set<nat>, kept: set<nat>, left: set<nat>)
    requires id < |sessions| && Sifted(sessions, listed, kept, left) && (sessions[id].stage.Dead? ==> next.stage.Dead?)
    ensures Sifted(sessions[id := next], listed, kept, left)
  {
  }

  ghost function Unresolved(sessions: seq<Session>, dropped: set<nat>): set<nat> {
    set k | k in dropped && k < |sessions| && Weighs(sessions[k])
  }

  /** The dead are dropped; the unresolved among them are remembered. */
  lemma DropFits(sessions: seq<Session>, blocked: bool, listed: set<nat>, kept: set<nat>, lost: set<nat>)
    requires EachSound(sessions, blocked) && Fits(sessions, blocked, listed, lost) && Sifted(sessions, listed, kept, {})
    ensures Fits(sessions, blocked, kept, lost + Unresolved(sessions, listed - kept))
  {
    var unresolved := Unresolved(sessions, listed - kept);
    SubsetCount(kept + unresolved, listed);
    assert |kept + unresolved| == |kept| + |unresolved|;
    assert |lost + unresolved| <= |lost| + |unresolved|;
    if unresolved != {} {
      var k :| k in unresolved;
      assert SessionSound(sessions[k], blocked);
    }
  }

  lemma AdmitFits(sessions: seq<Session>, blocked: bool, listed: set<nat>)
    requires EachSound(sessions, blocked) && Fits(sessions, blocked, listed, {}) && |listed| < CAPACITY
    ensures var more := sessions + [Session(Serving, false, false)];
            EachSound(more, blocked) && Fits(more, blocked, listed + {|sessions|}, {})
  {
    var more := sessions + [Session(Serving, false, false)];
    assert Weighing(more) <= Weighing(sessions) + {|sessions|};
  }

  class Pool {
    var sessions: seq<Session>
    var threads: seq<nat>
    var blocked: bool
    var listener: Listener
    /** Reaped sessions whose environment is still unresolved. */
    ghost var lost: set<nat>

    ghost predicate Valid()
      reads this
    {
      && EachSound(sessions, blocked) && Fits(sessions, blocked, Listed(threads), lost)
      && match listener
         case Idle => true
         case Filtering(kept, left) => Sifted(sessions, Listed(threads), Listed(kept), Listed(left))
         case Checking => true
         case Admitting => lost == {} && |threads| < CAPACITY
    }

    constructor ()
      ensures Valid() && sessions == []
    {
      sessions, threads, blocked, listener, lost := [], [], false, Idle, {};
    }

    /** One step of a session's thread. */
    method Advance(id: nat, script: Script)
      requires Valid() && id < |sessions|
      modifies this`sessions, this`blocked
      ensures Valid() && Stepped(old(sessions), sessions, id)
      ensures blocked == (old(blocked) || old(sessions[id].stage) == Ended(ContainmentFailed))
    {
      assert SessionSound(sessions[id], blocked);
      var next, now := Turn(sessions[id], blocked, script);
      StepFits(sessions, id, next, blocked, now, Listed(threads), lost);
      if listener.Filtering? {
        StepSifted(sessions, id, next, Listed(threads), Listed(listener.kept), Listed(listener.left));
      }
      sessions, blocked := sessions[id := next], now;
    }

    /** One step of the listener through `admit`: look at one thread, then keep the living,
        then look at `blocked` and the count, and only then let a session in. */
    method Listen()
      requires Valid()
      modifies this`sessions, this`threads, this`listener, this`lost
      ensures Valid()
      ensures match old(listener)
              case Idle => listener == Filtering([], threads) && sessions == old(sessions) && threads == old(threads)
              case Filtering(kept, left) =>
                && sessions == old(sessions)
                && if left == [] then threads == kept && listener == Checking
                   else threads == old(threads) && left[0] < |sessions|
                        && listener == Filtering(if sessions[left[0]].stage.Dead? then kept else kept + [left[0]],
                                                 left[1..])
              case Checking =>
                && sessions == old(sessions) && threads == old(threads)
                && listener == if blocked || |threads| >= CAPACITY then Idle else Admitting
              case Admitting =>
                sessions == old(sessions) + [Session(Serving, false, false)]
                    && threads == old(threads) + [|old(sessions)|] && listener == Idle
    {
      match listener {
        case Idle =>
          listener := Filtering([], threads);
        case Filtering(kept, left) =>
          if left == [] {
            Keep(kept);
          } else {
            Look(kept, left);
          }
        case Checking =>
          listener := if blocked || |threads| >= CAPACITY then Idle else Admitting;
        case Admitting =>
          Admit();
      }
    }

    method Admit()
      requires Valid() && listener.Admitting?
      modifies this`sessions, this`threads, this`listener
      ensures Valid() && listener == Idle
      ensures sessions == old(sessions) + [Session(Serving, false, false)]
              && threads == old(threads) + [|old(sessions)|]
    {
      ListedCount(threads);
      Joined(threads, |sessions|);
      AdmitFits(sessions, blocked, Listed(threads));
      threads, sessions, listener := threads + [|sessions|], sessions + [Session(Serving, false, false)], Idle;
    }

    method Look(kept: seq<nat>, left: seq<nat>)
      requires Valid() && listener == Filtering(kept, left) && left != []
      modifies this`listener
      ensures Valid() && left[0] < |sessions|
      ensures listener == Filtering(if sessions[left[0]].stage.Dead? then kept else kept + [left[0]], left[1..])
    {
      Split(left);
      Joined(kept, left[0]);
      if sessions[left[0]].stage.Dead? {
        listener := Filtering(kept, left[1..]);
      } else {
        listener := Filtering(kept + [left[0]], left[1..]);
      }
    }

    /** The end of `reap`. */
    method Keep(kept: seq<nat>)
      requires Valid() && listener == Filtering(kept, [])
      modifies this`threads, this`listener, this`lost
      ensures Valid() && threads == kept && listener == Checking
    {
      DropFits(sessions, blocked, Listed(threads), Listed(kept), lost);
      lost := lost + Unresolved(sessions, Listed(threads) - Listed(kept));
      threads, listener := kept, Checking;
    }
  }

  lemma ListedInRange(sessions: seq<Session>, listed: seq<nat>, blocked: bool, lost: set<nat>)
    requires Fits(sessions, blocked, Listed(listed), lost)
    ensures forall i :: 0 <= i < |listed| ==> listed[i] < |sessions|
  {
    assert forall i :: 0 <= i < |listed| ==> listed[i] in Listed(listed);
  }

  /** `admit` when no session moves meanwhile: dead threads are reaped, whatever they left
      behind, and the peer is let in exactly if nothing has been blocked and there is room. */
  method AdmitUndisturbed(pool: Pool) returns (admitted: bool)
    requires pool.Valid() && pool.listener.Idle?
    modifies pool
    ensures pool.Valid() && pool.listener.Idle? && pool.blocked == old(pool.blocked)
    ensures (forall i :: 0 <= i < |old(pool.threads)| ==> old(pool.threads)[i] < |old(pool.sessions)|)
    ensures var living := Living(old(pool.sessions), old(pool.threads));
            && (admitted <==> !pool.blocked && |living| < CAPACITY)
            && pool.threads == (if admitted then living + [|old(pool.sessions)|] else living)
            && pool.sessions == (if admitted then old(pool.sessions) + [Session(Serving, false, false)]
                                 else old(pool.sessions))
  {
    ListedInRange(pool.sessions, pool.threads, pool.blocked, pool.lost);
    Reap(pool);
    pool.Listen();
    admitted := pool.listener.Admitting?;
    if admitted {
      pool.Listen();
    }
  }

  /** `reap`: of the listed threads the living are kept, in order. */
  method Reap(pool: Pool)
    requires pool.Valid() && pool.listener.Idle?
    requires forall i :: 0 <= i < |pool.threads| ==> pool.threads[i] < |pool.sessions|
    modifies pool
    ensures pool.Valid() && pool.listener == Checking && pool.sessions == old(pool.sessions)
            && pool.blocked == old(pool.blocked)
    ensures pool.threads == Living(old(pool.sessions), old(pool.threads))
  {
    pool.Listen();
    while pool.listener.left != []
      invariant pool.Valid() && pool.listener.Filtering?
      invariant pool.sessions == old(pool.sessions) && pool.threads == old(pool.threads)
                && pool.blocked == old(pool.blocked)
      invariant forall i :: 0 <= i < |pool.listener.left| ==> pool.listener.left[i] < |pool.sessions|
      invariant pool.listener.kept + Living(pool.sessions, pool.listener.left) == Living(old(pool.sessions),
                old(pool.threads))
      decreases |pool.listener.left|
    {
      Regroup(pool.listener.kept, pool.listener.left[0], Living(pool.sessions, pool.listener.left[1..]));
      pool.Listen();
    }
    pool.Listen();
  }

  lemma Regroup(a: seq<nat>, x: nat, b: seq<nat>)
    ensures a + ([x] + b) == a + [x] + b
  {
  }

  /** Its thread is there, or its environment is and nothing will retire it any more. */
  predicate LiveOrUnresolved(s: Session) {
    s.stage != Dead || (s.created && !s.retired)
  }

  /** Every interleaving of the listener and the session threads: at no moment does what
      weighs on the machine exceed the capacity. */
  method Run(steps: seq<Step>) returns (pool: Pool, ghost peak: nat)
    ensures pool.Valid() && |Weighing(pool.sessions)| <= peak <= CAPACITY
    ensures |set i | 0 <= i < |pool.sessions| && LiveOrUnresolved(pool.sessions[i])| <= 4
  {
    pool := new Pool();
    peak := 0;
    var i := 0;
    while i < |steps|
      invariant 0 <= i <= |steps| && pool.Valid() && fresh(pool) && |Weighing(pool.sessions)| <= peak <= CAPACITY
    {
      match steps[i] {
        case Listen => pool.Listen();
        case Thread(id, script) =>
          if id < |pool.sessions| {
            pool.Advance(id, script);
          }
      }
      Bounded(pool.sessions, pool.blocked, pool.threads, pool.lost);
      peak := if |Weighing(pool.sessions)| > peak then |Weighing(pool.sessions)| else peak;
      i := i + 1;
    }
    assert (set k | 0 <= k < |pool.sessions| && LiveOrUnresolved(pool.sessions[k])) == Weighing(pool.sessions);
  }

  // ----------------------------------------------------------------- lists

  function Listed(s: seq<nat>): set<nat> {
    set i | 0 <= i < |s| :: s[i]
  }

  lemma Split(s: seq<nat>)
    requires s != []
    ensures Listed(s) == {s[0]} + Listed(s[1..])
  {
    assert forall i :: 1 <= i < |s| ==> s[i] == s[1..][i - 1];
  }

  lemma Joined(s: seq<nat>, x: nat)
    ensures Listed(s + [x]) == Listed(s) + {x}
  {
    assert forall i :: 0 <= i < |s| ==> (s + [x])[i] == s[i];
    assert (s + [x])[|s|] == x;
  }

  lemma {:induction false} ListedCount(s: seq<nat>)
    ensures |Listed(s)| <= |s|
  {
    if s != [] {
      Split(s);
      ListedCount(s[1..]);
    }
  }

  lemma Bounded(sessions: seq<Session>, blocked: bool, threads: seq<nat>, lost: set<nat>)
    requires Fits(sessions, blocked, Listed(threads), lost)
    ensures |Weighing(sessions)| <= CAPACITY
  {
    SubsetCount(Weighing(sessions), Listed(threads) + lost);
  }
}
