/**
 The durable directory of one class and execution identity
 (tools/classified_proof_backend.py): a budget, its adjustment records, and a set of files
 per reservation, each replaced atomically. Nothing is atomic across files: a crash may
 come before any write. Readers that do not hold the lock may see any state there ever was.
 */
module ProofOwner {
  import opened Bytes
  import opened ProofPolicy
  import opened ProofTransaction

  // ------------------------------------------------- one reservation's files

  datatype RecoveryState = Started | RecoveryFailed | Complete
  datatype Recovery = Recovery(result: Digest<ResultRecord>, state: RecoveryState)

  /** Who called the product renderer, and with what evidence. */
  datatype Renderer = ByExecute | ByRecovery(revision: nat)
  datatype Rendering = Rendering(caller: Renderer, evidence: ResultRecord)

  /** The files of a transaction, and what was done in its name outside of them: how
      often the adapter was invoked, and each call of the renderer. */
  datatype Slot = Slot(tx: Option<Transaction>, result: Option<ResultRecord>, failure: Option<Failure>,
                       sidecar: Option<Digest<Failure>>, recoveries: map<nat, Recovery>,
                       invokes: nat, renders: seq<Rendering>)

  const VACANT := Slot(None, None, None, None, map[], 0, [])

  ghost predicate OncePerRenderer(renders: seq<Rendering>) {
    forall i, j :: 0 <= i < j < |renders| ==> renders[i].caller != renders[j].caller
  }

  /** Every rendering was of the retained result, and its renderer had been claimed. */
  ghost predicate Claimed(s: Slot, t: Transaction) {
    forall i :: 0 <= i < |s.renders| ==>
      && s.result.Some? && t.result.Some? && s.renders[i].evidence == s.result.value
      && (match s.renders[i].caller case ByExecute => t.claimed case ByRecovery(v) => v in s.recoveries)
  }

  ghost predicate SlotSound(len: Lengths, r: Reservation, s: Slot, reserved: bool) {
    match s.tx
    case None => !reserved && s.invokes == 0 && s.renders == [] && s.recoveries == map[]
    case Some(t) =>
      && StoredSoundly(len, r, t)
      && (reserved || t.state.Preflighted?)
      && s.invokes <= 1 && (!reserved || t.state.Preflighted? || t.state.Reserved? ==> s.invokes == 0)
      && (s.invokes == 1 ==> Launching in t.history)
      && (t.result.Some? ==>
            ResultVerifies(len, r.cls == Acceptance, s.result, t) && t.observation == Some(s.result.value.observation))
      && (t.failure.Some? ==> PairVerifies(len, s.failure, s.sidecar, t))
      && (t.result.None? ==> s.recoveries == map[] && s.renders == [])
      && (r.cls == Diagnostic ==> s.renders == [])
      && OncePerRenderer(s.renders) && Claimed(s, t)
  }

  /** What is named is never replaced, what was done is never undone, and a completed
      rendering is the last. */
  ghost predicate SlotFollows(s: Slot, u: Slot) {
    && s.invokes <= u.invokes && s.renders <= u.renders
    && (s.tx.Some? ==>
          && u.tx.Some? && Follows(s.tx.value, u.tx.value)
          && (s.tx.value.result.Some? ==> u.result == s.result)
          && (s.tx.value.failure.Some? ==> u.failure == s.failure && u.sidecar == s.sidecar)
          && (s.tx.value.rendered ==> u.renders == s.renders)
          && s.recoveries.Keys <= u.recoveries.Keys)
  }

  lemma SlotFollowsOn(s: Slot, u: Slot, v: Slot)
    requires SlotFollows(s, u) && SlotFollows(u, v)
    ensures SlotFollows(s, v)
  {
    if s.tx.Some? {
      FollowsOn(s.tx.value, u.tx.value, v.tx.value);
    }
  }

  // -------------------------------------------------------------- the budget

  datatype Budget = Budget(contractName: nat, plan: nat, candidate: Option<nat>, contract: nat, planContent: nat,
                           maximum: int, consumed: int, reservations: seq<Reservation>)

  datatype AdjustmentKey = PlanRevision(contractFrom: nat, contractTo: nat, planFrom: nat, planTo: nat)
      | Extension(from: int, to: int)
  datatype Adjustment = Adjustment(authority: nat, before: Budget, after: Budget)

  predicate Distinct(rs: seq<Reservation>) {
    forall i, j :: 0 <= i < j < |rs| ==> rs[i] != rs[j]
  }

  /** Acceptance has one reservation at most, the one its budget is bound to. */
  ghost predicate BudgetSound(cls: Class, identity: nat, b: Budget) {
    && Distinct(b.reservations) && b.consumed == |b.reservations| <= b.maximum && b.maximum >= 1
    && (b.candidate.Some? <==> cls == Acceptance)
    && (cls == Acceptance ==>
          && b.maximum == 1
          && forall i :: 0 <= i < |b.reservations| ==>
               b.reservations[i] == Reservation(cls, identity, b.candidate.value, b.contractName, b.contract, b.plan,
                                                b.planContent))
  }

  ghost predicate BudgetFollows(cls: Class, b: Budget, c: Budget) {
    && b.reservations <= c.reservations && b.maximum <= c.maximum
    && b.contractName == c.contractName && b.plan == c.plan && b.candidate == c.candidate
    && (cls == Acceptance ==> b.maximum == c.maximum && b.contract == c.contract && b.planContent == c.planContent)
  }

  // --------------------------------------------------------------- the world

  datatype World = World(budget: Option<Budget>, adjustments: map<AdjustmentKey, Adjustment>, slots: map<Reservation,
                         Slot>)

  const EMPTY := World(None, map[], map[])

  function At(w: World, r: Reservation): Slot {
    if r in w.slots then w.slots[r] else VACANT
  }

  function Reservations(w: World): seq<Reservation> {
    if w.budget.Some? then w.budget.value.reservations else []
  }

  predicate IsReserved(w: World, r: Reservation) {
    r in Reservations(w)
  }

  ghost predicate Sound(len: Lengths, cls: Class, identity: nat, w: World) {
    && cls != ReadOnly
    && (w.budget.Some? ==> BudgetSound(cls, identity, w.budget.value))
    && forall r {:trigger SoundFor(len, w, r)} :: SoundFor(len, w, r)
  }

  ghost predicate SoundFor(len: Lengths, w: World, r: Reservation) {
    SlotSound(len, r, At(w, r), IsReserved(w, r))
  }

  lemma SoundAt(len: Lengths, cls: Class, identity: nat, w: World, r: Reservation)
    requires Sound(len, cls, identity, w)
    ensures SlotSound(len, r, At(w, r), IsReserved(w, r))
  {
    var sound := SoundFor(len, w, r);
    assert sound;
  }

  ghost predicate Evolves(cls: Class, v: World, w: World) {
    && (v.budget.Some? ==> w.budget.Some? && BudgetFollows(cls, v.budget.value, w.budget.value))
    && forall r {:trigger SlotFollows(At(v, r), At(w, r))} :: SlotFollows(At(v, r), At(w, r))
  }

  lemma EvolvesOn(cls: Class, u: World, v: World, w: World)
    requires Evolves(cls, u, v) && Evolves(cls, v, w)
    ensures Evolves(cls, u, w)
  {
    forall r ensures SlotFollows(At(u, r), At(w, r)) {
      SlotFollowsOn(At(u, r), At(v, r), At(w, r));
    }
  }

  function With(w: World, r: Reservation, s: Slot): World {
    w.(slots := w.slots[r := s])
  }

  lemma WithSlot(len: Lengths, cls: Class, identity: nat, w: World, r: Reservation, s: Slot)
    requires Sound(len, cls, identity, w) && SlotSound(len, r, s, IsReserved(w, r)) && SlotFollows(At(w, r), s)
    ensures Sound(len, cls, identity, With(w, r, s)) && Evolves(cls, w, With(w, r, s))
  {
    var w' := With(w, r, s);
    forall q ensures SlotSound(len, q, At(w', q), IsReserved(w', q)) && SlotFollows(At(w, q), At(w', q)) {
      SoundAt(len, cls, identity, w, q);
      assert IsReserved(w', q) == IsReserved(w, q);
      assert q != r ==> At(w', q) == At(w, q);
    }
  }

  /** The budget file replaced: same slots, and every reservation it adds is of a
      transaction that is only preflighted. */
  lemma WithBudget(len: Lengths, cls: Class, identity: nat, w: World, b: Budget)
    requires Sound(len, cls, identity, w) && BudgetSound(cls, identity, b)
    requires w.budget.Some? ==> BudgetFollows(cls, w.budget.value, b)
    requires Reservations(w) <= b.reservations
    requires forall i :: |Reservations(w)| <= i < |b.reservations| ==>
              SlotSound(len, b.reservations[i], At(w, b.reservations[i]), true)
    ensures Sound(len, cls, identity, w.(budget := Some(b))) && Evolves(cls, w, w.(budget := Some(b)))
  {
    var v := w.(budget := Some(b));
    forall r ensures SlotSound(len, r, At(v, r), IsReserved(v, r)) && SlotFollows(At(w, r), At(v, r)) {
      SoundAt(len, cls, identity, w, r);
      assert At(v, r) == At(w, r);
      if IsReserved(w, r) {
        var i :| 0 <= i < |Reservations(w)| && Reservations(w)[i] == r;
        assert b.reservations[i] == r;
      } else if IsReserved(v, r) {
        var i :| 0 <= i < |b.reservations| && b.reservations[i] == r;
        assert i >= |Reservations(w)|;
      }
    }
  }

  /** An adjustment record changes nothing that matters to soundness. */
  lemma WithAdjustments(len: Lengths, cls: Class, identity: nat, w: World, adjustments: map<AdjustmentKey, Adjustment>)
    requires Sound(len, cls, identity, w)
    ensures Sound(len, cls, identity, w.(adjustments := adjustments)) && Evolves(cls, w, w.(adjustments := adjustments))
  {
    var v := w.(adjustments := adjustments);
    forall r ensures SlotSound(len, r, At(v, r), IsReserved(v, r)) && SlotFollows(At(w, r), At(v, r)) {
      SoundAt(len, cls, identity, w, r);
      assert At(v, r) == At(w, r) && IsReserved(v, r) == IsReserved(w, r);
    }
  }

  /** One owner's directory under the lock, with every state it has been through. */
  class Owner {
    const len: Lengths
    const cls: Class
    const identity: nat
    var world: World
    var trail: seq<World>
    /** How many more steps until the process dies; it never does when absent. */
    var crashIn: Option<nat>

    ghost predicate Valid()
      reads this
    {
      && trail != [] && trail[|trail| - 1] == world
      && (forall i :: 0 <= i < |trail| ==> Sound(len, cls, identity, trail[i]))
      && (forall i, j :: 0 <= i <= j < |trail| ==> Evolves(cls, trail[i], trail[j]))
    }

    constructor (len: Lengths, cls: Class, identity: nat)
      requires cls != ReadOnly
      ensures Valid() && world == EMPTY && trail == [EMPTY]
      ensures this.len == len && this.cls == cls && this.identity == identity && crashIn == None
    {
      this.len, this.cls, this.identity := len, cls, identity;
      world, trail, crashIn := EMPTY, [EMPTY], None;
    }

    /** One atomic replacement, or one effect, or the end of this process. */
    method Step(w: World) returns (alive: bool)
      requires Valid() && Sound(len, cls, identity, w) && Evolves(cls, world, w)
      modifies this
      ensures Valid() && old(trail) <= trail
      ensures world == if alive then w else old(world)
      ensures old(crashIn).None? ==> alive && crashIn.None?
    {
      if crashIn.Some? && crashIn.value == 0 {
        return false;
      }
      crashIn := if crashIn.Some? then Some(crashIn.value - 1) else None;
      forall i | 0 <= i < |trail| ensures Evolves(cls, trail[i], w) {
        EvolvesOn(cls, trail[i], world, w);
      }
      EvolvesSelf(cls, w);
      world, trail, alive := w, trail + [w], true;
    }

    method Put(r: Reservation, s: Slot) returns (alive: bool)
      requires Valid() && SlotSound(len, r, s, IsReserved(world, r)) && SlotFollows(At(world, r), s)
      modifies this
      ensures Valid() && old(trail) <= trail
      ensures world == if alive then With(old(world), r, s) else old(world)
      ensures old(crashIn).None? ==> alive && crashIn.None?
    {
      WithSlot(len, cls, identity, world, r, s);
      alive := Step(With(world, r, s));
    }
  }

  lemma EvolvesSelf(cls: Class, w: World)
    ensures Evolves(cls, w, w)
  {
  }
}
