/**
 The controller's side of the link to the worker (tools/pc0_proof_adapter.py). Requests
 and replies can be lost, requests can arrive late or more than once, and the worker can
 die or refuse at any point; what is asked of it is always bound to one reservation.
 */
module ProofAdapter {
  import opened Bytes
  import opened ProofPolicy
  import opened ProofTransaction
  import W = ExecutionWorker

  datatype Action = Inspect | Preflight | Execute

  datatype Delivery =
    | Delivered | Duplicated        // served, once or twice, and the reply came back
    | RequestLost | RequestLate     // the call times out; a late request may still be served later
    | ReplyLost                     // served, but the call times out
    | BadReply                      // served, but the reply is refused at the boundary
    | BrokenOtherwise               // an exception that is neither a timeout nor a boundary refusal

  /** What one exchange meets: the link, the worker's environment, which earlier state it
      may first look at, when it dies, and whether a late request is served just before. */
  datatype Exchange = Exchange(delivery: Delivery, script: W.Script, instant: nat, dies: Option<nat>, serveLate: bool,
                               ready: bool)

  datatype Exchanged = Ready | Got(reply: W.Reply, effects: Effects) | TimedOut | Boundary | OtherError

  /** How an invocation ends; `Untyped` is an answer that is no valid observation. */
  datatype Invoked =
    | Returned(observation: Observation)
    | NotKnown(effects: Effects, cleanup: Cleanup, protected: Protected)
    | Raised

  const NO_WORKLOADS := Effects(2, false, 1)
  const WORKLOADS_UNKNOWN := Effects(2, true, 3)
  /** What is assumed of a reply that states no effects. */
  const UNSTATED := Effects(1, true, 4)
  /** One workload, and whether its observation was published. */
  const ONE_PUBLISHED := Effects(2, false, 2)
  const ONE_UNPUBLISHED := Effects(2, false, 5)
  const UNKNOWN_PUBLISHED := Effects(2, true, 6)
  const UNKNOWN_UNPUBLISHED := Effects(2, true, 7)

  function EffectsOf(w: W.Workloads): (e: Effects)
    ensures e.entries <= 2 && (e == NO_WORKLOADS <==> w.NoneHere?)
    ensures e.unknown <==> w.CannotSay? || w.NotStated?
  {
    match w
    case NoneHere => NO_WORKLOADS
    case One(published) => if published then ONE_PUBLISHED else ONE_UNPUBLISHED
    case CannotSay(published) => if published then UNKNOWN_PUBLISHED else UNKNOWN_UNPUBLISHED
    case NotStated => UNSTATED
  }

  datatype Translated = NoObservation | Refused | Carried(observation: Observation)

  /** What of a summary an observation carries on: the facts, where there are any. */
  function Payload(summary: W.Summary): (p: nat)
    ensures !summary.Troubleshooting? ==> p == summary.facts
  {
    if summary.Troubleshooting? then 0 else summary.facts
  }

  function AsItCame(v: W.Value, effects: Effects): Observation {
    Observation(v.kind, v.classification, Payload(v.summary), v.cleanup, v.protected, effects)
  }

  /** `_observation` of the diagnostic adapter: a success must state its complete facts, a
      troubleshooting checkpoint can only be inconclusive, and anything else must be a
      failure's report. What is carried is carried as it came. */
  function TranslateDiagnostic(v: W.Value, effects: Effects): (t: Translated)
    ensures !t.NoObservation?
    ensures t.Carried? ==>
              var o := t.observation;
              && o.kind == v.kind && o.classification == v.classification
              && o.cleanup == v.cleanup && o.protected == v.protected && o.effects == effects
              && (!v.summary.Troubleshooting? ==> o.payload == v.summary.facts)
    ensures t.Carried? && v.kind == Success ==>
              v.cleanup == CleanupComplete && v.protected == Unchanged && v.summary.Verified?
    ensures t.Carried? && v.kind != Success ==> !v.summary.Verified?
    ensures t.Carried? && v.kind == Failed ==> v.summary.FailureReport?
    ensures v.kind == Success && W.Complete(v) && v.classification == DiagnosticObserved ==> t.Carried?
    ensures v.kind == Failed && v.summary.FailureReport? && v.classification == DiagnosticFailed ==> t.Carried?
    ensures v.kind == Inconclusive && !v.summary.Verified? && v.classification == DiagnosticInconclusive ==>
              t.Carried?
  {
    if v.classification != DiagnosticObserved && v.classification != DiagnosticFailed
       && v.classification != DiagnosticInconclusive then Refused
    else if v.kind == Success then
      if v.cleanup != CleanupComplete || v.protected != Unchanged || !v.summary.Verified? then Refused
      else Carried(AsItCame(v, effects))
    else if v.summary.Troubleshooting? then
      if v.kind != Inconclusive || v.classification != DiagnosticInconclusive then Refused
      else Carried(AsItCame(v, effects))
    else if v.summary.FailureReport? then Carried(AsItCame(v, effects))
    else Refused
  }

  /** `_observation` of the acceptance adapter: a success that does not hold up is kept, but
      as an inconclusive observation of which nothing is known. */
  function TranslateAcceptance(v: W.Value, effects: Effects): (o: Observation)
    ensures o.effects == effects
    ensures o.kind == Success <==>
              && v.kind == Success && v.classification == AcceptanceObserved && v.cleanup == CleanupComplete
              && v.protected == Unchanged && v.summary.Verified?
    ensures o.kind == v.kind ==>
              && o.classification == v.classification && o.cleanup == v.cleanup && o.protected == v.protected
              && (!v.summary.Troubleshooting? ==> o.payload == v.summary.facts)
    ensures o.kind != v.kind ==>
              && v.kind == Success && o.kind == Inconclusive
              && o.classification == AcceptanceAdmissionFailed
              && o.cleanup == CleanupUnknown && o.protected == ProtectedUnknown
  {
    if v.kind == Success && (v.classification != AcceptanceObserved || v.cleanup != CleanupComplete
                             || v.protected != Unchanged || !v.summary.Verified?)
    then Observation(Inconclusive, AcceptanceAdmissionFailed, Payload(v.summary), CleanupUnknown,
                     ProtectedUnknown, effects)
    else AsItCame(v, effects)
  }

  /** `_observation` of a product's adapter: as for acceptance, but the dispositions stay. */
  function TranslateProduct(product: Product, v: W.Value, effects: Effects): (o: Observation)
    ensures o.effects == effects && o.cleanup == v.cleanup && o.protected == v.protected
    ensures o.kind == Success <==>
              && v.kind == Success && v.classification == SamplesVerified(product)
              && v.cleanup == CleanupComplete && v.protected == Unchanged && v.summary.Verified?
    ensures o.kind == v.kind ==>
              && o.classification == v.classification
              && (!v.summary.Troubleshooting? ==> o.payload == v.summary.facts)
    ensures o.kind != v.kind ==>
              && v.kind == Success && o.kind == Inconclusive
              && o.classification == ProductAdmissionFailed(product)
  {
    if v.kind == Success && (v.classification != SamplesVerified(product) || v.cleanup != CleanupComplete
                             || v.protected != Unchanged || !v.summary.Verified?)
    then Observation(Inconclusive, ProductAdmissionFailed(product), Payload(v.summary), v.cleanup,
                     v.protected, effects)
    else AsItCame(v, effects)
  }

  /** What a reply comes to: only an observation of this very request is one, and what an
      adapter of its class and product makes of it. */
  function Translate(reply: W.Reply, q: W.Request, effects: Effects): (t: Translated)
    ensures t.NoObservation? <==> reply.Absent? || reply.Unknown?
    ensures t.Carried? ==> reply.Seen? && reply.value.binding == q && t.observation.effects == effects
    ensures t.Carried? && t.observation.kind == Success ==>
              && reply.value.kind == Success && W.Complete(reply.value)
              && t.observation.cleanup == CleanupComplete && t.observation.protected == Unchanged
              && t.observation.payload == reply.value.summary.facts
    ensures t.Carried? && t.observation.kind == reply.value.kind ==>
              && t.observation.classification == reply.value.classification
              && t.observation.cleanup == reply.value.cleanup && t.observation.protected == reply.value.protected
              && (!reply.value.summary.Troubleshooting? ==> t.observation.payload == reply.value.summary.facts)
    ensures t.Carried? && t.observation.kind != reply.value.kind ==>
              reply.value.kind == Success && t.observation.kind == Inconclusive
  {
    match reply
    case Seen(v) =>
      if v.binding != q then Refused
      else if q.product.Some? then Carried(TranslateProduct(q.product.value, v, effects))
      else if q.of.cls == Acceptance then Carried(TranslateAcceptance(v, effects))
      else TranslateDiagnostic(v, effects)
    case Absent => NoObservation
    case Unknown => NoObservation
    case Raises => Refused
  }

  /** The one kind of value that the worker publishes and the diagnostic adapter refuses. */
  predicate Unreportable(q: W.Request, v: W.Value) {
    q.product.None? && q.of.cls != Acceptance && v.kind != Success && v.summary.Verified?
  }

  /** What an exchange's run had to show in the end. */
  function FactsOf(x: Exchange): nat {
    if x.script.supervision.Returned? then x.script.supervision.facts else 0
  }

  /** What a run without trouble is retained as. */
  function SuccessOf(q: W.Request, facts: nat): Observation {
    Observation(Success, W.Label(q, Success), facts, CleanupComplete, Unchanged, ONE_PUBLISHED)
  }

  /** The observation says what the worker's value says. */
  predicate Faithful(o: Observation, v: W.Value) {
    && o.kind == v.kind && o.classification == v.classification
    && o.cleanup == v.cleanup && o.protected == v.protected
    && (!v.summary.Troubleshooting? ==> o.payload == v.summary.facts)
  }

  /** Whatever the worker's files let inspection find for its request is taken up as it is,
      with one exception: a diagnostic run whose result was verified without any error, but
      whose environment or protected state was not left as it should be, is refused. */
  lemma RefusedExactly(of: Reservation, roots: map<Reservation, W.Root>, q: W.Request, effects: Effects)
    requires of in roots && W.RootSound(of, roots[of]) && q.of == of && W.Inspect(roots, q).Seen?
    ensures var v := W.Inspect(roots, q).value; var t := Translate(W.Inspect(roots, q), q, effects);
            && (t.Refused? <==> q.product.None? && of.cls != Acceptance && v.kind != Success && v.summary.Verified?)
            && (t.Refused? <==> Unreportable(q, v))
            && (t.Carried? ==> Faithful(t.observation, v))
  {
  }

  class Adapter {
    const worker: W.Worker
    /** The worker program that is deployed, and whether it serves a product. */
    var program: nat
    var product: Option<Product>
    /** Reservations whose execution was ever requested; late requests are among them. */
    var asked: set<Reservation>
    var late: seq<W.Request>
    var exchanges: seq<Exchange>
    var preflights: seq<bool>
    var admissions: seq<Option<Admitted>>
    var renderings: seq<bool>

    ghost predicate Valid()
      reads this, worker
    {
      && worker.Valid()
      && (forall r :: r in worker.roots ==> r in asked)
      && (forall i :: 0 <= i < |late| ==> late[i].of in asked)
    }

    constructor (worker: W.Worker, program: nat, product: Option<Product>)
      requires worker.Valid() && worker.roots == map[]
      ensures Valid() && asked == {} && this.worker == worker && this.program == program && this.product == product
      ensures late == [] && exchanges == [] && preflights == [] && admissions == [] && renderings == []
    {
      this.worker, this.program, this.product := worker, program, product;
      asked, late, exchanges, preflights, admissions, renderings := {}, [], [], [], [], [];
    }

    function RequestFor(r: Reservation): W.Request
      reads this`program, this`product
    {
      W.Request(r, program, product)
    }

    /** The run of this reservation really deserved a success. */
    ghost predicate Vouched(r: Reservation)
      reads worker
    {
      W.ProvedIn(worker.roots, r)
    }

    ghost predicate Honest(r: Reservation, o: Option<Observation>)
      reads worker
    {
      o.Some? && o.value.kind == Success ==> Vouched(r)
    }

    /** Retrieval found this in a state the worker's files were once in, or are now. */
    ghost predicate Found(e: Exchanged, r: Reservation, at: map<Reservation, W.Root>)
      reads worker, this`program, this`product
    {
      && e.Got? && e.effects == NO_WORKLOADS && e.reply == W.Inspect(at, RequestFor(r))
      && W.Sound(at) && W.Evolves(at, worker.roots)
    }

    predicate LocallyReady()
      reads this`preflights
    {
      preflights == [] || preflights[0]
    }

    /** The link loses nothing for the next three exchanges, nothing late is under way, and
        an execution meets no trouble. */
    ghost predicate Smooth()
      reads this
    {
      exchanges != [] && exchanges[0].delivery.Delivered? && LaunchesFrom(1)
    }

    /** Both preflights pass and the execution asked for then runs. */
    ghost predicate LaunchesFrom(i: nat)
      reads this
    {
      && |exchanges| >= i + 2 && late == [] && LocallyReady()
      && exchanges[i].delivery.Delivered? && exchanges[i].ready && Runs(exchanges[i + 1])
    }

    ghost predicate Runs(x: Exchange) {
      x.delivery.Delivered? && x.dies.None? && W.Smooth(x.script)
    }

    /** The execution asked for runs, well or not, and what became of it is published. */
    ghost predicate Reports(x: Exchange) {
      && x.delivery.Delivered? && x.dies.None? && x.script.preflight && x.script.intent == W.InFull
      && W.Recorded(x.script)
    }

    /** As `Smooth`, but the run may meet any trouble. */
    ghost predicate Reporting()
      reads this
    {
      && |exchanges| >= 3 && late == [] && LocallyReady() && exchanges[0].delivery.Delivered?
      && exchanges[1].delivery.Delivered? && exchanges[1].ready && Reports(exchanges[2])
    }

    /** The next `n` exchanges are delivered and find every preflight passing and every execution
        untroubled, and nothing late is under way. */
    ghost predicate Calm(n: nat)
      reads this
    {
      && n <= |exchanges| && late == []
      && (forall i :: 0 <= i < n ==> exchanges[i].delivery.Delivered? && exchanges[i].ready && Runs(exchanges[i]))
      && forall i :: 0 <= i < |preflights| ==> preflights[i]
    }

    method NextExchange() returns (x: Exchange)
      modifies this`exchanges
      ensures old(exchanges) != [] ==> x == old(exchanges)[0] && exchanges == old(exchanges)[1..]
    {
      var quiet := W.Script(false, W.InFull, false, false, [], W.SupervisionRaised, false, None, None, false, false,
                            false, [],
                            W.InFull, W.InFull);
      x := if exchanges == [] then Exchange(RequestLost, quiet, 0, None, false, false) else exchanges[0];
      exchanges := if exchanges == [] then [] else exchanges[1..];
    }

    /** The success of a run with this outcome came back. */
    ghost predicate Succeeded(e: Exchanged, q: W.Request, facts: nat) {
      e == Got(W.Seen(W.Value(q, Success, W.Label(q, Success), W.Verified(facts), CleanupComplete, Unchanged)),
               ONE_PUBLISHED)
    }

    /** The answer of a run that went as the script says, its records kept; inspection finds
        the same. */
    ghost predicate Told(e: Exchanged, q: W.Request, s: W.Script)
      reads worker
    {
      && e.Got? && e.reply.Seen? && W.Inspect(worker.roots, q) == e.reply
      && var v := e.reply.value;
      && v.binding == q && v.classification == W.Label(q, v.kind)
      && W.Tells(q, v.kind, v.summary, v.cleanup, v.protected, s)
      && e.effects == if W.Starts(s) && s.supervision.Returned? then ONE_PUBLISHED else UNKNOWN_PUBLISHED
    }

    /** Which of the worker's states an exchange first looks at. */
    function Instant(x: Exchange): nat
      reads worker
    {
      if x.instant < |worker.trail| || worker.trail == [] then x.instant else |worker.trail| - 1
    }

    /** What inspection at that moment would find. */
    function Look(x: Exchange, q: W.Request): W.Reply
      requires worker.trail != []
      reads worker
    {
      W.Inspect(worker.trail[Instant(x)], q)
    }

    /** The worker serves one execute request. */
    method Serve(q: W.Request, x: Exchange) returns (reply: Exchanged)
      requires Valid() && q.of in asked
      modifies worker
      ensures Valid() && W.Evolves(old(worker.roots), worker.roots) && W.OnlyAt(old(worker.roots), worker.roots, q.of)
      ensures (reply.Got? && reply.effects.entries <= 2) || reply.Boundary?
      ensures reply.Got? && reply.effects == NO_WORKLOADS ==> q.of in worker.roots
      ensures reply.Got? && W.Succeeds(reply.reply) ==> reply.reply.value.binding == q && W.ProvedIn(worker.roots, q.of)
                                                         && W.Complete(reply.reply.value)
      ensures reply.Got? ==> reply.reply != W.Absent && reply.reply != W.Raises
      ensures var found := old(Look(x, q));
              && (found.Raises? || (found.Absent? && !x.script.preflight) ==>
                    reply == Boundary && worker.roots == old(worker.roots))
              && (found.Seen? || found.Unknown? ==>
                    reply == Got(found, NO_WORKLOADS) && worker.roots == old(worker.roots))
              && (found.Absent? && x.script.preflight && q.of in old(worker.roots) ==>
                    reply == Got(W.Unknown, UNSTATED) && worker.roots == old(worker.roots))
      ensures q.of !in old(worker.roots) && x.script.preflight && reply.Got? && W.Recorded(x.script) ==>
                Told(reply, q, x.script)
      ensures q.of !in old(worker.roots) && Reports(x) ==> reply.Got?
    {
      worker.crashIn := x.dies;
      var instant := if x.instant < |worker.trail| then x.instant else |worker.trail| - 1;
      assert q.of !in worker.roots ==> W.Inspect(worker.trail[instant], q) == W.Absent by {
        W.InspectedSuccessIsProved(worker.trail[instant], worker.roots, q);
        assert W.Evolves(worker.trail[instant], worker.trail[|worker.trail| - 1]);
      }
      var answer := W.Execute(worker, q, instant, x.script);
      reply := if answer.Answered? then Got(answer.reply, EffectsOf(answer.workloads)) else Boundary;
    }

    method ServeLate(x: Exchange)
      requires Valid()
      modifies this`late, worker
      ensures Valid() && W.Evolves(old(worker.roots), worker.roots)
      ensures old(late) == [] ==> late == [] && worker.roots == old(worker.roots) && worker.trail == old(worker.trail)
    {
      if late != [] && x.serveLate {
        var q := late[0];
        late := late[1..];
        var reply := Serve(q, x);
      }
    }

    /** `_remote`. */
    method Remote(action: Action, r: Reservation) returns (e: Exchanged, ghost at: map<Reservation, W.Root>)
      requires Valid() && (action.Execute? ==> r in asked)
      modifies this`late, this`exchanges, worker
      ensures Valid() && W.Evolves(old(worker.roots), worker.roots)
      ensures e.Got? && W.Succeeds(e.reply) ==>
                e.reply.value.binding == RequestFor(r) && Vouched(r) && W.Complete(e.reply.value)
      ensures old(exchanges) != [] ==> exchanges == old(exchanges)[1..]
      ensures old(exchanges) != [] && old(late) == [] && old(exchanges)[0].delivery.Delivered? ==>
                var x := old(exchanges)[0];
                && late == []
                && (action.Inspect? ==>
                      var found := old(Look(exchanges[0], RequestFor(r)));
                      e == if found.Raises? then Boundary else Got(found, NO_WORKLOADS))
                && (action.Preflight? ==> e == if x.ready then Ready else Boundary)
                && (action.Execute? && r !in old(worker.roots) && Reports(x) ==> Told(e, RequestFor(r), x.script))
      ensures old(exchanges) != [] && old(late) == [] && r !in old(worker.roots) ==>
                old(Look(exchanges[0], RequestFor(r))) == W.Absent
      ensures e.Ready? ==> action.Preflight?
      ensures e.Got? ==> e.effects.entries <= 2
      ensures e.Got? ==> !action.Preflight? && e.reply != W.Raises && (action.Inspect? ==> Found(e, r, at))
      ensures !action.Execute? && old(late) == [] ==> late == [] && worker.roots == old(worker.roots)
      ensures e.Got? && action.Execute? ==> e.reply != W.Absent && (e.effects == NO_WORKLOADS ==> r in worker.roots)
    {
      var x := NextExchange();
      ServeLate(x);
      at := worker.roots;
      match action {
        case Inspect =>
          var instant := if x.instant < |worker.trail| then x.instant else |worker.trail| - 1;
          W.InspectedSuccessIsProved(worker.trail[instant], worker.roots, RequestFor(r));
          at := worker.trail[instant];
          e := Got(W.Inspect(worker.trail[instant], RequestFor(r)), NO_WORKLOADS);
        case Preflight =>
          e := if x.ready then Ready else Boundary;
        case Execute =>
          e := Send(r, x);
          W.EvolvesOn(old(worker.roots), at, worker.roots);
      }
      match x.delivery {
        case Delivered =>
        case Duplicated =>
        case BadReply => e := Boundary;
        case BrokenOtherwise => e := OtherError;
        case _ => e := TimedOut;
      }
      if e.Got? && e.reply == W.Raises {
        e := Boundary;
      }
    }

    method Send(r: Reservation, x: Exchange) returns (e: Exchanged)
      requires Valid() && r in asked
      modifies this`late, worker
      ensures Valid() && W.Evolves(old(worker.roots), worker.roots) && !e.Ready?
      ensures e.Got? ==>
                e.effects.entries <= 2 && e.reply != W.Absent && (e.effects == NO_WORKLOADS ==> r in worker.roots)
      ensures e.Got? && W.Succeeds(e.reply) ==>
                e.reply.value.binding == RequestFor(r) && Vouched(r) && W.Complete(e.reply.value)
      ensures x.delivery.Delivered? ==> late == old(late)
      ensures r !in old(worker.roots) && Reports(x) ==> Told(e, RequestFor(r), x.script)
    {
      var q := RequestFor(r);
      if x.delivery.RequestLost? {
        return TimedOut;
      }
      if x.delivery.RequestLate? {
        late := late + [q];
        return TimedOut;
      }
      e := Serve(q, x);
      if x.delivery.Duplicated? {
        e := Serve(q, x);
      }
    }

    /** `reconcile`: retrieval only; nothing is ever asked for. What it finds says just what
        the worker's files said at some moment; over a link that delivers, it finds all that
        inspection sees but what the diagnostic adapter refuses. */
    method Reconcile(r: Reservation) returns (o: Option<Observation>, ghost at: map<Reservation, W.Root>)
      requires Valid()
      modifies this`late, this`exchanges, worker
      ensures Valid() && W.Evolves(old(worker.roots), worker.roots) && Honest(r, o)
      ensures old(late) == [] ==> worker.roots == old(worker.roots)
      ensures o.Some? ==>
                && W.Sound(at) && W.Evolves(at, worker.roots) && W.Inspect(at, RequestFor(r)).Seen?
                && Faithful(o.value, W.Inspect(at, RequestFor(r)).value) && o.value.effects == NO_WORKLOADS
      ensures old(exchanges) != [] && old(late) == [] && old(exchanges)[0].delivery.Delivered? ==>
                var found := old(Look(exchanges[0], RequestFor(r)));
                && (o.Some? <==> found.Seen? && !Unreportable(RequestFor(r), found.value))
                && (o.Some? ==> Faithful(o.value, found.value))
    {
      var e;
      e, at := Remote(Inspect, r);
      var t := if e.Got? then Translate(e.reply, RequestFor(r), e.effects) else Refused;
      FoundIsFaithful(e, r, at);
      o := if t.Carried? then Some(t.observation) else None;
    }

    /** `invoke_diagnostic`: look first, and ask for an execution only when the worker has
        never heard of the reservation. What is returned says what the worker's value says;
        an unknown outcome owns up to workloads unless none was asked for. */
    method Invoke(r: Reservation)
      returns (out: Invoked, ghost seen: Exchanged, ghost at: map<Reservation, W.Root>, ghost last: Exchanged,
               ghost attempted: bool)
      requires Valid()
      modifies this`late, this`exchanges, this`asked, this`preflights, worker
      ensures Valid() && W.Evolves(old(worker.roots), worker.roots)
      ensures asked == if attempted then old(asked) + {r} else old(asked)
      ensures attempted ==> Found(seen, r, at) && seen.reply == W.Absent && old(LocallyReady())
      ensures Found(seen, r, at) && seen.reply != W.Absent ==> !attempted && last == seen
      ensures !attempted && last.Got? ==> Found(last, r, at)
      ensures out.Returned? ==>
                && last.Got? && last.reply.Seen? && last.reply.value.binding == RequestFor(r)
                && Translate(last.reply, RequestFor(r), last.effects) == Carried(out.observation)
      ensures last.Got? && last.reply.Seen? && !attempted ==>
                if Unreportable(RequestFor(r), last.reply.value)
                then out == NotKnown(NO_WORKLOADS, CleanupUnknown, ProtectedUnknown)
                else out.Returned? && Faithful(out.observation, last.reply.value)
                     && out.observation.effects == NO_WORKLOADS
      ensures out.NotKnown? ==>
                && out.cleanup == CleanupUnknown && out.protected == ProtectedUnknown
                && out.effects == if last.Got? && last.reply.Unknown? then last.effects
                                  else if attempted then WORKLOADS_UNKNOWN else NO_WORKLOADS
      ensures out.Raised? <==> last.OtherError?
      ensures out.NotKnown? && out.effects == NO_WORKLOADS ==> asked == old(asked) || r in worker.roots
      ensures out.NotKnown? ==> ClosedDispositions(out.effects, out.cleanup, out.protected)
      ensures r !in old(worker.roots) && old(Reporting()) ==>
                && attempted && Told(last, RequestFor(r), old(exchanges)[2].script)
                && if Unreportable(RequestFor(r), last.reply.value)
                   then out == NotKnown(WORKLOADS_UNKNOWN, CleanupUnknown, ProtectedUnknown)
                   else out.Returned? && Faithful(out.observation, last.reply.value)
                        && out.observation.effects == last.effects
      ensures r !in old(worker.roots) && old(Smooth()) ==>
                out == Returned(SuccessOf(RequestFor(r), FactsOf(old(exchanges)[2]))) && attempted
      ensures out.Returned? ==> Honest(r, Some(out.observation))
    {
      var e, tried;
      e, tried, seen, at := Ask(r);
      last, attempted := e, tried;
      if !attempted {
        FoundIsFaithful(e, r, at);
      }
      if r !in old(worker.roots) && old(Reporting()) {
        ToldIsFaithful(e, RequestFor(r), old(exchanges)[2]);
      }
      out := Judged(r, e, tried);
    }

    /** Look, and if the worker has not heard of the reservation, try to have it executed. */
    method Ask(r: Reservation)
      returns (e: Exchanged, attempted: bool, ghost seen: Exchanged, ghost at: map<Reservation, W.Root>)
      requires Valid()
      modifies this`late, this`exchanges, this`asked, this`preflights, worker
      ensures Valid() && W.Evolves(old(worker.roots), worker.roots) && !e.Ready?
      ensures asked == if attempted then old(asked) + {r} else old(asked)
      ensures attempted ==> Found(seen, r, at) && seen.reply == W.Absent && old(LocallyReady())
      ensures Found(seen, r, at) && seen.reply != W.Absent ==> !attempted && e == seen
      ensures !attempted && e.Got? ==> Found(e, r, at) && e.reply != W.Absent
      ensures e.Got? ==> e.effects.entries <= 2 && e.reply != W.Absent
      ensures e.Got? && e.effects == NO_WORKLOADS ==> !attempted || r in worker.roots
      ensures e.Got? && W.Succeeds(e.reply) ==>
                e.reply.value.binding == RequestFor(r) && Vouched(r) && W.Complete(e.reply.value)
      ensures r !in old(worker.roots) && old(Reporting()) ==>
                attempted && Told(e, RequestFor(r), old(exchanges)[2].script)
    {
      e, at := Remote(Inspect, r);
      attempted, seen := false, e;
      ghost var before := worker.roots;
      if e.Got? && e.reply == W.Absent {
        e, attempted := Attempt(r);
        W.EvolvesOn(at, before, worker.roots);
        W.EvolvesOn(old(worker.roots), before, worker.roots);
      }
    }

    /** What the last exchange of an invocation comes to. */
    method Judged(r: Reservation, e: Exchanged, attempted: bool) returns (out: Invoked)
      requires !e.Ready?
      ensures out.Returned? ==> e.Got? && Translate(e.reply, RequestFor(r), e.effects) == Carried(out.observation)
      ensures e.Got? && Translate(e.reply, RequestFor(r), e.effects).Carried? ==> out.Returned?
      ensures out.NotKnown? ==>
                && out.cleanup == CleanupUnknown && out.protected == ProtectedUnknown
                && out.effects == if e.Got? && (e.reply.Unknown? || e.reply.Absent?) then e.effects
                                  else if attempted then WORKLOADS_UNKNOWN else NO_WORKLOADS
      ensures e.Got? && Translate(e.reply, RequestFor(r), e.effects).Refused? ==> out.NotKnown?
      ensures out.Raised? <==> e.OtherError?
    {
      if !e.Got? {
        var effects := if attempted then WORKLOADS_UNKNOWN else NO_WORKLOADS;
        out := if e.OtherError? then Raised else NotKnown(effects, CleanupUnknown, ProtectedUnknown);
        return;
      }
      var t := Translate(e.reply, RequestFor(r), e.effects);
      out := match t
        case Carried(o) => Returned(o)
        case NoObservation => NotKnown(e.effects, CleanupUnknown, ProtectedUnknown)
        case Refused => NotKnown(if attempted then WORKLOADS_UNKNOWN else NO_WORKLOADS, CleanupUnknown,
                                 ProtectedUnknown);
    }

    /** What comes back of a run is taken up, but for the one kind of value. */
    lemma ToldIsFaithful(e: Exchanged, q: W.Request, x: Exchange)
      requires Told(e, q, x.script)
      ensures var t := Translate(e.reply, q, e.effects);
              && (if Unreportable(q, e.reply.value) then t == Refused
                  else t.Carried? && Faithful(t.observation, e.reply.value) && t.observation.effects == e.effects)
      ensures Runs(x) ==> Translate(e.reply, q, e.effects) == Carried(SuccessOf(q, FactsOf(x)))
    {
    }

    lemma FoundIsFaithful(e: Exchanged, r: Reservation, at: map<Reservation, W.Root>)
      requires Valid() && (e.Got? ==> Found(e, r, at))
      ensures e.Got? && e.reply.Seen? ==>
                var t := Translate(e.reply, RequestFor(r), e.effects);
                && (t.Carried? <==> !Unreportable(RequestFor(r), e.reply.value))
                && (t.Carried? ==> Faithful(t.observation, e.reply.value) && t.observation.effects == NO_WORKLOADS)
    {
      if e.Got? && e.reply.Seen? {
        RefusedExactly(r, at, RequestFor(r), e.effects);
      }
    }

    /** Preflight on both sides, and then the one place where an execution is asked for. */
    method Attempt(r: Reservation) returns (e: Exchanged, attempted: bool)
      requires Valid()
      modifies this`late, this`exchanges, this`asked, this`preflights, worker
      ensures Valid() && W.Evolves(old(worker.roots), worker.roots) && !e.Ready?
      ensures asked == if attempted then old(asked) + {r} else old(asked)
      ensures attempted ==> old(LocallyReady())
      ensures e.Got? ==> attempted && e.effects.entries <= 2 && e.reply != W.Absent
                         && (e.effects == NO_WORKLOADS ==> r in worker.roots)
      ensures e.Got? && W.Succeeds(e.reply) ==>
                e.reply.value.binding == RequestFor(r) && Vouched(r) && W.Complete(e.reply.value)
      ensures r !in old(worker.roots) && old(late == [] && |exchanges| >= 2 && LocallyReady())
              && old(exchanges)[0].delivery.Delivered? && old(exchanges)[0].ready && Reports(old(exchanges)[1]) ==>
                attempted && Told(e, RequestFor(r), old(exchanges)[1].script)
    {
      var local := LocalPreflight();
      if !local {
        return Boundary, false;
      }
      ghost var at;
      e, at := Remote(Preflight, r);
      if e != Ready {
        return if e.Got? then Boundary else e, false;
      }
      asked, attempted := asked + {r}, true;
      e, at := Remote(Execute, r);
    }

    /** `preflight`: a reservation the worker knows of needs none. */
    method PreflightPlan(r: Reservation) returns (ok: bool, ghost seen: Exchanged, ghost at: map<Reservation, W.Root>)
      requires Valid()
      modifies this`late, this`exchanges, this`preflights, worker
      ensures ok ==> Found(seen, r, at) && (seen.reply == W.Absent ==> old(LocallyReady()))
      ensures seen.Got? && seen.reply != W.Absent ==> ok && preflights == old(preflights)
      ensures Valid() && W.Evolves(old(worker.roots), worker.roots)
      ensures old(late) == [] ==> worker.roots == old(worker.roots)
      ensures r !in old(worker.roots) && old(Calm(2)) ==>
                ok && late == [] && exchanges == old(exchanges)[2..]
                && forall i :: 0 <= i < |preflights| ==> preflights[i]
    {
      var e;
      e, at := Remote(Inspect, r);
      seen := e;
      if !e.Got? || e.reply != W.Absent {
        ok := e.Got?;
        return;
      }
      ok := LocalPreflight();
      if !ok {
        return;
      }
      ghost var before, later := worker.roots, at;
      e, later := Remote(Preflight, r);
      W.EvolvesOn(at, before, worker.roots);
      W.EvolvesOn(old(worker.roots), before, worker.roots);
      ok := e == Ready;
    }

    method LocalPreflight() returns (ok: bool)
      modifies this`preflights
      ensures ok == old(LocallyReady())
      ensures preflights == if old(preflights) == [] then [] else old(preflights)[1..]
    {
      ok := preflights == [] || preflights[0];
      preflights := if preflights == [] then [] else preflights[1..];
    }

    function NextAdmission(): Option<Admitted>
      reads this`admissions
    {
      if admissions == [] then None else admissions[0]
    }

    predicate WillRender()
      reads this`renderings
    {
      renderings == [] || renderings[0]
    }

    /** `admit`: what the adapter makes of a successful observation; it may refuse. */
    method Admit(o: Observation) returns (a: Option<Admitted>)
      modifies this`admissions
      ensures a == old(NextAdmission())
    {
      a := if admissions == [] then None else admissions[0];
      admissions := if admissions == [] then [] else admissions[1..];
    }

    /** The product renderer; it may raise. */
    method Render(result: ResultRecord) returns (ok: bool)
      modifies this`renderings
      ensures ok == old(WillRender())
    {
      ok := renderings == [] || renderings[0];
      renderings := if renderings == [] then [] else renderings[1..];
    }
  }
}
