/**
 Many reconcile passes edit one Gateway at once.  Each reads it and writes the whole list
 back; the API server accepts the write only if the Gateway's resource version is still
 the one that was read.  The theorem: whatever the interleaving, the committed list is what
 the committed edits give when done one at a time.
 */
module GatewayProtocol {
  import opened Wrappers
  import opened GatewayListeners

  datatype Op = Ensure(listener: Listener) | Prune(pruned: string)

  function OpName(op: Op): string {
    match op
    case Ensure(l) => l.name
    case Prune(n) => n
  }

  function Apply(ls: seq<Listener>, op: Op): seq<Listener> {
    match op
    case Ensure(l) => Upsert(ls, l)
    case Prune(n) => Remove(ls, n)
  }

  datatype Worker = Idle | Wants(op: Op) | Holds(op: Op, version: nat, snapshot: seq<Listener>)

  /** `log` records the edits in commit order and whether the worker heard of its success. */
  datatype Entry = Entry(worker: nat, op: Op, acked: bool)

  datatype State = State(
    version: nat,
    listeners: seq<Listener>,
    workers: map<nat, Worker>,
    reported: map<nat, seq<Op>>,
    log: seq<Entry>)

  datatype Event =
    | Begin(worker: nat, op: Op)
    | Get(worker: nat)
    | Update(worker: nat, replyLost: bool)
    | Fail(worker: nat)

  function WorkerAt(s: State, w: nat): Worker { if w in s.workers then s.workers[w] else Idle }

  function Reported(s: State, w: nat): seq<Op> { if w in s.reported then s.reported[w] else [] }

  function Commit(s: State, w: nat, op: Op, acked: bool): State {
    s.(workers := s.workers[w := Idle],
       reported := if acked then s.reported[w := Reported(s, w) + [op]] else s.reported,
       log := s.log + [Entry(w, op, acked)])
  }

  /** One step; an event whose worker is not ready for it changes nothing. */
  function Next(s: State, e: Event): State {
    match e
    case Begin(w, op) => if WorkerAt(s, w).Idle? then s.(workers := s.workers[w := Wants(op)]) else s
    case Get(w) =>
      (match WorkerAt(s, w)
       case Wants(op) =>
         // A prune that finds no such listener is done without writing.
         if op.Prune? && |Remove(s.listeners, op.pruned)| == |s.listeners| then Commit(s, w, op, true)
         else s.(workers := s.workers[w := Holds(op, s.version, s.listeners)])
       case _ => s)
    case Update(w, replyLost) =>
      (match WorkerAt(s, w)
       case Holds(op, version, snapshot) =>
         if version != s.version then s.(workers := s.workers[w := Idle])
         else Commit(s.(version := s.version + 1, listeners := Apply(snapshot, op)), w, op, !replyLost)
       case _ => s)
    case Fail(w) => s.(workers := s.workers[w := Idle])
  }

  function Run(s: State, events: seq<Event>): State {
    if events == [] then s else Next(Run(s, events[..|events| - 1]), events[|events| - 1])
  }

  // ---------- The atomic specification ----------

  function Replay(initial: seq<Listener>, log: seq<Entry>): seq<Listener> {
    if log == [] then initial else Apply(Replay(initial, log[..|log| - 1]), log[|log| - 1].op)
  }

  /** The listener a name ends up with: the last edit of that name decides. */
  function LastSaid(initial: Option<Listener>, log: seq<Entry>, name: string): Option<Listener> {
    if log == [] then initial
    else match log[|log| - 1].op
      case Ensure(l) => if l.name == name then Some(l) else LastSaid(initial, log[..|log| - 1], name)
      case Prune(n) => if n == name then None else LastSaid(initial, log[..|log| - 1], name)
  }

  function Acked(log: seq<Entry>, w: nat): seq<Op> {
    if log == [] then []
    else
      var e := log[|log| - 1];
      Acked(log[..|log| - 1], w) + if e.worker == w && e.acked then [e.op] else []
  }

  function Untouched(ls: seq<Listener>, log: seq<Entry>): seq<Listener> {
    if log == [] then ls else Remove(Untouched(ls, log[..|log| - 1]), OpName(log[|log| - 1].op))
  }

  ghost predicate Inv(initial: seq<Listener>, s: State) {
    && UniqueNames(s.listeners)
    && s.listeners == Replay(initial, s.log)
    && (forall w | w in s.workers && s.workers[w].Holds? ::
          s.workers[w].version <= s.version
          && (s.workers[w].version == s.version ==> s.workers[w].snapshot == s.listeners))
    && (forall w :: Reported(s, w) == Acked(s.log, w))
  }

  lemma CommitKeepsInv(initial: seq<Listener>, s: State, s': State, w: nat, op: Op, acked: bool)
    requires Inv(initial, s)
    requires s'.version >= s.version && s'.workers == s.workers && s'.reported == s.reported && s'.log == s.log
    requires s'.version == s.version ==> s'.listeners == s.listeners
    requires s'.listeners == Apply(s.listeners, op)
    ensures Inv(initial, Commit(s', w, op, acked))
  {
    var t := Commit(s', w, op, acked);
    assert t.log[..|t.log| - 1] == s.log;
    match op {
      case Ensure(l) => UpsertUnique(s.listeners, l);
      case Prune(n) => RemoveUnique(s.listeners, n);
    }
    forall v ensures Reported(t, v) == Acked(t.log, v) {
      assert Reported(s, v) == Acked(s.log, v);
    }
  }

  /** A change of one worker's stage alone keeps the invariant if the worker then holds no stale claim. */
  lemma StageKeepsInv(initial: seq<Listener>, s: State, w: nat, stage: Worker)
    requires Inv(initial, s)
    requires stage.Holds? ==> stage.version == s.version && stage.snapshot == s.listeners
    ensures Inv(initial, s.(workers := s.workers[w := stage]))
  {
    var t := s.(workers := s.workers[w := stage]);
    forall v ensures Reported(t, v) == Acked(t.log, v) { assert Reported(s, v) == Acked(s.log, v); }
  }

  lemma UpdateKeepsInv(initial: seq<Listener>, s: State, w: nat, replyLost: bool)
    requires Inv(initial, s)
    ensures Inv(initial, Next(s, Update(w, replyLost)))
  {
    match WorkerAt(s, w) {
      case Holds(op, version, snapshot) =>
        if version == s.version {
          CommitKeepsInv(initial, s, s.(version := s.version + 1, listeners := Apply(snapshot, op)), w, op, !replyLost);
        } else {
          StageKeepsInv(initial, s, w, Idle);
        }
      case _ =>
    }
  }

  lemma GetKeepsInv(initial: seq<Listener>, s: State, w: nat)
    requires Inv(initial, s)
    ensures Inv(initial, Next(s, Get(w)))
  {
    match WorkerAt(s, w) {
      case Wants(op) =>
        if op.Prune? && |Remove(s.listeners, op.pruned)| == |s.listeners| {
          RemoveMembers(s.listeners, op.pruned);
          CommitKeepsInv(initial, s, s, w, op, true);
        } else {
          StageKeepsInv(initial, s, w, Holds(op, s.version, s.listeners));
        }
      case _ =>
    }
  }

  lemma NextKeepsInv(initial: seq<Listener>, s: State, e: Event)
    requires Inv(initial, s)
    ensures Inv(initial, Next(s, e))
  {
    match e {
      case Begin(w, op) => StageKeepsInv(initial, s, w, Wants(op));
      case Fail(w) => StageKeepsInv(initial, s, w, Idle);
      case Get(w) => GetKeepsInv(initial, s, w);
      case Update(w, replyLost) => UpdateKeepsInv(initial, s, w, replyLost);
    }
  }

  lemma {:induction false} RunKeepsInv(s: State, events: seq<Event>)
    requires Inv(s.listeners, s)
    ensures Inv(s.listeners, Run(s, events))
  {
    if events != [] {
      RunKeepsInv(s, events[..|events| - 1]);
      NextKeepsInv(s.listeners, Run(s, events[..|events| - 1]), events[|events| - 1]);
    }
  }

  lemma {:induction false} ReplayFinds(initial: seq<Listener>, log: seq<Entry>, name: string)
    ensures Find(Replay(initial, log), name) == LastSaid(Find(initial, name), log, name)
  {
    if log != [] {
      var before := log[..|log| - 1];
      ReplayFinds(initial, before, name);
      match log[|log| - 1].op {
        case Ensure(l) => FindUpsert(Replay(initial, before), l, name);
        case Prune(n) => FindRemove(Replay(initial, before), n, name);
      }
    }
  }

  lemma {:induction false} UntouchedCommutes(ls: seq<Listener>, log: seq<Entry>, name: string)
    ensures Untouched(Remove(ls, name), log) == Remove(Untouched(ls, log), name)
  {
    if log != [] {
      UntouchedCommutes(ls, log[..|log| - 1], name);
      RemoveCommutes(Untouched(ls, log[..|log| - 1]), name, OpName(log[|log| - 1].op));
    }
  }

  lemma RemoveTwice(ls: seq<Listener>, name: string)
    ensures Remove(Remove(ls, name), name) == Remove(ls, name)
  {
    var r := Remove(ls, name);
    RemoveMembers(ls, name);
    RemoveMembers(r, name);
    forall i | 0 <= i < |r| ensures r[i].name != name { assert r[i] in r; }
  }

  lemma {:induction false} ReplayKeepsUntouched(initial: seq<Listener>, log: seq<Entry>)
    ensures Untouched(Replay(initial, log), log) == Untouched(initial, log)
  {
    if log != [] {
      var before, op := log[..|log| - 1], log[|log| - 1].op;
      var mid := Replay(initial, before);
      ReplayKeepsUntouched(initial, before);
      UntouchedCommutes(Apply(mid, op), before, OpName(op));
      UntouchedCommutes(mid, before, OpName(op));
      match op {
        case Ensure(l) => UpsertKeepsOthers(mid, l, l.name);
        case Prune(n) => RemoveTwice(mid, n);
      }
    }
  }

  ghost predicate Quiet(s: State) {
    UniqueNames(s.listeners) && s.workers == map[] && s.reported == map[] && s.log == []
  }

  /**
   No lost update.  From any quiet Gateway, after any interleaving of any number of
   workers: names stay unique; each name has the listener its last committed edit said;
   listeners nobody edited are unchanged and in their old relative order; and every edit
   reported as successful is among the committed ones, once, in its worker's order.
   */
  lemma NoLostUpdate(s: State, events: seq<Event>, name: string, w: nat)
    requires Quiet(s)
    ensures var t := Run(s, events);
      && UniqueNames(t.listeners)
      && Find(t.listeners, name) == LastSaid(Find(s.listeners, name), t.log, name)
      && Untouched(t.listeners, t.log) == Untouched(s.listeners, t.log)
      && Reported(t, w) == Acked(t.log, w)
  {
    assert forall v :: Reported(s, v) == Acked(s.log, v);
    RunKeepsInv(s, events);
    var t := Run(s, events);
    ReplayFinds(s.listeners, t.log, name);
    ReplayKeepsUntouched(s.listeners, t.log);
  }

  lemma RunSnoc(s: State, events: seq<Event>, e: Event)
    ensures Run(s, events + [e]) == Next(Run(s, events), e)
  {
    assert (events + [e])[..|events + [e]| - 1] == events;
  }

  /** A worker nobody interferes with gets its edit in and hears of it. */
  lemma UncontendedCommits(s: State, w: nat, op: Op)
    requires WorkerAt(s, w).Idle?
    ensures var t := Run(s, [Begin(w, op)] + [Get(w)] + [Update(w, false)]);
      && t.listeners == Apply(s.listeners, op) && Reported(t, w) == Reported(s, w) + [op]
      && t.log == s.log + [Entry(w, op, true)]
  {
    var b, g := [Begin(w, op)], [Begin(w, op)] + [Get(w)];
    assert b == [] + [Begin(w, op)];
    RunSnoc(s, [], Begin(w, op));
    RunSnoc(s, b, Get(w));
    RunSnoc(s, g, Update(w, false));
    if op.Prune? { RemoveMembers(s.listeners, op.pruned); }
  }
}
