/**
 Creating and deleting a tenant through the API takes two stores: a row in Postgres and a
 Tenant object in the cluster, with the row rolled back if the object cannot be made.
 Every call to either store may fail, lose its reply, or never come because the server dies.
 */
module TenantRequests {
  import opened Wrappers
  import Names

  /** `request` is the request that inserted the row; a row that is not live is soft-deleted. */
  datatype Row = Row(owner: string, live: bool, request: nat)

  /** `byApi` tells objects made through the API from those made by other hands. */
  datatype Object = Object(owner: string, deleting: bool, byApi: bool)

  /** What a request under way does next. */
  datatype Stage =
    | MakeObject(name: string, owner: string)
    | RollBack(name: string)
    | DropObject(name: string)
    | SoftDelete(name: string)

  datatype State = State(
    rows: map<string, Row>,
    objects: map<string, Object>,
    active: map<nat, Stage>,
    nextRequest: nat)

  datatype Fate = Works | Fails | ReplyLost | Dies

  datatype Event =
    | Create(name: string, owner: string, fate: Fate)
    | Delete(name: string, caller: string, admin: bool, fate: Fate)
    | Step(request: nat, fate: Fate)
    // other hands and the operator
    | MakeOutside(name: string, owner: string)
    | DeleteOutside(name: string)
    | Vanish(name: string)

  predicate Live(s: State, n: string) { n in s.rows && s.rows[n].live }

  predicate MayDelete(s: State, n: string, caller: string, admin: bool) {
    Live(s, n) && (admin || s.rows[n].owner == caller)
  }

  function Marked(objects: map<string, Object>, n: string): map<string, Object> {
    if n in objects then objects[n := objects[n].(deleting := true)] else objects
  }

  function Begin(s: State, stage: Stage): State {
    s.(active := s.active[s.nextRequest := stage], nextRequest := s.nextRequest + 1)
  }

  function Done(s: State, request: nat): State { s.(active := s.active - {request}) }

  /** The next store call of a request that is under way. */
  function Proceed(s: State, request: nat, fate: Fate): State
    requires request in s.active
  {
    match s.active[request]
    case MakeObject(n, owner) =>
      var made := if n in s.objects then s else s.(objects := s.objects[n := Object(owner, false, true)]);
      (match fate
       case Works => if n in s.objects then s.(active := s.active[request := RollBack(n)]) else Done(made, request)
       case Fails => s.(active := s.active[request := RollBack(n)])
       case ReplyLost => made.(active := s.active[request := RollBack(n)])
       case Dies => Done(s, request))
    case RollBack(n) =>
      if fate == Works || fate == ReplyLost then Done(s.(rows := s.rows - {n}), request) else Done(s, request)
    case DropObject(n) =>
      var marked := s.(objects := Marked(s.objects, n));
      (match fate
       case Works => marked.(active := s.active[request := SoftDelete(n)])
       case ReplyLost => Done(marked, request)
       case _ => Done(s, request))
    case SoftDelete(n) =>
      if (fate == Works || fate == ReplyLost) && Live(s, n)
      then Done(s.(rows := s.rows[n := s.rows[n].(live := false)]), request)
      else Done(s, request)
  }

  function Next(s: State, e: Event): State {
    match e
    case Create(n, owner, fate) =>
      if Names.ValidateTenantName(n) != None || n in s.rows || fate == Fails || fate == Dies then s
      else
        var inserted := s.(rows := s.rows[n := Row(owner, true, s.nextRequest)]);
        if fate == Works then Begin(inserted, MakeObject(n, owner)) else inserted.(nextRequest := s.nextRequest + 1)
    case Delete(n, caller, admin, fate) =>
      if Names.ValidateTenantName(n) == None && fate == Works && MayDelete(s, n, caller, admin)
      then Begin(s, DropObject(n))
      else s
    case Step(request, fate) => if request in s.active then Proceed(s, request, fate) else s
    case MakeOutside(n, owner) =>
      if n in s.objects then s else s.(objects := s.objects[n := Object(owner, false, false)])
    case DeleteOutside(n) => s.(objects := Marked(s.objects, n))
    case Vanish(n) => if n in s.objects && s.objects[n].deleting then s.(objects := s.objects - {n}) else s
  }

  function Run(s: State, events: seq<Event>): State {
    if events == [] then s else Next(Run(s, events[..|events| - 1]), events[|events| - 1])
  }

  /** Requests on one name do not overlap. */
  predicate InTurn(s: State, e: Event) {
    (e.Create? || e.Delete?) ==> forall r | r in s.active :: s.active[r].name != e.name
  }

  // ---------- What is promised ----------

  /** An object made through the API and not being deleted. */
  predicate Serving(s: State, n: string) { n in s.objects && s.objects[n].byApi && !s.objects[n].deleting }

  predicate BackedAt(s: State, n: string) { Serving(s, n) ==> Live(s, n) && s.rows[n].owner == s.objects[n].owner }

  /** Every such object has a live row with the same owner. */
  ghost predicate Backed(s: State) { forall n :: BackedAt(s, n) }

  predicate Lands(fate: Fate) { fate == Works || fate == ReplyLost }

  /** The step does not break the promise: an object is made only for a live row of its owner, and a row
      goes only where no object made through the API is serving. */
  predicate Harmless(s: State, e: Event) {
    e.Step? && e.request in s.active && Lands(e.fate) ==>
      match s.active[e.request]
      case MakeObject(n, owner) => n in s.objects || (Live(s, n) && s.rows[n].owner == owner)
      case RollBack(n) => !Serving(s, n)
      case SoftDelete(n) => !Serving(s, n)
      case DropObject(_) => true
  }

  lemma ProceedKeepsName(s: State, r: nat, fate: Fate, n: string)
    requires r in s.active && s.active[r].name != n
    ensures var t := Proceed(s, r, fate);
      && (n in t.rows <==> n in s.rows) && (n in s.rows ==> t.rows[n] == s.rows[n])
      && (n in t.objects <==> n in s.objects) && (n in s.objects ==> t.objects[n] == s.objects[n])
  {}

  lemma ProceedBacked(s: State, r: nat, fate: Fate)
    requires Backed(s) && r in s.active
    ensures BackedAt(Proceed(s, r, fate), s.active[r].name) <==> Harmless(s, Step(r, fate))
  {
    assert BackedAt(s, s.active[r].name);
  }

  lemma OutsideBacked(s: State, e: Event, n: string)
    requires BackedAt(s, n) && !e.Step?
    ensures BackedAt(Next(s, e), n)
  {}

  /** Whatever requests overlap and whatever replies are lost: an event keeps every serving object backed
      exactly if it is harmless. */
  lemma BackedExactly(s: State, e: Event)
    requires Backed(s)
    ensures Backed(Next(s, e)) <==> Harmless(s, e)
  {
    var t := Next(s, e);
    if e.Step? && e.request in s.active {
      ProceedBacked(s, e.request, e.fate);
      forall n | n != s.active[e.request].name ensures BackedAt(t, n) {
        assert BackedAt(s, n);
        ProceedKeepsName(s, e.request, e.fate, n);
      }
    } else if !e.Step? {
      forall n ensures BackedAt(t, n) {
        assert BackedAt(s, n);
        OutsideBacked(s, e, n);
      }
    }
  }

  ghost predicate BackedThroughout(s: State, events: seq<Event>) {
    forall k | 0 <= k <= |events| :: Backed(Run(s, events[..k]))
  }

  ghost predicate HarmlessThroughout(s: State, events: seq<Event>) {
    forall k | 0 <= k < |events| :: Harmless(Run(s, events[..k]), events[k])
  }

  lemma RunStep(s: State, events: seq<Event>, k: nat)
    requires k < |events|
    ensures Run(s, events[..k + 1]) == Next(Run(s, events[..k]), events[k])
  {
    assert events[..k + 1][..k] == events[..k];
  }

  lemma {:induction false} HarmlessUpTo(s: State, events: seq<Event>, k: nat)
    requires Backed(s) && HarmlessThroughout(s, events) && k <= |events|
    ensures Backed(Run(s, events[..k]))
  {
    if k > 0 {
      HarmlessUpTo(s, events, k - 1);
      RunStep(s, events, k - 1);
      BackedExactly(Run(s, events[..k - 1]), events[k - 1]);
    }
  }

  /** The same for runs: all states of a run keep the promise exactly if all of its events are harmless. */
  lemma BackedThroughoutExactly(s: State, events: seq<Event>)
    requires Backed(s)
    ensures BackedThroughout(s, events) <==> HarmlessThroughout(s, events)
  {
    if HarmlessThroughout(s, events) {
      forall k | 0 <= k <= |events| ensures Backed(Run(s, events[..k])) { HarmlessUpTo(s, events, k); }
    }
    if BackedThroughout(s, events) {
      forall k | 0 <= k < |events| ensures Harmless(Run(s, events[..k]), events[k]) {
        RunStep(s, events, k);
        BackedExactly(Run(s, events[..k]), events[k]);
      }
    }
  }

  // ---------- Rows ----------

  /** What a request under way may rely on, lost replies or not. */
  predicate Owns(s: State, r: nat) {
    r in s.active ==>
      r < s.nextRequest && match s.active[r]
        case MakeObject(n, owner) => Live(s, n) && s.rows[n] == Row(owner, true, r)
        case RollBack(n) => Live(s, n) && s.rows[n].request == r
        case DropObject(n) => Live(s, n)
        case SoftDelete(n) => Live(s, n) && !Serving(s, n)
  }

  ghost predicate RowInv(s: State) {
    && (forall r :: Owns(s, r))
    && (forall r, q | r in s.active && q in s.active && r != q :: s.active[r].name != s.active[q].name)
  }

  lemma ProceedKeepsRowInv(s: State, r: nat, fate: Fate)
    requires RowInv(s) && r in s.active
    ensures RowInv(Proceed(s, r, fate))
  {
    var t := Proceed(s, r, fate);
    assert Owns(s, r);
    forall q ensures Owns(t, q) { assert Owns(s, q); }
  }

  lemma NextKeepsRowInv(s: State, e: Event)
    requires RowInv(s) && InTurn(s, e)
    ensures RowInv(Next(s, e))
  {
    if e.Step? {
      if e.request in s.active { ProceedKeepsRowInv(s, e.request, e.fate); }
    } else {
      var t := Next(s, e);
      forall q ensures Owns(t, q) { assert Owns(s, q); }
    }
  }

  predicate SoftDeleted(s: State, n: string) { n in s.rows && !s.rows[n].live }

  lemma NextKeepsSoftDeleted(s: State, e: Event, n: string)
    requires RowInv(s) && SoftDeleted(s, n)
    ensures n in Next(s, e).rows && Next(s, e).rows[n] == s.rows[n]
  {
    if e.Step? && e.request in s.active { assert Owns(s, e.request); }
  }

  ghost predicate TakingTurns(s: State, events: seq<Event>) {
    forall k | 0 <= k < |events| :: InTurn(Run(s, events[..k]), events[k])
  }

  lemma TurnsOfPrefix(s: State, events: seq<Event>, n: nat)
    requires TakingTurns(s, events) && n <= |events|
    ensures TakingTurns(s, events[..n])
  {
    forall k | 0 <= k < n ensures InTurn(Run(s, events[..n][..k]), events[..n][k]) {
      assert events[..n][..k] == events[..k];
    }
  }

  lemma {:induction false} RunsKeepRowInv(s: State, events: seq<Event>)
    requires s.active == map[] && TakingTurns(s, events)
    ensures RowInv(Run(s, events))
  {
    if events != [] {
      var n := |events| - 1;
      TurnsOfPrefix(s, events, n);
      RunsKeepRowInv(s, events[..n]);
      NextKeepsRowInv(Run(s, events[..n]), events[n]);
    }
  }

  /** What rolling back may change: the request's own row, still live. */
  predicate OnlyOwnRowGoes(s: State, t: State, r: nat) {
    && (forall n | n in s.rows && n !in t.rows :: s.rows[n].request == r && s.rows[n].live)
    && (forall n | n in t.rows :: n in s.rows && t.rows[n] == s.rows[n])
  }

  lemma RollBackOwn(s: State, r: nat, fate: Fate)
    requires RowInv(s) && r in s.active && s.active[r].RollBack?
    ensures OnlyOwnRowGoes(s, Next(s, Step(r, fate)), r)
  {
    assert Owns(s, r);
  }

  /** Rolling back is by name, and yet removes only the live row the request itself inserted. */
  lemma RollBackRemovesOwnRow(s: State, events: seq<Event>, r: nat, fate: Fate)
    requires s.active == map[] && TakingTurns(s, events)
    requires r in Run(s, events).active && Run(s, events).active[r].RollBack?
    ensures OnlyOwnRowGoes(Run(s, events), Next(Run(s, events), Step(r, fate)), r)
  {
    RunsKeepRowInv(s, events);
    RollBackOwn(Run(s, events), r, fate);
  }

  lemma NextInTurnsKeepsSoftDeleted(s: State, events: seq<Event>, n: string)
    requires s.active == map[] && TakingTurns(s, events) && events != []
    requires SoftDeleted(Run(s, events[..|events| - 1]), n)
    ensures n in Run(s, events).rows && Run(s, events).rows[n] == Run(s, events[..|events| - 1]).rows[n]
  {
    var k := |events| - 1;
    TurnsOfPrefix(s, events, k);
    RunsKeepRowInv(s, events[..k]);
    NextKeepsSoftDeleted(Run(s, events[..k]), events[k], n);
  }

  /** A soft-deleted row stays as it is for good, so its name is never live again. */
  lemma {:induction false} SoftDeletedStays(s: State, events: seq<Event>, from: nat, n: string)
    requires s.active == map[] && TakingTurns(s, events) && from <= |events|
    requires SoftDeleted(Run(s, events[..from]), n)
    ensures n in Run(s, events).rows && Run(s, events).rows[n] == Run(s, events[..from]).rows[n]
    decreases |events|
  {
    if from == |events| {
      assert events[..from] == events;
    } else {
      var before := events[..|events| - 1];
      TurnsOfPrefix(s, events, |events| - 1);
      assert before[..from] == events[..from];
      SoftDeletedStays(s, before, from, n);
      NextInTurnsKeepsSoftDeleted(s, events, n);
    }
  }

  // ---------- Requests that take turns ----------

  /** A rollback that takes effect finds no object serving. */
  predicate SafeRollBack(s: State, e: Event) {
    e.Step? && e.request in s.active && s.active[e.request].RollBack? && Lands(e.fate)
    ==> !Serving(s, s.active[e.request].name)
  }

  lemma OnlyRollBacksHarm(s: State, e: Event)
    requires RowInv(s)
    ensures Harmless(s, e) <==> SafeRollBack(s, e)
  {
    if e.Step? && e.request in s.active { assert Owns(s, e.request); }
  }

  /** Two-store consistency: where requests on a name take turns, every object made through the API has a
      live row of its owner between any two store calls, exactly if no rollback takes a row away from one. */
  lemma ObjectsHaveRows(s: State, events: seq<Event>)
    requires Backed(s) && s.active == map[] && TakingTurns(s, events)
    ensures BackedThroughout(s, events)
       <==> forall k | 0 <= k < |events| :: SafeRollBack(Run(s, events[..k]), events[k])
  {
    BackedThroughoutExactly(s, events);
    forall k | 0 <= k < |events|
      ensures Harmless(Run(s, events[..k]), events[k]) <==> SafeRollBack(Run(s, events[..k]), events[k])
    {
      TurnsOfPrefix(s, events, k);
      RunsKeepRowInv(s, events[..k]);
      OnlyRollBacksHarm(Run(s, events[..k]), events[k]);
    }
  }

  /** While all objects are backed, none is serving that is still to be made. */
  ghost predicate Inv(s: State) {
    RowInv(s) && Backed(s) && forall r | r in s.active && s.active[r].MakeObject? :: !Serving(s, s.active[r].name)
  }

  lemma StillUnserved(s: State, e: Event, r: nat)
    requires Inv(s) && InTurn(s, e) && Owns(Next(s, e), r)
    requires r in Next(s, e).active && Next(s, e).active[r].MakeObject?
    ensures !Serving(Next(s, e), Next(s, e).active[r].name)
  {
    assert BackedAt(s, Next(s, e).active[r].name);
  }

  lemma NextKeepsInv(s: State, e: Event)
    requires Inv(s) && InTurn(s, e) && Backed(Next(s, e))
    ensures Inv(Next(s, e))
  {
    NextKeepsRowInv(s, e);
    var t := Next(s, e);
    forall r | r in t.active && t.active[r].MakeObject? ensures !Serving(t, t.active[r].name) {
      assert Owns(t, r);
      StillUnserved(s, e, r);
    }
  }

  lemma {:induction false} BackedRunsKeepInv(s: State, events: seq<Event>)
    requires s.active == map[] && TakingTurns(s, events) && BackedThroughout(s, events)
    ensures Inv(Run(s, events))
  {
    assert events[..|events|] == events;
    if events != [] {
      var n := |events| - 1;
      TurnsOfPrefix(s, events, n);
      forall k | 0 <= k <= n ensures Backed(Run(s, events[..n][..k])) { assert events[..n][..k] == events[..k]; }
      BackedRunsKeepInv(s, events[..n]);
      NextKeepsInv(Run(s, events[..n]), events[n]);
    }
  }

  lemma MakeThenRollBack(s: State, r: nat, first: Fate, second: Fate)
    requires Inv(s) && r in s.active && s.active[r].MakeObject?
    ensures var n, t := s.active[r].name, Next(Next(s, Step(r, first)), Step(r, second));
            Backed(t) <==> !(n !in s.objects && first == ReplyLost && Lands(second))
  {
    assert Owns(s, r);
    BackedExactly(s, Step(r, first));
    BackedExactly(Next(s, Step(r, first)), Step(r, second));
  }

  /** After any such run that has kept the promise, a create request whose row is in breaks it exactly
      if its object is then made unheard and the row rolled back. */
  lemma LostCreationBreaks(s: State, events: seq<Event>, r: nat, first: Fate, second: Fate)
    requires s.active == map[] && TakingTurns(s, events) && BackedThroughout(s, events)
    requires r in Run(s, events).active && Run(s, events).active[r].MakeObject?
    ensures var u := Run(s, events);
            Backed(Next(Next(u, Step(r, first)), Step(r, second)))
            <==> !(u.active[r].name !in u.objects && first == ReplyLost && Lands(second))
  {
    BackedRunsKeepInv(s, events);
    MakeThenRollBack(Run(s, events), r, first, second);
  }

  /** Without turns the guard can fail from any state: a deletion between the two steps of a creation
      lets go of the row that the object is then made for. */
  lemma OverlapBreaks(s: State, n: string, owner: string)
    requires Names.ValidateTenantName(n) == None && n !in s.rows && n !in s.objects
    ensures var r := s.nextRequest;
            var u := Next(Next(s, Create(n, owner, Works)), Delete(n, owner, false, Works));
            var v := Next(Next(u, Step(r + 1, Works)), Step(r + 1, Works));
            !Harmless(v, Step(r, Works)) && !Backed(Next(v, Step(r, Works)))
  {
    var r := s.nextRequest;
    var u := Next(Next(s, Create(n, owner, Works)), Delete(n, owner, false, Works));
    assert u.active[r] == MakeObject(n, owner) && u.active[r + 1] == DropObject(n);
    var v := Next(Next(u, Step(r + 1, Works)), Step(r + 1, Works));
    assert v.active[r] == MakeObject(n, owner) && n in v.rows && !v.rows[n].live && n !in v.objects;
    assert !BackedAt(Next(v, Step(r, Works)), n) && !Live(Next(v, Step(r, Works)), n);
  }

  predicate SameStores(s: State, t: State) { t.rows == s.rows && t.objects == s.objects }

  /** To the stores a lost reply is the same as none lost, and a call that fails or is never made leaves them. */
  lemma FatesTell(s: State, r: nat, n: string, owner: string)
    ensures SameStores(Next(s, Step(r, Works)), Next(s, Step(r, ReplyLost)))
    ensures SameStores(Next(s, Create(n, owner, Works)), Next(s, Create(n, owner, ReplyLost)))
    ensures SameStores(s, Next(s, Step(r, Fails))) && SameStores(s, Next(s, Step(r, Dies)))
    ensures SameStores(s, Next(s, Create(n, owner, Fails))) && SameStores(s, Next(s, Create(n, owner, Dies)))
  {}

  // ---------- Who can delete ----------

  predicate Untouched(s: State, n: string) { forall r | r in s.active :: s.active[r].name != n }

  /** The event is not a deletion of the name by its owner, by an administrator or by other hands. */
  predicate Foreign(e: Event, n: string, owner: string) {
    match e
    case Delete(m, caller, admin, _) => m != n || (!admin && caller != owner)
    case DeleteOutside(m) => m != n
    case _ => true
  }

  predicate SameRow(s: State, t: State, n: string) { n in s.rows && n in t.rows && t.rows[n] == s.rows[n] }

  predicate SameObject(s: State, t: State, n: string) {
    n in s.objects && n in t.objects && t.objects[n] == s.objects[n]
  }

  lemma ForeignEventSpares(s: State, e: Event, n: string)
    requires Live(s, n) && Untouched(s, n) && Foreign(e, n, s.rows[n].owner)
    ensures SameRow(s, Next(s, e), n) && Untouched(Next(s, e), n)
    ensures Serving(s, n) ==> SameObject(s, Next(s, e), n)
  {
    if e.Step? && e.request in s.active { ProceedKeepsName(s, e.request, e.fate, n); }
  }

  /** In any run without such a deletion, whatever others request, a live row stays live with its owner, and
      its serving object keeps serving. */
  lemma {:induction false} OthersCannotDelete(s: State, events: seq<Event>, n: string)
    requires Live(s, n) && Untouched(s, n)
    requires forall k | 0 <= k < |events| :: Foreign(events[k], n, s.rows[n].owner)
    ensures SameRow(s, Run(s, events), n) && Untouched(Run(s, events), n)
    ensures Serving(s, n) ==> SameObject(s, Run(s, events), n)
    decreases |events|
  {
    if events != [] {
      var k := |events| - 1;
      OthersCannotDelete(s, events[..k], n);
      ForeignEventSpares(Run(s, events[..k]), events[k], n);
    }
  }

  /** A delete request nothing comes between takes row and object of a live name exactly if its caller is the
      owner or an administrator; from anyone else it changes nothing. */
  lemma OwnersAndAdminsDelete(s: State, n: string, caller: string, admin: bool)
    requires Names.ValidateTenantName(n) == None && Live(s, n) && s.nextRequest !in s.active
    ensures var r := s.nextRequest;
      var t := Next(Next(Next(s, Delete(n, caller, admin, Works)), Step(r, Works)), Step(r, Works));
      if admin || caller == s.rows[n].owner
      then && t.rows == s.rows[n := s.rows[n].(live := false)]
           && t.objects == (if n in s.objects then s.objects[n := s.objects[n].(deleting := true)] else s.objects)
           && t.active == s.active
      else t == s
  {
    var r := s.nextRequest;
    var u := Next(s, Delete(n, caller, admin, Works));
    if admin || caller == s.rows[n].owner {
      assert u.active[r] == DropObject(n);
      var v := Next(u, Step(r, Works));
      assert v.active[r] == SoftDelete(n) && Live(v, n);
      assert v.active - {r} == s.active;
    }
  }

  // ---------- The handlers ----------

  datatype Status = Created | Accepted | BadRequest | NotFound | Conflict | InternalError | NoReply

  class TenantApi {
    var rows: map<string, Row>
    var objects: map<string, Object>
    var nextRequest: nat
    /** The fates of the store calls to come; past the end all work. */
    var fates: seq<Fate>

    function Value(): State
      reads this
    {
      State(rows, objects, map[], nextRequest)
    }

    constructor (fates: seq<Fate>)
      ensures Value() == State(map[], map[], map[], 0) && this.fates == fates
    {
      rows, objects, nextRequest, this.fates := map[], map[], 0, fates;
    }

    method Draw() returns (fate: Fate)
      modifies this`fates
      ensures fate == Head(old(fates)) && fates == Tail(old(fates))
    {
      if fates == [] { return Works; }
      fate, fates := fates[0], fates[1..];
    }

    static function Head(fates: seq<Fate>): Fate { if fates == [] then Works else fates[0] }

    static function Tail(fates: seq<Fate>): seq<Fate> { if fates == [] then [] else fates[1..] }

    /** The rest of a request whose first store call is behind it. */
    static function Finish(s: State, request: nat, fates: seq<Fate>): State {
      Next(Next(s, Step(request, Head(fates))), Step(request, Head(Tail(fates))))
    }

    /** One request from its first store call to its last. */
    static function Serve(s: State, e: Event, fates: seq<Fate>): State {
      Finish(Next(s, e), s.nextRequest, Tail(fates))
    }

    method MakeOrRollBack(name: string, owner: string) returns (status: Status)
      modifies this
      ensures Value() == Finish(Begin(old(Value()), MakeObject(name, owner)), old(nextRequest), old(fates))
      ensures status != Conflict && status != BadRequest
      ensures status == Created <==> Head(old(fates)) == Works && name !in old(objects)
      ensures status == Created ==> rows == old(rows) && objects == old(objects)[name := Object(owner, false, true)]
      ensures Head(old(fates)) == Fails && Head(Tail(old(fates))) == Works ==>
                status == InternalError && rows == old(rows) - {name} && objects == old(objects)
    {
      nextRequest := nextRequest + 1;
      var fate := Draw();
      if fate == Dies { return NoReply; }
      var made := fate == Works && name !in objects;
      if fate != Fails && name !in objects { objects := objects[name := Object(owner, false, true)]; }
      if made { return Created; }
      // Roll back the row so that the name is free again; an error here is only logged.
      fate := Draw();
      if fate == Dies { return NoReply; }
      if fate != Fails { rows := rows - {name}; }
      return InternalError;
    }

    method HandleCreateTenant(name: string, owner: string) returns (status: Status)
      modifies this
      ensures Value() == Serve(old(Value()), Create(name, owner, Head(old(fates))), old(fates))
      ensures status == BadRequest <==> Names.ValidateTenantName(name) != None
      ensures status == Created
         <==> Names.ValidateTenantName(name) == None && name !in old(rows) && name !in old(objects)
              && Head(old(fates)) == Works && Head(Tail(old(fates))) == Works
      ensures status == Created ==>
                && rows == old(rows)[name := Row(owner, true, old(nextRequest))]
                && objects == old(objects)[name := Object(owner, false, true)]
      ensures Names.ValidateTenantName(name) == None && name !in old(rows) && Head(old(fates)) == Works
              && Head(Tail(old(fates))) == Fails && Head(Tail(Tail(old(fates)))) == Works ==>
                status == InternalError && rows == old(rows) && objects == old(objects)
      ensures status == Conflict
         <==> Names.ValidateTenantName(name) == None && name in old(rows) && Head(old(fates)) == Works
    {
      if Names.ValidateTenantName(name) != None { return BadRequest; }
      var fate := Draw();
      if fate == Dies { return NoReply; }
      if fate == Fails { return InternalError; }
      if name in rows { return if fate == Works then Conflict else InternalError; }
      rows := rows[name := Row(owner, true, nextRequest)];
      if fate == ReplyLost {
        nextRequest := nextRequest + 1;
        return InternalError;
      }
      status := MakeOrRollBack(name, owner);
      assert old(rows)[name := Row(owner, true, old(nextRequest))] - {name} == old(rows);
    }

    method DropAndSoftDelete(name: string) returns (status: Status)
      requires Live(Value(), name)
      modifies this
      ensures Value() == Finish(Begin(old(Value()), DropObject(name)), old(nextRequest), old(fates))
      ensures status != NotFound && status != BadRequest
      ensures status == Accepted <==> Head(old(fates)) == Works && Head(Tail(old(fates))) == Works
      ensures status == Accepted ==> rows == old(rows)[name := old(rows)[name].(live := false)]
      ensures status == Accepted ==>
                objects == if name in old(objects) then old(objects)[name := old(objects)[name].(deleting := true)]
                           else old(objects)
    {
      nextRequest := nextRequest + 1;
      var fate := Draw();
      if fate == Dies { return NoReply; }
      if fate != Fails && name in objects { objects := objects[name := objects[name].(deleting := true)]; }
      if fate != Works { return InternalError; }
      fate := Draw();
      if fate == Dies { return NoReply; }
      if fate != Fails { rows := rows[name := rows[name].(live := false)]; }
      return if fate == Works then Accepted else InternalError;
    }

    method HandleDeleteTenant(name: string, caller: string, admin: bool) returns (status: Status)
      modifies this
      ensures Value() == Serve(old(Value()), Delete(name, caller, admin, Head(old(fates))), old(fates))
      ensures var allowed := old(name in rows && rows[name].live && (admin || rows[name].owner == caller));
        && (status == BadRequest <==> Names.ValidateTenantName(name) != None)
        && (status == NotFound
            <==> Names.ValidateTenantName(name) == None && Head(old(fates)) == Works && !allowed)
        && (status == Accepted
            <==> Names.ValidateTenantName(name) == None && allowed && Head(old(fates)) == Works
                 && Head(Tail(old(fates))) == Works && Head(Tail(Tail(old(fates)))) == Works)
        && (rows != old(rows) || objects != old(objects) ==> allowed)
      ensures status == Accepted ==> rows == old(rows)[name := old(rows)[name].(live := false)]
      ensures status == Accepted ==>
                objects == if name in old(objects) then old(objects)[name := old(objects)[name].(deleting := true)]
                           else old(objects)
    {
      if Names.ValidateTenantName(name) != None { return BadRequest; }
      var fate := Draw();
      if fate == Dies { return NoReply; }
      if fate != Works { return InternalError; }
      if name !in rows || !rows[name].live { return NotFound; }
      if !admin && rows[name].owner != caller { return NotFound; }
      status := DropAndSoftDelete(name);
    }
  }
}
