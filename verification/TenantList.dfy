/**
 The portal's tenant list: rows appear as soon as a create is sent, while list responses, fresh or
 stale, and the outcomes of creates come in at any time and in any order.
 */
module TenantList {
  import opened Wrappers

  datatype Row = Row(name: string, info: string)

  /** `pending` is the set of names with an optimistic row, `inFlight` the creates not yet answered. */
  datatype State = State(tenants: Option<seq<Row>>, pending: set<string>, inFlight: map<nat, string>)

  const INITIAL := State(None, {}, map[])

  datatype Event =
    | Send(create: nat, row: Row)
    | Succeed(create: nat, info: string)
    | Fail(create: nat)
    | Refresh(listed: seq<Row>)
    | RefreshFails

  // ---------- The order of names ----------

  /** How names compare in the user's locale: a total preorder. */
  ghost predicate TotalPreorder(leq: (string, string) -> bool) {
    && (forall a, b :: leq(a, b) || leq(b, a))
    && (forall a, b, c :: leq(a, b) && leq(b, c) ==> leq(a, c))
  }

  predicate SortedBy(leq: (string, string) -> bool, s: seq<Row>) {
    forall i, j | 0 <= i < j < |s| :: leq(s[i].name, s[j].name)
  }

  /** Puts a row behind all that do not come after it. */
  function Insert(leq: (string, string) -> bool, s: seq<Row>, x: Row): seq<Row> {
    if s == [] || !leq(x.name, s[|s| - 1].name) || leq(s[|s| - 1].name, x.name) then s + [x]
    else Insert(leq, s[..|s| - 1], x) + [s[|s| - 1]]
  }

  /** The stable sort by name. */
  function Sort(leq: (string, string) -> bool, s: seq<Row>): seq<Row> {
    if s == [] then [] else Insert(leq, Sort(leq, s[..|s| - 1]), s[|s| - 1])
  }

  function Select(s: seq<Row>, p: Row -> bool): seq<Row> {
    if s == [] then [] else Select(s[..|s| - 1], p) + if p(s[|s| - 1]) then [s[|s| - 1]] else []
  }

  lemma {:induction false} InsertSorts(leq: (string, string) -> bool, s: seq<Row>, x: Row)
    requires TotalPreorder(leq) && SortedBy(leq, s)
    ensures SortedBy(leq, Insert(leq, s, x)) && multiset(Insert(leq, s, x)) == multiset(s) + multiset{x}
  {
    if s != [] {
      var n := |s| - 1;
      assert s == s[..n] + [s[n]];
      if leq(x.name, s[n].name) && !leq(s[n].name, x.name) {
        InsertSorts(leq, s[..n], x);
        var t := Insert(leq, s[..n], x);
        forall i | 0 <= i < |t| ensures leq(t[i].name, s[n].name) {
          assert t[i] in multiset(t);
          assert t[i] == x || t[i] in s[..n];
        }
      } else {
        forall i | 0 <= i < |s| ensures leq(s[i].name, x.name) {
          assert leq(s[i].name, s[n].name);
        }
      }
    }
  }

  lemma {:induction false} SortSorts(leq: (string, string) -> bool, s: seq<Row>)
    requires TotalPreorder(leq)
    ensures SortedBy(leq, Sort(leq, s)) && multiset(Sort(leq, s)) == multiset(s)
  {
    if s != [] {
      var n := |s| - 1;
      SortSorts(leq, s[..n]);
      InsertSorts(leq, Sort(leq, s[..n]), s[n]);
      assert s == s[..n] + [s[n]];
    }
  }

  predicate Alike(leq: (string, string) -> bool, name: string, x: Row) { leq(name, x.name) && leq(x.name, name) }

  /** The rows whose names compare equal to a name, in their order. */
  function RowsAlike(leq: (string, string) -> bool, name: string, s: seq<Row>): seq<Row> {
    if s == [] then []
    else RowsAlike(leq, name, s[..|s| - 1]) + if Alike(leq, name, s[|s| - 1]) then [s[|s| - 1]] else []
  }

  lemma AlikeLast(leq: (string, string) -> bool, name: string, s: seq<Row>, x: Row)
    ensures RowsAlike(leq, name, s + [x]) == RowsAlike(leq, name, s) + if Alike(leq, name, x) then [x] else []
  {
    assert (s + [x])[..|s|] == s;
  }

  lemma {:induction false} InsertIsStable(leq: (string, string) -> bool, s: seq<Row>, x: Row, name: string)
    requires TotalPreorder(leq)
    ensures RowsAlike(leq, name, Insert(leq, s, x)) == RowsAlike(leq, name, s + [x])
  {
    if s != [] && leq(x.name, s[|s| - 1].name) && !leq(s[|s| - 1].name, x.name) {
      var front, y := s[..|s| - 1], s[|s| - 1];
      InsertIsStable(leq, front, x, name);
      AlikeLast(leq, name, Insert(leq, front, x), y);
      AlikeLast(leq, name, front, x);
      AlikeLast(leq, name, s, x);
      assert !(Alike(leq, name, x) && Alike(leq, name, y));
    }
  }

  /** Rows whose names compare equal keep their order. */
  lemma {:induction false} SortIsStable(leq: (string, string) -> bool, s: seq<Row>, name: string)
    requires TotalPreorder(leq)
    ensures RowsAlike(leq, name, Sort(leq, s)) == RowsAlike(leq, name, s)
  {
    if s != [] {
      var front, y := s[..|s| - 1], s[|s| - 1];
      SortIsStable(leq, front, name);
      InsertIsStable(leq, Sort(leq, front), y, name);
      AlikeLast(leq, name, Sort(leq, front), y);
    }
  }

  // ---------- Steps ----------

  function Shown(s: State): seq<Row> { if s.tenants.Some? then s.tenants.value else [] }

  predicate Has(rows: seq<Row>, name: string) { exists k | 0 <= k < |rows| :: rows[k].name == name }

  /** The optimistic rows a list response does not bring. */
  function Optimistic(rows: seq<Row>, pending: set<string>, listed: seq<Row>): seq<Row> {
    Select(rows, (t: Row) => t.name in pending && !Has(listed, t.name))
  }

  function Replaced(rows: seq<Row>, created: Row): (r: seq<Row>)
    ensures |r| == |rows|
    ensures forall k | 0 <= k < |r| :: r[k] == if rows[k].name == created.name then created else rows[k]
  {
    seq(|rows|, k requires 0 <= k < |rows| => if rows[k].name == created.name then created else rows[k])
  }

  function Without(rows: seq<Row>, name: string): seq<Row> { Select(rows, (t: Row) => t.name != name) }

  function Ended(s: State, create: nat): State
    requires create in s.inFlight
  {
    s.(pending := s.pending - {s.inFlight[create]}, inFlight := s.inFlight - {create})
  }

  function Next(leq: (string, string) -> bool, s: State, e: Event): State {
    match e
    case Send(create, row) =>
      if create in s.inFlight then s
      else State(Some(Sort(leq, Shown(s) + [row])), s.pending + {row.name}, s.inFlight[create := row.name])
    case Succeed(create, info) =>
      if create !in s.inFlight then s
      else Ended(s, create).(tenants := Some(Sort(leq, Replaced(Shown(s), Row(s.inFlight[create], info)))))
    case Fail(create) =>
      if create !in s.inFlight then s
      else Ended(s, create).(tenants := Some(Without(Shown(s), s.inFlight[create])))
    case Refresh(listed) => s.(tenants := Some(Sort(leq, listed + Optimistic(Shown(s), s.pending, listed))))
    case RefreshFails => s
  }

  function Run(leq: (string, string) -> bool, s: State, events: seq<Event>): State {
    if events == [] then s else Next(leq, Run(leq, s, events[..|events| - 1]), events[|events| - 1])
  }

  // ---------- Membership ----------

  lemma {:induction false} SelectMembers(s: seq<Row>, p: Row -> bool)
    ensures forall x :: x in Select(s, p) <==> x in s && p(x)
  {
    if s != [] {
      SelectMembers(s[..|s| - 1], p);
      assert s == s[..|s| - 1] + [s[|s| - 1]];
    }
  }

  lemma HasMeaning(rows: seq<Row>, name: string)
    ensures Has(rows, name) <==> exists x | x in rows :: x.name == name
  {
    if x :| x in rows && x.name == name {
      var k :| 0 <= k < |rows| && rows[k] == x;
    }
    if Has(rows, name) {
      var k :| 0 <= k < |rows| && rows[k].name == name;
      assert rows[k] in rows;
    }
  }

  lemma SortHas(leq: (string, string) -> bool, rows: seq<Row>, name: string)
    requires TotalPreorder(leq)
    ensures Has(Sort(leq, rows), name) == Has(rows, name)
  {
    SortSorts(leq, rows);
    HasMeaning(rows, name);
    HasMeaning(Sort(leq, rows), name);
    assert forall x :: x in rows <==> x in multiset(rows);
    assert forall x :: x in Sort(leq, rows) <==> x in multiset(Sort(leq, rows));
  }

  lemma {:induction false} SelectSorted(leq: (string, string) -> bool, s: seq<Row>, p: Row -> bool)
    requires SortedBy(leq, s)
    ensures SortedBy(leq, Select(s, p))
  {
    if s != [] {
      var n := |s| - 1;
      SelectSorted(leq, s[..n], p);
      SelectMembers(s[..n], p);
      var kept := Select(s[..n], p);
      forall i | 0 <= i < |kept| ensures leq(kept[i].name, s[n].name) {
        assert kept[i] in s[..n];
      }
    }
  }

  lemma SelectHas(rows: seq<Row>, p: Row -> bool, name: string)
    ensures Has(Select(rows, p), name) <==> exists x | x in rows :: p(x) && x.name == name
  {
    SelectMembers(rows, p);
    HasMeaning(Select(rows, p), name);
  }

  // ---------- Pending rows stay in view, and the list stays sorted ----------

  ghost predicate Inv(leq: (string, string) -> bool, s: State) {
    && SortedBy(leq, Shown(s))
    && (forall n | n in s.pending :: Has(Shown(s), n))
    && (forall n | n in s.pending :: exists c :: c in s.inFlight && s.inFlight[c] == n)
  }

  lemma WithoutKeeps(rows: seq<Row>, gone: string, name: string)
    ensures Has(Without(rows, gone), name) <==> Has(rows, name) && name != gone
  {
    SelectHas(rows, (t: Row) => t.name != gone, name);
    HasMeaning(rows, name);
  }

  lemma ReplacedHas(rows: seq<Row>, created: Row, name: string)
    ensures Has(Replaced(rows, created), name) == Has(rows, name)
  {
    var r := Replaced(rows, created);
    assert forall k | 0 <= k < |rows| :: r[k].name == rows[k].name;
  }

  lemma AppendedHas(a: seq<Row>, b: seq<Row>, name: string)
    ensures Has(a + b, name) <==> Has(a, name) || Has(b, name)
  {
    if Has(a, name) { var k :| 0 <= k < |a| && a[k].name == name; assert (a + b)[k].name == name; }
    if Has(b, name) { var k :| 0 <= k < |b| && b[k].name == name; assert (a + b)[|a| + k].name == name; }
    if Has(a + b, name) {
      var k :| 0 <= k < |a + b| && (a + b)[k].name == name;
      if k < |a| { assert a[k].name == name; } else { assert b[k - |a|].name == name; }
    }
  }

  lemma OptimisticHas(rows: seq<Row>, pending: set<string>, listed: seq<Row>, name: string)
    ensures Has(Optimistic(rows, pending, listed), name) <==> Has(rows, name) && name in pending && !Has(listed, name)
  {
    SelectHas(rows, (t: Row) => t.name in pending && !Has(listed, t.name), name);
    HasMeaning(rows, name);
  }

  /** What is in view after each event, by name. */
  lemma NextHas(leq: (string, string) -> bool, s: State, e: Event, name: string)
    requires TotalPreorder(leq)
    ensures Has(Shown(Next(leq, s, e)), name) <==>
      match e
      case Send(create, row) => Has(Shown(s), name) || (create !in s.inFlight && name == row.name)
      case Succeed(_, _) => Has(Shown(s), name)
      case Fail(create) => Has(Shown(s), name) && (create in s.inFlight ==> name != s.inFlight[create])
      case Refresh(listed) => Has(listed, name) || (Has(Shown(s), name) && name in s.pending)
      case RefreshFails => Has(Shown(s), name)
  {
    match e {
      case Send(create, row) =>
        AppendedHas(Shown(s), [row], name);
        SortHas(leq, Shown(s) + [row], name);
        assert [row][0] == row;
      case Succeed(create, info) =>
        if create in s.inFlight {
          var created := Row(s.inFlight[create], info);
          ReplacedHas(Shown(s), created, name);
          SortHas(leq, Replaced(Shown(s), created), name);
        }
      case Fail(create) => if create in s.inFlight { WithoutKeeps(Shown(s), s.inFlight[create], name); }
      case Refresh(listed) =>
        var optimistic := Optimistic(Shown(s), s.pending, listed);
        OptimisticHas(Shown(s), s.pending, listed, name);
        AppendedHas(listed, optimistic, name);
        SortHas(leq, listed + optimistic, name);
      case RefreshFails =>
    }
  }

  lemma NextSorted(leq: (string, string) -> bool, s: State, e: Event)
    requires TotalPreorder(leq) && SortedBy(leq, Shown(s))
    ensures SortedBy(leq, Shown(Next(leq, s, e)))
  {
    match e {
      case Send(create, row) => SortSorts(leq, Shown(s) + [row]);
      case Succeed(create, info) =>
        if create in s.inFlight { SortSorts(leq, Replaced(Shown(s), Row(s.inFlight[create], info))); }
      case Fail(create) =>
        if create in s.inFlight { SelectSorted(leq, Shown(s), (t: Row) => t.name != s.inFlight[create]); }
      case Refresh(listed) => SortSorts(leq, listed + Optimistic(Shown(s), s.pending, listed));
      case RefreshFails =>
    }
  }

  lemma NextKeepsInv(leq: (string, string) -> bool, s: State, e: Event)
    requires TotalPreorder(leq) && Inv(leq, s)
    ensures Inv(leq, Next(leq, s, e))
  {
    var t := Next(leq, s, e);
    NextSorted(leq, s, e);
    forall n | n in t.pending ensures Has(Shown(t), n) && exists c :: c in t.inFlight && t.inFlight[c] == n {
      NextHas(leq, s, e, n);
      if n in s.pending {
        var c :| c in s.inFlight && s.inFlight[c] == n;
        assert c in t.inFlight && t.inFlight[c] == n;
      } else {
        assert t.inFlight[e.create] == n;
      }
    }
  }

  /** In every run, whatever the interleaving: the list is sorted, every name with an optimistic row is in view,
      and only names of creates under way have one. */
  lemma {:induction false} RunsKeepInv(leq: (string, string) -> bool, events: seq<Event>)
    requires TotalPreorder(leq)
    ensures Inv(leq, Run(leq, INITIAL, events))
  {
    if events != [] {
      RunsKeepInv(leq, events[..|events| - 1]);
      NextKeepsInv(leq, Run(leq, INITIAL, events[..|events| - 1]), events[|events| - 1]);
    }
  }

  lemma {:induction false} SelectNone(s: seq<Row>, p: Row -> bool)
    requires forall x | x in s :: !p(x)
    ensures Select(s, p) == []
  {
    if s != [] { SelectNone(s[..|s| - 1], p); }
  }

  lemma NothingOptimistic(rows: seq<Row>, pending: set<string>, listed: seq<Row>)
    requires pending == {}
    ensures Optimistic(rows, pending, listed) == []
  {
    SelectNone(rows, (t: Row) => t.name in pending && !Has(listed, t.name));
  }

  lemma NothingPending(leq: (string, string) -> bool, s: State)
    requires Inv(leq, s) && s.inFlight == map[]
    ensures s.pending == {}
  {
    assert forall n :: n !in s.pending;
  }

  /** With no create under way, a list response is shown as it came, sorted. */
  lemma QuietRefreshIsSnapshot(leq: (string, string) -> bool, events: seq<Event>, listed: seq<Row>)
    requires TotalPreorder(leq) && Run(leq, INITIAL, events).inFlight == map[]
    ensures Next(leq, Run(leq, INITIAL, events), Refresh(listed)).tenants == Some(Sort(leq, listed))
  {
    RunsKeepInv(leq, events);
    var s := Run(leq, INITIAL, events);
    NothingPending(leq, s);
    NothingOptimistic(Shown(s), s.pending, listed);
    assert listed + [] == listed;
  }

  /** A list response decides every name it brings; beyond it only optimistic rows stay. */
  lemma RefreshShows(leq: (string, string) -> bool, s: State, listed: seq<Row>, x: Row)
    requires TotalPreorder(leq)
    ensures x in Shown(Next(leq, s, Refresh(listed)))
       <==> x in listed || (x in Shown(s) && x.name in s.pending && !Has(listed, x.name))
  {
    var all := listed + Optimistic(Shown(s), s.pending, listed);
    SelectMembers(Shown(s), (t: Row) => t.name in s.pending && !Has(listed, t.name));
    SortSorts(leq, all);
    assert x in Sort(leq, all) <==> x in multiset(Sort(leq, all));
    assert x in all <==> x in multiset(all);
  }

  lemma SortKeepsRows(leq: (string, string) -> bool, rows: seq<Row>, x: Row)
    requires TotalPreorder(leq)
    ensures x in Sort(leq, rows) <==> x in rows
  {
    SortSorts(leq, rows);
    assert x in Sort(leq, rows) <==> x in multiset(Sort(leq, rows));
    assert x in rows <==> x in multiset(rows);
  }

  lemma ReplacedRows(rows: seq<Row>, created: Row, x: Row)
    ensures x in Replaced(rows, created)
       <==> (x in rows && x.name != created.name) || (x == created && Has(rows, created.name))
  {
    var r := Replaced(rows, created);
    if x in rows && x.name != created.name {
      var k :| 0 <= k < |rows| && rows[k] == x;
      assert r[k] == x;
    }
    if x == created && Has(rows, created.name) {
      var k :| 0 <= k < |rows| && rows[k].name == created.name;
      assert r[k] == x;
    }
  }

  /** Which rows are shown after each event: an optimistic row from the send on, after a success the server's row
      in its place, after a failure neither, and no other row differs. */
  lemma NextShows(leq: (string, string) -> bool, s: State, e: Event, x: Row)
    requires TotalPreorder(leq)
    ensures x in Shown(Next(leq, s, e)) <==>
      match e
      case Send(create, row) => x in Shown(s) || (create !in s.inFlight && x == row)
      case Succeed(create, info) =>
        if create !in s.inFlight then x in Shown(s)
        else (x in Shown(s) && x.name != s.inFlight[create])
             || (x == Row(s.inFlight[create], info) && Has(Shown(s), s.inFlight[create]))
      case Fail(create) => x in Shown(s) && (create in s.inFlight ==> x.name != s.inFlight[create])
      case Refresh(listed) => x in listed || (x in Shown(s) && x.name in s.pending && !Has(listed, x.name))
      case RefreshFails => x in Shown(s)
  {
    match e {
      case Send(create, row) => SortKeepsRows(leq, Shown(s) + [row], x);
      case Succeed(create, info) =>
        if create in s.inFlight {
          var created := Row(s.inFlight[create], info);
          ReplacedRows(Shown(s), created, x);
          SortKeepsRows(leq, Replaced(Shown(s), created), x);
        }
      case Fail(create) =>
        if create in s.inFlight { SelectMembers(Shown(s), (t: Row) => t.name != s.inFlight[create]); }
      case Refresh(listed) => RefreshShows(leq, s, listed, x);
      case RefreshFails =>
    }
  }

  // ---------- Creates that share no name ----------

  predicate Unshared(s: State, e: Event) { e.Send? ==> forall c | c in s.inFlight :: s.inFlight[c] != e.row.name }

  predicate NamesApart(s: State) {
    && (forall c | c in s.inFlight :: s.inFlight[c] in s.pending)
    && (forall c, d | c in s.inFlight && d in s.inFlight && c != d :: s.inFlight[c] != s.inFlight[d])
  }

  lemma NextKeepsNamesApart(leq: (string, string) -> bool, s: State, e: Event)
    requires NamesApart(s) && Unshared(s, e)
    ensures NamesApart(Next(leq, s, e))
  {}

  lemma {:induction false} RunsKeepNamesApart(leq: (string, string) -> bool, events: seq<Event>)
    requires forall k | 0 <= k < |events| :: Unshared(Run(leq, INITIAL, events[..k]), events[k])
    ensures NamesApart(Run(leq, INITIAL, events))
  {
    if events != [] {
      var n := |events| - 1;
      forall k | 0 <= k < n ensures Unshared(Run(leq, INITIAL, events[..n][..k]), events[..n][k]) {
        assert events[..n][..k] == events[..k];
      }
      RunsKeepNamesApart(leq, events[..n]);
      NextKeepsNamesApart(leq, Run(leq, INITIAL, events[..n]), events[n]);
    }
  }

  /** If no two creates under way share a name, every create under way is in view, whatever responses come in. */
  lemma InFlightStaysInView(leq: (string, string) -> bool, events: seq<Event>, create: nat)
    requires TotalPreorder(leq)
    requires forall k | 0 <= k < |events| :: Unshared(Run(leq, INITIAL, events[..k]), events[k])
    requires create in Run(leq, INITIAL, events).inFlight
    ensures Has(Shown(Run(leq, INITIAL, events)), Run(leq, INITIAL, events).inFlight[create])
  {
    RunsKeepNamesApart(leq, events);
    RunsKeepInv(leq, events);
  }

  /** When a create fails, another under way that was in view stays there exactly if its name is another. */
  lemma FailureHidesItsName(leq: (string, string) -> bool, s: State, failed: nat, other: nat)
    requires TotalPreorder(leq) && failed in s.inFlight && other in s.inFlight && Has(Shown(s), s.inFlight[other])
    ensures Has(Shown(Next(leq, s, Fail(failed))), s.inFlight[other]) <==> s.inFlight[other] != s.inFlight[failed]
  {
    NextHas(leq, s, Fail(failed), s.inFlight[other]);
  }

  // ---------- Distinct names ----------

  predicate Distinct(rows: seq<Row>) { forall i, j | 0 <= i < j < |rows| :: rows[i].name != rows[j].name }

  /** A created name is not in view yet, and the server lists no name twice. */
  predicate Tidy(s: State, e: Event) {
    (e.Send? ==> !Has(Shown(s), e.row.name)) && (e.Refresh? ==> Distinct(e.listed))
  }

  lemma {:induction false} InsertDistinct(leq: (string, string) -> bool, s: seq<Row>, x: Row)
    requires TotalPreorder(leq) && Distinct(s) && !Has(s, x.name)
    ensures Distinct(Insert(leq, s, x))
  {
    if s != [] && leq(x.name, s[|s| - 1].name) && !leq(s[|s| - 1].name, x.name) {
      var n := |s| - 1;
      InsertDistinct(leq, s[..n], x);
      InsertHas(leq, s[..n], x, s[n].name);
    }
  }

  lemma {:induction false} InsertHas(leq: (string, string) -> bool, s: seq<Row>, x: Row, name: string)
    ensures Has(Insert(leq, s, x), name) <==> Has(s, name) || x.name == name
  {
    AppendedHas(s, [x], name);
    assert [x][0] == x;
    if s != [] && leq(x.name, s[|s| - 1].name) && !leq(s[|s| - 1].name, x.name) {
      var n := |s| - 1;
      InsertHas(leq, s[..n], x, name);
      AppendedHas(s[..n], [s[n]], name);
      assert s == s[..n] + [s[n]];
      AppendedHas(Insert(leq, s[..n], x), [s[n]], name);
    }
  }

  lemma {:induction false} SortDistinct(leq: (string, string) -> bool, s: seq<Row>)
    requires TotalPreorder(leq) && Distinct(s)
    ensures Distinct(Sort(leq, s))
  {
    if s != [] {
      var n := |s| - 1;
      SortDistinct(leq, s[..n]);
      SortHas(leq, s[..n], s[n].name);
      InsertDistinct(leq, Sort(leq, s[..n]), s[n]);
    }
  }

  lemma {:induction false} SelectDistinct(s: seq<Row>, p: Row -> bool)
    requires Distinct(s)
    ensures Distinct(Select(s, p))
  {
    if s != [] {
      var n := |s| - 1;
      SelectDistinct(s[..n], p);
      SelectMembers(s[..n], p);
      var kept := Select(s[..n], p);
      forall i | 0 <= i < |kept| ensures kept[i].name != s[n].name { assert kept[i] in s[..n]; }
    }
  }

  lemma AppendDistinct(a: seq<Row>, b: seq<Row>)
    requires Distinct(a) && Distinct(b) && forall k | 0 <= k < |b| :: !Has(a, b[k].name)
    ensures Distinct(a + b)
  {}

  lemma RefreshDistinct(leq: (string, string) -> bool, s: State, listed: seq<Row>)
    requires TotalPreorder(leq) && Distinct(Shown(s)) && Distinct(listed)
    ensures Distinct(Shown(Next(leq, s, Refresh(listed))))
  {
    var optimistic := Optimistic(Shown(s), s.pending, listed);
    SelectDistinct(Shown(s), (t: Row) => t.name in s.pending && !Has(listed, t.name));
    SelectMembers(Shown(s), (t: Row) => t.name in s.pending && !Has(listed, t.name));
    forall k | 0 <= k < |optimistic| ensures !Has(listed, optimistic[k].name) { assert optimistic[k] in optimistic; }
    AppendDistinct(listed, optimistic);
    SortDistinct(leq, listed + optimistic);
  }

  lemma NextDistinct(leq: (string, string) -> bool, s: State, e: Event)
    requires TotalPreorder(leq) && Distinct(Shown(s)) && Tidy(s, e)
    ensures Distinct(Shown(Next(leq, s, e)))
  {
    match e {
      case Send(create, row) =>
        AppendDistinct(Shown(s), [row]);
        SortDistinct(leq, Shown(s) + [row]);
      case Succeed(create, info) =>
        if create in s.inFlight { SortDistinct(leq, Replaced(Shown(s), Row(s.inFlight[create], info))); }
      case Fail(create) =>
        if create in s.inFlight { SelectDistinct(Shown(s), (t: Row) => t.name != s.inFlight[create]); }
      case Refresh(listed) => RefreshDistinct(leq, s, listed);
      case RefreshFails =>
    }
  }

  /** If no create is sent for a name in view and the server lists no name twice, no name is ever shown twice. */
  lemma {:induction false} NamesStayDistinct(leq: (string, string) -> bool, events: seq<Event>)
    requires TotalPreorder(leq)
    requires forall k | 0 <= k < |events| :: Tidy(Run(leq, INITIAL, events[..k]), events[k])
    ensures Distinct(Shown(Run(leq, INITIAL, events)))
  {
    if events != [] {
      var n := |events| - 1;
      forall k | 0 <= k < n ensures Tidy(Run(leq, INITIAL, events[..n][..k]), events[..n][k]) {
        assert events[..n][..k] == events[..k];
      }
      NamesStayDistinct(leq, events[..n]);
      NextDistinct(leq, Run(leq, INITIAL, events[..n]), events[n]);
    }
  }

  // ---------- The hook ----------

  /** The hook's state: the rows, the set it holds by reference, and the creates it awaits. */
  class TenantsHook {
    const leq: (string, string) -> bool
    var tenants: Option<seq<Row>>
    var pendingCreates: set<string>
    var awaited: map<nat, string>

    function Value(): State
      reads this
    {
      State(tenants, pendingCreates, awaited)
    }

    constructor (leq: (string, string) -> bool)
      ensures this.leq == leq && Value() == INITIAL
    {
      this.leq, tenants, pendingCreates, awaited := leq, None, {}, map[];
    }

    method Previous() returns (rows: seq<Row>)
      ensures rows == Shown(Value())
    {
      match tenants {
        case None => return [];
        case Some(shown) => return shown;
      }
    }

    method SendCreate(create: nat, row: Row)
      requires create !in awaited
      modifies this
      ensures Value() == Next(leq, old(Value()), Send(create, row))
    {
      pendingCreates := pendingCreates + {row.name};
      var previous := Previous();
      tenants := Some(Sort(leq, previous + [row]));
      awaited := awaited[create := row.name];
    }

    /** What is left of `create` when its response, or its failure, is in. */
    method FinishCreate(create: nat, response: Option<string>)
      requires create in awaited
      modifies this
      ensures var event := if response.Some? then Succeed(create, response.value) else Fail(create);
              Value() == Next(leq, old(Value()), event)
    {
      var name := awaited[create];
      var previous := Previous();
      match response {
        case Some(info) => tenants := Some(Sort(leq, Replaced(previous, Row(name, info))));
        case None => tenants := Some(Without(previous, name));
      }
      pendingCreates := pendingCreates - {name};
      awaited := awaited - {create};
    }

    method FinishRefresh(response: Option<seq<Row>>)
      modifies this
      ensures Value() == Next(leq, old(Value()), if response.Some? then Refresh(response.value) else RefreshFails)
    {
      if response.None? { return; }
      var previous := Previous();
      tenants := Some(Sort(leq, response.value + Optimistic(previous, pendingCreates, response.value)));
    }
  }
}
