/**
 The listener list of the shared apps Gateway: the upsert loop, and the removal that
 filters the list into its own backing array while reading from it.
 */
module GatewayListeners {
  import opened Wrappers

  datatype Protocol = Https | OtherProtocol(name: string)

  /** `selector` is the tenant label value a namespace needs to attach routes; None lets other rules apply. */
  datatype Listener = Listener(
    name: string,
    hostname: Option<string>,
    port: nat,
    protocol: Protocol,
    certificate: Option<string>,
    selector: Option<string>)

  function Find(ls: seq<Listener>, name: string): Option<Listener> {
    if ls == [] then None
    else if ls[0].name == name then Some(ls[0])
    else Find(ls[1..], name)
  }

  function Upsert(ls: seq<Listener>, l: Listener): seq<Listener> {
    if ls == [] then [l]
    else if ls[0].name == l.name then [l] + ls[1..]
    else [ls[0]] + Upsert(ls[1..], l)
  }

  /** The listeners whose name differs from `name`, in their order. */
  function Remove(ls: seq<Listener>, name: string): seq<Listener> {
    if ls == [] then []
    else (if ls[0].name == name then [] else [ls[0]]) + Remove(ls[1..], name)
  }

  predicate Named(ls: seq<Listener>, name: string) { exists i | 0 <= i < |ls| :: ls[i].name == name }

  predicate UniqueNames(ls: seq<Listener>) {
    forall i, j | 0 <= i < j < |ls| :: ls[i].name != ls[j].name
  }

  // ---------- What the two edits mean ----------

  lemma {:induction false} FindMeaning(ls: seq<Listener>, name: string)
    ensures Find(ls, name).Some? <==> Named(ls, name)
    ensures Find(ls, name).Some? ==> Find(ls, name).value in ls && Find(ls, name).value.name == name
  {
    if ls != [] {
      FindMeaning(ls[1..], name);
      assert ls == [ls[0]] + ls[1..];
      if Named(ls, name) && ls[0].name != name {
        var i :| 0 <= i < |ls| && ls[i].name == name;
        assert ls[1..][i - 1].name == name;
      }
      if Named(ls[1..], name) {
        var i :| 0 <= i < |ls[1..]| && ls[1..][i].name == name;
        assert ls[i + 1].name == name;
      }
    }
  }

  lemma {:induction false} FindUpsert(ls: seq<Listener>, l: Listener, name: string)
    ensures Find(Upsert(ls, l), name) == if name == l.name then Some(l) else Find(ls, name)
  {
    if ls != [] && ls[0].name != l.name { FindUpsert(ls[1..], l, name); }
  }

  lemma {:induction false} FindRemove(ls: seq<Listener>, gone: string, name: string)
    ensures Find(Remove(ls, gone), name) == if name == gone then None else Find(ls, name)
  {
    if ls != [] {
      FindRemove(ls[1..], gone, name);
      if ls[0].name != gone { assert Remove(ls, gone)[1..] == Remove(ls[1..], gone); }
      else { assert Remove(ls, gone) == Remove(ls[1..], gone); }
    }
  }

  /** An upsert leaves the listeners of every other name as they were, in the same order. */
  lemma {:induction false} UpsertKeepsOthers(ls: seq<Listener>, l: Listener, name: string)
    ensures name == l.name ==> Remove(Upsert(ls, l), name) == Remove(ls, name)
    ensures forall x | x in Upsert(ls, l) :: x == l || x in ls
    ensures l in Upsert(ls, l)
  {
    if ls != [] {
      assert ls == [ls[0]] + ls[1..];
      if ls[0].name == l.name {
        assert Upsert(ls, l)[1..] == ls[1..];
      } else {
        UpsertKeepsOthers(ls[1..], l, name);
        assert Upsert(ls, l)[1..] == Upsert(ls[1..], l);
      }
    }
  }

  lemma {:induction false} RemoveMembers(ls: seq<Listener>, name: string)
    ensures forall x :: x in Remove(ls, name) <==> x in ls && x.name != name
    ensures |Remove(ls, name)| <= |ls|
    ensures |Remove(ls, name)| == |ls| <==> !Named(ls, name)
    ensures !Named(ls, name) ==> Remove(ls, name) == ls
  {
    if ls != [] {
      RemoveMembers(ls[1..], name);
      assert ls == [ls[0]] + ls[1..];
      if Named(ls[1..], name) {
        var i :| 0 <= i < |ls[1..]| && ls[1..][i].name == name;
        assert ls[i + 1].name == name;
      }
      if Named(ls, name) && ls[0].name != name {
        var i :| 0 <= i < |ls| && ls[i].name == name;
        assert ls[1..][i - 1].name == name;
      }
    }
  }

  lemma {:induction false} UpsertUnique(ls: seq<Listener>, l: Listener)
    requires UniqueNames(ls)
    ensures UniqueNames(Upsert(ls, l))
  {
    if ls != [] {
      assert UniqueNames(ls[1..]);
      if ls[0].name != l.name {
        UpsertUnique(ls[1..], l);
        UpsertKeepsOthers(ls[1..], l, l.name);
        var t := Upsert(ls[1..], l);
        forall j | 0 <= j < |t| ensures t[j].name != ls[0].name {
          assert t[j] == l || t[j] in ls[1..];
        }
      }
    }
  }

  lemma {:induction false} RemoveUnique(ls: seq<Listener>, name: string)
    requires UniqueNames(ls)
    ensures UniqueNames(Remove(ls, name))
  {
    if ls != [] {
      assert UniqueNames(ls[1..]);
      RemoveUnique(ls[1..], name);
      RemoveMembers(ls[1..], name);
    }
  }

  /** Removing a listener that was appended under a fresh name restores the list. */
  lemma RemoveUndoesUpsert(ls: seq<Listener>, l: Listener)
    requires !Named(ls, l.name)
    ensures Remove(Upsert(ls, l), l.name) == ls
  {
    UpsertKeepsOthers(ls, l, l.name);
    RemoveMembers(ls, l.name);
  }

  lemma {:induction false} RemoveCommutes(ls: seq<Listener>, a: string, b: string)
    ensures Remove(Remove(ls, a), b) == Remove(Remove(ls, b), a)
  {
    if ls != [] {
      RemoveCommutes(ls[1..], a, b);
      if ls[0].name != a { assert Remove(ls, a)[1..] == Remove(ls[1..], a); }
      else { assert Remove(ls, a) == Remove(ls[1..], a); }
      if ls[0].name != b { assert Remove(ls, b)[1..] == Remove(ls[1..], b); }
      else { assert Remove(ls, b) == Remove(ls[1..], b); }
    }
  }

  // ---------- The loops ----------

  lemma {:induction false} UpsertAt(ls: seq<Listener>, l: Listener, i: nat)
    requires i <= |ls| && forall k | 0 <= k < i :: ls[k].name != l.name
    ensures i < |ls| && ls[i].name == l.name ==> Upsert(ls, l) == ls[i := l]
    ensures i == |ls| ==> Upsert(ls, l) == ls + [l]
  {
    if i > 0 {
      UpsertAt(ls[1..], l, i - 1);
      assert ls == [ls[0]] + ls[1..];
    }
  }

  /** The upsert loop of the ensure step: overwrite the first match, else append.
      Appending may move the list to a new backing array, overwriting may not. */
  method UpsertInPlace(listeners: array<Listener>, l: Listener) returns (out: array<Listener>)
    modifies listeners
    ensures out[..] == Upsert(old(listeners[..]), l)
    ensures if Named(old(listeners[..]), l.name) then out == listeners
            else fresh(out) && listeners[..] == old(listeners[..])
  {
    for i := 0 to listeners.Length
      invariant listeners[..] == old(listeners[..])
      invariant forall k | 0 <= k < i :: listeners[k].name != l.name
    {
      if listeners[i].name == l.name {
        UpsertAt(listeners[..], l, i);
        assert listeners[..][i].name == l.name;
        listeners[i] := l;
        return listeners;
      }
    }
    UpsertAt(listeners[..], l, listeners.Length);
    var n := listeners.Length;
    out := new Listener[n + 1](j requires 0 <= j <= n reads listeners => if j < n then listeners[j] else l);
    assert out[..] == listeners[..] + [l];
  }

  lemma {:induction false} RemoveSnoc(ls: seq<Listener>, x: Listener, name: string)
    ensures Remove(ls + [x], name) == Remove(ls, name) + if x.name == name then [] else [x]
  {
    if ls == [] {
      assert (ls + [x])[1..] == [];
    } else {
      assert (ls + [x])[1..] == ls[1..] + [x];
      RemoveSnoc(ls[1..], x, name);
    }
  }

  /** The removal loop: kept listeners are written over the front of the array being read.
      No element is overwritten before it is read, and what lies behind the kept part is untouched. */
  method CompactInPlace(listeners: array<Listener>, name: string) returns (kept: nat)
    modifies listeners
    ensures kept <= listeners.Length
    ensures listeners[..kept] == Remove(old(listeners[..]), name)
    ensures listeners[kept..] == old(listeners[..])[kept..]
    ensures kept != listeners.Length <==> Named(old(listeners[..]), name)
  {
    ghost var was := listeners[..];
    kept := 0;
    for i := 0 to listeners.Length
      invariant kept <= i
      invariant listeners[..kept] == Remove(was[..i], name)
      invariant listeners[kept..] == was[kept..]
    {
      var l := listeners[i];
      assert l == was[i] by { assert listeners[kept..][i - kept] == was[kept..][i - kept]; }
      assert was[..i + 1] == was[..i] + [l];
      RemoveSnoc(was[..i], l, name);
      if l.name != name {
        ghost var front, rest := listeners[..kept], listeners[kept + 1..];
        assert rest == was[kept..][1..] == was[kept + 1..];
        listeners[kept] := l;
        assert listeners[kept + 1..] == rest;
        assert listeners[..kept + 1] == front + [l];
        kept := kept + 1;
      }
    }
    assert was[..listeners.Length] == was;
    RemoveMembers(was, name);
  }
}
