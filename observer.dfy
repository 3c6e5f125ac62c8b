/** The Observer pattern: a database keeps an ordered list of listeners
    and visits them, in order, on every update. */
module ObserverPattern {

  /** A listener. What it does when notified is outside this model.
      The database stores `Observer?`, as the C++ stores raw pointers,
      which may be null. */
  class Observer {
    constructor () { }
  }

  /** The list `s` with every occurrence of `o` dropped, the rest in order:
      in particular `o` is gone. */
  function Removed(s: seq<Observer?>, o: Observer?): (r: seq<Observer?>)
    ensures o !in r
  {
    if s == [] then []
    else (if s[0] == o then [] else [s[0]]) + Removed(s[1..], o)
  }

  /** `r` can be obtained from `s` by deleting elements: the relative order
      of what is kept is the order in `s`. */
  ghost predicate IsSubsequence(r: seq<Observer?>, s: seq<Observer?>) {
    if r == [] then true
    else if s == [] then false
    else if r[0] == s[0] then IsSubsequence(r[1..], s[1..])
    else IsSubsequence(r, s[1..])
  }

  class Database {
    var observers: seq<Observer?>

    constructor ()
      ensures observers == []
    {
      observers := [];
    }

    /** Appends `o`; the listeners already there keep their places. */
    method RegisterListener(o: Observer?)
      modifies this
      ensures observers == old(observers) + [o]
    {
      observers := observers + [o];
    }

    /** Erase-remove: one left-to-right pass collects, in their order, the
        entries that are not `o`; that list replaces the old one. */
    method UnregisterListener(o: Observer?)
      modifies this
      ensures observers == Removed(old(observers), o)
    {
      var s := observers;
      var kept: seq<Observer?> := [];
      var i := 0;
      while i < |s|
        invariant 0 <= i <= |s|
        invariant kept == Removed(s[..i], o)
      {
        RemovedPrefixStep(s, i, o);
        if s[i] != o {
          kept := kept + [s[i]];
        }
        i := i + 1;
      }
      assert s[..i] == s;
      observers := kept;
    }

    /** Notifies each entry once, in list order, so a listener registered
        twice is notified twice; returns the entries in the order they were
        notified. A null entry would be dereferenced, so none may be listed. */
    method UpdateData() returns (notified: seq<Observer>)
      requires null !in observers
      ensures notified == observers
    {
      notified := [];
      for i := 0 to |observers|
        invariant notified == observers[..i]
      {
        notified := notified + [observers[i]];
      }
    }
  }

  /** Removing distributes over concatenation, which is what makes a single
      left-to-right pass (std::remove) correct. */
  lemma {:induction false} RemovedAppend(a: seq<Observer?>, b: seq<Observer?>, o: Observer?)
    ensures Removed(a + b, o) == Removed(a, o) + Removed(b, o)
  {
    if a == [] {
      assert a + b == b;
    } else {
      assert (a + b)[1..] == a[1..] + b;
      RemovedAppend(a[1..], b, o);
    }
  }

  /** Extending a prefix by one entry extends its removal by that entry,
      unless the entry is `o`. */
  lemma RemovedPrefixStep(s: seq<Observer?>, i: nat, o: Observer?)
    requires i < |s|
    ensures Removed(s[..i + 1], o) == Removed(s[..i], o) + (if s[i] == o then [] else [s[i]])
  {
    assert s[..i + 1] == s[..i] + [s[i]];
    RemovedAppend(s[..i], [s[i]], o);
  }

  /** After removal, `x` is listed exactly when it was listed before and is not `o`. */
  lemma {:induction false} RemovedMembership(s: seq<Observer?>, o: Observer?, x: Observer?)
    ensures x in Removed(s, o) <==> x in s && x != o
  {
    if s != [] {
      RemovedMembership(s[1..], o, x);
      assert s == [s[0]] + s[1..];
    }
  }

  /** Every listener other than `o` keeps its number of occurrences; `o` has none left. */
  lemma {:induction false} RemovedCounts(s: seq<Observer?>, o: Observer?, x: Observer?)
    ensures multiset(Removed(s, o))[x] == if x == o then 0 else multiset(s)[x]
  {
    if s != [] {
      RemovedCounts(s[1..], o, x);
      assert s == [s[0]] + s[1..];
    }
  }

  /** What is kept stays in its relative order. */
  lemma {:induction false} RemovedIsSubsequence(s: seq<Observer?>, o: Observer?)
    ensures IsSubsequence(Removed(s, o), s)
  {
    if s != [] {
      RemovedIsSubsequence(s[1..], o);
      if s[0] != o {
        assert ([s[0]] + Removed(s[1..], o))[1..] == Removed(s[1..], o);
      } else {
        assert Removed(s, o) == Removed(s[1..], o);
        SubsequenceOfTail(Removed(s[1..], o), s);
      }
    }
  }

  lemma {:induction false} SubsequenceOfTail(r: seq<Observer?>, s: seq<Observer?>)
    requires s != [] && IsSubsequence(r, s[1..])
    ensures IsSubsequence(r, s)
    decreases |r| + |s|
  {
    if r != [] && r[0] == s[0] {
      SubsequenceDropHead(r, s[1..]);
    }
  }

  lemma {:induction false} SubsequenceDropHead(r: seq<Observer?>, s: seq<Observer?>)
    requires r != [] && IsSubsequence(r, s)
    ensures IsSubsequence(r[1..], s)
    decreases |r| + |s|
  {
    if r[0] != s[0] {
      SubsequenceDropHead(r, s[1..]);
    }
    if r[1..] != [] {
      SubsequenceOfTail(r[1..], s);
    }
  }

  /** Unregistering a listener that is not listed changes nothing. */
  lemma {:induction false} RemovedAbsent(s: seq<Observer?>, o: Observer?)
    requires o !in s
    ensures Removed(s, o) == s
  {
    if s != [] {
      RemovedAbsent(s[1..], o);
      assert s == [s[0]] + s[1..];
    }
  }

  /** Unregistering twice is the same as unregistering once. */
  lemma {:induction false} RemovedIdempotent(s: seq<Observer?>, o: Observer?)
    ensures Removed(Removed(s, o), o) == Removed(s, o)
  {
    RemovedMembership(s, o, o);
    RemovedAbsent(Removed(s, o), o);
  }

  /** Unregistering two listeners gives the same list in either order. */
  lemma {:induction false} RemovedCommute(s: seq<Observer?>, a: Observer?, b: Observer?)
    ensures Removed(Removed(s, a), b) == Removed(Removed(s, b), a)
  {
    if s != [] {
      RemovedCommute(s[1..], a, b);
      var head := if s[0] == a then [] else [s[0]];
      var head' := if s[0] == b then [] else [s[0]];
      RemovedAppend(head, Removed(s[1..], a), b);
      RemovedAppend(head', Removed(s[1..], b), a);
    }
  }

  /** Registering a listener and then unregistering it leaves exactly the
      earlier list with that listener removed. */
  lemma RegisterThenUnregister(s: seq<Observer?>, o: Observer?)
    ensures Removed(s + [o], o) == Removed(s, o)
  {
    RemovedAppend(s, [o], o);
    assert Removed([o], o) == [];
  }
}
