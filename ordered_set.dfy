/**
 * A JavaScript `Set` of IDs: a duplicate-free sequence in insertion order, which is also
 * the order `Array.from` and `for … of` visit it in.
 */
module OrderedSet {

  predicate NoDuplicates(s: seq<int>)
    decreases |s|
  {
    s == [] || (s[0] !in s[1..] && NoDuplicates(s[1..]))
  }

  /** The members, without their order. */
  function Elements(s: seq<int>): set<int>
  {
    set x | x in s
  }

  /** `set.add(x)`: a new member goes to the end; an existing member keeps its place. */
  function Add(s: seq<int>, x: int): (r: seq<int>)
    ensures Elements(r) == Elements(s) + {x}
    ensures NoDuplicates(s) ==> NoDuplicates(r)
    ensures x in s ==> r == s
    ensures x !in s ==> r == s + [x]
  {
    if x in s then s else AppendFresh(s, x); s + [x]
  }

  /** Appending a non-member keeps a sequence duplicate-free. */
  lemma {:induction false} AppendFresh(s: seq<int>, x: int)
    requires x !in s
    ensures NoDuplicates(s) ==> NoDuplicates(s + [x])
    decreases |s|
  {
    if s != [] {
      AppendFresh(s[1..], x);
      assert (s + [x])[1..] == s[1..] + [x];
    }
  }

  /** `set.delete(x)`: `x` is gone and the other members keep their relative order. */
  function Delete(s: seq<int>, x: int): (r: seq<int>)
    ensures forall y :: y in r <==> y in s && y != x
    ensures Elements(r) == Elements(s) - {x}
    ensures NoDuplicates(s) ==> NoDuplicates(r)
    ensures x !in s ==> r == s
    ensures |r| <= |s|
    decreases |s|
  {
    if s == [] then []
    else if s[0] == x then Delete(s[1..], x)
    else [s[0]] + Delete(s[1..], x)
  }

  /** Deleting distributes over concatenation, so the remaining members keep their relative order. */
  lemma {:induction false} DeleteConcat(a: seq<int>, b: seq<int>, x: int)
    ensures Delete(a + b, x) == Delete(a, x) + Delete(b, x)
    decreases |a|
  {
    if a == [] {
      assert a + b == b;
    } else {
      assert (a + b)[0] == a[0];
      assert (a + b)[1..] == a[1..] + b;
      DeleteConcat(a[1..], b, x);
    }
  }

  /** Deleting a member from between `a` and `b` leaves exactly `a + b`, both in their order. */
  lemma DeleteSplit(a: seq<int>, x: int, b: seq<int>)
    requires x !in a && x !in b
    ensures Delete(a + [x] + b, x) == a + b
  {
    DeleteConcat(a + [x], b, x);
    DeleteConcat(a, [x], x);
    assert Delete([x], x) == [];
    assert a + [] == a;
  }

  /** The members that are in `keep`, in their original order. */
  function Retain(s: seq<int>, keep: set<int>): seq<int>
    decreases |s|
  {
    if s == [] then []
    else if s[0] in keep then [s[0]] + Retain(s[1..], keep)
    else Retain(s[1..], keep)
  }

  /** Retaining keeps exactly the members that are in `keep`, and adds no duplicate. */
  lemma {:induction false} RetainMembers(s: seq<int>, keep: set<int>)
    ensures forall y :: y in Retain(s, keep) <==> y in s && y in keep
    ensures NoDuplicates(s) ==> NoDuplicates(Retain(s, keep))
    decreases |s|
  {
    if s != [] {
      RetainMembers(s[1..], keep);
      assert s == [s[0]] + s[1..];
      if s[0] in keep {
        var r := Retain(s, keep);
        assert r[0] == s[0] && r[1..] == Retain(s[1..], keep);
      }
    }
  }

  /** Retaining over one more member at the end extends the result by that member, if it is kept. */
  lemma {:induction false} RetainAppend(s: seq<int>, x: int, keep: set<int>)
    ensures Retain(s + [x], keep) == Retain(s, keep) + (if x in keep then [x] else [])
    decreases |s|
  {
    if s == [] {
      assert [x][1..] == [];
    } else {
      assert (s + [x])[0] == s[0];
      assert (s + [x])[1..] == s[1..] + [x];
      RetainAppend(s[1..], x, keep);
    }
  }

  /** The two halves of a duplicate-free concatenation are duplicate-free and share no member. */
  lemma {:induction false} NoDuplicatesSplit(a: seq<int>, b: seq<int>)
    requires NoDuplicates(a + b)
    ensures NoDuplicates(a) && NoDuplicates(b)
    ensures forall y :: y in a ==> y !in b
    decreases |a|
  {
    if a == [] {
      assert a + b == b;
    } else {
      assert (a + b)[0] == a[0];
      assert (a + b)[1..] == a[1..] + b;
      NoDuplicatesSplit(a[1..], b);
      assert a[0] !in a[1..] + b;
    }
  }

  /** The members retained are exactly the members that are kept. */
  lemma RetainElements(s: seq<int>, keep: set<int>)
    ensures Elements(Retain(s, keep)) == Elements(s) * keep
  {
    RetainMembers(s, keep);
    forall y
      ensures y in Elements(Retain(s, keep)) <==> y in Elements(s) * keep
    {
      assert y in Elements(Retain(s, keep)) <==> y in Retain(s, keep);
      assert y in Elements(s) <==> y in s;
    }
  }

  /**
   * One step of a sweep over `done + todo`: deleting the first unvisited member removes
   * it and nothing else.
   */
  lemma DeleteNext(done: seq<int>, todo: seq<int>)
    requires todo != [] && NoDuplicates(done + todo)
    ensures Delete(done + todo, todo[0]) == done + todo[1..]
  {
    NoDuplicatesSplit(done, todo);
    assert todo[0] in todo;
    DeleteConcat(done, todo, todo[0]);
    DeleteFirst(todo);
  }

  /**
   * One step of the sweep that keeps the members of `keep`, with `done` visited and `todo`
   * still to visit: a kept `todo[0]` stays where it is and moves to `done` ...
   */
  lemma KeepStep(done: seq<int>, todo: seq<int>, keep: set<int>)
    requires todo != [] && todo[0] in keep
    ensures Retain(done, keep) + todo == Retain(done + [todo[0]], keep) + todo[1..]
    ensures NoDuplicates(Retain(done, keep) + todo) ==> NoDuplicates(Retain(done + [todo[0]], keep) + todo[1..])
  {
    var x, kept, rest := todo[0], Retain(done, keep), todo[1..];
    RetainAppend(done, x, keep);
    assert todo == [x] + rest;
    assert kept + todo == (kept + [x]) + rest;
  }

  /** ... and one that is not kept is deleted, which moves it to `done` as well. */
  lemma DropStep(done: seq<int>, todo: seq<int>, keep: set<int>)
    requires todo != [] && todo[0] !in keep
    requires NoDuplicates(Retain(done, keep) + todo)
    ensures Delete(Retain(done, keep) + todo, todo[0]) == Retain(done + [todo[0]], keep) + todo[1..]
    ensures NoDuplicates(Retain(done + [todo[0]], keep) + todo[1..])
  {
    var x, kept := todo[0], Retain(done, keep);
    RetainAppend(done, x, keep);
    assert kept + [] == kept;
    DeleteNext(kept, todo);
  }

  /**
   * A whole step of the sweep: handling `todo[0]` (deleting it unless it is kept) moves
   * it to `done`, and the sequence stays free of duplicates.
   */
  lemma RetainStep(done: seq<int>, todo: seq<int>, keep: set<int>)
    requires todo != [] && NoDuplicates(Retain(done, keep) + todo)
    ensures todo[0] in keep ==> Retain(done, keep) + todo == Retain(done + [todo[0]], keep) + todo[1..]
    ensures todo[0] !in keep ==> Delete(Retain(done, keep) + todo, todo[0]) == Retain(done + [todo[0]], keep) + todo[1..]
    ensures NoDuplicates(Retain(done + [todo[0]], keep) + todo[1..])
  {
    if todo[0] in keep {
      KeepStep(done, todo, keep);
    } else {
      DropStep(done, todo, keep);
    }
  }

  /** Deleting the first member of a duplicate-free sequence leaves the rest, in order. */
  lemma DeleteFirst(s: seq<int>)
    requires s != [] && NoDuplicates(s)
    ensures Delete(s, s[0]) == s[1..]
  {
  }

  /** A duplicate-free sequence has exactly one entry per member. */
  lemma {:induction false} DistinctLength(s: seq<int>)
    requires NoDuplicates(s)
    ensures |s| == |Elements(s)|
    decreases |s|
  {
    if s != [] {
      var rest := s[1..];
      DistinctLength(rest);
      assert Elements(s) == Elements(rest) + {s[0]} by {
        assert s == [s[0]] + rest;
      }
      assert s[0] !in Elements(rest);
    }
  }
}
