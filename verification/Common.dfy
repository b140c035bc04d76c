/** Identifiers, results and sequence facts shared by the services. */
module Common {

  /** A user, tweet, row or message identifier in its canonical textual form. */
  type Id = string

  datatype Option<+T> = None | Some(value: T) {
    function GetOr(default: T): T {
      if Some? then value else default
    }
  }

  /** The HTTP outcomes the route handlers produce; `ServerError` is an exception they do not catch. */
  datatype Status = Ok | BadRequest | Forbidden | NotFound | DatabaseError | ServerError

  function Min(a: int, b: int): int {
    if a <= b then a else b
  }

  ghost predicate NoDup<T>(s: seq<T>) {
    forall i, j :: 0 <= i < j < |s| ==> s[i] != s[j]
  }

  /** A finite set can be listed without repetition. */
  lemma {:induction false} Listing<T>(s: set<T>) returns (q: seq<T>)
    ensures NoDup(q) && forall x :: x in q <==> x in s
  {
    if s == {} {
      q := [];
    } else {
      var x :| x in s;
      var rest := Listing(s - {x});
      q := [x] + rest;
    }
  }

  /** Removing one element from a set takes exactly one from its size. */
  lemma RemoveOne<T>(s: set<T>, x: T)
    requires x in s
    ensures |s - {x}| == |s| - 1
  {
  }

  /** A duplicate-free sequence has as many members as positions. */
  lemma {:induction false} NoDupCardinality<T>(s: seq<T>)
    requires NoDup(s)
    ensures |set x | x in s| == |s|
  {
    if s != [] {
      var rest := s[1..];
      NoDupCardinality(rest);
      assert (set x | x in s) == {s[0]} + set x | x in rest;
    }
  }

  /** Whatever its repetitions, a sequence has at most as many members as positions. */
  lemma {:induction false} MembersAtMostLength<T>(s: seq<T>)
    ensures |set x | x in s| <= |s|
  {
    if s != [] {
      var rest := s[1..];
      MembersAtMostLength(rest);
      assert (set x | x in s) == {s[0]} + set x | x in rest;
    }
  }

  /** Two duplicate-free sequences with the same members are permutations of each other. */
  lemma SameMembersSameMultiset<T>(a: seq<T>, b: seq<T>)
    requires NoDup(a) && NoDup(b)
    requires forall x :: x in a <==> x in b
    ensures multiset(a) == multiset(b)
  {
    forall x: T
      ensures multiset(a)[x] == multiset(b)[x]
    {
      NoDupMultiplicity(a, x);
      NoDupMultiplicity(b, x);
    }
  }

  lemma {:induction false} NoDupMultiplicity<T>(s: seq<T>, x: T)
    requires NoDup(s)
    ensures multiset(s)[x] == if x in s then 1 else 0
  {
    if s != [] {
      var rest := s[1..];
      assert s == [s[0]] + rest;
      NoDupMultiplicity(rest, x);
    }
  }
}
