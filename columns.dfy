/** The column resolver: the model's attribute names minus the ignored ones. */
module Columns {

  /** `names.delete(x)`: removes every occurrence of `x`, keeps the rest in order. */
  function Delete(names: seq<string>, x: string): seq<string>
    decreases |names|
  {
    if names == [] then []
    else if names[0] == x then Delete(names[1..], x)
    else [names[0]] + Delete(names[1..], x)
  }

  /** What `delete` leaves: no `x`, every other name as often as before, in order. */
  lemma {:induction false} DeleteSpec(names: seq<string>, x: string)
    ensures x !in Delete(names, x)
    ensures forall y :: y != x ==> multiset(Delete(names, x))[y] == multiset(names)[y]
    ensures Subsequence(Delete(names, x), names)
    decreases |names|
  {
    if names != [] {
      DeleteSpec(names[1..], x);
      assert names == [names[0]] + names[1..];
      if names[0] != x {
        assert ([names[0]] + Delete(names[1..], x))[1..] == Delete(names[1..], x);
      }
    }
  }

  /** `a` is `b` with some elements dropped, the rest in their order in `b`. */
  ghost predicate Subsequence(a: seq<string>, b: seq<string>)
    decreases |b|
  {
    if a == [] then true
    else if b == [] then false
    else (a[0] == b[0] && Subsequence(a[1..], b[1..])) || Subsequence(a, b[1..])
  }

  /** The column set: the declared attributes, in declared order, with every
      occurrence of every ignored name removed. */
  function Resolve(attributes: seq<string>, ignore: seq<string>): seq<string>
    decreases |attributes|
  {
    if attributes == [] then []
    else if attributes[0] in ignore then Resolve(attributes[1..], ignore)
    else [attributes[0]] + Resolve(attributes[1..], ignore)
  }

  /** The column set holds exactly the declared names that are not ignored, each
      as often as it is declared, in declared order. */
  lemma {:induction false} ResolveSpec(attributes: seq<string>, ignore: seq<string>)
    ensures forall y :: y in Resolve(attributes, ignore) <==> y in attributes && y !in ignore
    ensures forall y ::
      multiset(Resolve(attributes, ignore))[y] == if y in ignore then 0 else multiset(attributes)[y]
    ensures Subsequence(Resolve(attributes, ignore), attributes)
    decreases |attributes|
  {
    if attributes != [] {
      ResolveSpec(attributes[1..], ignore);
      assert attributes == [attributes[0]] + attributes[1..];
      if attributes[0] !in ignore {
        var r := Resolve(attributes, ignore);
        assert r[1..] == Resolve(attributes[1..], ignore);
      }
    }
  }

  /** Deleting one more name from a resolved column list resolves against the
      longer ignore list: the step the loop in `attribute_names` takes. */
  lemma {:induction false} DeleteResolve(attributes: seq<string>, ignore: seq<string>, x: string)
    ensures Delete(Resolve(attributes, ignore), x) == Resolve(attributes, ignore + [x])
    decreases |attributes|
  {
    if attributes != [] {
      DeleteResolve(attributes[1..], ignore, x);
      var a := attributes[0];
      if a !in ignore {
        assert ([a] + Resolve(attributes[1..], ignore))[1..] == Resolve(attributes[1..], ignore);
      }
    }
  }

  /** Ignoring names the model does not declare changes nothing. */
  lemma {:induction false} IgnoreUndeclared(attributes: seq<string>, ignore: seq<string>, extra: seq<string>)
    requires forall x :: x in extra ==> x !in attributes
    ensures Resolve(attributes, ignore + extra) == Resolve(attributes, ignore)
    decreases |attributes|
  {
    if attributes != [] {
      IgnoreUndeclared(attributes[1..], ignore, extra);
    }
  }

  /** With no declared name ignored the column set is the attribute list itself. */
  lemma {:induction false} NothingIgnored(attributes: seq<string>, ignore: seq<string>)
    requires forall x :: x in ignore ==> x !in attributes
    ensures Resolve(attributes, ignore) == attributes
    decreases |attributes|
  {
    if attributes != [] {
      NothingIgnored(attributes[1..], ignore);
      assert [attributes[0]] + attributes[1..] == attributes;
    }
  }
}
