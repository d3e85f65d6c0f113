/** Removal of the elements of a list that carry a given id, the shape of the
    component's `filter(x => x.id !== id)` and `filter(s => s.createdEntityId !== id)`. */
module Lists {
  import opened Types

  /** The elements of `s` whose key is not `Some(id)`, in their original order. */
  function Drop<T(==,!new)>(s: seq<T>, key: T -> Option<string>, id: string): (r: seq<T>)
    ensures |r| <= |s|
    ensures forall x :: x in r <==> x in s && key(x) != Some(id)
  {
    if s == [] then []
    else (if key(s[0]) == Some(id) then [] else [s[0]]) + Drop(s[1..], key, id)
  }

  /** Dropping distributes over concatenation, so the kept elements stay in order. */
  lemma {:induction false} DropAppend<T(!new)>(a: seq<T>, b: seq<T>, key: T -> Option<string>, id: string)
    ensures Drop(a + b, key, id) == Drop(a, key, id) + Drop(b, key, id)
  {
    if a == [] {
      assert a + b == b;
    } else {
      var head := if key(a[0]) == Some(id) then [] else [a[0]];
      assert (a + b)[1..] == a[1..] + b;
      calc {
        Drop(a + b, key, id);
        head + Drop(a[1..] + b, key, id);
        { DropAppend(a[1..], b, key, id); }
        head + (Drop(a[1..], key, id) + Drop(b, key, id));
        (head + Drop(a[1..], key, id)) + Drop(b, key, id);
        Drop(a, key, id) + Drop(b, key, id);
      }
    }
  }

  /** A list none of whose elements carries the id is left as it is. */
  lemma {:induction false} DropNothing<T(!new)>(s: seq<T>, key: T -> Option<string>, id: string)
    requires forall x :: x in s ==> key(x) != Some(id)
    ensures Drop(s, key, id) == s
  {
    if s != [] {
      DropNothing(s[1..], key, id);
    }
  }

  /** Dropping twice is dropping once. */
  lemma DropTwice<T(!new)>(s: seq<T>, key: T -> Option<string>, id: string)
    ensures Drop(Drop(s, key, id), key, id) == Drop(s, key, id)
  {
    DropNothing(Drop(s, key, id), key, id);
  }

  /** Replacing an element that carries the id by another that carries it
      does not change what is kept. */
  lemma {:induction false} DropReplaced<T(!new)>(s: seq<T>, k: nat, y: T, key: T -> Option<string>, id: string)
    requires k < |s| && key(s[k]) == Some(id) && key(y) == Some(id)
    ensures Drop(s[k := y], key, id) == Drop(s, key, id)
  {
    if k > 0 {
      DropReplaced(s[1..], k - 1, y, key, id);
      assert s[k := y][1..] == s[1..][k - 1 := y];
    }
  }
}
