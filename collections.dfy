/** The few pieces of the Java and Guava libraries that the migrator's code relies on:
    optional values, results of calls that may throw, `String` joining by a separator
    (Guava's `Joiner` and a stream's `reduce((l, r) -> l + sep + r)`), `List.indexOf`,
    `List.get`, a stream `map` whose mapper may throw, and `addAll` in a loop. */
module Collections {

  datatype Option<T> = None | Some(value: T)

  /** The value a call returns, or the exception it throws. */
  datatype Result<T, E> = Ok(value: T) | Err(error: E)

  /** The unchecked exceptions the trigger generator can raise. */
  datatype RuntimeException =
    | IllegalArgumentException(message: string)
    | IndexOutOfBoundsException(index: int, length: nat)

  /** Guava's `Joiner.on(separator).join(items)`: the items with the separator
      between each neighbouring pair. */
  function Join(separator: string, items: seq<string>): string
    decreases |items|
  {
    if |items| == 0 then ""
    else if |items| == 1 then items[0]
    else items[0] + separator + Join(separator, items[1..])
  }

  /** `items.stream().reduce((l, r) -> l + separator + r)`: empty when there are no
      items, otherwise the left-to-right fold. */
  function Reduce(items: seq<string>, separator: string): Option<string>
  {
    if items == [] then None else Some(FoldLeft(items[0], items[1..], separator))
  }

  function FoldLeft(acc: string, rest: seq<string>, separator: string): string
    decreases |rest|
  {
    if rest == [] then acc else FoldLeft(acc + separator + rest[0], rest[1..], separator)
  }

  lemma {:induction false} FoldLeftJoins(acc: string, rest: seq<string>, separator: string)
    ensures FoldLeft(acc, rest, separator) == Join(separator, [acc] + rest)
    decreases |rest|
  {
    if rest != [] {
      var head := acc + separator + rest[0];
      FoldLeftJoins(head, rest[1..], separator);
      if |rest| == 1 {
        assert [head] + rest[1..] == [head];
        assert Join(separator, [acc] + rest) == acc + separator + Join(separator, rest);
      } else {
        calc {
          Join(separator, [head] + rest[1..]);
          head + separator + Join(separator, rest[1..]);
          acc + separator + (rest[0] + separator + Join(separator, rest[1..]));
          acc + separator + Join(separator, rest);
          Join(separator, [acc] + rest);
        }
      }
    }
  }

  /** The stream reduction and the Joiner agree: reducing a non-empty list of strings
      with `l + separator + r` joins them with the separator, and an empty list
      reduces to nothing. */
  lemma ReduceJoins(items: seq<string>, separator: string)
    ensures Reduce(items, separator) == if items == [] then None else Some(Join(separator, items))
  {
    if items != [] {
      FoldLeftJoins(items[0], items[1..], separator);
      assert [items[0]] + items[1..] == items;
    }
  }

  /** A slice that lies in the second part of a concatenation is a slice of that part. */
  lemma SliceOfSecond<T>(a: seq<T>, b: seq<T>, lo: nat, hi: nat)
    requires |a| <= lo <= hi <= |a| + |b|
    ensures (a + b)[lo..hi] == b[lo - |a|..hi - |a|]
  {
  }

  /** A slice that lies in the first part of a concatenation is a slice of that part. */
  lemma SliceOfFirst<T>(a: seq<T>, b: seq<T>, lo: nat, hi: nat)
    requires lo <= hi <= |a|
    ensures (a + b)[lo..hi] == a[lo..hi]
  {
  }

  /** `List.indexOf`: the first position holding `x`, or -1 when there is none. */
  function IndexOf(s: seq<string>, x: string): (r: int)
    ensures -1 <= r < |s|
    ensures r == -1 <==> x !in s
    ensures 0 <= r ==> s[r] == x && forall q :: 0 <= q < r ==> s[q] != x
    decreases |s|
  {
    if s == [] then -1
    else if s[0] == x then 0
    else
      var i := IndexOf(s[1..], x);
      if i == -1 then -1 else i + 1
  }

  /** A position holding `x` with no earlier one is what `indexOf` finds. */
  lemma IndexOfFirst(s: seq<string>, x: string, i: nat)
    requires i < |s| && s[i] == x
    requires forall q :: 0 <= q < i ==> s[q] != x
    ensures IndexOf(s, x) == i
  {
  }

  /** `List.get`, which throws for an index outside the list. */
  function Get<T>(s: seq<T>, i: int): Result<T, RuntimeException>
  {
    if 0 <= i < |s| then Ok(s[i]) else Err(IndexOutOfBoundsException(i, |s|))
  }

  /** A sequential stream `map` whose mapper may throw, consumed in order: either every
      item maps and the results come in item order, or the first item whose mapping
      throws decides the exception. */
  function MapAll<T, U, E>(items: seq<T>, f: T -> Result<U, E>): (r: Result<seq<U>, E>)
    ensures r.Ok? <==> forall i :: 0 <= i < |items| ==> f(items[i]).Ok?
    ensures r.Ok? ==> |r.value| == |items| &&
                      forall i :: 0 <= i < |items| ==> r.value[i] == f(items[i]).value
    ensures r.Err? ==> exists i :: 0 <= i < |items| && f(items[i]) == Err(r.error) &&
                                   forall q :: 0 <= q < i ==> f(items[q]).Ok?
    decreases |items|
  {
    if items == [] then Ok([])
    else match f(items[0])
      case Err(e) => Err(e)
      case Ok(u) =>
        match MapAll(items[1..], f)
        case Err(e) => Err(e)
        case Ok(us) => Ok([u] + us)
  }

  /** The concatenation of the groups, in group order (a loop of `addAll`). */
  function Flatten<T>(groups: seq<seq<T>>): seq<T>
    decreases |groups|
  {
    if groups == [] then [] else Flatten(groups[..|groups| - 1]) + groups[|groups| - 1]
  }

  /** Flattening a concatenation of group lists is concatenating their flattenings. */
  lemma {:induction false} FlattenAppend<T>(a: seq<seq<T>>, b: seq<seq<T>>)
    ensures Flatten(a + b) == Flatten(a) + Flatten(b)
    decreases |b|
  {
    if b == [] {
      assert a + b == a;
    } else {
      var n := |b| - 1;
      assert (a + b)[..|a + b| - 1] == a + b[..n];
      FlattenAppend(a, b[..n]);
    }
  }

  /** An element is in the flattening exactly when it is in one of the groups. */
  lemma {:induction false} FlattenMembership<T>(groups: seq<seq<T>>, x: T)
    ensures x in Flatten(groups) <==> exists i :: 0 <= i < |groups| && x in groups[i]
    decreases |groups|
  {
    if groups != [] {
      var n := |groups| - 1;
      FlattenMembership(groups[..n], x);
      if x in groups[n] {
        assert x in Flatten(groups);
      } else if x in Flatten(groups[..n]) {
        var i :| 0 <= i < n && x in groups[..n][i];
        assert x in groups[i];
      } else {
        assert x !in Flatten(groups);
        forall i | 0 <= i < |groups| ensures x !in groups[i] {
          if i < n { assert groups[i] == groups[..n][i]; }
        }
      }
    }
  }
}
