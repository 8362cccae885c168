/** Sequence combinators shared by the detectors and the report builder. */
module Lists {
  import opened Wrappers

  // ---------------------------------------------------------------------------
  // Filtering comprehensions: [f(x) for x in xs if keep(x)]
  // ---------------------------------------------------------------------------

  /** The items of `xs` that satisfy `keep`, each mapped through `f`, in input order. */
  function FilterMap<T, U>(xs: seq<T>, keep: T -> bool, f: T -> U): (ys: seq<U>)
    ensures |ys| <= |xs|
  {
    if xs == [] then []
    else (if keep(xs[0]) then [f(xs[0])] else []) + FilterMap(xs[1..], keep, f)
  }

  /** The positions `base + i` of the items `xs[i]` that satisfy `keep`, ascending. */
  function KeptFrom<T>(xs: seq<T>, keep: T -> bool, base: nat): seq<nat>
  {
    if xs == [] then []
    else (if keep(xs[0]) then [base] else []) + KeptFrom(xs[1..], keep, base + 1)
  }

  /** The positions of the items of `xs` that satisfy `keep`, ascending. */
  function KeptPositions<T>(xs: seq<T>, keep: T -> bool): seq<nat>
  {
    KeptFrom(xs, keep, 0)
  }

  lemma {:induction false} KeptFromImages<T, U>(xs: seq<T>, keep: T -> bool, f: T -> U, base: nat)
    ensures var idx, ys := KeptFrom(xs, keep, base), FilterMap(xs, keep, f);
      && |idx| == |ys|
      && (forall k :: 0 <= k < |idx| ==> base <= idx[k] < base + |xs| && ys[k] == f(xs[idx[k] - base]))
  {
    if xs != [] {
      KeptFromImages(xs[1..], keep, f, base + 1);
      var idx, ys := KeptFrom(xs, keep, base), FilterMap(xs, keep, f);
      var rest, tail := KeptFrom(xs[1..], keep, base + 1), FilterMap(xs[1..], keep, f);
      var h := if keep(xs[0]) then 1 else 0;
      assert |idx| == h + |rest| && |ys| == h + |tail|;
      forall k | h <= k < |idx|
        ensures base <= idx[k] < base + |xs| && ys[k] == f(xs[idx[k] - base])
      {
        assert idx[k] == rest[k - h] && ys[k] == tail[k - h];
        assert xs[idx[k] - base] == xs[1..][rest[k - h] - (base + 1)];
      }
    }
  }

  lemma {:induction false} KeptFromAscending<T>(xs: seq<T>, keep: T -> bool, base: nat)
    ensures forall k :: 0 <= k < |KeptFrom(xs, keep, base)| ==> base <= KeptFrom(xs, keep, base)[k]
    ensures forall k, l :: 0 <= k < l < |KeptFrom(xs, keep, base)| ==>
      KeptFrom(xs, keep, base)[k] < KeptFrom(xs, keep, base)[l]
  {
    if xs != [] {
      KeptFromAscending(xs[1..], keep, base + 1);
    }
  }

  lemma {:induction false} KeptFromMembers<T>(xs: seq<T>, keep: T -> bool, base: nat)
    ensures forall i :: base <= i < base + |xs| ==> (i in KeptFrom(xs, keep, base) <==> keep(xs[i - base]))
  {
    if xs != [] {
      KeptFromMembers(xs[1..], keep, base + 1);
      KeptFromAscending(xs[1..], keep, base + 1);
      var rest := KeptFrom(xs[1..], keep, base + 1);
      forall i | base <= i < base + |xs|
        ensures i in KeptFrom(xs, keep, base) <==> keep(xs[i - base])
      {
        if i > base {
          assert xs[i - base] == xs[1..][i - (base + 1)];
        } else {
          assert base !in rest;
        }
      }
    }
  }

  lemma {:induction false} KeptFromSelects<T, U>(xs: seq<T>, keep: T -> bool, f: T -> U, base: nat)
    ensures var idx, ys := KeptFrom(xs, keep, base), FilterMap(xs, keep, f);
      && |idx| == |ys|
      && (forall k :: 0 <= k < |idx| ==> base <= idx[k] < base + |xs| && ys[k] == f(xs[idx[k] - base]))
      && (forall k, l :: 0 <= k < l < |idx| ==> idx[k] < idx[l])
      && (forall i :: base <= i < base + |xs| ==> (i in idx <==> keep(xs[i - base])))
  {
    KeptFromImages(xs, keep, f, base);
    KeptFromAscending(xs, keep, base);
    KeptFromMembers(xs, keep, base);
  }

  /** FilterMap keeps exactly the items that satisfy `keep`, in input order: the k-th
      output is `f` of the k-th kept input, and a position is kept iff its item satisfies `keep`. */
  lemma FilterMapSelects<T, U>(xs: seq<T>, keep: T -> bool, f: T -> U)
    ensures var idx, ys := KeptPositions(xs, keep), FilterMap(xs, keep, f);
      && |idx| == |ys|
      && (forall k :: 0 <= k < |idx| ==> idx[k] < |xs| && ys[k] == f(xs[idx[k]]))
      && (forall k, l :: 0 <= k < l < |idx| ==> idx[k] < idx[l])
      && (forall i :: 0 <= i < |xs| ==> (i in idx <==> keep(xs[i])))
  {
    KeptFromSelects(xs, keep, f, 0);
  }

  lemma FilterMapSingle<T, U>(x: T, keep: T -> bool, f: T -> U)
    ensures FilterMap([x], keep, f) == if keep(x) then [f(x)] else []
  {
  }

  lemma {:induction false} FilterMapAppend<T, U>(xs: seq<T>, ys: seq<T>, keep: T -> bool, f: T -> U)
    ensures FilterMap(xs + ys, keep, f) == FilterMap(xs, keep, f) + FilterMap(ys, keep, f)
  {
    if xs == [] {
      assert xs + ys == ys;
    } else {
      var head := if keep(xs[0]) then [f(xs[0])] else [];
      assert (xs + ys)[0] == xs[0] && (xs + ys)[1..] == xs[1..] + ys;
      assert FilterMap(xs + ys, keep, f) == head + FilterMap(xs[1..] + ys, keep, f);
      FilterMapAppend(xs[1..], ys, keep, f);
      assert head + (FilterMap(xs[1..], keep, f) + FilterMap(ys, keep, f))
        == (head + FilterMap(xs[1..], keep, f)) + FilterMap(ys, keep, f);
    }
  }

  /** Every output of FilterMap is `f` of some kept input, and every kept input contributes one. */
  lemma {:induction false} FilterMapMember<T, U>(xs: seq<T>, keep: T -> bool, f: T -> U, y: U)
    ensures y in FilterMap(xs, keep, f) <==> exists i :: 0 <= i < |xs| && keep(xs[i]) && f(xs[i]) == y
  {
    if xs != [] {
      FilterMapMember(xs[1..], keep, f, y);
      if y in FilterMap(xs[1..], keep, f) {
        var i :| 0 <= i < |xs[1..]| && keep(xs[1..][i]) && f(xs[1..][i]) == y;
        assert keep(xs[i + 1]) && f(xs[i + 1]) == y;
      }
      if exists i :: 0 <= i < |xs| && keep(xs[i]) && f(xs[i]) == y {
        var i :| 0 <= i < |xs| && keep(xs[i]) && f(xs[i]) == y;
        if i > 0 {
          assert xs[1..][i - 1] == xs[i];
        }
      }
    }
  }

  /** FilterMapMember for every value at once. */
  lemma FilterMapMembers<T, U>(xs: seq<T>, keep: T -> bool, f: T -> U)
    ensures forall y :: y in FilterMap(xs, keep, f) <==> exists i :: 0 <= i < |xs| && keep(xs[i]) && f(xs[i]) == y
  {
    forall y ensures y in FilterMap(xs, keep, f) <==> exists i :: 0 <= i < |xs| && keep(xs[i]) && f(xs[i]) == y {
      FilterMapMember(xs, keep, f, y);
    }
  }

  /** A filter that keeps every item and maps each to itself returns its input. */
  lemma {:induction false} FilterMapKeepsAll<T>(xs: seq<T>, keep: T -> bool, f: T -> T)
    requires forall i :: 0 <= i < |xs| ==> keep(xs[i]) && f(xs[i]) == xs[i]
    ensures FilterMap(xs, keep, f) == xs
  {
    if xs != [] {
      FilterMapKeepsAll(xs[1..], keep, f);
      assert [xs[0]] + xs[1..] == xs;
    }
  }

  /** A filter that keeps no item returns nothing. */
  lemma {:induction false} FilterMapKeepsNone<T, U>(xs: seq<T>, keep: T -> bool, f: T -> U)
    requires forall i :: 0 <= i < |xs| ==> !keep(xs[i])
    ensures FilterMap(xs, keep, f) == []
  {
    if xs != [] {
      FilterMapKeepsNone(xs[1..], keep, f);
    }
  }

  // ---------------------------------------------------------------------------
  // Loops that may raise: each item is kept, skipped, or raises and ends the scan
  // ---------------------------------------------------------------------------

  /** What one loop iteration does with one item. */
  datatype Step<+U> = Keep(item: U) | Skip | Raise

  /** The items kept by `step`, in input order, or None when some item raises. */
  function Collect<T, U>(xs: seq<T>, step: T -> Step<U>): (r: Option<seq<U>>)
    ensures r.Some? ==> |r.value| <= |xs|
  {
    if xs == [] then Some([])
    else
      match step(xs[0])
      case Raise => None
      case Skip => Collect(xs[1..], step)
      case Keep(u) =>
        match Collect(xs[1..], step)
        case None => None
        case Some(rest) => Some([u] + rest)
  }

  lemma CollectSingle<T, U>(x: T, step: T -> Step<U>)
    ensures Collect([x], step) == match step(x) case Raise => None case Skip => Some([]) case Keep(u) => Some([u])
  {
    assert [x][1..] == [];
    match step(x)
    case Keep(u) =>
      assert [u] + [] == [u];
    case _ =>
  }

  /** Both parts collected without raising, concatenated; otherwise None. */
  function Both<U>(a: Option<seq<U>>, b: Option<seq<U>>): Option<seq<U>>
  {
    if a.Some? && b.Some? then Some(a.value + b.value) else None
  }

  lemma {:induction false} CollectAppend<T, U>(xs: seq<T>, ys: seq<T>, step: T -> Step<U>)
    ensures Collect(xs + ys, step) == Both(Collect(xs, step), Collect(ys, step))
  {
    if xs == [] {
      assert xs + ys == ys;
      if Collect(ys, step).Some? {
        assert [] + Collect(ys, step).value == Collect(ys, step).value;
      }
    } else {
      assert (xs + ys)[1..] == xs[1..] + ys;
      CollectAppend(xs[1..], ys, step);
      match step(xs[0])
      case Keep(u) =>
        var a, b := Collect(xs[1..], step), Collect(ys, step);
        if a.Some? && b.Some? {
          assert [u] + (a.value + b.value) == ([u] + a.value) + b.value;
        }
      case _ =>
    }
  }

  /** A scan raises exactly when one of its items raises. */
  lemma {:induction false} CollectRaisesIff<T, U>(xs: seq<T>, step: T -> Step<U>)
    ensures Collect(xs, step).None? <==> exists i :: 0 <= i < |xs| && step(xs[i]).Raise?
  {
    if xs != [] {
      CollectRaisesIff(xs[1..], step);
      if exists i :: 0 <= i < |xs[1..]| && step(xs[1..][i]).Raise? {
        var i :| 0 <= i < |xs[1..]| && step(xs[1..][i]).Raise?;
        assert step(xs[i + 1]).Raise?;
      }
      if exists i :: 0 <= i < |xs| && step(xs[i]).Raise? {
        var i :| 0 <= i < |xs| && step(xs[i]).Raise?;
        if i > 0 {
          assert xs[1..][i - 1] == xs[i];
        }
      }
    }
  }

  /** Every collected item was kept by `step` from some input. */
  lemma {:induction false} CollectMember<T, U>(xs: seq<T>, step: T -> Step<U>, y: U)
    requires Collect(xs, step).Some?
    ensures y in Collect(xs, step).value ==> exists i :: 0 <= i < |xs| && step(xs[i]) == Keep(y)
  {
    if xs != [] {
      CollectMember(xs[1..], step, y);
      if y in Collect(xs[1..], step).value {
        var i :| 0 <= i < |xs[1..]| && step(xs[1..][i]) == Keep(y);
        assert step(xs[i + 1]) == Keep(y);
      }
    }
  }

  // ---------------------------------------------------------------------------
  // Strings: "\n".join(lines) and character counts
  // ---------------------------------------------------------------------------

  /** `sep.join(lines)`. */
  function Join(lines: seq<string>, sep: string): string
  {
    if lines == [] then ""
    else if |lines| == 1 then lines[0]
    else lines[0] + sep + Join(lines[1..], sep)
  }

  /** The number of occurrences of `c` in `s`. */
  function Occurrences(s: string, c: char): (n: nat)
    ensures n <= |s|
    ensures n == 0 <==> c !in s
  {
    if s == [] then 0
    else (if s[0] == c then 1 else 0) + Occurrences(s[1..], c)
  }

  lemma {:induction false} OccurrencesAppend(s: string, t: string, c: char)
    ensures Occurrences(s + t, c) == Occurrences(s, c) + Occurrences(t, c)
  {
    if s == [] {
      assert s + t == t;
    } else {
      assert (s + t)[1..] == s[1..] + t;
      OccurrencesAppend(s[1..], t, c);
    }
  }

  /** Joining lines free of `c` with the one-character separator `[c]` yields exactly
      one `c` between consecutive lines and none elsewhere. */
  lemma {:induction false} JoinSeparatorCount(lines: seq<string>, c: char)
    requires lines != []
    requires forall i :: 0 <= i < |lines| ==> c !in lines[i]
    ensures Occurrences(Join(lines, [c]), c) == |lines| - 1
  {
    if |lines| > 1 {
      JoinSeparatorCount(lines[1..], c);
      OccurrencesAppend(lines[0], [c], c);
      OccurrencesAppend(lines[0] + [c], Join(lines[1..], [c]), c);
    }
  }
}
