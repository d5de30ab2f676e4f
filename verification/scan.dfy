/**
 * Searching and splitting text the way the scanning extractor does with
 * `str.split`, `str.find`, `list(set(...))` and `OrderedDict`.
 */
module Scan {
  import opened Wrappers

  // ---------------------------------------------------------------------------
  // Finding a character

  /** The index of the first occurrence of `c` in `s`. */
  function IndexOf(s: string, c: char): (r: Option<nat>)
    ensures r.Some? ==> r.value < |s| && s[r.value] == c && c !in s[..r.value]
    ensures r.None? <==> c !in s
  {
    if s == [] then None
    else if s[0] == c then Some(0)
    else
      match IndexOf(s[1..], c)
      case None => None
      case Some(i) =>
        assert s[..i + 1] == [s[0]] + s[1..][..i];
        Some(i + 1)
  }

  /** The index of the last occurrence of `c` in `s`. */
  function LastIndexOf(s: string, c: char): (r: Option<nat>)
    ensures r.Some? ==> r.value < |s| && s[r.value] == c && c !in s[r.value + 1..]
    ensures r.None? <==> c !in s
  {
    if s == [] then None
    else if s[|s| - 1] == c then Some(|s| - 1)
    else
      match LastIndexOf(s[..|s| - 1], c)
      case None =>
        assert s == s[..|s| - 1] + [s[|s| - 1]];
        None
      case Some(i) =>
        assert s[i + 1..] == s[..|s| - 1][i + 1..] + [s[|s| - 1]];
        Some(i)
  }

  /** The first index in `from..n` where `p` holds: where a pattern search stops. */
  function FirstWhere(p: nat -> bool, from: nat, n: nat): (r: Option<nat>)
    requires from <= n
    ensures r.Some? ==> from <= r.value < n && p(r.value)
    ensures forall j :: from <= j < (if r.Some? then r.value else n) ==> !p(j)
    decreases n - from
  {
    if from == n then None
    else if p(from) then Some(from)
    else FirstWhere(p, from + 1, n)
  }

  /** The text up to, not including, the first line break: what `.*` can match. */
  function UpToNewline(s: string): (r: string)
    ensures '\n' !in r
    ensures |r| <= |s| && r == s[..|r|]
    ensures |r| == |s| || s[|r|] == '\n'
  {
    match IndexOf(s, '\n')
    case None => s
    case Some(i) => s[..i]
  }

  /** `s.split(c, 1)`: the text before and after the first `c`, if there is one. */
  function SplitFirst(s: string, c: char): (r: Option<(string, string)>)
    ensures r.Some? <==> c in s
    ensures r.Some? ==> s == r.value.0 + [c] + r.value.1 && c !in r.value.0
  {
    match IndexOf(s, c)
    case None => None
    case Some(i) =>
      assert s == s[..i] + [c] + s[i + 1..];
      Some((s[..i], s[i + 1..]))
  }

  /** `c` stands at index `i` of `s` and nowhere before it. */
  predicate FirstAt(s: string, c: char, i: int) {
    0 <= i < |s| && s[i] == c && c !in s[..i]
  }

  /** The first piece `SplitFirst` gives ends at the first `c`, and the second starts after it. */
  lemma SplitFirstAt(s: string, c: char)
    requires c in s
    ensures FirstAt(s, c, |SplitFirst(s, c).value.0|)
    ensures s[..|SplitFirst(s, c).value.0|] == SplitFirst(s, c).value.0
    ensures s[|SplitFirst(s, c).value.0| + 1..] == SplitFirst(s, c).value.1
  {
    var (a, b) := SplitFirst(s, c).value;
    assert s == a + [c] + b;
    assert s[..|a|] == a;
  }

  /** Splitting at the first `c` undoes gluing two texts with `c` when the first has none. */
  lemma SplitFirstOfGlued(a: string, c: char, b: string)
    requires c !in a
    ensures SplitFirst(a + [c] + b, c) == Some((a, b))
  {
    var s := a + [c] + b;
    var r := SplitFirst(s, c);
    assert c in s by { assert s[|a|] == c; }
    var a', b' := r.value.0, r.value.1;
    assert |a'| == |a| by {
      assert s[|a|] == c;
    }
    assert a' == s[..|a|] == a;
    assert b' == s[|a| + 1..] == b;
  }

  // ---------------------------------------------------------------------------
  // Splitting on a separator character

  /** `sep.join(pieces)` for a one-character separator. */
  function JoinWith(pieces: seq<string>, sep: char): string {
    if pieces == [] then ""
    else if |pieces| == 1 then pieces[0]
    else pieces[0] + [sep] + JoinWith(pieces[1..], sep)
  }

  /** Joining a piece in front of at least one more puts a separator between them. */
  lemma JoinWithCons(p: string, rest: seq<string>, sep: char)
    requires rest != []
    ensures JoinWith([p] + rest, sep) == p + [sep] + JoinWith(rest, sep)
  {
    assert ([p] + rest)[1..] == rest;
  }

  /** `s.split(sep)`: the pieces between separators, at least one. */
  function SplitOn(s: string, sep: char): (r: seq<string>)
    ensures |r| >= 1
    ensures forall i :: 0 <= i < |r| ==> sep !in r[i]
    ensures JoinWith(r, sep) == s
    decreases |s|
  {
    match IndexOf(s, sep)
    case None => [s]
    case Some(i) =>
      var rest := SplitOn(s[i + 1..], sep);
      assert s == s[..i] + [sep] + s[i + 1..];
      [s[..i]] + rest
  }

  /** Splitting a joined text gives back the pieces, provided none holds the separator. */
  lemma {:induction false} SplitOnJoin(pieces: seq<string>, sep: char)
    requires |pieces| >= 1
    requires forall i :: 0 <= i < |pieces| ==> sep !in pieces[i]
    ensures SplitOn(JoinWith(pieces, sep), sep) == pieces
    decreases |pieces|
  {
    if |pieces| == 1 {
      assert IndexOf(pieces[0], sep).None?;
    } else {
      var rest := JoinWith(pieces[1..], sep);
      var s := pieces[0] + [sep] + rest;
      SplitFirstOfGlued(pieces[0], sep, rest);
      assert IndexOf(s, sep) == Some(|pieces[0]|);
      assert s[|pieces[0]| + 1..] == rest;
      assert s[..|pieces[0]|] == pieces[0];
      SplitOnJoin(pieces[1..], sep);
      assert pieces == [pieces[0]] + pieces[1..];
    }
  }

  /** The lines of a text, as `^` in multi-line mode sees them: split at every `'\n'`. */
  function Lines(s: string): (r: seq<string>)
    ensures |r| >= 1
    ensures forall i :: 0 <= i < |r| ==> '\n' !in r[i]
    ensures JoinWith(r, '\n') == s
  {
    SplitOn(s, '\n')
  }

  // ---------------------------------------------------------------------------
  // Collections

  predicate Distinct<T(==)>(xs: seq<T>) {
    forall i, j :: 0 <= i < j < |xs| ==> xs[i] != xs[j]
  }

  /**
   * `list(set(xs))`: every element once. Python's set order is arbitrary;
   * here elements stay in order of first appearance.
   */
  function Dedup<T(==,!new)>(xs: seq<T>): (r: seq<T>)
    ensures Distinct(r)
    ensures forall x :: x in r <==> x in xs
  {
    if xs == [] then []
    else
      var r := Dedup(xs[..|xs| - 1]);
      assert xs == xs[..|xs| - 1] + [xs[|xs| - 1]];
      if xs[|xs| - 1] in r then r else r + [xs[|xs| - 1]]
  }

  /** The present values, in order. */
  function Somes<T(!new)>(xs: seq<Option<T>>): (r: seq<T>)
    ensures forall x :: x in r <==> Some(x) in xs
  {
    if xs == [] then []
    else
      var rest := Somes(xs[1..]);
      assert xs == [xs[0]] + xs[1..];
      match xs[0]
      case None => rest
      case Some(x) => [x] + rest
  }

  // ---------------------------------------------------------------------------
  // Ordered dictionaries keyed by text

  function Keys<V>(d: seq<(string, V)>): (ks: seq<string>)
    ensures |ks| == |d|
    ensures forall i :: 0 <= i < |d| ==> ks[i] == d[i].0
  {
    seq(|d|, i requires 0 <= i < |d| => d[i].0)
  }

  /** `d.get(k)`: the value of the first entry with key `k`. */
  function Lookup<V>(d: seq<(string, V)>, k: string): (r: Option<V>)
    ensures r.Some? <==> k in Keys(d)
    ensures r.Some? ==> (k, r.value) in d
  {
    if d == [] then None
    else if d[0].0 == k then Some(d[0].1)
    else
      var r := Lookup(d[1..], k);
      assert Keys(d) == [d[0].0] + Keys(d[1..]);
      r
  }

  /**
   * `d[k] = v` on an `OrderedDict`: a new key goes to the end, an existing
   * key keeps its place and takes the new value.
   */
  function Put<V>(d: seq<(string, V)>, k: string, v: V): (r: seq<(string, V)>)
    ensures k in Keys(d) ==> Keys(r) == Keys(d)
    ensures k !in Keys(d) ==> Keys(r) == Keys(d) + [k]
    ensures Lookup(r, k) == Some(v)
    ensures forall k' :: k' != k ==> Lookup(r, k') == Lookup(d, k')
  {
    if d == [] then [(k, v)]
    else if d[0].0 == k then
      KeysCons((k, v), d[1..]);
      KeysCons(d[0], d[1..]);
      LookupCons((k, v), d[1..]);
      LookupCons(d[0], d[1..]);
      [(k, v)] + d[1..]
    else
      var rest := Put(d[1..], k, v);
      PutKeysStep(d, k, rest);
      LookupCons(d[0], d[1..]);
      LookupCons(d[0], rest);
      [d[0]] + rest
  }

  /** Putting past the first entry keeps it in front of the keys. */
  lemma PutKeysStep<V>(d: seq<(string, V)>, k: string, rest: seq<(string, V)>)
    requires d != [] && d[0].0 != k
    requires k in Keys(d[1..]) ==> Keys(rest) == Keys(d[1..])
    requires k !in Keys(d[1..]) ==> Keys(rest) == Keys(d[1..]) + [k]
    ensures k in Keys(d) ==> Keys([d[0]] + rest) == Keys(d)
    ensures k !in Keys(d) ==> Keys([d[0]] + rest) == Keys(d) + [k]
  {
    KeysCons(d[0], d[1..]);
    KeysCons(d[0], rest);
    assert k in Keys(d) <==> k in Keys(d[1..]);
    if k !in Keys(d) {
      assert [d[0].0] + (Keys(d[1..]) + [k]) == [d[0].0] + Keys(d[1..]) + [k];
    }
  }

  lemma KeysCons<V>(p: (string, V), d: seq<(string, V)>)
    ensures Keys([p] + d) == [p.0] + Keys(d)
  {
  }

  /** Looking up in a dictionary with one more entry in front. */
  lemma LookupCons<V>(p: (string, V), d: seq<(string, V)>)
    ensures forall k :: Lookup([p] + d, k) == if p.0 == k then Some(p.1) else Lookup(d, k)
  {
    assert ([p] + d)[1..] == d;
  }

  /** The value of the last pair with key `k`: the assignment that wins. */
  function LastValue<V>(ps: seq<(string, V)>, k: string): Option<V> {
    if ps == [] then None
    else if ps[|ps| - 1].0 == k then Some(ps[|ps| - 1].1)
    else LastValue(ps[..|ps| - 1], k)
  }

  /**
   * Assigning the pairs into an empty `OrderedDict` one after the other:
   * each key once, in order of its first assignment, holding its last value.
   */
  function FromPairs<V>(ps: seq<(string, V)>): (d: seq<(string, V)>)
    ensures Distinct(Keys(d))
    ensures Keys(d) == Dedup(Keys(ps))
    ensures forall k :: Lookup(d, k) == LastValue(ps, k)
  {
    if ps == [] then []
    else
      var front := ps[..|ps| - 1];
      var (k, v) := ps[|ps| - 1];
      var d := FromPairs(front);
      FromPairsStep(ps, d);
      Put(d, k, v)
  }

  /** One more assignment keeps the dictionary in step with the pairs. */
  lemma FromPairsStep<V>(ps: seq<(string, V)>, d: seq<(string, V)>)
    requires ps != []
    requires Keys(d) == Dedup(Keys(ps[..|ps| - 1]))
    requires forall k :: Lookup(d, k) == LastValue(ps[..|ps| - 1], k)
    ensures Distinct(Keys(Put(d, ps[|ps| - 1].0, ps[|ps| - 1].1)))
    ensures Keys(Put(d, ps[|ps| - 1].0, ps[|ps| - 1].1)) == Dedup(Keys(ps))
    ensures forall k :: Lookup(Put(d, ps[|ps| - 1].0, ps[|ps| - 1].1), k) == LastValue(ps, k)
  {
    var (k, v) := ps[|ps| - 1];
    assert Keys(ps)[..|ps| - 1] == Keys(ps[..|ps| - 1]);
    assert Keys(ps)[|ps| - 1] == k;
    var r := Put(d, k, v);
    forall k' ensures Lookup(r, k') == LastValue(ps, k') {
      if k' != k {
        assert Lookup(r, k') == Lookup(d, k');
      }
    }
  }

  /** A dictionary with distinct keys holds exactly the pairs its lookups give. */
  lemma {:induction false} InDistinct<V>(d: seq<(string, V)>, k: string, v: V)
    requires Distinct(Keys(d))
    ensures (k, v) in d <==> Lookup(d, k) == Some(v)
  {
    if d != [] && d[0].0 != k {
      assert Keys(d) == [d[0].0] + Keys(d[1..]);
      InDistinct(d[1..], k, v);
    }
  }

  /** The items of `FromPairs`: each key with the value of its last assignment. */
  lemma ItemsOfPairs<V>(ps: seq<(string, V)>, k: string, v: V)
    ensures (k, v) in FromPairs(ps) <==> LastValue(ps, k) == Some(v)
  {
    InDistinct(FromPairs(ps), k, v);
  }

  // ---------------------------------------------------------------------------
  // Assignments read line by line

  /** Whether the line's reading `x` assigns key `k`. */
  predicate Assigns<V>(x: Option<(string, V)>, k: string) {
    x.Some? && x.value.0 == k
  }

  /** The reading at `i` is `k = v` and no later reading assigns `k`: the assignment that stands. */
  ghost predicate LastAssignedAt<V>(xs: seq<Option<(string, V)>>, i: int, k: string, v: V) {
    && 0 <= i < |xs|
    && xs[i] == Some((k, v))
    && forall j :: i < j < |xs| ==> !Assigns(xs[j], k)
  }

  lemma {:induction false} SomesSnoc<T(!new)>(xs: seq<Option<T>>, x: Option<T>)
    ensures Somes(xs + [x]) == Somes(xs) + (if x.Some? then [x.value] else [])
    decreases |xs|
  {
    if xs == [] {
      assert xs + [x] == [x];
      assert [x][1..] == [];
    } else {
      assert (xs + [x])[1..] == xs[1..] + [x];
      SomesSnoc(xs[1..], x);
    }
  }

  /** The last value of a key among the present readings is that of its last assignment. */
  lemma {:induction false} LastValueOfSomes<V(!new)>(xs: seq<Option<(string, V)>>, k: string, v: V)
    ensures LastValue(Somes(xs), k) == Some(v) <==> exists i :: LastAssignedAt(xs, i, k, v)
    decreases |xs|
  {
    if xs != [] {
      var front, x := xs[..|xs| - 1], xs[|xs| - 1];
      assert xs == front + [x];
      SomesSnoc(front, x);
      LastValueOfSomes(front, k, v);
      if x.Some? {
        var ps := Somes(front) + [x.value];
        assert ps[..|ps| - 1] == Somes(front);
      }
      if Assigns(x, k) {
        if x.value.1 == v {
          assert LastAssignedAt(xs, |xs| - 1, k, v);
        } else {
          forall i | LastAssignedAt(xs, i, k, v)
            ensures false
          {
          }
        }
      } else {
        if x.None? {
          assert Somes(xs) == Somes(front) + [];
          assert Somes(xs) == Somes(front);
        } else {
          var ps := Somes(front) + [x.value];
          assert ps[..|ps| - 1] == Somes(front);
          assert LastValue(ps, k) == LastValue(Somes(front), k);
        }
        forall i | LastAssignedAt(xs, i, k, v)
          ensures LastAssignedAt(front, i, k, v)
        {
        }
        forall i | LastAssignedAt(front, i, k, v)
          ensures LastAssignedAt(xs, i, k, v)
        {
        }
      }
    }
  }

  /**
   * Assigning the present readings into an `OrderedDict` in order leaves
   * exactly the assignments that no later line overrides.
   */
  lemma AssignmentsThatStand<V(!new)>(xs: seq<Option<(string, V)>>, k: string, v: V)
    ensures (k, v) in FromPairs(Somes(xs)) <==> exists i :: LastAssignedAt(xs, i, k, v)
  {
    ItemsOfPairs(Somes(xs), k, v);
    LastValueOfSomes(xs, k, v);
  }

  /** The previous lemma for every key and value at once. */
  lemma AllAssignmentsThatStand<V(!new)>(xs: seq<Option<(string, V)>>)
    ensures forall k, v :: (k, v) in FromPairs(Somes(xs)) <==> exists i :: LastAssignedAt(xs, i, k, v)
  {
    forall k, v
      ensures (k, v) in FromPairs(Somes(xs)) <==> exists i :: LastAssignedAt(xs, i, k, v)
    {
      AssignmentsThatStand(xs, k, v);
    }
  }

  /**
   * The last line that assigns `k` decides its value: `(k, w)` stands and
   * no other value of `k` does, whatever earlier lines assigned.
   */
  lemma LastAssignmentWins<V(!new)>(xs: seq<Option<(string, V)>>, j: nat, k: string, w: V)
    requires LastAssignedAt(xs, j, k, w)
    ensures (k, w) in FromPairs(Somes(xs))
    ensures forall v :: (k, v) in FromPairs(Somes(xs)) ==> v == w
  {
    AllAssignmentsThatStand(xs);
    forall v, n | LastAssignedAt(xs, n, k, v)
      ensures v == w
    {
      assert n < j ==> Assigns(xs[j], k);
      assert j < n ==> Assigns(xs[n], k);
    }
  }
}
