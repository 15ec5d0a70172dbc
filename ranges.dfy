/**
 * The integer range container of types/ranges.go: inclusive [min, max]
 * ranges carrying a value, a collection of them that sorts in place by min
 * and answers point queries by binary search, and the "bare range" text
 * codec, which writes math.MinInt and math.MaxInt as an empty side of
 * "min:max".
 */
module Ranges {
  import opened Wrappers
  import opened Decimal
  import opened Text

  /** A min/max range (inclusive) of Go `int`s with an attached value. */
  datatype Range<V> = Range(min: Int64, max: Int64, value: V)

  /** v lies in r, bounds included. */
  predicate Contains<V>(r: Range<V>, v: int) {
    r.min <= v <= r.max
  }

  // ---------------------------------------------------------------------
  // The collection: a Go slice, modelled as the array that backs it.
  // ---------------------------------------------------------------------

  /** The number of elements: the bound of every index Less, Swap and Search use. */
  function Len<V>(a: array<Range<V>>): (n: nat)
    ensures n == a.Length
  {
    a.Length
  }

  /**
   * Whether element i must sort before element j. An index outside the
   * collection makes Go panic; here it is a precondition.
   */
  function Less<V>(a: array<Range<V>>, i: int, j: int): (b: bool)
    reads a
    requires 0 <= i < a.Length && 0 <= j < a.Length
    ensures b <==> a[i].min < a[j].min
  {
    a[i].min < a[j].min
  }

  /** Exchanges elements i and j in place; nothing else changes. */
  method Swap<V>(a: array<Range<V>>, i: int, j: int)
    requires 0 <= i < a.Length && 0 <= j < a.Length
    modifies a
    ensures a[..] == old(a[..])[i := old(a[j])][j := old(a[i])]
    ensures multiset(a[..]) == multiset(old(a[..]))
  {
    a[i], a[j] := a[j], a[i];
  }

  /** min never decreases along s. */
  ghost predicate SortedByMin<V>(s: seq<Range<V>>) {
    forall i, j :: 0 <= i < j < |s| ==> s[i].min <= s[j].min
  }

  /** max never decreases along s: what makes the binary search find the first candidate. */
  ghost predicate MaxNonDecreasing<V>(s: seq<Range<V>>) {
    forall i, j :: 0 <= i < j < |s| ==> s[i].max <= s[j].max
  }

  /**
   * Sorts the collection in place in ascending order of min, comparing with
   * Less and moving elements with Swap only. Elements with equal min may end
   * in either order.
   */
  method Sort<V>(a: array<Range<V>>)
    modifies a
    ensures SortedByMin(a[..])
    ensures multiset(a[..]) == multiset(old(a[..]))
  {
    for i := 0 to a.Length
      invariant SortedByMin(a[..i])
      invariant multiset(a[..]) == multiset(old(a[..]))
    {
      var j := i;
      while 0 < j && Less(a, j, j - 1)
        invariant 0 <= j <= i
        invariant multiset(a[..]) == multiset(old(a[..]))
        invariant forall p, q :: 0 <= p < q <= i && q != j ==> a[p].min <= a[q].min
        invariant 0 < j < i ==> a[j - 1].min <= a[j + 1].min
      {
        Swap(a, j, j - 1);
        j := j - 1;
      }
    }
  }

  /** The min values of s, in order. */
  function Mins<V>(s: seq<Range<V>>): (m: seq<int>)
    ensures |m| == |s|
  {
    seq(|s|, k requires 0 <= k < |s| => s[k].min)
  }

  lemma RemoveAt<T>(t: seq<T>, m: nat)
    requires m < |t|
    ensures multiset(t[..m] + t[m + 1..]) == multiset(t) - multiset{t[m]}
  {
    assert t == t[..m] + [t[m]] + t[m + 1..];
  }

  lemma FindElement<T>(t: seq<T>, x: T) returns (m: nat)
    requires x in multiset(t)
    ensures m < |t| && t[m] == x
  {
    assert x in t;
    m :| m < |t| && t[m] == x;
  }

  lemma MinsRemoveAt<V>(t: seq<Range<V>>, m: nat)
    requires m < |t|
    ensures multiset(Mins(t)) == multiset(Mins(t[..m] + t[m + 1..])) + multiset{t[m].min}
  {
    var x := Mins(t);
    assert Mins(t[..m] + t[m + 1..]) == x[..m] + x[m + 1..];
    RemoveAt(x, m);
  }

  /** Removing a matching element from two permutations of each other leaves permutations. */
  lemma RemoveMatching<T>(s: seq<T>, t: seq<T>, m: nat)
    requires multiset(s) == multiset(t)
    requires s != [] && m < |t| && t[m] == s[0]
    ensures multiset(s[1..]) == multiset(t[..m] + t[m + 1..])
  {
    calc {
      multiset(t[..m] + t[m + 1..]);
    == { RemoveAt(t, m); }
      multiset(t) - multiset{s[0]};
    == { assert s == [s[0]] + s[1..]; }
      multiset(s[1..]);
    }
  }

  lemma {:induction false} MinsOfPermutation<V>(s: seq<Range<V>>, t: seq<Range<V>>)
    requires multiset(s) == multiset(t)
    ensures multiset(Mins(s)) == multiset(Mins(t))
    decreases |s|
  {
    if s == [] {
      assert |t| == |multiset(t)|;
    } else {
      var m := FindElement(t, s[0]);
      var rest := t[..m] + t[m + 1..];
      RemoveMatching(s, t, m);
      MinsOfPermutation(s[1..], rest);
      MinsRemoveAt(s, 0);
      assert s[..0] + s[1..] == s[1..];
      MinsRemoveAt(t, m);
    }
  }

  lemma {:induction false} SortedIntsUnique(x: seq<int>, y: seq<int>)
    requires multiset(x) == multiset(y)
    requires forall i, j :: 0 <= i < j < |x| ==> x[i] <= x[j]
    requires forall i, j :: 0 <= i < j < |y| ==> y[i] <= y[j]
    ensures x == y
    decreases |x|
  {
    if x != [] {
      assert x == [x[0]] + x[1..];
      assert |y| == |x| by {
        assert |multiset(x)| == |multiset(y)|;
      }
      assert y == [y[0]] + y[1..];
      assert y[0] in multiset(x);
      assert x[0] in multiset(y);
      assert x[0] == y[0];
      assert multiset(x) == multiset{x[0]} + multiset(x[1..]);
      assert multiset(y) == multiset{y[0]} + multiset(y[1..]);
      assert multiset(x[1..]) == multiset(x) - multiset{x[0]};
      assert multiset(y[1..]) == multiset(y) - multiset{y[0]};
      SortedIntsUnique(x[1..], y[1..]);
    }
  }

  /**
   * Two min-sorted rearrangements of one collection list the same min values
   * in the same order: sorting again can only reorder elements of equal min.
   */
  lemma SortedPermutationsAgree<V>(s: seq<Range<V>>, t: seq<Range<V>>)
    requires multiset(s) == multiset(t)
    requires SortedByMin(s) && SortedByMin(t)
    ensures |s| == |t|
    ensures forall k :: 0 <= k < |s| ==> s[k].min == t[k].min
  {
    MinsOfPermutation(s, t);
    var x, y := Mins(s), Mins(t);
    assert forall k :: 0 <= k < |s| ==> x[k] == s[k].min;
    assert forall k :: 0 <= k < |t| ==> y[k] == t[k].min;
    SortedIntsUnique(x, y);
  }

  /** The index of the first element whose max is at least v, or |s| when there is none. */
  function FirstMaxAtLeast<V>(s: seq<Range<V>>, v: int): (i: nat)
    ensures i <= |s|
    ensures forall k :: 0 <= k < i ==> s[k].max < v
    ensures i < |s| ==> v <= s[i].max
  {
    if s == [] then 0
    else if v <= s[0].max then 0
    else 1 + FirstMaxAtLeast(s[1..], v)
  }

  /**
   * What Search answers when max never decreases: it examines the first
   * element whose max is at least v and returns its value if v is not below
   * its min either.
   */
  function Lookup<V>(s: seq<Range<V>>, v: int): Option<V> {
    var i := FirstMaxAtLeast(s, v);
    if i < |s| && s[i].min <= v then Some(s[i].value) else None
  }

  /** The index of the first element that contains v, or |s| when none does. */
  function FirstIndexContaining<V>(s: seq<Range<V>>, v: int): (i: nat)
    ensures i <= |s|
    ensures forall k :: 0 <= k < i ==> !Contains(s[k], v)
    ensures i < |s| ==> Contains(s[i], v)
  {
    if s == [] then 0
    else if Contains(s[0], v) then 0
    else 1 + FirstIndexContaining(s[1..], v)
  }

  /** The value of the first element that contains v: the answer Search promises. */
  function FirstContaining<V>(s: seq<Range<V>>, v: int): (r: Option<V>)
    ensures r.None? <==> forall k :: 0 <= k < |s| ==> !Contains(s[k], v)
    ensures r.Some? ==> exists k :: 0 <= k < |s| && Contains(s[k], v) && s[k].value == r.value
  {
    var i := FirstIndexContaining(s, v);
    if i < |s| then Some(s[i].value) else None
  }

  /**
   * On a collection sorted by min whose max values never decrease either,
   * the element the binary search examines is the first one containing v.
   */
  lemma LookupFindsFirstContaining<V>(s: seq<Range<V>>, v: int)
    requires SortedByMin(s) && MaxNonDecreasing(s)
    ensures Lookup(s, v) == FirstContaining(s, v)
  {
  }

  /**
   * sort.Search on [lo, hi) with the predicate "v <= max": bisect at the
   * midpoint, keep the upper half while the predicate is false there.
   * Whatever the collection, every step it passed over to the left had
   * max < v and the element it stops at (if any) has v <= max.
   */
  function Bisect<V>(s: seq<Range<V>>, v: int, lo: nat, hi: nat): (i: nat)
    requires lo <= hi <= |s|
    ensures lo <= i <= hi
    ensures i == lo || s[i - 1].max < v
    ensures i == hi || v <= s[i].max
    decreases hi - lo
  {
    if lo < hi then
      var h := (lo + hi) / 2;
      if !(v <= s[h].max) then Bisect(s, v, h + 1, hi) else Bisect(s, v, lo, h)
    else lo
  }

  /** What Search returns on any collection: the value at the bisection point, if it contains v. */
  function Probe<V>(s: seq<Range<V>>, v: int): (r: Option<V>)
    ensures r.Some? ==> exists k :: 0 <= k < |s| && Contains(s[k], v) && s[k].value == r.value
  {
    var i := Bisect(s, v, 0, |s|);
    if i < |s| && Contains(s[i], v) then Some(s[i].value) else None
  }

  /** When max never decreases, the bisection point is the first element with v <= max. */
  lemma BisectFindsFirstMaxAtLeast<V>(s: seq<Range<V>>, v: int)
    requires MaxNonDecreasing(s)
    ensures Bisect(s, v, 0, |s|) == FirstMaxAtLeast(s, v)
    ensures Probe(s, v) == Lookup(s, v)
  {
  }

  /**
   * Binary search (sort.Search over "v <= max") for the first element whose
   * max is at least v, then a check that v is not below its min. Nothing is
   * required of the collection: on any collection a value found belongs to
   * an element containing v; when max never decreases the search examines
   * the first candidate; when the collection is also sorted by min the
   * answer is the first element containing v, and None exactly when no
   * element contains v.
   */
  method Search<V>(a: array<Range<V>>, v: Int64) returns (r: Option<V>)
    ensures r.Some? ==> exists k :: 0 <= k < a.Length && Contains(a[k], v) && a[k].value == r.value
    ensures (forall k :: 0 <= k < a.Length ==> a[k].max < v) ==> r.None?
    ensures MaxNonDecreasing(a[..]) ==> r == Lookup(a[..], v)
    ensures SortedByMin(a[..]) && MaxNonDecreasing(a[..]) ==> r == FirstContaining(a[..], v)
    ensures r == Probe(a[..], v)
  {
    var n := Len(a);
    var lo, hi := 0, n;
    while lo < hi
      invariant 0 <= lo <= hi <= n
      invariant Bisect(a[..], v, lo, hi) == Bisect(a[..], v, 0, n)
    {
      var h := (lo + hi) / 2;
      if !(v <= a[h].max) {
        lo := h + 1;
      } else {
        hi := h;
      }
    }
    r := None;
    if lo < n {
      var it := a[lo];
      if v >= it.min && v <= it.max {
        r := Some(it.value);
      }
    }
    if MaxNonDecreasing(a[..]) {
      BisectFindsFirstMaxAtLeast(a[..], v);
      if SortedByMin(a[..]) {
        LookupFindsFirstContaining(a[..], v);
      }
    }
  }

  // ---------------------------------------------------------------------
  // The bare-range text codec.
  // ---------------------------------------------------------------------

  /** A range whose value carries no meaning: Go's struct{}{}. */
  type BareRange = Range<()>

  /** Why decoding a bare range failed. */
  datatype Error =
    | ParseIntError(text: string)   // strconv.ParseInt rejected this side of the text
    | UnknownFormat(text: string)   // ErrUnknownFormat: more than one colon

  /**
   * The text of a range: "min:max", with min left out when it is
   * math.MinInt (and max is not math.MaxInt), and max left out when it is
   * math.MaxInt (and min is not math.MinInt). It never fails. A finite
   * bound equal to MinInt or MaxInt reads the same as an unbounded side.
   */
  function MarshalText<V>(r: Range<V>): (t: string)
    ensures Count(t, ':') == 1
    ensures var k := Index(t, ':');
      && (k == 0 <==> r.min == MinInt && r.max != MaxInt)
      && (k == |t| - 1 <==> r.min != MinInt && r.max == MaxInt)
  {
    JoinAt(MinText(r), ':', MaxText(r));
    MinText(r) + ":" + MaxText(r)
  }

  /** The text before the colon: empty when only min is unbounded. */
  function MinText<V>(r: Range<V>): (t: string)
    ensures ':' !in t
  {
    if r.min == MinInt && r.max != MaxInt then "" else FormatInt(r.min)
  }

  /** The text after the colon: empty when only max is unbounded. */
  function MaxText<V>(r: Range<V>): (t: string)
    ensures ':' !in t
  {
    if r.min != MinInt && r.max == MaxInt then "" else FormatInt(r.max)
  }

  /** One side of "min:max": empty means unbounded, otherwise an integer. */
  function ParseBound(side: string, unbounded: Int64): (r: Result<Int64, Error>)
    ensures side == [] ==> r == Success(unbounded)
    ensures side != [] ==> r.Success? == ParseInt(side).Some?
    ensures r.Success? && side != [] ==> r.value == ParseInt(side).value
    ensures r.Failure? ==> r.error == ParseIntError(side)
  {
    if side == [] then Success(unbounded)
    else
      match ParseInt(side)
      case Some(n) => Success(n)
      case None => Failure(ParseIntError(side))
  }

  /** The "min:max" form, cut at its colon: min is read first, then max. */
  function ParseSides(left: string, right: string): (res: Result<BareRange, Error>)
    ensures res.Success? <==> ParseBound(left, MinInt).Success? && ParseBound(right, MaxInt).Success?
    ensures res.Success? ==> res.value == Range(ParseBound(left, MinInt).value, ParseBound(right, MaxInt).value, ())
    ensures ParseBound(left, MinInt).Failure? ==> res == Failure(ParseIntError(left))
    ensures ParseBound(left, MinInt).Success? && ParseBound(right, MaxInt).Failure? ==> res == Failure(ParseIntError(right))
  {
    var min :- ParseBound(left, MinInt);
    var max :- ParseBound(right, MaxInt);
    Success(Range(min, max, ()))
  }

  /**
   * The decoding of a bare range, by the number of colons: none, the whole
   * text is one integer n, giving [n, n]; one, the text is "min:max" with
   * either side possibly empty; more, ErrUnknownFormat.
   */
  function ParseBareRange(s: string): (res: Result<BareRange, Error>)
    ensures Count(s, ':') >= 2 ==> res == Failure(UnknownFormat(s))
    ensures Count(s, ':') == 0 ==> (res.Success? <==> ParseInt(s).Some?)
    ensures res.Success? && Count(s, ':') == 0 ==> res.value == Range(ParseInt(s).value, ParseInt(s).value, ())
    ensures res.Failure? && Count(s, ':') <= 1 ==> res.error.ParseIntError?
    ensures s == [] ==> res == Failure(ParseIntError(s))
  {
    var colons := Count(s, ':');
    if colons == 0 then
      match ParseInt(s)
      case Some(n) => Success(Range(n, n, ()))
      case None => Failure(ParseIntError(s))
    else if colons == 1 then
      var k := Index(s, ':');
      ParseSides(s[..k], s[k + 1..])
    else
      Failure(UnknownFormat(s))
  }

  /**
   * Decodes b into the receiver r: on success the new receiver is the decoded
   * range and no error is returned; on failure the receiver is unchanged.
   */
  method UnmarshalText(r: BareRange, b: string) returns (r': BareRange, err: Option<Error>)
    ensures err.None? ==> ParseBareRange(b) == Success(r')
    ensures err.Some? ==> ParseBareRange(b) == Failure(err.value) && r' == r
  {
    match ParseBareRange(b)
    case Success(decoded) =>
      r', err := decoded, None;
    case Failure(e) =>
      r', err := r, Some(e);
  }

  /** A text with a single colon decodes as the two sides around it. */
  lemma DecodeJoined(left: string, right: string)
    requires ':' !in left && ':' !in right
    ensures ParseBareRange(left + ":" + right) == ParseSides(left, right)
  {
    JoinAt(left, ':', right);
  }

  /**
   * Every text MarshalText produces decodes to the same bounds, the value
   * becoming struct{}{}: the round trip holds for every pair of 64-bit bounds.
   */
  lemma RoundTrip<V>(r: Range<V>)
    ensures ParseBareRange(MarshalText(r)) == Success(Range(r.min, r.max, ()))
  {
    DecodeJoined(MinText(r), MaxText(r));
    SidesRoundTrip(r);
  }

  /** Each side MarshalText writes is read back as the bound it stands for. */
  lemma SidesRoundTrip<V>(r: Range<V>)
    ensures ParseSides(MinText(r), MaxText(r)) == Success(Range(r.min, r.max, ()))
  {
    ParseFormat(r.min);
    ParseFormat(r.max);
  }
}
