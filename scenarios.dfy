/**
 * The search, sort and handler cases of the repository's tests and examples,
 * stated on the model. The codec cases take their inputs from the tests of
 * the later ds package (types/ranges.go has no codec tests) and state what
 * types/ranges.go does with them; SearchMissesWhenMaxDecreases is a
 * constructed counterexample.
 */
module Scenarios {
  import opened Wrappers
  import opened Decimal
  import opened Ranges
  import opened Text
  import Slog

  /** {1,3,"foo"}, {2,5,"baz"}, {5,7,"bar"}: the collection of the Search tests. */
  function ThreeElements(): (s: seq<Range<string>>)
    ensures SortedByMin(s) && MaxNonDecreasing(s)
  {
    [Range(1, 3, "foo"), Range(2, 5, "baz"), Range(5, 7, "bar")]
  }

  /** Each point goes to the first range holding it; a point on a shared bound to the earlier one. */
  lemma SearchThreeElementsFound()
    ensures FirstContaining(ThreeElements(), 1) == Some("foo")
    ensures FirstContaining(ThreeElements(), 2) == Some("foo")
    ensures FirstContaining(ThreeElements(), 4) == Some("baz")
    ensures FirstContaining(ThreeElements(), 5) == Some("baz")
    ensures FirstContaining(ThreeElements(), 6) == Some("bar")
  {
    var s := ThreeElements();
    assert s[1..] == [Range(2, 5, "baz"), Range(5, 7, "bar")];
    assert s[1..][1..] == [Range(5, 7, "bar")];
  }

  /** Below every min and past every max there is nothing. */
  lemma SearchThreeElementsMissing()
    ensures FirstContaining(ThreeElements(), 0) == None
    ensures FirstContaining(ThreeElements(), 8) == None
  {
  }

  /** Search on an array holding the test collection, as a caller sees it. */
  method SearchClient() returns (at5: Option<string>, at8: Option<string>)
    ensures at5 == Some("baz") && at8 == None
  {
    var a := new Range<string>[3];
    a[0], a[1], a[2] := Range(1, 3, "foo"), Range(2, 5, "baz"), Range(5, 7, "bar");
    assert a[..] == ThreeElements();
    SearchThreeElementsFound();
    SearchThreeElementsMissing();
    at5 := Search(a, 5);
    at8 := Search(a, 8);
  }

  /** Sorting {2,5,"baz"}, {5,7,"bar"}, {1,3,"foo"} gives {1,3,"foo"}, {2,5,"baz"}, {5,7,"bar"}. */
  method SortClient() returns (sorted: seq<Range<string>>)
    ensures sorted == [Range(1, 3, "foo"), Range(2, 5, "baz"), Range(5, 7, "bar")]
  {
    var a := new Range<string>[3];
    a[0], a[1], a[2] := Range(2, 5, "baz"), Range(5, 7, "bar"), Range(1, 3, "foo");
    assert a[..] == [Range(2, 5, "baz"), Range(5, 7, "bar"), Range(1, 3, "foo")];
    Rotated(Range(2, 5, "baz"), Range(5, 7, "bar"), Range(1, 3, "foo"));
    Rotated(Range(5, 7, "bar"), Range(1, 3, "foo"), Range(2, 5, "baz"));
    Sort(a);
    SortedThree(a[..], Range(1, 3, "foo"), Range(2, 5, "baz"), Range(5, 7, "bar"));
    sorted := a[..];
  }

  /** Sorting {4,4,"cat"}, {1,2,"dog"}, {3,8,"fox"} gives dog, fox, cat. */
  method SortExampleClient() returns (sorted: seq<Range<string>>)
    ensures sorted == [Range(1, 2, "dog"), Range(3, 8, "fox"), Range(4, 4, "cat")]
  {
    var a := new Range<string>[3];
    a[0], a[1], a[2] := Range(4, 4, "cat"), Range(1, 2, "dog"), Range(3, 8, "fox");
    assert a[..] == [Range(4, 4, "cat"), Range(1, 2, "dog"), Range(3, 8, "fox")];
    Rotated(Range(4, 4, "cat"), Range(1, 2, "dog"), Range(3, 8, "fox"));
    Sort(a);
    SortedThree(a[..], Range(1, 2, "dog"), Range(3, 8, "fox"), Range(4, 4, "cat"));
    sorted := a[..];
  }

  /**
   * Three ranges with distinct mins have exactly one min-sorted order: any
   * sorted rearrangement of them is x, y, z.
   */
  lemma SortedThree<V>(s: seq<Range<V>>, x: Range<V>, y: Range<V>, z: Range<V>)
    requires multiset(s) == multiset([x, y, z])
    requires x.min < y.min < z.min
    requires SortedByMin(s)
    ensures s == [x, y, z]
  {
    SortedPermutationsAgree(s, [x, y, z]);
    assert s[0] in multiset(s) && s[1] in multiset(s) && s[2] in multiset(s);
  }

  lemma Rotated<T>(x: T, y: T, z: T)
    ensures multiset([x, y, z]) == multiset([y, z, x])
  {
  }

  /** {1,2,"dog"}, {4,4,"cat"}: the collection of the Search example. */
  function DogCat(): (s: seq<Range<string>>)
    ensures SortedByMin(s) && MaxNonDecreasing(s)
  {
    [Range(1, 2, "dog"), Range(4, 4, "cat")]
  }

  /** The output of the Search example: what 0, 1, ..., 5 belong to. */
  function DogCatAnswers(): seq<Option<string>> {
    [None, Some("dog"), Some("dog"), None, Some("cat"), None]
  }

  /** Searches a for each of 0, 1, ..., n - 1 in turn, collecting the answers. */
  method SearchEach<V>(a: array<Range<V>>, n: nat) returns (found: seq<Option<V>>)
    requires n <= MaxInt
    ensures |found| == n
    ensures forall k :: 0 <= k < n ==> found[k] == Probe(a[..], k)
  {
    found := [];
    for i := 0 to n
      invariant |found| == i
      invariant forall k :: 0 <= k < i ==> found[k] == Probe(a[..], k)
    {
      var r := Search(a, i);
      found := found + [r];
    }
  }

  /** Searching the example collection for 0 to 5 gives nil, dog, dog, nil, cat, nil. */
  method SearchExampleClient() returns (found: seq<Option<string>>)
    ensures found == DogCatAnswers()
  {
    var a := new Range<string>[2];
    a[0], a[1] := Range(1, 2, "dog"), Range(4, 4, "cat");
    assert a[..] == DogCat();
    found := SearchEach(a, 6);
    forall k | 0 <= k < 6
      ensures found[k] == DogCatAnswers()[k]
    {
      BisectFindsFirstMaxAtLeast(DogCat(), k);
      LookupFindsFirstContaining(DogCat(), k);
      SearchExample(k);
    }
  }

  /** The answers of the Search example, point by point. */
  lemma SearchExample(v: int)
    requires 0 <= v < 6
    ensures FirstContaining(DogCat(), v) == DogCatAnswers()[v]
  {
    if v == 0 {
    } else if v == 1 {
    } else if v == 2 {
    } else if v == 3 {
    } else if v == 4 {
    } else {
    }
  }

  /**
   * On the min-sorted [{0,10}, {1,1}, {2,3}], whose max decreases, the
   * bisection for 5 passes {0,10} by and Search answers nil, though {0,10}
   * contains 5.
   */
  lemma SearchMissesWhenMaxDecreases()
    ensures SortedByMin([Range(0, 10, "a"), Range(1, 1, "b"), Range(2, 3, "c")])
    ensures Probe([Range(0, 10, "a"), Range(1, 1, "b"), Range(2, 3, "c")], 5) == None
    ensures FirstContaining([Range(0, 10, "a"), Range(1, 1, "b"), Range(2, 3, "c")], 5) == Some("a")
  {
  }

  /** The full range is written with both bounds: the %d texts of MinInt and MaxInt around the colon. */
  lemma MarshalFullRange()
    ensures MarshalText(Range(MinInt, MaxInt, ())) == FormatInt(MinInt) + ":" + FormatInt(MaxInt)
    ensures FormatInt(MinInt)[0] == '-' && FormatInt(MaxInt) != ""
  {
  }

  /** The encoder writes the bounded side of a half-open range alone. */
  lemma MarshalHalfOpen()
    ensures MarshalText(Range(MinInt, 10, ())) == ":10"
    ensures MarshalText(Range(40, MaxInt, ())) == "40:"
  {
  }

  /** A range bounded on both sides is written "min:max". */
  lemma MarshalClosed()
    ensures MarshalText(Range(20, 30, ())) == "20:30"
  {
  }

  /** The texts of the closed and half-open ranges decode back to them. */
  lemma UnmarshalClosedAndHalfOpen()
    ensures ParseBareRange(":10") == Success(Range(MinInt, 10, ()))
    ensures ParseBareRange("20:30") == Success(Range(20, 30, ()))
    ensures ParseBareRange("40:") == Success(Range(40, MaxInt, ()))
  {
    MarshalHalfOpen();
    MarshalClosed();
    RoundTrip(Range(MinInt, 10, ()));
    RoundTrip(Range(20, 30, ()));
    RoundTrip(Range(40, MaxInt, ()));
  }

  /** The encoder writes "min:max" even for a single point. */
  lemma MarshalPoint()
    ensures MarshalText(Range(50, 50, ())) == "50:50"
  {
  }

  /** Two colons are an unknown format. */
  lemma UnmarshalTwoColons()
    ensures ParseBareRange("foo::bar") == Failure(UnknownFormat("foo::bar"))
  {
  }

  /** Text that is not an integer is a parse error, with or without a colon. */
  lemma UnmarshalNotInteger()
    ensures ParseBareRange("foo") == Failure(ParseIntError("foo"))
    ensures ParseBareRange("foo:bar") == Failure(ParseIntError("foo"))
    ensures ParseBareRange("") == Failure(ParseIntError(""))
  {
    assert !IsDigit('f');
    assert ParseInt("foo") == None;
    assert Count("foo", ':') == 0;
    JoinAt("foo", ':', "bar");
    assert "foo" + [':'] + "bar" == "foo:bar";
  }

  /** A lone colon is the full range; a bare integer n is [n, n]. */
  lemma UnmarshalUnboundedAndPoint()
    ensures ParseBareRange(":") == Success(Range(MinInt, MaxInt, ()))
    ensures ParseBareRange("50") == Success(Range(50, 50, ()))
  {
    JoinAt("", ':', "");
    assert "" + [':'] + "" == ":";
    assert ValueOf("50") == 50 by {
      assert "50"[..1] == "5";
    }
    assert ParseInt("50") == Some(50);
    assert Count("50", ':') == 0;
  }

  /** The names of the four handlers, which are also their MarshalText bytes. */
  lemma HandlerNames()
    ensures Slog.MarshalText(Slog.HandlerText) == "text"
    ensures Slog.MarshalText(Slog.HandlerJSON) == "json"
    ensures Slog.MarshalText(Slog.HandlerTint) == "tint"
    ensures Slog.MarshalText(Slog.HandlerAuto) == "auto"
    ensures Slog.ParseHandler("foobar") == Failure(Slog.UnknownHandlerName("foobar"))
  {
  }

  /** Decoding "foobar" into a zero Handler fails and leaves it HandlerText. */
  method UnmarshalUnknownHandlerClient() returns (h: Slog.Handler, err: Option<Slog.Error>)
    ensures h == Slog.HandlerText && err == Some(Slog.UnknownHandlerName("foobar"))
  {
    HandlerNames();
    h, err := Slog.UnmarshalText(Slog.HandlerText, "foobar");
  }

  /** Every handler of the tests gets a logger; auto on a non-terminal buffer writes text. */
  lemma NewSlogLoggerTestHandlers()
    ensures Slog.NewSlogLogger(Slog.HandlerText, false) == Some(Slog.TextBackend)
    ensures Slog.NewSlogLogger(Slog.HandlerJSON, false) == Some(Slog.JSONBackend)
    ensures Slog.NewSlogLogger(Slog.HandlerTint, false) == Some(Slog.TintBackend)
    ensures Slog.NewSlogLogger(Slog.HandlerAuto, false) == Some(Slog.TextBackend)
  {
  }
}
