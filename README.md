# go-toolkit ranges and slog handler, modelled in Dafny

This project models two small packages of the go-toolkit repository.

**`types/ranges.go`: the integer range container.** A `Range` is an inclusive
`[Min, Max]` interval of Go `int`s carrying a value. A `Ranges` collection is a
slice of them. It offers `Len`, `Less`, `Swap`, an in-place `Sort` by `Min`, and a
binary-search `Search` for the value of the range that contains a point. A
`BareRange` is a range without a meaningful value. Its text codec writes
`"min:max"`. A side is left empty when it equals `math.MinInt` or `math.MaxInt`,
which stand for "unbounded". The decoder branches on the number of colons in the text.

**`slog/slog.go`: the log-handler setting.** `Handler` is a Go `int` with four
named values: text, json, tint and auto. It has a name codec (`String`,
`MarshalText`, `UnmarshalText`). `NewSlogLogger` picks a logger back end from the
handler and from whether the writer is a terminal.

Layout:

- `wrappers.dfy` (`Wrappers`): `Option` stands for Go's `nil`, `Result` for an error return.
- `decimal.dfy` (`Decimal`): Go's 64-bit `int` (`MinInt = -2^63`, `MaxInt = 2^63-1`). It also models the decimal text that `%d` prints and `strconv.ParseInt(s, 10, 0)` reads.
- `text.dfy` (`Text`): `strings.Count` for one character, and the cut that `strings.SplitN(s, ":", 2)` makes.
- `ranges.dfy` (`Ranges`): `types/ranges.go`. The slice is modelled as the `array` that backs it. `Swap` and `Sort` modify that array in place; `Len`, `Less` and `Search` only read it. `UnmarshalText` takes the old receiver and returns the new one.
- `slog.dfy` (`Slog`): `slog/slog.go`. `UnmarshalText` takes the old receiver and returns the new one. The selection rule of `NewSlogLogger` is a pure function of the handler and `isTerminal`.
- `scenarios.dfy` (`Scenarios`): the search, sort and handler cases of the repository's tests and examples, restated on the model. `types/ranges.go` has no codec tests of its own, so the codec cases take the inputs of the later `ds/ranges_test.go` (lines 280-385) and state what `types/ranges.go` does with them. `SearchMissesWhenMaxDecreases` is a constructed counterexample, not a test case.

The decoder and its round trip follow `types/ranges.go` rather than the later design
that the `ds` and `adt` tests describe. In `types/ranges.go` the encoder has three
forms, not five: `{50, 50}` is written `"50:50"` (`MarshalPoint`), and the full
range `{MinInt, MaxInt}` is written with both numbers. `MarshalText`'s contract
puts its colon neither first nor last in that case, and `MarshalFullRange` gives
the text as the `%d` forms of `MinInt` and `MaxInt` around the colon. Decoding
still accepts a bare `"50"` and a lone `":"`.

A finite bound equal to `MinInt` or `MaxInt` reads the same as an unbounded side. This
ambiguity is kept as it is. The round trip holds for every pair of 64-bit bounds,
because the sentinels are exactly those values.

## Model

| member | source | states |
|---|---|---|
| `Decimal.FormatNat` | types/ranges.go:84-88 | `%d` of a natural number is a non-empty digit string with no leading zero (the only text starting with `0` is "0"), whose decimal value is the number |
| `Decimal.FormatInt` | types/ranges.go:84-88 | `%d` of an `int` is non-empty, made only of digits with a leading `-` exactly for negative numbers, so it holds no colon |
| `Decimal.ParseInt` | types/ranges.go:100-103 | `strconv.ParseInt` succeeds only on non-empty text made of digits and one optional leading sign, whose value lies in the 64-bit range |
| `Decimal.ParseFormat` | types/ranges.go:114-124 | `ParseInt` reads every 64-bit `int` printed with `%d` back as itself, `MinInt` included |
| `Text.Count` | types/ranges.go:98 | the count of a character is at most the length and is zero exactly when the character does not occur |
| `Text.CountConcat` | types/ranges.go:98 | counting distributes over concatenation |
| `Text.Index` | types/ranges.go:109 | the cut point of `SplitN(s, ":", 2)` is the first colon: a colon, with none before it |
| `Text.JoinAt` | types/ranges.go:109 | joining two colon-free parts around one colon gives text with exactly one colon, and cutting there returns both parts |
| `Ranges.Len` | types/ranges.go:31-33 | the number of elements, which bounds every index used by `Less`, `Swap` and `Search` |
| `Ranges.Less` | types/ranges.go:39-41 | element i sorts before j iff its `Min` is smaller; defined only for in-bounds indices (Go panics otherwise) |
| `Ranges.Swap` | types/ranges.go:46-48 | elements i and j are exchanged in place; the length and every other element are unchanged; the contents stay a permutation |
| `Ranges.Sort` | types/ranges.go:50-55 | after sorting with `Less` and `Swap`, `Min` never decreases along the array and the array is a permutation of the original |
| `Ranges.SortedPermutationsAgree` | types/ranges.go:50-55 | two `Min`-sorted permutations of one collection have the same `Min` at every index, so sorting again can only reorder elements with equal `Min` |
| `Ranges.SortedIntsUnique` | types/ranges.go:50-55 | two sorted integer sequences with the same multiset are equal |
| `Ranges.MinsOfPermutation` | types/ranges.go:50-55 | permuting a collection permutes its sequence of `Min` values |
| `Ranges.Bisect` | types/ranges.go:64 | `sort.Search` over "v <= Max" on any collection: the index it stops at lies in the searched span, the element before it (if it moved) has `Max < v`, and the element at it (if any) has `v <= Max` |
| `Ranges.Probe` | types/ranges.go:62-71 | what `Search` returns on any collection: a value it returns belongs to an element containing v |
| `Ranges.BisectFindsFirstMaxAtLeast` | types/ranges.go:57-64 | when `Max` never decreases, the bisection stops at the first element with `v <= Max`, so `Probe` is `Lookup` |
| `Ranges.FirstMaxAtLeast` | types/ranges.go:64 | the `sort.Search` target: every element before it has `Max < v`, and the element at it (if any) has `v <= Max` |
| `Ranges.FirstIndexContaining` | types/ranges.go:57-58 | every element before it excludes v, and the element at it (if any) contains v |
| `Ranges.FirstContaining` | types/ranges.go:57-58 | none iff no element contains v; otherwise the value of an element containing v |
| `Ranges.LookupFindsFirstContaining` | types/ranges.go:57-71 | on a collection sorted by `Min` whose `Max` values never decrease, the element the binary search examines holds the value of the first element containing v, and it is none iff none contains v |
| `Ranges.Search` | types/ranges.go:62-71 | on any collection, a returned value belongs to an element containing v (bounds inclusive); nothing is returned when every `Max < v`, so an empty collection gives nothing; with `Max` non-decreasing it examines the first element with `v <= Max`; sorted by `Min` as well, it returns the first element containing v; on every collection it returns exactly what the bisection of `Probe` gives |
| `Ranges.MarshalText` | types/ranges.go:76-92 | the text has exactly one colon; it stands first iff only `Min` is `MinInt`, and last iff only `Max` is `MaxInt` |
| `Ranges.MinText` | types/ranges.go:83-88 | the text before the colon is colon-free |
| `Ranges.MaxText` | types/ranges.go:83-88 | the text after the colon is colon-free |
| `Ranges.ParseBound` | types/ranges.go:110-126 | an empty side is the sentinel; a non-empty side succeeds iff `ParseInt` accepts it, with the number `ParseInt` reads; a failure is a parse error naming that side |
| `Ranges.ParseSides` | types/ranges.go:106-128 | the one-colon form succeeds iff both sides do, with the two bounds they read; a bad left side is reported before the right side is looked at |
| `Ranges.ParseBareRange` | types/ranges.go:96-134 | two or more colons give `ErrUnknownFormat` with the text; with no colon it succeeds iff `ParseInt` accepts the whole text, giving `[n, n]` for the number n it reads; with at most one colon every failure is a parse error; empty text is a parse error |
| `Ranges.UnmarshalText` | types/ranges.go:94-134 | on success the receiver becomes the decoded range and no error is returned; on failure the error is returned and the receiver is unchanged |
| `Ranges.DecodeJoined` | types/ranges.go:106-128 | text with one colon decodes as the parts on either side of it |
| `Ranges.SidesRoundTrip` | types/ranges.go:83-88 | each side `MarshalText` writes is read back as the bound it stands for |
| `Ranges.RoundTrip` | types/ranges.go:94-95 | for every range with 64-bit bounds, decoding `MarshalText(r)` succeeds with `{r.Min, r.Max, struct{}{}}` |
| `Slog.String` | slog/slog.go:41-55 | the name is empty exactly for values other than the four handlers |
| `Slog.MarshalText` | slog/slog.go:57-60 | the bytes are those of `String`; no error is possible |
| `Slog.ParseHandler` | slog/slog.go:62-80 | a success is one of the four handlers whose name is the text; any failure is `ErrUnknownHandlerName` carrying the text |
| `Slog.UnmarshalText` | slog/slog.go:64-80 | on success the receiver becomes the named handler; on failure the receiver is unchanged and `ErrUnknownHandlerName` is returned |
| `Slog.RoundTrip` | slog/slog.go:62-63 | each of the four handlers decodes from its own name |
| `Slog.ParseHandlerAcceptsExactlyNames` | slog/slog.go:64-77 | decoding succeeds iff the text is the name of one of the four handlers, so `""` and any other text fail |
| `Slog.MarshalTextUnknownNotDecodable` | slog/slog.go:52-76 | a value outside the four handlers is written as `""`, which `UnmarshalText` rejects |
| `Slog.MarshalTextChecked` | slog/slog.go:57-63 | the corrected encoder fails exactly on values outside the four handlers, naming the value |
| `Slog.CheckedRoundTrip` | slog/slog.go:62-63 | every text the corrected encoder produces decodes back to the handler it came from |
| `Slog.StringInjective` | slog/slog.go:42-55 | no two of the four handlers share a name |
| `Slog.ResolveAuto` | slog/slog.go:98-105 | `HandlerAuto` becomes `HandlerTint` on a terminal and `HandlerText` otherwise; other values pass through unchanged; the result is never `HandlerAuto` |
| `Slog.NewSlogLogger` | slog/slog.go:107-120 | no logger (`nil`) exactly for a value outside the four handlers; otherwise the back end named after the resolved handler |
| `Scenarios.ThreeElements` | types/ranges_test.go:193-198 | the test collection is sorted by `Min` and its `Max` values never decrease |
| `Scenarios.SearchThreeElementsFound` | types/ranges_test.go:202-251 | v=1 and v=2 give "foo", v=4 and v=5 give "baz" (inclusive shared bound), v=6 gives "bar" |
| `Scenarios.SearchThreeElementsMissing` | types/ranges_test.go:192-261 | v=0, below every range, and v=8, past every range, give nothing |
| `Scenarios.SearchClient` | types/ranges_test.go:232-261 | `Search` on an array holding the test collection gives "baz" at 5 and nothing at 8 |
| `Scenarios.SortClient` | types/ranges_test.go:155-167 | sorting `{2,5,"baz"}, {5,7,"bar"}, {1,3,"foo"}` gives exactly `{1,3,"foo"}, {2,5,"baz"}, {5,7,"bar"}` |
| `Scenarios.SortExampleClient` | types/example_test.go:12-24 | sorting `{4,4,"cat"}, {1,2,"dog"}, {3,8,"fox"}` gives exactly dog, fox, cat |
| `Scenarios.SortedThree` | types/ranges_test.go:155-167 | three ranges with distinct `Min` values have one `Min`-sorted order, so `Sort`'s result is determined |
| `Scenarios.DogCat` | types/example_test.go:27-30 | the example collection is sorted by `Min` and its `Max` values never decrease |
| `Scenarios.SearchEach` | types/example_test.go:32-34 | searching for 0 to n-1 in turn gives, at each point, what `Search` gives |
| `Scenarios.SearchExampleClient` | types/example_test.go:26-43 | searching the example for 0 to 5 gives nil, dog, dog, nil, cat, nil |
| `Scenarios.SearchExample` | types/example_test.go:36-42 | the first range containing each of 0 to 5, point by point |
| `Scenarios.SearchMissesWhenMaxDecreases` | types/ranges.go:57-71 | on the `Min`-sorted `[{0,10}, {1,1}, {2,3}]`, `Search` for 5 gives nil although `{0,10}` contains 5 |
| `Scenarios.MarshalFullRange` | types/ranges.go:87-88 | `{MinInt, MaxInt}` is written with both numbers: `%d` of `MinInt`, a colon, `%d` of `MaxInt` |
| `Scenarios.MarshalHalfOpen` | types/ranges.go:83-86 | `{MinInt, 10}` is written ":10" and `{40, MaxInt}` is written "40:" |
| `Scenarios.MarshalClosed` | types/ranges.go:87-88 | `{20, 30}` is written "20:30" |
| `Scenarios.UnmarshalClosedAndHalfOpen` | types/ranges.go:106-128 | ":10" decodes to `{MinInt, 10}`, "20:30" to `{20, 30}` and "40:" to `{40, MaxInt}` |
| `Scenarios.MarshalPoint` | types/ranges.go:87-88 | `{50, 50}` is written "50:50" |
| `Scenarios.UnmarshalTwoColons` | types/ranges.go:129-130 | "foo::bar" fails with `ErrUnknownFormat` |
| `Scenarios.UnmarshalNotInteger` | types/ranges.go:99-117 | "foo", "foo:bar" and "" fail with a parse error naming the offending side |
| `Scenarios.UnmarshalUnboundedAndPoint` | types/ranges.go:99-128 | ":" decodes to the full range and "50" to `[50, 50]` |
| `Scenarios.HandlerNames` | slog/slog_test.go:18-117 | the four handlers are named and written "text", "json", "tint" and "auto"; "foobar" is an unknown name |
| `Scenarios.UnmarshalUnknownHandlerClient` | slog/slog_test.go:113-124 | decoding "foobar" into a zero `Handler` fails with `ErrUnknownHandlerName` and leaves it `HandlerText` |
| `Scenarios.NewSlogLoggerTestHandlers` | slog/slog_test.go:139-186 | each handler of the tests gets a logger; auto on a buffer, which is not a terminal, writes text |

## Findings

| source | as written | input that shows it | evidently intended | confidence | as-written member | corrected member |
|---|---|---|---|---|---|---|
| slog/slog.go:52-63 | `MarshalText` writes `""` with a nil error for a value outside the four handlers, yet the doc comment of `UnmarshalText` says it accepts any bytes `MarshalText` produces, and `""` is rejected | `Handler(4)`: marshals to `""`; decoding `""` fails with `ErrUnknownHandlerName` | `MarshalText` reports an error for a value with no name, so every text it does produce decodes back | medium, not executed | `Slog.MarshalTextUnknownNotDecodable` | `Slog.MarshalTextChecked` (round trip in `Slog.CheckedRoundTrip`) |

## Left out

- Go `nil` values: the model returns `None` for "no element". In Go, `Search` also returns `nil` when the element found has a `nil` `Value`, and the caller cannot tell the two apart. The model's `Some` keeps them apart.
- `Ranges.Search`: the doc comment's "first element containing v" is proved only for collections that are sorted by `Min` and whose `Max` values never decrease. On other collections the contract gives the answer of the bisection itself (`Probe`), which can miss a containing element (`SearchMissesWhenMaxDecreases`). The repository's tests and examples search only collections that are sorted by `Min` and whose `Max` values never decrease (`Scenarios.ThreeElements`, `Scenarios.DogCat`), though their ranges may overlap. Under that condition the doc comment at types/ranges.go:57-58 holds for every v (`LookupFindsFirstContaining`); outside it the comment can fail (`SearchMissesWhenMaxDecreases`).
- `Ranges.Sort`: `sort.Sort` (pattern-defeating quicksort) is replaced by an insertion sort that uses `Less` and `Swap` the same way. The contract is that of `sort.Sort`: sorted by `Min`, and a permutation. It does not say how elements with equal `Min` are ordered, and `sort.Sort` is not stable.
- `Ranges.UnmarshalText`: the receiver is a `BareRange` whose value is `struct{}{}`. A receiver that holds some other value before decoding is not modelled.
- `Decimal.ParseInt`: `strconv`'s `ErrSyntax` and `ErrRange` are not told apart. Both become one parse-error kind that carries the offending text. The wording of the `%q`/`%w` messages is not modelled.
- Byte slices (`[]byte`) are modelled as strings of characters, one character per byte. The decoders inspect only ASCII characters (the colon, the signs, the digits and the four handler names), so reading bytes as characters changes only how the text carried by an error is represented.
- `MarshalText` (for both ranges and handlers): Go also returns an error, which is always `nil`. The model returns only the text.
- `Slog.RoundTrip`: stated for the four named handlers only, because the source's round trip fails for other values (see "## Findings").
- `Slog.NewSlogLogger`: the model covers only the selection rule. Building the `slog.TextHandler`, `slog.JSONHandler` and `tint` handlers is not modelled. Neither are the `ReplaceAttr` renaming of the time key to "ts", the level option, or wrapping a terminal writer with `colorable`. The check that the writer is an `*os.File` on a terminal (`isatty`) becomes the boolean `isTerminal`.
- The comma-separated list codec for `BareRanges`, and the five-form encoder, belong to the later `ds` and `adt` packages. Their implementation files are not part of this model.
- `http/http.go` and `httpkit/httpkit.go` (a listener goroutine with a timed graceful shutdown) are not part of this model. They are concurrency and network I/O.
