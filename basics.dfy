/** Value types shared by the whole model of the RabbitMQ client wrapper:
    optional values and results, the .NET integer widths the wrapper uses,
    the string and collection tests of its helper library, header values
    and the errors the wrapper raises. */
module Basics {

  datatype Option<+T> = None | Some(value: T)

  /** A computation that either yields a value or raises one of the wrapper's exceptions. */
  datatype Result<+R, +E> = Success(value: R) | Failure(error: E)

  /** .NET `ushort`. */
  type UShort = x: int | 0 <= x < 0x1_0000

  /** .NET `short`. */
  type Short = x: int | -0x8000 <= x < 0x8000

  /** .NET `ulong`: delivery tags and retry delays. */
  type ULong = x: int | 0 <= x < 0x1_0000_0000_0000_0000

  /** The unchecked C# cast `(long)d` of a `ulong`: values from 2^63 upwards wrap to negatives. */
  function AsLong(d: ULong): (r: int)
    ensures -0x8000_0000_0000_0000 <= r < 0x8000_0000_0000_0000
    ensures (d - r) % 0x1_0000_0000_0000_0000 == 0
    ensures r == d <==> d < 0x8000_0000_0000_0000
  {
    if d < 0x8000_0000_0000_0000 then d else d - 0x1_0000_0000_0000_0000
  }

  /** The white-space characters `char.IsWhiteSpace` recognises among the Latin-1 range. */
  predicate IsWhiteSpace(c: char) {
    c == ' ' || c == '\t' || c == '\n' || c == '\r' ||
    c == '\U{000B}' || c == '\U{000C}' || c == '\U{0085}' || c == '\U{00A0}'
  }

  /** `string.IsNullOrWhiteSpace`, and the helper library's `IsEmpty` on strings
      (a null string is modelled as the empty string). */
  predicate IsBlank(s: string)
    ensures s == "" ==> IsBlank(s)
  {
    forall i :: 0 <= i < |s| ==> IsWhiteSpace(s[i])
  }

  /** The helper library's `HasValue` on strings: non-null and not blank. */
  predicate HasText(s: string)
    ensures HasText(s) ==> s != ""
  {
    !IsBlank(s)
  }

  /** The helper library's `HasValue` on lists: non-null and non-empty
      (its `IsEmpty` on lists is the negation). */
  predicate HasItems<T>(xs: Option<seq<T>>)
    ensures HasItems(xs) <==> ItemsOf(xs) != []
  {
    xs.Some? && |xs.value| > 0
  }

  /** The list itself, or the empty list for null. */
  function ItemsOf<T>(xs: Option<seq<T>>): seq<T> {
    if xs.Some? then xs.value else []
  }

  /** `xs.Where(x => x.HasValue()).ToList()`: the strings with text, in their original order. */
  function NonBlank(xs: seq<string>): (r: seq<string>)
    ensures |r| <= |xs|
  {
    if xs == [] then []
    else (if HasText(xs[0]) then [xs[0]] else []) + NonBlank(xs[1..])
  }

  /** The filter keeps exactly the strings with text, and nothing is left when every string is blank. */
  lemma {:induction false} NonBlankFilters(xs: seq<string>)
    ensures |NonBlank(xs)| <= |xs|
    ensures forall i :: 0 <= i < |NonBlank(xs)| ==> HasText(NonBlank(xs)[i])
    ensures forall x :: x in NonBlank(xs) ==> x in xs && HasText(x)
    ensures forall x :: x in xs && HasText(x) ==> x in NonBlank(xs)
    ensures NonBlank(xs) == [] <==> forall i :: 0 <= i < |xs| ==> IsBlank(xs[i])
  {
    if xs != [] {
      NonBlankFilters(xs[1..]);
      assert xs == [xs[0]] + xs[1..];
      assert forall i :: 1 <= i < |xs| ==> xs[i] == xs[1..][i - 1];
    }
  }

  /** Filtering commutes with concatenation, so the kept strings keep their relative order. */
  lemma {:induction false} NonBlankAppend(a: seq<string>, b: seq<string>)
    ensures NonBlank(a + b) == NonBlank(a) + NonBlank(b)
  {
    if a == [] {
      assert a + b == b;
    } else {
      var head := if HasText(a[0]) then [a[0]] else [];
      assert (a + b)[0] == a[0] && (a + b)[1..] == a[1..] + b;
      assert NonBlank(a + b) == head + NonBlank(a[1..] + b);
      NonBlankAppend(a[1..], b);
    }
  }

  /** A single string passes the filter exactly when it has text; with `NonBlankAppend` this fixes
      the order and the multiplicity of everything kept. */
  lemma NonBlankSingleton(x: string)
    ensures NonBlank([x]) == if HasText(x) then [x] else []
  {
    assert [x][1..] == [];
  }

  /** Every string with text is kept as often as it occurs; every blank one is dropped. */
  lemma {:induction false} NonBlankCounts(xs: seq<string>)
    ensures forall x :: multiset(NonBlank(xs))[x] == if HasText(x) then multiset(xs)[x] else 0
  {
    if xs != [] {
      NonBlankCounts(xs[1..]);
      assert xs == [xs[0]] + xs[1..];
    }
  }

  /** A list without blank strings passes the filter unchanged. */
  lemma {:induction false} NonBlankKeepsText(xs: seq<string>)
    requires forall i :: 0 <= i < |xs| ==> HasText(xs[i])
    ensures NonBlank(xs) == xs
  {
    if xs != [] {
      NonBlankKeepsText(xs[1..]);
    }
  }

  /** A header or argument value (`object` in the source). */
  datatype HeaderValue = LongValue(n: int) | TextValue(s: string) | ObjectValue(id: nat)

  type Headers = map<string, HeaderValue>

  /** The map itself, or the empty map for null. */
  function EntriesOf(m: Option<Headers>): Headers {
    if m.Some? then m.value else map[]
  }

  /** Which of the wrapper's argument-exception messages was raised. */
  datatype Reason =
    | General               // "unable to create factory: parameters not enough"
    | PublisherParameters   // "unable to create publisher: parameters not enough"
    | InvalidRoute(route: string)  // "route should be present, ... is not a valid routing key"

  /** The exceptions the core raises. */
  datatype Error =
    | ArgumentError(reason: Reason, paramName: string)   // ArgumentException
    | NotImplementedError(exchangeType: string)          // NotImplementedException
    | ArgumentNullError(paramName: string)               // ArgumentNullException raised inside LINQ
}
