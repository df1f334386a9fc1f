/**
 * Shared vocabulary of the model: optional values (C# null), results of
 * service calls (GeneralResponse with Success/Message), and the string
 * predicates the services use to validate their arguments:
 * string.IsNullOrWhiteSpace, string.IsNullOrEmpty, Guid.TryParse and
 * case-insensitive ordinal comparison.
 */
module Common {

  datatype Option<T> = None | Some(value: T)
  {
    function GetOr(default: T): T {
      if Some? then value else default
    }
  }

  /** The failures a service reports (GeneralResponse.Success == false). */
  datatype Failure =
    | Invalid          // a guard on an argument rejected the call
    | NotFound         // a looked-up record does not exist
    | NotAuthorized    // the caller is not the driver the record names
    | InvalidState     // the record's status forbids the operation
    | NoActiveOffer    // no active offer for the (cluster, driver) pair
    | NoTarget         // the matcher found no location to match against
    | NoDrivers        // the matcher got an empty list of available drivers
    | NoLocatedDrivers // no available driver has coordinates
    | TooFar           // the nearest driver is beyond MaxDriverDistanceKm
    | NoSplitNeeded    // the driver is within range, a split is refused
    | AlreadyEmpty     // the cart has no items to clear
    | MissingLocation  // a driver, company or customer location is missing
    | OutOfStock       // a requested quantity exceeds the product's stock
    | EmptyCart        // an order was placed from a cart without items

  datatype Result<T> = Ok(value: T) | Err(error: Failure)

  /** char.IsWhiteSpace: U+0009..U+000D, U+0020, U+0085, U+00A0 and the
      Unicode space, line and paragraph separators. */
  predicate IsWhiteSpace(c: char) {
    ('\U{0009}' <= c <= '\U{000D}') || c == ' ' || c == '\U{0085}' || c == '\U{00A0}'
    || c == '\U{1680}' || ('\U{2000}' <= c <= '\U{200A}') || c == '\U{2028}'
    || c == '\U{2029}' || c == '\U{202F}' || c == '\U{205F}' || c == '\U{3000}'
  }

  /** string.IsNullOrWhiteSpace for a non-null string; a null argument is
      modelled by the empty string, which is blank as well. */
  predicate Blank(s: string) {
    forall i :: 0 <= i < |s| ==> IsWhiteSpace(s[i])
  }

  /** string.IsNullOrWhiteSpace for a nullable string. */
  predicate BlankOpt(s: Option<string>) {
    s.None? || Blank(s.value)
  }

  /** string.IsNullOrEmpty for a nullable string (no whitespace test). */
  predicate NullOrEmpty(s: Option<string>) {
    s.None? || s.value == ""
  }

  /** string.TrimStart(): drops leading whitespace. */
  function TrimStart(s: string): string {
    if s == [] || !IsWhiteSpace(s[0]) then s else TrimStart(s[1..])
  }

  /** What TrimStart leaves is a suffix that does not start with
      whitespace, and what it drops is all whitespace. */
  lemma {:induction false} TrimStartSpec(s: string)
    ensures var r := TrimStart(s);
            && |r| <= |s| && r == s[|s| - |r|..]
            && (r == [] || !IsWhiteSpace(r[0]))
            && Blank(s[..|s| - |r|])
  {
    if s != [] && IsWhiteSpace(s[0]) {
      TrimStartSpec(s[1..]);
      var r := TrimStart(s[1..]);
      assert s[..|s| - |r|] == [s[0]] + s[1..][..|s[1..]| - |r|];
    }
  }

  /** string.TrimEnd(): drops trailing whitespace. */
  function TrimEnd(s: string): string {
    if s == [] || !IsWhiteSpace(s[|s| - 1]) then s else TrimEnd(s[..|s| - 1])
  }

  /** What TrimEnd leaves is a prefix that does not end with whitespace,
      and what it drops is all whitespace. */
  lemma {:induction false} TrimEndSpec(s: string)
    ensures var r := TrimEnd(s);
            && |r| <= |s| && r == s[..|r|]
            && (r == [] || !IsWhiteSpace(r[|r| - 1]))
            && Blank(s[|r|..])
  {
    if s != [] && IsWhiteSpace(s[|s| - 1]) {
      TrimEndSpec(s[..|s| - 1]);
      var r := TrimEnd(s[..|s| - 1]);
      assert s[|r|..] == s[..|s| - 1][|r|..] + [s[|s| - 1]];
    }
  }

  /** string.Trim(): drops leading and trailing whitespace; what is left
      neither starts nor ends with whitespace. */
  function Trim(s: string): (r: string)
    ensures |r| <= |s|
    ensures r == [] || (!IsWhiteSpace(r[0]) && !IsWhiteSpace(r[|r| - 1]))
  {
    TrimStartSpec(s);
    TrimEndSpec(TrimStart(s));
    TrimEnd(TrimStart(s))
  }

  /** Trimming a blank string leaves nothing; trimming keeps every
      non-blank string non-empty. */
  lemma TrimBlank(s: string)
    ensures Blank(s) <==> Trim(s) == ""
  {
    var t := TrimStart(s);
    TrimStartSpec(s);
    TrimEndSpec(t);
    assert s == s[..|s| - |t|] + t;
  }

  /** A string that neither starts nor ends with whitespace is its own trim. */
  lemma TrimUnpadded(s: string)
    requires s == [] || (!IsWhiteSpace(s[0]) && !IsWhiteSpace(s[|s| - 1]))
    ensures Trim(s) == s
  {
  }

  predicate IsHexDigit(c: char) {
    ('0' <= c <= '9') || ('a' <= c <= 'f') || ('A' <= c <= 'F')
  }

  predicate AllHex(s: string) {
    forall i :: 0 <= i < |s| ==> IsHexDigit(s[i])
  }

  /** The "D" format: 8-4-4-4-12 hexadecimal digits separated by hyphens. */
  predicate HyphenatedGuid(s: string) {
    |s| == 36 && s[8] == '-' && s[13] == '-' && s[18] == '-' && s[23] == '-'
    && AllHex(s[0..8]) && AllHex(s[9..13]) && AllHex(s[14..18])
    && AllHex(s[19..23]) && AllHex(s[24..36])
  }

  /** The formats Guid.TryParse accepts here: "N" (32 digits), "D",
      "B" ({D}) and "P" ((D)). */
  predicate GuidShape(s: string) {
    (|s| == 32 && AllHex(s))
    || HyphenatedGuid(s)
    || (|s| == 38 && s[0] == '{' && s[37] == '}' && HyphenatedGuid(s[1..37]))
    || (|s| == 38 && s[0] == '(' && s[37] == ')' && HyphenatedGuid(s[1..37]))
  }

  /** Guid.TryParse(s, out _): surrounding whitespace is ignored. */
  predicate IsGuid(s: string) {
    GuidShape(Trim(s))
  }

  /** The two checks the services make on an id, in their order:
      IsNullOrWhiteSpace, then Guid.TryParse. */
  predicate GuidId(s: string) {
    !Blank(s) && IsGuid(s)
  }

  /** The same two checks on a nullable id: null is blank. */
  predicate GuidIdOpt(s: Option<string>) {
    s.Some? && GuidId(s.value)
  }

  /** Every GUID-shaped string is non-blank, so a GUID check subsumes the
      blank check that precedes it in the services. */
  lemma GuidIsNotBlank(s: string)
    ensures IsGuid(s) ==> !Blank(s)
  {
    TrimBlank(s);
  }

  /** char.ToUpperInvariant restricted to ASCII letters. */
  function Upper(c: char): char {
    if 'a' <= c <= 'z' then (c as int - 32) as char else c
  }

  /** char.ToLowerInvariant restricted to ASCII letters. */
  function Lower(c: char): char {
    if 'A' <= c <= 'Z' then (c as int + 32) as char else c
  }

  function LowerString(s: string): (r: string)
    ensures |r| == |s| && forall i :: 0 <= i < |s| ==> r[i] == Lower(s[i])
  {
    seq(|s|, i requires 0 <= i < |s| => Lower(s[i]))
  }

  /** Ordinal-ignore-case equality of two strings of the same length. */
  predicate SameIgnoreCase(a: string, b: string) {
    |a| == |b| && forall i :: 0 <= i < |a| ==> Upper(a[i]) == Upper(b[i])
  }

  /** part occurs in s at offset k, ignoring ASCII case. */
  predicate MatchesAt(s: string, part: string, k: int) {
    0 <= k <= |s| - |part| && SameIgnoreCase(s[k..k + |part|], part)
  }

  /** s.Contains(part, StringComparison.OrdinalIgnoreCase). */
  predicate ContainsIgnoreCase(s: string, part: string) {
    exists k :: 0 <= k <= |s| - |part| && MatchesAt(s, part, k)
  }

  /** Ordinal (code-unit) lexicographic order on strings. */
  predicate StrLe(a: string, b: string) {
    if a == [] then true
    else if b == [] then false
    else if a[0] != b[0] then a[0] < b[0]
    else StrLe(a[1..], b[1..])
  }

  lemma {:induction false} StrLeTotal(a: string, b: string)
    ensures StrLe(a, b) || StrLe(b, a)
  {
    if a != [] && b != [] && a[0] == b[0] {
      StrLeTotal(a[1..], b[1..]);
    }
  }

  lemma {:induction false} StrLeTrans(a: string, b: string, c: string)
    requires StrLe(a, b) && StrLe(b, c)
    ensures StrLe(a, c)
  {
    if a != [] && b != [] && c != [] && a[0] == b[0] && b[0] == c[0] {
      StrLeTrans(a[1..], b[1..], c[1..]);
    }
  }

  /** A C# int. */
  type Int32 = x: int | -0x8000_0000 <= x < 0x8000_0000

  /** Two's-complement truncation of an integer to 32 bits (C# unchecked int). */
  function Wrap32(x: int): (r: int)
    ensures -0x8000_0000 <= r < 0x8000_0000
    ensures (r - x) % 0x1_0000_0000 == 0
    ensures -0x8000_0000 <= x < 0x8000_0000 ==> r == x
  {
    var m := x % 0x1_0000_0000;
    if m < 0x8000_0000 then m else m - 0x1_0000_0000
  }

  lemma ConcatAssoc<T>(a: seq<T>, b: seq<T>, c: seq<T>)
    ensures a + (b + c) == (a + b) + c
  {
  }

  /** y is the image of some non-null entry of xs. */
  ghost predicate ImageOfSome<A, B>(xs: seq<Option<A>>, f: A -> B, y: B) {
    exists j :: 0 <= j < |xs| && xs[j].Some? && y == f(xs[j].value)
  }

  /** Select(map).Where(x => x != null) over a list with null entries,
      where the map sends null to null and nothing else to null. */
  function SelectSome<A, B>(xs: seq<Option<A>>, f: A -> B): (r: seq<B>)
    ensures |r| <= |xs|
    ensures forall i :: 0 <= i < |r| ==> ImageOfSome(xs, f, r[i])
    ensures forall j :: 0 <= j < |xs| && xs[j].Some? ==> f(xs[j].value) in r
  {
    if xs == [] then []
    else
      var rest := SelectSome(xs[1..], f);
      assert forall j :: 1 <= j < |xs| ==> xs[1..][j - 1] == xs[j];
      forall y | ImageOfSome(xs[1..], f, y) ensures ImageOfSome(xs, f, y) {
        var j :| 0 <= j < |xs[1..]| && xs[1..][j].Some? && y == f(xs[1..][j].value);
        assert xs[j + 1] == xs[1..][j];
      }
      if xs[0].None? then rest
      else
        var r := [f(xs[0].value)] + rest;
        assert ImageOfSome(xs, f, r[0]);
        assert forall i :: 1 <= i < |r| ==> r[i] == rest[i - 1];
        r
  }

  /** The number of non-null entries. */
  function CountSome<A>(xs: seq<Option<A>>): nat {
    if xs == [] then 0 else (if xs[0].Some? then 1 else 0) + CountSome(xs[1..])
  }

  /** The selection keeps the order of the input: selecting from a
      concatenation concatenates the selections. */
  lemma {:induction false} SelectSomeConcat<A, B>(xs: seq<Option<A>>, ys: seq<Option<A>>, f: A -> B)
    ensures SelectSome(xs + ys, f) == SelectSome(xs, f) + SelectSome(ys, f)
  {
    if xs == [] {
      assert xs + ys == ys;
    } else {
      var x, rest := xs[0], xs[1..];
      assert xs == [x] + rest;
      assert xs + ys == [x] + (rest + ys);
      var h: seq<B> := if x.Some? then [f(x.value)] else [];
      var a, b := SelectSome(rest, f), SelectSome(ys, f);
      SelectSomeConcat(rest, ys, f);
      SelectSomeCons(x, rest + ys, f);
      SelectSomeCons(x, rest, f);
      calc {
        SelectSome(xs + ys, f);
        h + SelectSome(rest + ys, f);
        h + (a + b);
        { ConcatAssoc(h, a, b); }
        (h + a) + b;
        SelectSome(xs, f) + b;
      }
    }
  }

  /** A non-null entry contributes its image and a null entry nothing. */
  lemma SelectSomeUnit<A, B>(x: A, f: A -> B)
    ensures SelectSome([Some(x)], f) == [f(x)]
    ensures SelectSome([None], f) == []
  {
    SelectSomeCons(Some(x), [], f);
    SelectSomeCons(None, [], f);
  }

  /** Selecting from an entry followed by a list: the entry's image, if
      it is not null, then the selection from the list. */
  lemma SelectSomeCons<A, B>(x: Option<A>, rest: seq<Option<A>>, f: A -> B)
    ensures SelectSome([x] + rest, f) == (if x.Some? then [f(x.value)] else []) + SelectSome(rest, f)
  {
    assert ([x] + rest)[0] == x && ([x] + rest)[1..] == rest;
  }

  /** The selection has one entry per non-null input. */
  lemma {:induction false} SelectSomeLength<A, B>(xs: seq<Option<A>>, f: A -> B)
    ensures |SelectSome(xs, f)| == CountSome(xs)
  {
    if xs != [] {
      SelectSomeLength(xs[1..], f);
    }
  }
}
