/** Durable key spellings: fixed-width decimals, reversed so that the newest
    coordinate lists first. One char stands for one byte. */
module Spelling {
  import opened Common
  import opened Seals

  // ------------------------------------------------------- fixed-width decimals

  function Pow10(width: nat): (p: nat)
    ensures p >= 1
  {
    if width == 0 then 1 else 10 * Pow10(width - 1)
  }

  function Digit(d: nat): char
    requires d < 10
  {
    '0' + d as char
  }

  predicate IsDigit(c: char) { '0' <= c <= '9' }

  predicate AllDigits(s: string) { forall i :: 0 <= i < |s| ==> IsDigit(s[i]) }

  /** `n` with leading zeros up to `width` digits. */
  function Decimal(n: nat, width: nat): string
    requires n < Pow10(width)
  {
    if width == 0 then [] else Decimal(n / 10, width - 1) + [Digit(n % 10)]
  }

  function Value(s: string): nat
    requires AllDigits(s)
  {
    if s == [] then 0 else Value(s[..|s| - 1]) * 10 + (s[|s| - 1] - '0') as nat
  }

  lemma {:induction false} DecimalReads(n: nat, width: nat)
    requires n < Pow10(width)
    ensures |Decimal(n, width)| == width && AllDigits(Decimal(n, width)) && Value(Decimal(n, width)) == n
  {
    if width > 0 {
      DecimalReads(n / 10, width - 1);
      var s := Decimal(n, width);
      assert s[..|s| - 1] == Decimal(n / 10, width - 1);
    }
  }

  lemma {:induction false} ValueWrites(s: string)
    requires AllDigits(s)
    ensures Value(s) < Pow10(|s|) && Decimal(Value(s), |s|) == s
  {
    if s != [] {
      var front := s[..|s| - 1];
      ValueWrites(front);
      var d := (s[|s| - 1] - '0') as nat;
      assert Value(s) / 10 == Value(front) && Value(s) % 10 == d;
      assert Digit(d) == s[|s| - 1];
    }
  }

  lemma {:induction false} LessAtTheEnd(x: string, y: string, c: char, d: char)
    requires |x| == |y|
    ensures Less(x + [c], y + [d]) <==> Less(x, y) || (x == y && c < d)
    decreases |x|
  {
    if x == [] {
      assert x + [c] == [c] && y + [d] == [d];
    } else {
      assert (x + [c])[1..] == x[1..] + [c] && (y + [d])[1..] == y[1..] + [d];
      LessAtTheEnd(x[1..], y[1..], c, d);
      assert x == [x[0]] + x[1..] && y == [y[0]] + y[1..];
    }
  }

  lemma {:induction false} LessBehindPrefix(p: string, x: string, y: string)
    ensures Less(p + x, p + y) <==> Less(x, y)
    decreases |p|
  {
    if p == [] {
      assert p + x == x && p + y == y;
    } else {
      assert (p + x)[1..] == p[1..] + x && (p + y)[1..] == p[1..] + y;
      LessBehindPrefix(p[1..], x, y);
    }
  }

  lemma LastDigitDecides(a: nat, b: nat)
    ensures a < b <==> a / 10 < b / 10 || (a / 10 == b / 10 && a % 10 < b % 10)
    ensures a == b <==> a / 10 == b / 10 && a % 10 == b % 10
    ensures Digit(a % 10) < Digit(b % 10) <==> a % 10 < b % 10
  {
  }

  /** Fixed-width decimals sort as their numbers do. */
  lemma {:induction false} DecimalOrder(a: nat, b: nat, width: nat)
    requires a < Pow10(width) && b < Pow10(width)
    ensures Less(Decimal(a, width), Decimal(b, width)) <==> a < b
  {
    if width > 0 {
      var x, y := Decimal(a / 10, width - 1), Decimal(b / 10, width - 1);
      DecimalOrder(a / 10, b / 10, width - 1);
      DecimalReads(a / 10, width - 1);
      DecimalReads(b / 10, width - 1);
      LastDigitDecides(a, b);
      LessAtTheEnd(x, y, Digit(a % 10), Digit(b % 10));
      assert Decimal(a, width) == x + [Digit(a % 10)] && Decimal(b, width) == y + [Digit(b % 10)];
      hide Decimal, Less, Digit, Value, AllDigits;
      assert x == y <==> a / 10 == b / 10;
    }
  }

  const ORDINAL_DIGITS: nat := 20
  const TABLE_ORDINAL_DIGITS: nat := 10
  const U32_MAX: nat := 0xFFFF_FFFF

  lemma U64FitsTwentyDigits()
    ensures Pow10(ORDINAL_DIGITS) == 100_000_000_000_000_000_000 > U64_MAX
    ensures Pow10(TABLE_ORDINAL_DIGITS) == 10_000_000_000 > U32_MAX
  {
    assert Pow10(5) == 100_000;
    assert Pow10(10) == 100_000 * Pow10(5);
    assert Pow10(15) == 100_000 * Pow10(10);
    assert Pow10(20) == 100_000 * Pow10(15);
  }

  // ------------------------------------------------------------------ segments

  function Split(s: string, at: char): (segments: seq<string>)
    ensures segments != []
  {
    if s == [] then [[]]
    else
      var rest := Split(s[1..], at);
      if s[0] == at then [[]] + rest else [[s[0]] + rest[0]] + rest[1..]
  }

  function Join(segments: seq<string>, at: char): string
    requires segments != []
  {
    if |segments| == 1 then segments[0] else segments[0] + [at] + Join(segments[1..], at)
  }

  predicate Free(segments: seq<string>, at: char) { forall i :: 0 <= i < |segments| ==> at !in segments[i] }

  lemma {:induction false} SplitJoins(s: string, at: char)
    ensures Join(Split(s, at), at) == s && Free(Split(s, at), at)
  {
    if s != [] {
      var rest := Split(s[1..], at);
      SplitJoins(s[1..], at);
      assert s == [s[0]] + s[1..];
      if s[0] == at {
        assert ([[]] + rest)[1..] == rest;
      } else if |rest| > 1 {
        assert ([[s[0]] + rest[0]] + rest[1..])[1..] == rest[1..];
      }
    }
  }

  lemma {:induction false} SplitFree(s: string, at: char)
    requires at !in s
    ensures Split(s, at) == [s]
  {
    if s != [] {
      SplitFree(s[1..], at);
      assert [s[0]] + s[1..] == s;
    }
  }

  lemma {:induction false} SplitFirst(head: string, tail: string, at: char)
    requires at !in head
    ensures Split(head + [at] + tail, at) == [head] + Split(tail, at)
    decreases |head|
  {
    var s := head + [at] + tail;
    if head == [] {
      assert s[1..] == tail;
    } else {
      assert s[1..] == head[1..] + [at] + tail;
      SplitFirst(head[1..], tail, at);
      assert [head[0]] + head[1..] == head;
    }
  }

  lemma {:induction false} JoinSplits(segments: seq<string>, at: char)
    requires segments != [] && Free(segments, at)
    ensures Split(Join(segments, at), at) == segments
    decreases |segments|
  {
    if |segments| == 1 {
      SplitFree(segments[0], at);
    } else {
      JoinSplits(segments[1..], at);
      SplitFirst(segments[0], Join(segments[1..], at), at);
      assert [segments[0]] + segments[1..] == segments;
    }
  }

  // ------------------------------------------------------------ Seal and WAL keys

  datatype KeySpellingError =
    | Shape | UnsupportedNamespace | ReverseOrdinal | ZeroCoordinate
    | TableStore | TableCoordinate | InvalidTableIdentity

  const VERSION := "v1"
  const SEAL := "seal"
  const WAL := "wal"
  const TABLE := "table"

  /** An exactly `width`-digit decimal that fits a u64. */
  function ParseFixed(s: string, width: nat, error: KeySpellingError): Result<nat, KeySpellingError> {
    if |s| != width || !AllDigits(s) then Err(error)
    else if Value(s) > U64_MAX then Err(error)
    else Ok(Value(s))
  }

  function DisplayKey(kind: string, coordinate: nat): string
    requires coordinate <= U64_MAX && U64_MAX < Pow10(ORDINAL_DIGITS)
  {
    Join([kind, VERSION, Decimal(U64_MAX - coordinate, ORDINAL_DIGITS)], '/')
  }

  function ParseOrdinal(input: string, kind: string): Result<nat, KeySpellingError> {
    var segments := Split(input, '/');
    if segments[0] != kind then Err(Shape)
    else if |segments| < 2 || segments[1] != VERSION then Err(UnsupportedNamespace)
    else if |segments| != 3 then Err(Shape)
    else
      match ParseFixed(segments[2], ORDINAL_DIGITS, ReverseOrdinal)
      case Err(error) => Err(error)
      case Ok(reversed) => Ok(U64_MAX - reversed)
  }

  /** A Seal generation or a WAL batch: the ordinal zero is reserved. */
  function ParseKey(input: string, kind: string): Result<nat, KeySpellingError> {
    match ParseOrdinal(input, kind)
    case Err(error) => Err(error)
    case Ok(ordinal) => if ordinal == 0 then Err(ZeroCoordinate) else Ok(ordinal)
  }

  lemma DigitsAreFree(s: string)
    requires AllDigits(s)
    ensures '/' !in s && '-' !in s
  {
  }

  lemma FixedReads(n: nat, width: nat, error: KeySpellingError)
    requires n <= U64_MAX && n < Pow10(width)
    ensures ParseFixed(Decimal(n, width), width, error) == Ok(n)
    ensures '/' !in Decimal(n, width) && '-' !in Decimal(n, width)
  {
    DecimalReads(n, width);
    DigitsAreFree(Decimal(n, width));
  }

  lemma FixedWrites(s: string, width: nat, error: KeySpellingError)
    requires ParseFixed(s, width, error).Ok?
    ensures var n := ParseFixed(s, width, error).value; n <= U64_MAX && n < Pow10(width) && s == Decimal(n, width)
  {
    ValueWrites(s);
  }

  /** The namespaces whose keys spell one reversed coordinate. */
  predicate IsKind(kind: string) { kind == SEAL || kind == WAL }

  lemma KindIsFree(kind: string)
    requires IsKind(kind)
    ensures '/' !in kind && '/' !in VERSION
  {
  }

  /** Parsing undoes display for every nonzero u64 coordinate. */
  lemma KeyRoundTrip(kind: string, coordinate: nat)
    requires IsKind(kind) && 1 <= coordinate <= U64_MAX
    ensures U64_MAX < Pow10(ORDINAL_DIGITS) && ParseKey(DisplayKey(kind, coordinate), kind) == Ok(coordinate)
  {
    hide Decimal, Pow10, Join, Split, ParseFixed, IsKind;
    U64FitsTwentyDigits();
    KindIsFree(kind);
    FixedReads(U64_MAX - coordinate, ORDINAL_DIGITS, ReverseOrdinal);
    var segments := [kind, VERSION, Decimal(U64_MAX - coordinate, ORDINAL_DIGITS)];
    JoinSplits(segments, '/');
  }

  /** Display undoes parsing: only the canonical spelling parses. */
  lemma KeyIsCanonical(input: string, kind: string)
    requires ParseKey(input, kind).Ok?
    ensures var n := ParseKey(input, kind).value;
      1 <= n <= U64_MAX < Pow10(ORDINAL_DIGITS) && input == DisplayKey(kind, n)
  {
    U64FitsTwentyDigits();
    var segments := Split(input, '/');
    hide Decimal, Pow10, Join, Split, ParseFixed;
    SplitJoins(input, '/');
    FixedWrites(segments[2], ORDINAL_DIGITS, ReverseOrdinal);
    assert segments == [kind, VERSION, segments[2]];
  }

  lemma DisplayByPrefix(kind: string, coordinate: nat)
    requires coordinate <= U64_MAX < Pow10(ORDINAL_DIGITS)
    ensures DisplayKey(kind, coordinate) == (kind + "/" + VERSION + "/") + Decimal(U64_MAX - coordinate, ORDINAL_DIGITS)
  {
    var last := Decimal(U64_MAX - coordinate, ORDINAL_DIGITS);
    hide Decimal, Pow10;
    var segments := [kind, VERSION, last];
    assert segments[1..] == [VERSION, last] && segments[1..][1..] == [last];
    assert Join([VERSION, last], '/') == VERSION + ['/'] + last;
    assert kind + ['/'] + (VERSION + ['/'] + last) == (kind + "/" + VERSION + "/") + last;
  }

  /** Ascending string order of keys is descending numeric order, so the first
      key of an ascending listing is the newest. */
  lemma KeyOrder(kind: string, a: nat, b: nat)
    requires a <= U64_MAX && b <= U64_MAX
    ensures U64_MAX < Pow10(ORDINAL_DIGITS)
    ensures Less(DisplayKey(kind, a), DisplayKey(kind, b)) <==> a > b
  {
    U64FitsTwentyDigits();
    hide Pow10, DisplayKey;
    DisplayByPrefix(kind, a);
    DisplayByPrefix(kind, b);
    LessBehindPrefix(kind + "/" + VERSION + "/", Decimal(U64_MAX - a, ORDINAL_DIGITS),
                     Decimal(U64_MAX - b, ORDINAL_DIGITS));
    DecimalOrder(U64_MAX - a, U64_MAX - b, ORDINAL_DIGITS);
  }

  /** A key that no other key of the namespace precedes names the greatest
      coordinate present. */
  lemma FirstListedIsNewest(kind: string, coordinates: set<nat>, first: nat)
    requires forall c :: c in coordinates ==> c <= U64_MAX
    requires first in coordinates && U64_MAX < Pow10(ORDINAL_DIGITS)
    ensures (forall c :: c in coordinates ==> !Less(DisplayKey(kind, c), DisplayKey(kind, first))) <==>
      (forall c :: c in coordinates ==> c <= first)
  {
    hide DisplayKey, Pow10;
    forall c | c in coordinates ensures Less(DisplayKey(kind, c), DisplayKey(kind, first)) <==> c > first {
      KeyOrder(kind, c, first);
    }
  }

  // ------------------------------------------------------------------ table keys

  function StoreName(store: StoreKind): string {
    match store
    case Directory => "directory"
    case Ledger => "ledger"
    case Tally => "tally"
    case Annals => "annals"
  }

  function ParseStore(s: string): Result<StoreKind, KeySpellingError> {
    if s == "directory" then Ok(Directory)
    else if s == "ledger" then Ok(Ledger)
    else if s == "tally" then Ok(Tally)
    else if s == "annals" then Ok(Annals)
    else Err(TableStore)
  }

  /** A fresh table identity: nonzero generations, the owner's claim older than
      the table's birth, and a u32 ordinal. */
  predicate LegalTable(id: TableObjectId) {
    && 1 <= id.attempt.ownerClaim < id.birthGeneration <= U64_MAX
    && id.attempt.localCounter <= U64_MAX && id.ordinal <= U32_MAX
  }

  predicate Wide() { U64_MAX < Pow10(ORDINAL_DIGITS) && U32_MAX < Pow10(TABLE_ORDINAL_DIGITS) }

  function DisplayAttempt(attempt: AttemptId): string
    requires Wide() && attempt.ownerClaim <= U64_MAX && attempt.localCounter <= U64_MAX
  {
    Join([Decimal(attempt.ownerClaim, ORDINAL_DIGITS), Decimal(attempt.localCounter, ORDINAL_DIGITS)], '-')
  }

  function DisplayTable(id: TableObjectId): string
    requires Wide() && LegalTable(id)
  {
    Join([TABLE, VERSION, StoreName(id.store), Decimal(id.birthGeneration, ORDINAL_DIGITS),
          DisplayAttempt(id.attempt), Decimal(id.ordinal, TABLE_ORDINAL_DIGITS)], '/')
  }

  /** Two fixed-width counters around exactly one dash. */
  function ParseAttempt(s: string): Result<AttemptId, KeySpellingError> {
    var parts := Split(s, '-');
    if |parts| != 2 then Err(TableCoordinate)
    else
      match ParseFixed(parts[0], ORDINAL_DIGITS, TableCoordinate)
      case Err(error) => Err(error)
      case Ok(owner) =>
        match ParseFixed(parts[1], ORDINAL_DIGITS, TableCoordinate)
        case Err(error) => Err(error)
        case Ok(counter) => Ok(AttemptId(owner, counter))
  }

  function Identify(birth: nat, attempt: AttemptId, ordinal: nat,
                    store: StoreKind): Result<TableObjectId, KeySpellingError> {
    if birth == 0 || attempt.ownerClaim == 0 then Err(ZeroCoordinate)
    else if attempt.ownerClaim >= birth then Err(InvalidTableIdentity)
    else Ok(TableObjectId(birth, attempt, ordinal, store))
  }

  /** The segments in order, each refused for its own defect before the next is
      looked at. */
  function ParseTable(input: string): Result<TableObjectId, KeySpellingError> {
    var segments := Split(input, '/');
    if segments[0] != TABLE then Err(Shape)
    else if |segments| < 2 || segments[1] != VERSION then Err(UnsupportedNamespace)
    else if |segments| < 3 then Err(Shape)
    else
      match ParseStore(segments[2])
      case Err(error) => Err(error)
      case Ok(store) =>
        if |segments| < 4 then Err(Shape)
        else
          match ParseFixed(segments[3], ORDINAL_DIGITS, TableCoordinate)
          case Err(error) => Err(error)
          case Ok(birth) =>
            if |segments| < 5 then Err(Shape)
            else
              match ParseAttempt(segments[4])
              case Err(error) => Err(error)
              case Ok(attempt) =>
                if |segments| < 6 then Err(Shape)
                else
                  match ParseFixed(segments[5], TABLE_ORDINAL_DIGITS, TableCoordinate)
                  case Err(error) => Err(error)
                  case Ok(ordinal) =>
                    if ordinal > U32_MAX then Err(TableCoordinate)
                    else if |segments| > 6 then Err(Shape)
                    else Identify(birth, attempt, ordinal, store)
  }

  lemma AttemptRoundTrip(attempt: AttemptId)
    requires Wide() && attempt.ownerClaim <= U64_MAX && attempt.localCounter <= U64_MAX
    ensures ParseAttempt(DisplayAttempt(attempt)) == Ok(attempt) && '/' !in DisplayAttempt(attempt)
  {
    var owner, counter := Decimal(attempt.ownerClaim, ORDINAL_DIGITS), Decimal(attempt.localCounter, ORDINAL_DIGITS);
    FixedReads(attempt.ownerClaim, ORDINAL_DIGITS, TableCoordinate);
    FixedReads(attempt.localCounter, ORDINAL_DIGITS, TableCoordinate);
    hide Decimal, Pow10, Split, ParseFixed;
    JoinSplits([owner, counter], '-');
    assert [owner, counter][1..] == [counter];
    assert DisplayAttempt(attempt) == owner + ['-'] + counter;
  }

  lemma AttemptIsCanonical(s: string)
    requires Wide() && ParseAttempt(s).Ok?
    ensures var id := ParseAttempt(s).value;
      id.ownerClaim <= U64_MAX && id.localCounter <= U64_MAX && s == DisplayAttempt(id)
  {
    var parts := Split(s, '-');
    hide Decimal, Pow10, Join, Split, ParseFixed;
    SplitJoins(s, '-');
    FixedWrites(parts[0], ORDINAL_DIGITS, TableCoordinate);
    FixedWrites(parts[1], ORDINAL_DIGITS, TableCoordinate);
    assert parts == [parts[0], parts[1]];
  }

  lemma StoreRoundTrip(store: StoreKind, s: string)
    ensures ParseStore(StoreName(store)) == Ok(store) && '/' !in StoreName(store)
    ensures ParseStore(s).Ok? ==> s == StoreName(ParseStore(s).value)
  {
    match store
    case Directory =>
    case Ledger =>
    case Tally =>
    case Annals =>
  }

  /** Parsing undoes display for every legal table identity. */
  lemma TableRoundTrip(id: TableObjectId)
    requires Wide() && LegalTable(id)
    ensures ParseTable(DisplayTable(id)) == Ok(id)
  {
    hide Decimal, Pow10, Join, Split, ParseFixed, ParseAttempt, DisplayAttempt, ParseStore, StoreName, Wide;
    assert id.birthGeneration < Pow10(ORDINAL_DIGITS) && id.ordinal < Pow10(TABLE_ORDINAL_DIGITS) by { WideFits(); }
    StoreRoundTrip(id.store, "");
    FixedReads(id.birthGeneration, ORDINAL_DIGITS, TableCoordinate);
    AttemptRoundTrip(id.attempt);
    FixedReads(id.ordinal, TABLE_ORDINAL_DIGITS, TableCoordinate);
    var segments := [TABLE, VERSION, StoreName(id.store), Decimal(id.birthGeneration, ORDINAL_DIGITS),
                     DisplayAttempt(id.attempt), Decimal(id.ordinal, TABLE_ORDINAL_DIGITS)];
    JoinSplits(segments, '/');
  }

  lemma WideFits()
    ensures U64_MAX < Pow10(ORDINAL_DIGITS) && U32_MAX < Pow10(TABLE_ORDINAL_DIGITS) && Wide()
  {
    U64FitsTwentyDigits();
  }

  /** Display undoes parsing: only the canonical spelling of a legal identity
      parses as a table key. */
  lemma TableIsCanonical(input: string)
    requires Wide() && ParseTable(input).Ok?
    ensures LegalTable(ParseTable(input).value) && input == DisplayTable(ParseTable(input).value)
  {
    var segments := Split(input, '/');
    hide Decimal, Pow10, Join, Split, ParseFixed, ParseAttempt, DisplayAttempt, ParseStore, StoreName;
    SplitJoins(input, '/');
    StoreRoundTrip(Directory, segments[2]);
    FixedWrites(segments[3], ORDINAL_DIGITS, TableCoordinate);
    AttemptIsCanonical(segments[4]);
    FixedWrites(segments[5], TABLE_ORDINAL_DIGITS, TableCoordinate);
    assert segments == [segments[0], segments[1], segments[2], segments[3], segments[4], segments[5]];
  }
}
