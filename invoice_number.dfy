/** Per-user invoice numbering: an `InvoiceCounter` table incremented in place by the store, and
    the `INV-` formatting of the counter (src/lib/invoice-number.ts). */
module InvoiceNumber {
  import opened Results
  import opened Text

  const Prefix: string := "INV-"
  const MinDigits: nat := 3
  const InitFailure: string := "Failed to initialize invoice counter"

  type Pos = n: nat | n >= 1 witness 1

  /** `formatInvoiceNumber`: "INV-" and the counter in decimal, zero-padded to three digits. */
  function Format(counter: nat): (r: string)
    ensures StartsWith(r, Prefix) && AllDigits(r[|Prefix|..])
    ensures |r| == |Prefix| + if counter < 100 then MinDigits else |Decimal(counter)|
  {
    DecimalWidth(counter);
    Prefix + PadStart(Decimal(counter), MinDigits, '0')
  }

  lemma DecimalWidth(n: nat)
    ensures n < 100 <==> |Decimal(n)| < MinDigits
  {
    if n >= 10 { assert |Decimal(n)| == |Decimal(n / 10)| + 1; }
  }

  /** The pattern `/INV-(\d+)/` can match at `k`: "INV-" there, followed by a digit. */
  predicate TagAt(s: string, k: int) {
    OccursAt(s, Prefix, k) && k + |Prefix| < |s| && IsDigit(s[k + |Prefix|])
  }

  /** `k` is the first position where the pattern matches. */
  predicate LeftmostTag(s: string, k: int) {
    TagAt(s, k) && forall j :: 0 <= j < k ==> !TagAt(s, j)
  }

  /** The leftmost position from `from` on where the pattern matches, as a regular expression
      search tries them. */
  function FirstTag(s: string, from: nat): (r: Option<nat>)
    ensures r.Some? ==> from <= r.value && TagAt(s, r.value)
    ensures r.Some? ==> forall j :: from <= j < r.value ==> !TagAt(s, j)
    ensures r.None? ==> forall j :: from <= j ==> !TagAt(s, j)
    decreases |s| - from
  {
    if from >= |s| then None
    else if TagAt(s, from) then Some(from)
    else FirstTag(s, from + 1)
  }

  /** How the seed script reads an invoice number back: `s.match(/INV-(\d+)/)` finds the first
      "INV-" followed by a digit anywhere in the text, and `parseInt(match[1], 10)` takes the
      value of the greedy run of digits there. `None` is the failed match. */
  function Parse(s: string): (r: Option<nat>)
    ensures r.Some? <==> exists k :: TagAt(s, k)
    ensures r.Some? ==> exists k :: LeftmostTag(s, k) && r.value == DigitsValue(LeadingDigits(s[k + |Prefix|..]))
  {
    match FirstTag(s, 0)
    case None => None
    case Some(k) =>
      assert LeftmostTag(s, k);
      Some(DigitsValue(LeadingDigits(s[k + |Prefix|..])))
  }

  /** The seed's next invoice counter, from the invoice number that is greatest in string order
      (if any): one past the number read back, and 1 when there is none or it cannot be read.
      String order agrees with numeric order only below 1000 ("INV-999" sorts after "INV-1000"). */
  function NextSeedNumber(last: Option<string>): (r: nat)
    ensures r >= 1
    ensures last.Some? && Parse(last.value).Some? ==> r == Parse(last.value).value + 1
    ensures last.None? || Parse(last.value).None? ==> r == 1
  {
    if last.None? || last.value == "" then 1
    else match Parse(last.value)
      case Some(v) => v + 1
      case None => 1
  }

  /** Reading a formatted number back gives the counter it was made from. */
  lemma FormatRoundTrip(n: nat)
    ensures Parse(Format(n)) == Some(n)
  {
    var d := Decimal(n);
    var r := Format(n);
    var k := |PadStart(d, MinDigits, '0')| - |d|;
    var digits := r[|Prefix|..];
    assert digits == Repeat('0', k) + d;
    assert r[..|Prefix|] == Prefix;
    assert TagAt(r, 0);
    assert FirstTag(r, 0) == Some(0);
    LeadingZeros(k, d);
    LeadingDigitsAll(digits);
    DecimalRoundTrip(n);
  }

  /** Seeding after an invoice numbered from counter `n` continues at `n + 1`. */
  lemma SeedContinues(n: nat)
    ensures NextSeedNumber(Some(Format(n))) == n + 1
  {
    FormatRoundTrip(n);
    var last := Some(Format(n));
    assert Parse(last.value) == Some(n);
  }

  /** Letters after the digits are ignored: "INV-12abc" reads as 12. */
  lemma ParseIgnoresTrailing()
    ensures Parse("INV-12abc") == Some(12)
  {
    var s := "INV-12abc";
    assert s[..4] == Prefix;
    assert TagAt(s, 0);
    assert s[4..] == "12abc";
    assert LeadingDigits("12abc") == "12" by {
      assert "12abc"[1..] == "2abc";
      assert "2abc"[1..] == "abc";
    }
    assert FirstTag(s, 0) == Some(0);
    assert DigitsValue("12") == 12 by {
      assert "12"[..1] == "1";
      assert "1"[..0] == [];
    }
  }

  /** Text before the number is skipped: "X INV-7" reads as 7. */
  lemma ParseSkipsLeading()
    ensures Parse("X INV-7") == Some(7)
  {
    var s := "X INV-7";
    assert !TagAt(s, 0) by { assert s[0] != Prefix[0]; }
    assert !TagAt(s, 1) by { assert s[1] != Prefix[0]; }
    assert s[2..6] == Prefix;
    assert TagAt(s, 2);
    assert FirstTag(s, 0) == Some(2);
    assert s[6..] == "7";
    LeadingDigitsAll("7");
  }

  /** Distinct counters never share a formatted number. */
  lemma FormatInjective(n: nat, m: nat)
    requires Format(n) == Format(m)
    ensures n == m
  {
    FormatRoundTrip(n);
    FormatRoundTrip(m);
  }

  /** From 100 on there is no padding, and counters above 999 are not truncated. */
  lemma FormatUnpaddedFrom100(n: nat)
    requires n >= 100
    ensures Format(n) == Prefix + Decimal(n)
  {
    DecimalWidth(n);
  }

  lemma FormatExamples()
    ensures Format(1) == "INV-001"
    ensures Format(42) == "INV-042"
    ensures Format(1234) == "INV-1234"
  {
    assert Format(1) == "INV-001" by {
      assert Decimal(1) == "1";
      assert Repeat('0', 2) == "00";
    }
    assert Format(42) == "INV-042" by {
      assert Decimal(42) == "42";
      assert Repeat('0', 1) == "0";
    }
    assert Format(1234) == "INV-1234" by {
      assert Decimal(12) == "12";
      assert Decimal(123) == Decimal(12) + "3" == "123";
      assert Decimal(1234) == Decimal(123) + "4" == "1234";
      FormatUnpaddedFrom100(1234);
    }
  }

  /** The schedules of other callers' writes to the counter table between the statements of
      one first-use allocation that the model covers. */
  datatype Interleaving =
    | Quiet                         // nothing happens in between
    | InsertedFirst(counter: Pos)   // after our UPDATE found no row, another caller created it
    | RowRemoved                    // the row is gone again before our read-back SELECT
    | BumpedBeforeRead(amount: Pos) // other callers increment the row before our read-back SELECT

  /** The `InvoiceCounter` table: user id to counter. */
  class CounterTable {
    var counters: map<string, nat>

    ghost predicate Valid()
      reads this
    {
      forall u :: u in counters ==> counters[u] >= 1
    }

    constructor ()
      ensures Valid() && counters == map[]
    {
      counters := map[];
    }

    /** `UPDATE "InvoiceCounter" SET counter = counter + 1 WHERE id = user RETURNING counter`. */
    method IncrementReturning(user: string) returns (rows: seq<nat>)
      requires Valid()
      modifies this
      ensures Valid()
      ensures user in old(counters) ==>
        counters == old(counters)[user := old(counters)[user] + 1] && rows == [counters[user]]
      ensures user !in old(counters) ==> counters == old(counters) && rows == []
    {
      if user in counters {
        counters := counters[user := counters[user] + 1];
        rows := [counters[user]];
      } else {
        rows := [];
      }
    }

    /** `INSERT ... VALUES (user, 1) ON CONFLICT (id) DO UPDATE SET counter = counter + 1`. */
    method InsertOrIncrement(user: string)
      requires Valid()
      modifies this
      ensures Valid()
      ensures counters == old(counters)[user := if user in old(counters) then old(counters)[user] + 1 else 1]
    {
      if user in counters {
        counters := counters[user := counters[user] + 1];
      } else {
        counters := counters[user := 1];
      }
    }

    /** `SELECT counter FROM "InvoiceCounter" WHERE id = user`. */
    method Select(user: string) returns (rows: seq<nat>)
      ensures rows == if user in counters then [counters[user]] else []
    {
      rows := if user in counters then [counters[user]] else [];
    }

    /** Another caller's statement, applied between ours as `race` says. */
    method Interfere(user: string, race: Interleaving, afterUpsert: bool)
      requires Valid()
      modifies this
      ensures Valid()
      ensures counters == match race
        case InsertedFirst(c) => if !afterUpsert && user !in old(counters) then old(counters)[user := c] else old(counters)
        case RowRemoved => if afterUpsert then old(counters) - {user} else old(counters)
        case BumpedBeforeRead(amount) =>
          if afterUpsert && user in old(counters) then old(counters)[user := old(counters)[user] + amount] else old(counters)
        case Quiet => old(counters)
    {
      match race
      case InsertedFirst(c) =>
        if !afterUpsert && user !in counters { counters := counters[user := c]; }
      case RowRemoved =>
        if afterUpsert { counters := counters - {user}; }
      case BumpedBeforeRead(amount) =>
        if afterUpsert && user in counters { counters := counters[user := counters[user] + amount]; }
      case Quiet =>
    }

    /** `getNextInvoiceNumber`: the next number for `user`, creating the counter on first use. */
    method GetNextInvoiceNumber(user: string, race: Interleaving) returns (r: Result<string, string>)
      requires Valid()
      modifies this
      ensures Valid()
      // an existing row is incremented by exactly one and its new value is issued
      ensures user in old(counters) ==>
        counters == old(counters)[user := old(counters)[user] + 1] && r == Ok(Format(counters[user]))
      // first use: a row with counter 1 is created and "INV-001" issued
      ensures user !in old(counters) && race == Quiet ==>
        counters == old(counters)[user := 1] && r == Ok(Format(1))
      // a row created concurrently is incremented, not reset
      ensures user !in old(counters) && race.InsertedFirst? ==>
        counters == old(counters)[user := race.counter + 1] && r == Ok(Format(race.counter + 1))
      // increments by others before the read-back are included in the number issued
      ensures user !in old(counters) && race.BumpedBeforeRead? ==>
        counters == old(counters)[user := 1 + race.amount] && r == Ok(Format(1 + race.amount))
      // the read-back found nothing: no number is issued
      ensures user !in old(counters) && race == RowRemoved ==>
        counters == old(counters) && r == Err(InitFailure)
      // other users' counters never change; no counter ever decreases
      ensures forall u :: u != user ==> (u in counters <==> u in old(counters))
      ensures forall u :: u != user && u in counters ==> counters[u] == old(counters)[u]
      ensures forall u :: u in old(counters) ==> u in counters && old(counters)[u] <= counters[u]
      ensures r.Ok? ==> user in counters && r.value == Format(counters[user])
    {
      var result := IncrementReturning(user);
      if |result| == 0 {
        Interfere(user, race, false);
        InsertOrIncrement(user);
        Interfere(user, race, true);
        var newResult := Select(user);
        if |newResult| == 0 {
          return Err(InitFailure);
        }
        return Ok(Format(newResult[0]));
      }
      return Ok(Format(result[0]));
    }

    /** Two first-use callers A and B: both UPDATEs find no row, A's INSERT creates it with 1,
        B's INSERT conflicts and raises it to 2, and only then do both read back. A and B are
        issued the same number. */
    method FirstUseRace(user: string) returns (a: Result<string, string>, b: Result<string, string>)
      requires Valid() && user !in counters
      modifies this
      ensures a == Ok(Format(2)) && b == a
    {
      // A's allocation, with B's conflicting INSERT between A's INSERT and A's SELECT
      a := GetNextInvoiceNumber(user, BumpedBeforeRead(1));
      // B's read-back SELECT
      var rows := Select(user);
      b := if |rows| == 0 then Err(InitFailure) else Ok(Format(rows[0]));
    }

    /** Two successive allocations for one user issue strictly increasing numbers. */
    method AllocateTwice(user: string, race1: Interleaving, race2: Interleaving)
      returns (first: Result<string, string>, second: Result<string, string>)
      requires Valid()
      modifies this
      ensures Valid()
      ensures first.Ok? && second.Ok? ==>
        Parse(first.value).Some? && Parse(second.value).Some? &&
        Parse(first.value).value < Parse(second.value).value
    {
      first := GetNextInvoiceNumber(user, race1);
      ghost var mid := counters;
      second := GetNextInvoiceNumber(user, race2);
      if first.Ok? && second.Ok? {
        FormatRoundTrip(mid[user]);
        FormatRoundTrip(counters[user]);
      }
    }
  }
}
