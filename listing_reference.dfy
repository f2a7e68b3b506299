/** Listing reference codes: "TN", an upper-cased store prefix, the seller id,
    the seller's creation date as MMDDYY, "_" and the next listing index. */
module ListingReference {
  import opened Js

  /** A date as its calendar fields, or a value that `new Date(...)` cannot read. */
  datatype DateInput = InvalidDate | CalendarDate(year: int, month: int, day: int)

  datatype Result<T> = Ok(value: T) | Err(message: string)

  const InvalidDateMessage := "Invalid seller creation date"

  /** `s.padStart(2, "0")`. */
  function PadStart2(s: string): (r: string)
    ensures |r| == if |s| >= 2 then |s| else 2
    ensures |s| >= 2 ==> r == s
    ensures |s| < 2 ==> r[2 - |s|..] == s && forall i :: 0 <= i < 2 - |s| ==> r[i] == '0'
  {
    if |s| >= 2 then s else if |s| == 1 then "0" + s else "00"
  }

  /** `s.slice(-2)`: the last two characters, or all of a shorter string. */
  function LastTwo(s: string): (r: string)
    ensures |s| >= 2 ==> |r| == 2 && r == s[|s| - 2..]
    ensures |s| < 2 ==> r == s
  {
    if |s| >= 2 then s[|s| - 2..] else s
  }

  /** `formatDateToMMDDYY(date)`; an unreadable date is an error. */
  function FormatDateToMMDDYY(date: DateInput): Result<string> {
    match date
    case InvalidDate => Err(InvalidDateMessage)
    case CalendarDate(year, month, day) =>
      Ok(PadStart2(IntToString(month)) + PadStart2(IntToString(day)) + LastTwo(IntToString(year)))
  }

  /** `(storeName || "").slice(0, 3).toUpperCase()`. */
  function StorePart(storeName: Option<string>): (r: string)
    ensures |r| <= 3
    ensures !TruthyStr(storeName) ==> r == ""
    ensures TruthyStr(storeName) ==> |r| == if |storeName.value| < 3 then |storeName.value| else 3
    ensures TruthyStr(storeName) ==> forall i :: 0 <= i < |r| ==> r[i] == UpperChar(storeName.value[i])
  {
    var name := if TruthyStr(storeName) then storeName.value else "";
    Upper(if |name| <= 3 then name else name[..3])
  }

  /** `Number(listingCount ?? 0) + 1`. */
  function NextIndex(listingCount: Option<nat>): (r: nat)
    ensures r >= 1
    ensures listingCount.None? ==> r == 1
    ensures listingCount.Some? ==> r == listingCount.value + 1
  {
    (if listingCount.Some? then listingCount.value else 0) + 1
  }

  /** `s` reads, left to right: "TN", the store part, the seller id, the date
      part, "_" and the index. */
  predicate ReferenceLayout(s: string, storePart: string, sellerId: string, datePart: string, index: string) {
    var a := 2 + |storePart|;
    var b := a + |sellerId|;
    var c := b + |datePart|;
    && |s| == c + 1 + |index|
    && s[..2] == "TN"
    && s[2..a] == storePart
    && s[a..b] == sellerId
    && s[b..c] == datePart
    && s[c] == '_'
    && s[c + 1..] == index
  }

  /** `generateListingReference(storeName, sellerId, sellerCreationDate, listingCount)`. */
  function GenerateListingReference(storeName: Option<string>, sellerId: nat, sellerCreationDate: DateInput,
                                    listingCount: Option<nat>): (r: Result<string>)
    ensures r.Err? <==> sellerCreationDate.InvalidDate?
    ensures r.Err? ==> r.message == InvalidDateMessage
    ensures r.Ok? ==> ReferenceLayout(r.value, StorePart(storeName), NatToString(sellerId),
                                      FormatDateToMMDDYY(sellerCreationDate).value, NatToString(NextIndex(listingCount)))
  {
    match FormatDateToMMDDYY(sellerCreationDate)
    case Err(e) => Err(e)
    case Ok(datePart) =>
      var s := "TN" + StorePart(storeName) + NatToString(sellerId) + datePart + "_" + NatToString(NextIndex(listingCount));
      LayoutOfConcat(StorePart(storeName), NatToString(sellerId), datePart, NatToString(NextIndex(listingCount)));
      Ok(s)
  }

  /** The five pieces concatenated in order are found back at their offsets. */
  lemma LayoutOfConcat(storePart: string, sellerId: string, datePart: string, index: string)
    ensures ReferenceLayout("TN" + storePart + sellerId + datePart + "_" + index, storePart, sellerId, datePart, index)
  {
    var s := "TN" + storePart + sellerId + datePart + "_" + index;
    var a := 2 + |storePart|;
    var b := a + |sellerId|;
    var c := b + |datePart|;
    assert s[..2] == "TN";
    assert s[2..a] == storePart;
    assert s[a..b] == sellerId;
    assert s[b..c] == datePart;
    assert s[c + 1..] == index;
  }

  // ---------------------------------------------------------------- the date part

  /** The last digit of a decimal rendering is the number modulo 10. */
  lemma LastDigit(n: nat)
    ensures var s := NatToString(n); s[|s| - 1] == DigitChar(n % 10)
  {
  }

  /** Two digit characters read back as a two-digit number. */
  lemma TwoDigitsValue(a: nat, b: nat)
    requires a < 10 && b < 10
    ensures var s := [DigitChar(a), DigitChar(b)]; AllDigits(s) && DigitsValue(s) == 10 * a + b
  {
    var s := [DigitChar(a), DigitChar(b)];
    assert s[..1] == [DigitChar(a)];
    assert [DigitChar(a)][..0] == [];
    assert DigitsValue([DigitChar(a)]) == a;
  }

  /** A month 1-12 or a day 1-31 renders as two digits with that value. */
  lemma TwoDigitField(n: int)
    requires 1 <= n <= 31
    ensures var s := PadStart2(IntToString(n)); |s| == 2 && AllDigits(s) && DigitsValue(s) == n
  {
    var s := PadStart2(IntToString(n));
    if n < 10 {
      assert s == [DigitChar(0), DigitChar(n)];
      TwoDigitsValue(0, n);
    } else {
      assert NatToString(n / 10) == [DigitChar(n / 10)];
      assert s == [DigitChar(n / 10), DigitChar(n % 10)];
      TwoDigitsValue(n / 10, n % 10);
    }
  }

  /** The last two characters of a rendering of at least two digits. */
  lemma LastTwoOfRendering(n: nat)
    requires n >= 10
    ensures LastTwo(NatToString(n)) == [DigitChar((n / 10) % 10), DigitChar(n % 10)]
  {
    var q, d := n / 10, n % 10;
    var t := NatToString(n);
    var u := NatToString(q);
    assert t == u + [DigitChar(d)];
    LastDigit(q);
    var w := t[|t| - 2..];
    assert |w| == 2 && w[0] == u[|u| - 1] && w[1] == DigitChar(d);
    assert w == [DigitChar(q % 10), DigitChar(d)];
  }

  /** The tens digit and the units digit together are the number modulo 100. */
  lemma LastTwoDigitsValue(n: nat)
    ensures 10 * ((n / 10) % 10) + n % 10 == n % 100
  {
    var q := n / 10;
    var b := q % 10;
    assert n == 10 * q + n % 10;
    assert q == 10 * (q / 10) + b;
    assert n == 100 * (q / 10) + (10 * b + n % 10);
    assert 0 <= 10 * b + n % 10 < 100;
  }

  /** From year 10 on, the year part is two digits worth the year modulo 100. */
  lemma TwoDigitYear(year: int)
    requires year >= 10
    ensures var s := LastTwo(IntToString(year)); |s| == 2 && AllDigits(s) && DigitsValue(s) == year % 100
  {
    LastTwoOfRendering(year);
    TwoDigitsValue((year / 10) % 10, year % 10);
    LastTwoDigitsValue(year);
  }

  /** For a calendar date from year 10 on, the date part is exactly six digits:
      the padded month, the padded day and the year's last two digits. */
  lemma DatePartIsSixDigits(year: int, month: int, day: int)
    requires 1 <= month <= 12 && 1 <= day <= 31 && year >= 10
    ensures var r := FormatDateToMMDDYY(CalendarDate(year, month, day));
      && r.Ok? && |r.value| == 6 && AllDigits(r.value)
      && DigitsValue(r.value[..2]) == month
      && DigitsValue(r.value[2..4]) == day
      && DigitsValue(r.value[4..]) == year % 100
  {
    TwoDigitField(month);
    TwoDigitField(day);
    TwoDigitYear(year);
    var mm := PadStart2(IntToString(month));
    var dd := PadStart2(IntToString(day));
    var yy := LastTwo(IntToString(year));
    assert FormatDateToMMDDYY(CalendarDate(year, month, day)) == Ok(mm + dd + yy);
    ThreePairs(mm, dd, yy);
  }

  /** Three two-digit texts put together are six digits that split back into them. */
  lemma ThreePairs(mm: string, dd: string, yy: string)
    requires |mm| == 2 && |dd| == 2 && |yy| == 2
    requires AllDigits(mm) && AllDigits(dd) && AllDigits(yy)
    ensures var s := mm + dd + yy;
      |s| == 6 && AllDigits(s) && s[..2] == mm && s[2..4] == dd && s[4..] == yy
  {
    var s := mm + dd + yy;
    assert s[..2] == mm && s[2..4] == dd && s[4..] == yy;
    assert forall i :: 0 <= i < 2 ==> s[i] == mm[i];
    assert forall i :: 2 <= i < 4 ==> s[i] == dd[i - 2];
    assert forall i :: 4 <= i < 6 ==> s[i] == yy[i - 4];
  }

  /** Before year 10 the year part is a single digit, so the date part has only five
      characters: 2 January of year 5 gives "01025". */
  lemma ShortYearGivesFiveCharacters()
    ensures FormatDateToMMDDYY(CalendarDate(5, 1, 2)) == Ok("01025")
  {
    assert IntToString(5) == "5";
    assert IntToString(1) == "1" && IntToString(2) == "2";
    assert PadStart2("1") == "01" && PadStart2("2") == "02" && LastTwo("5") == "5";
    assert "01" + "02" + "5" == "01025";
  }

  // ---------------------------------------------------------------- the index

  /** The text after the last `c` (all of `s` when there is none). */
  function AfterLast(s: string, c: char): (r: string)
    ensures c !in r
  {
    if |s| == 0 then ""
    else if s[|s| - 1] == c then ""
    else AfterLast(s[..|s| - 1], c) + [s[|s| - 1]]
  }

  lemma {:induction false} AfterLastOf(x: string, c: char, y: string)
    requires c !in y
    ensures AfterLast(x + [c] + y, c) == y
  {
    var s := x + [c] + y;
    if |y| > 0 {
      assert s[..|s| - 1] == x + [c] + y[..|y| - 1];
      AfterLastOf(x, c, y[..|y| - 1]);
      assert y[..|y| - 1] + [y[|y| - 1]] == y;
    } else {
      assert s == x + [c];
    }
  }

  /** A digit string holds no underscore. */
  lemma DigitsHaveNoUnderscore(s: string)
    requires AllDigits(s)
    ensures '_' !in s
  {
  }

  /** Whatever the store name contains, the digits after the reference's last "_"
      read back as the listing index. */
  lemma IndexRoundTrip(storeName: Option<string>, sellerId: nat, date: DateInput, listingCount: Option<nat>)
    requires date.CalendarDate?
    ensures var r := GenerateListingReference(storeName, sellerId, date, listingCount);
      && r.Ok?
      && var tail := AfterLast(r.value, '_');
         AllDigits(tail) && DigitsValue(tail) == NextIndex(listingCount)
  {
    var r := GenerateListingReference(storeName, sellerId, date, listingCount);
    var idx := NatToString(NextIndex(listingCount));
    var head := "TN" + StorePart(storeName) + NatToString(sellerId) + FormatDateToMMDDYY(date).value;
    assert r.value == head + ['_'] + idx;
    DigitsHaveNoUnderscore(idx);
    AfterLastOf(head, '_', idx);
    DigitsValueOfNatToString(NextIndex(listingCount));
  }

  /** Two references that differ only in the listing count differ. */
  lemma CountInjective(storeName: Option<string>, sellerId: nat, date: DateInput, c1: Option<nat>, c2: Option<nat>)
    requires date.CalendarDate?
    requires NextIndex(c1) != NextIndex(c2)
    ensures GenerateListingReference(storeName, sellerId, date, c1) != GenerateListingReference(storeName, sellerId, date, c2)
  {
    IndexRoundTrip(storeName, sellerId, date, c1);
    IndexRoundTrip(storeName, sellerId, date, c2);
  }

  /** A missing or zero count both give index 1, so they share a reference. */
  lemma MissingCountIsZero(storeName: Option<string>, sellerId: nat, date: DateInput)
    ensures GenerateListingReference(storeName, sellerId, date, None) == GenerateListingReference(storeName, sellerId, date, Some(0))
  {
  }

  /** The store prefix and the seller id are written side by side, so a store name
      ending in a digit can give another seller's reference: store "AB1" with
      seller 2 and store "AB" with seller 12 produce the same code. */
  lemma StorePrefixAndSellerIdCanCollide(date: DateInput, listingCount: Option<nat>)
    ensures GenerateListingReference(Some("AB1"), 2, date, listingCount) ==
            GenerateListingReference(Some("AB"), 12, date, listingCount)
  {
    assert StorePart(Some("AB1")) == "AB1";
    assert StorePart(Some("AB")) == "AB";
    assert NatToString(2) == "2";
    assert NatToString(12) == "12";
    assert "TN" + "AB1" + "2" == "TN" + "AB" + "12";
  }
}
