/** The season-year decoder of `TeamsData`: a season is packed as one
    integer whose decimal text is its two years side by side (20202021 is
    the 2020-2021 season). */
module Seasons {
  import opened Wrappers
  import opened Json

  /** A decoded season: the start year and the end year. */
  datatype StartEndSeason = StartEndSeason(start: int, end: int)

  /** The message of the ValueError raised for a malformed season. */
  const SeasonFormatMessage: string :=
    "Date must be type int with two years concatenated in format YYYYYYYY"

  function Pow10(k: nat): nat
  {
    if k == 0 then 1 else 10 * Pow10(k - 1)
  }

  function DigitChar(d: nat): char
    requires d < 10
  {
    "0123456789"[d]
  }

  /** The decimal text of a natural number, most significant digit first. */
  function ShowNat(n: nat): (s: string)
    ensures |s| >= 1
  {
    if n < 10 then [DigitChar(n)] else ShowNat(n / 10) + [DigitChar(n % 10)]
  }

  /** Python's `str(n)` for an integer: a leading `-` for a negative number. */
  function Show(n: int): string
  {
    if n < 0 then "-" + ShowNat(-n) else ShowNat(n)
  }

  /** The decimal text of `n` has at most `k` digits exactly when `n < 10^k`. */
  lemma {:induction false} ShowNatLength(n: nat, k: nat)
    requires k >= 1
    ensures |ShowNat(n)| <= k <==> n < Pow10(k)
  {
    if n < 10 {
      Pow10AtLeastTen(k);
    } else if k == 1 {
      assert |ShowNat(n)| == |ShowNat(n / 10)| + 1;
    } else {
      ShowNatLength(n / 10, k - 1);
    }
  }

  lemma {:induction false} Pow10AtLeastTen(k: nat)
    requires k >= 1
    ensures Pow10(k) >= 10
  {
    if k > 1 {
      Pow10AtLeastTen(k - 1);
    }
  }

  /** The integers whose decimal text, sign included, is 8 characters long:
      the 8-digit numbers and the negated 7-digit numbers. */
  predicate SeasonDomain(date: int)
  {
    (10000000 <= date <= 99999999) || (-9999999 <= date <= -1000000)
  }

  /** `len(str(date)) == 8` holds exactly on the season domain. */
  lemma ShowLengthEight(date: int)
    ensures |Show(date)| == 8 <==> SeasonDomain(date)
  {
    var n: nat := if date < 0 then -date else date;
    ShowNatLength(n, 8);
    ShowNatLength(n, 7);
    ShowNatLength(n, 6);
    assert Pow10(6) == 1000000;
  }

  /** `TeamsData.split_season_years`: accepts `date` exactly when its decimal
      text is 8 characters long, and then splits it by floor division and
      modulo by 10000 (Dafny's `/` and `%` agree with Python's `//` and `%`
      for the positive divisor 10000). */
  function SplitSeasonYears(date: int): (r: Result<StartEndSeason, Error>)
    ensures r.Success? <==> SeasonDomain(date)
    ensures r.Failure? ==> r.error == ValueError(SeasonFormatMessage)
    ensures r.Success? ==> r.value.start * 10000 + r.value.end == date && 0 <= r.value.end < 10000
    ensures r.Success? && date > 0 ==> 1000 <= r.value.start <= 9999
    ensures r.Success? && date < 0 ==> -1000 <= r.value.start <= -100
  {
    ShowLengthEight(date);
    if |Show(date)| != 8 then Failure(ValueError(SeasonFormatMessage))
    else Success(StartEndSeason(date / 10000, date % 10000))
  }

  /** The packed integer of a season. */
  function Pack(s: StartEndSeason): int
  {
    s.start * 10000 + s.end
  }

  /** Decoding undoes packing for every season whose end fits in four digits
      and whose packed form is in the domain. */
  lemma PackRoundTrip(s: StartEndSeason)
    requires 0 <= s.end < 10000 && SeasonDomain(Pack(s))
    ensures SplitSeasonYears(Pack(s)) == Success(s)
  {
  }

  /** Packing undoes decoding. */
  lemma SplitRoundTrip(date: int)
    requires SeasonDomain(date)
    ensures Pack(SplitSeasonYears(date).value) == date
  {
  }

  /** The season 20202021 is 2020 to 2021. */
  lemma SeasonExample()
    ensures SplitSeasonYears(20202021) == Success(StartEndSeason(2020, 2021))
  {
  }

  /** The sign counts as a character: a negated 7-digit number is accepted. */
  lemma NegativeSevenDigitsAccepted()
    ensures SplitSeasonYears(-1234567) == Success(StartEndSeason(-124, 5433))
  {
  }

  /** Four and nine digits are rejected. */
  lemma WrongLengthsRejected()
    ensures SplitSeasonYears(2020) == Failure(ValueError(SeasonFormatMessage))
    ensures SplitSeasonYears(202020211) == Failure(ValueError(SeasonFormatMessage))
  {
  }

  /** `TeamsData.season_years_list`: decodes every date in order, appending one
      season per date; the first malformed date raises and no list is returned. */
  method SeasonYearsList(dates: seq<int>) returns (r: Result<seq<StartEndSeason>, Error>)
    ensures r.Success? <==> forall i :: 0 <= i < |dates| ==> SeasonDomain(dates[i])
    ensures r.Success? ==> |r.value| == |dates|
    ensures r.Success? ==> forall i :: 0 <= i < |dates| ==> SplitSeasonYears(dates[i]) == Success(r.value[i])
    ensures r.Failure? ==> r.error == ValueError(SeasonFormatMessage)
  {
    var result: seq<StartEndSeason> := [];
    for k := 0 to |dates|
      invariant |result| == k
      invariant forall i :: 0 <= i < k ==> SeasonDomain(dates[i])
      invariant forall i :: 0 <= i < k ==> SplitSeasonYears(dates[i]) == Success(result[i])
    {
      var season := SplitSeasonYears(dates[k]);
      if season.Failure? {
        return Failure(season.error);
      }
      result := result + [season.value];
    }
    return Success(result);
  }
}
