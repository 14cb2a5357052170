/** The twelve months of the `Month` enum and its lenient parser `fromString`. */
module Months {
  import opened Results
  import opened JavaText

  datatype Month =
    | JANUARY | FEBRUARY | MARCH | APRIL | MAY | JUNE
    | JULY | AUGUST | SEPTEMBER | OCTOBER | NOVEMBER | DECEMBER

  /** `Month.values()`, in calendar order. */
  const MonthValues: seq<Month> :=
    [JANUARY, FEBRUARY, MARCH, APRIL, MAY, JUNE,
     JULY, AUGUST, SEPTEMBER, OCTOBER, NOVEMBER, DECEMBER]

  /** Text made only of the letters 'A'..'Z'. */
  predicate CapitalLetters(s: string) {
    forall i :: 0 <= i < |s| ==> 'A' <= s[i] <= 'Z'
  }

  /** `m.name()`: the constant's identifier, in capitals. */
  function Name(m: Month): (r: string)
    ensures r != [] && CapitalLetters(r)
  {
    match m
    case JANUARY => "JANUARY"
    case FEBRUARY => "FEBRUARY"
    case MARCH => "MARCH"
    case APRIL => "APRIL"
    case MAY => "MAY"
    case JUNE => "JUNE"
    case JULY => "JULY"
    case AUGUST => "AUGUST"
    case SEPTEMBER => "SEPTEMBER"
    case OCTOBER => "OCTOBER"
    case NOVEMBER => "NOVEMBER"
    case DECEMBER => "DECEMBER"
  }

  /** `m.ordinal()`: months are numbered 0..11 in calendar order. */
  function MonthOrdinal(m: Month): (r: nat)
    ensures r < |MonthValues| == 12 && MonthValues[r] == m
  {
    match m
    case JANUARY => 0
    case FEBRUARY => 1
    case MARCH => 2
    case APRIL => 3
    case MAY => 4
    case JUNE => 5
    case JULY => 6
    case AUGUST => 7
    case SEPTEMBER => 8
    case OCTOBER => 9
    case NOVEMBER => 10
    case DECEMBER => 11
  }

  /** Names are upper-case and carry no padding, so they survive normalisation. */
  lemma NameIsNormal(m: Month)
    ensures IsTrimmed(Name(m)) && ToUpperCase(Name(m)) == Name(m)
  {
    UpperOfUpper(Name(m));
  }

  /** The first of `vs` whose name is `name`. */
  function Lookup(name: string, vs: seq<Month>): (r: Option<Month>)
    ensures r.Some? ==> r.value in vs && Name(r.value) == name
    ensures r.None? ==> forall m :: m in vs ==> Name(m) != name
  {
    if vs == [] then None
    else if Name(vs[0]) == name then Some(vs[0])
    else Lookup(name, vs[1..])
  }

  /** Every month is among `Month.values()`. */
  lemma AllListed()
    ensures forall m :: m in MonthValues
  {
    forall m
      ensures m in MonthValues
    {
      assert MonthValues[MonthOrdinal(m)] == m;
    }
  }

  /** `Month.valueOf(name)`: an exact, case-sensitive match of a constant's name,
      looked up among the constants. */
  function ValueOf(name: string): (r: Result<Month>)
    ensures r.Success? ==> Name(r.value) == name
    ensures r.Failure? ==> forall m :: Name(m) != name
    ensures r.Failure? ==>
      r.error == IllegalArgument("No enum constant com.geektrust.backend.constants.Month." + name)
  {
    AllListed();
    match Lookup(name, MonthValues)
    case Some(m) => Success(m)
    case None => Failure(IllegalArgument("No enum constant com.geektrust.backend.constants.Month." + name))
  }

  /** `Month.fromString(s)`: trim, upper-case, then `valueOf`. */
  function FromString(s: string): (r: Result<Month>)
    ensures r.Success? <==> exists m :: Name(m) == ToUpperCase(Trim(s))
    ensures r.Success? ==> Name(r.value) == ToUpperCase(Trim(s))
  {
    ValueOf(ToUpperCase(Trim(s)))
  }

  /** `valueOf(m.name()) == m` */
  lemma ValueOfName(m: Month)
    ensures ValueOf(Name(m)) == Success(m)
  {
    AllListed();
    var r := ValueOf(Name(m));
    NameInjective(r.value, m);
  }

  /** Round trip: parsing a month's own name gives that month back. */
  lemma FromStringOfName(m: Month)
    ensures FromString(Name(m)) == Success(m)
  {
    NameIsNormal(m);
    FromStringLenient(m, [], Name(m), []);
    assert [] + Name(m) + [] == Name(m);
  }

  /** Surrounding blanks and lower-case letters are ignored: " January ", "june" and
      "DECEMBER" all parse. */
  lemma FromStringLenient(m: Month, pre: string, body: string, post: string)
    requires AllBlank(pre) && AllBlank(post)
    requires ToUpperCase(body) == Name(m)
    ensures FromString(pre + body + post) == Success(m)
  {
    NameIsNormal(m);
    assert IsTrimmed(body) by {
      assert UpperChar(body[0]) == Name(m)[0];
      assert UpperChar(body[|body| - 1]) == Name(m)[|Name(m)| - 1];
    }
    TrimPadded(pre, body, post);
    ValueOfName(m);
  }

  /** The month a name spells, told by its length and its first and third letters. */
  function MonthOfName(s: string): Option<Month>
  {
    if |s| < 3 then None
    else if |s| == 7 && s[0] == 'J' then Some(JANUARY)
    else if |s| == 8 && s[0] == 'F' then Some(FEBRUARY)
    else if |s| == 5 && s[0] == 'M' then Some(MARCH)
    else if |s| == 5 && s[0] == 'A' then Some(APRIL)
    else if |s| == 3 && s[0] == 'M' then Some(MAY)
    else if |s| == 4 && s[2] == 'N' then Some(JUNE)
    else if |s| == 4 && s[2] == 'L' then Some(JULY)
    else if |s| == 6 && s[0] == 'A' then Some(AUGUST)
    else if |s| == 9 && s[0] == 'S' then Some(SEPTEMBER)
    else if |s| == 7 && s[0] == 'O' then Some(OCTOBER)
    else if |s| == 8 && s[0] == 'N' then Some(NOVEMBER)
    else if |s| == 8 && s[0] == 'D' then Some(DECEMBER)
    else None
  }

  lemma MonthOfItsName(m: Month)
    ensures MonthOfName(Name(m)) == Some(m)
  {
  }

  /** Months are told apart by their names. */
  lemma NameInjective(m: Month, n: Month)
    requires Name(m) == Name(n)
    ensures m == n
  {
    MonthOfItsName(m);
    MonthOfItsName(n);
  }
}
