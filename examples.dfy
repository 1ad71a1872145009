/** Concrete scenarios for the repository's selection rules. The names are passed as
    parameters fixed by the precondition, which keeps the verifier from unrolling the
    substring search over every literal. */
module Examples {
  import opened Text
  import opened Seqs
  import opened Model
  import opened Repository

  lemma LowerSbi(s: string)
    requires s == "SBI Bluechip Growth"
    ensures Lower(s) == "sbi bluechip growth"
  {
  }

  lemma LowerXyz(s: string)
    requires s == "XYZ Bond Fund"
    ensures Lower(s) == "xyz bond fund"
  {
  }

  lemma LowerBond(q: string)
    requires q == "bond"
    ensures Lower(q) == "bond"
  {
  }

  /** "SBI Bluechip Growth" is an Equity fund from a listed fund house, and "bond" is not in its name. */
  lemma SbiBluechipGrowth(s: string, q: string)
    requires s == "SBI Bluechip Growth" && q == "bond"
    ensures CategorizeScheme(s) == "Equity"
    ensures IsPopularHouse(s)
    ensures !ContainsIgnoreCase(s, q)
  {
    LowerSbi(s);
    LowerBond(q);
    OccurrenceContained(Lower(s), "growth", 13);
    OccurrenceContained(Lower(s), "sbi", 0);
    MissingCharNotContained(Lower(s), Lower(q), 'n');
  }

  /** The letters of "xyz bond fund". */
  const XyzLetters: set<char> := {'x', 'y', 'z', ' ', 'b', 'o', 'n', 'd', 'f', 'u'}

  /** Every character of the name is one of those letters. */
  predicate XyzSpelt(name: string) {
    forall i :: 0 <= i < |name| ==> name[i] in XyzLetters
  }

  lemma XyzAlphabet(name: string)
    requires name == "xyz bond fund"
    ensures XyzSpelt(name)
  {
  }

  /** A word with a letter such a name never uses does not occur in it. */
  lemma Avoids(name: string, word: string, c: char)
    requires XyzSpelt(name) && c in word && c !in XyzLetters
    ensures !Contains(name, word)
  {
    OutsideAlphabetNotContained(name, XyzLetters, word, c);
  }

  /** No equity keyword occurs in a name spelt with the letters of "xyz bond fund". */
  lemma NoEquityKeyword(name: string)
    requires XyzSpelt(name)
    ensures !Contains(name, "equity") && !Contains(name, "growth") && !Contains(name, "midcap")
    ensures !Contains(name, "largecap") && !Contains(name, "smallcap") && !Contains(name, "multicap")
  {
    Avoids(name, "equity", 'q');
    Avoids(name, "growth", 'g');
    Avoids(name, "midcap", 'm');
    Avoids(name, "largecap", 'l');
    Avoids(name, "smallcap", 's');
    Avoids(name, "multicap", 'm');
  }

  /** No listed fund house occurs in a name spelt with the letters of "xyz bond fund". */
  lemma NoFundHouse(name: string)
    requires XyzSpelt(name)
    ensures !Contains(name, "sbi") && !Contains(name, "hdfc") && !Contains(name, "icici")
    ensures !Contains(name, "axis") && !Contains(name, "kotak") && !Contains(name, "birla")
    ensures !Contains(name, "reliance") && !Contains(name, "nippon") && !Contains(name, "uti")
  {
    Avoids(name, "sbi", 's');
    Avoids(name, "hdfc", 'h');
    Avoids(name, "icici", 'i');
    Avoids(name, "axis", 'a');
    Avoids(name, "kotak", 'k');
    Avoids(name, "birla", 'i');
    Avoids(name, "reliance", 'r');
    Avoids(name, "nippon", 'i');
    Avoids(name, "uti", 't');
  }

  /** A name with no equity keyword that mentions "bond" is a Debt fund. */
  lemma DebtByBond(schemeName: string)
    requires XyzSpelt(Lower(schemeName)) && Contains(Lower(schemeName), "bond")
    ensures CategorizeScheme(schemeName) == "Debt"
  {
    NoEquityKeyword(Lower(schemeName));
  }

  lemma XyzIsDebt(s: string)
    requires s == "XYZ Bond Fund"
    ensures CategorizeScheme(s) == "Debt"
  {
    LowerXyz(s);
    XyzAlphabet(Lower(s));
    OccurrenceContained(Lower(s), "bond", 4);
    DebtByBond(s);
  }

  lemma XyzNotPopular(s: string)
    requires s == "XYZ Bond Fund"
    ensures !IsPopularHouse(s)
  {
    LowerXyz(s);
    XyzAlphabet(Lower(s));
    NoFundHouse(Lower(s));
  }

  lemma XyzMatchesBond(s: string, q: string)
    requires s == "XYZ Bond Fund" && q == "bond"
    ensures ContainsIgnoreCase(s, q)
  {
    LowerXyz(s);
    LowerBond(q);
    OccurrenceContained(Lower(s), "bond", 4);
  }

  /** "XYZ Bond Fund" is a Debt fund from no listed fund house, and a search for "bond" finds it. */
  lemma XyzBondFund(s: string, q: string)
    requires s == "XYZ Bond Fund" && q == "bond"
    ensures CategorizeScheme(s) == "Debt"
    ensures !IsPopularHouse(s)
    ensures ContainsIgnoreCase(s, q)
  {
    XyzIsDebt(s);
    XyzNotPopular(s);
    XyzMatchesBond(s, q);
  }

  /** Given the funds "SBI Bluechip Growth" and "XYZ Bond Fund", the top 50 are the
      first alone, classified Equity. */
  lemma TopScenario(dtos: seq<MutualFundListDto>)
    requires dtos == [MutualFundListDto("100", "SBI Bluechip Growth"), MutualFundListDto("200", "XYZ Bond Fund")]
    ensures TopFunds(dtos, 50) == [MutualFund("100", "SBI Bluechip Growth", Some("Equity"))]
  {
    SbiBluechipGrowth(dtos[0].schemeName, "bond");
    XyzBondFund(dtos[1].schemeName, "bond");
    TopFindsFirst(dtos, 50);
  }

  /** Of two funds, when only the first names a listed fund house, the top funds are the
      first alone. */
  lemma TopFindsFirst(dtos: seq<MutualFundListDto>, limit: nat)
    requires |dtos| == 2 && IsPopularHouse(dtos[0].schemeName) && !IsPopularHouse(dtos[1].schemeName)
    requires limit >= 1
    ensures TopFunds(dtos, limit) == [ToMutualFund(dtos[0])]
  {
    var p := (d: MutualFundListDto) => IsPopularHouse(d.schemeName);
    assert dtos[1..][1..] == [];
    assert Filter(dtos[1..], p) == [];
    assert PopularFunds(dtos) == [dtos[0]];
    assert Take([dtos[0]], limit) == [dtos[0]];
  }

  /** Of two funds, a query only the second matches finds the second alone. */
  lemma SearchFindsSecond(dtos: seq<MutualFundListDto>, q: string)
    requires |dtos| == 2 && !NameMatches(dtos[0], q) && NameMatches(dtos[1], q)
    ensures SearchFunds(dtos, q) == [ToMutualFund(dtos[1])]
  {
    var p := (d: MutualFundListDto) => NameMatches(d, q);
    assert dtos[1..][1..] == [];
    assert Filter(dtos[1..], p) == [dtos[1]];
  }

  /** On the same funds, a search for "bond" finds the second alone, classified Debt. */
  lemma SearchScenario(dtos: seq<MutualFundListDto>, q: string)
    requires dtos == [MutualFundListDto("100", "SBI Bluechip Growth"), MutualFundListDto("200", "XYZ Bond Fund")]
    requires q == "bond"
    ensures SearchFunds(dtos, q) == [MutualFund("200", "XYZ Bond Fund", Some("Debt"))]
  {
    SbiBluechipGrowth(dtos[0].schemeName, q);
    XyzBondFund(dtos[1].schemeName, q);
    SearchFindsSecond(dtos, q);
  }
}
