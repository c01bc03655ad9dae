/**
 * `getInvestorType` of lib/investor-types.ts: a case-insensitive lookup in
 * the type catalog that yields no record for an unknown code.
 */
module TypeLookup {
  import opened Wrappers
  import opened InvestorCatalog

  /** `toUpperCase` on one character, for ASCII letters. */
  function UpperChar(c: char): (u: char)
    ensures 'a' <= c <= 'z' ==> 'A' <= u <= 'Z' && u as int == c as int - 32
    ensures !('a' <= c <= 'z') ==> u == c
  {
    if 'a' <= c <= 'z' then (c as int - 32) as char else c
  }

  /** `toUpperCase` on a string, for ASCII letters. */
  function ToUpper(s: string): (u: string)
    ensures |u| == |s|
    ensures forall i :: 0 <= i < |s| ==> u[i] == UpperChar(s[i])
  {
    if s == [] then [] else [UpperChar(s[0])] + ToUpper(s[1..])
  }

  /** The record for the upper-cased code, or None when it is not a key. */
  function GetInvestorType(code: string): (r: Option<TypeRecord>)
    ensures r.Some? <==> ValidCode(ToUpper(code))
    ensures r.Some? ==> ToUpper(code) in TypeCatalog && r.value == TypeCatalog[ToUpper(code)]
    ensures r.Some? ==> r.value.code == ToUpper(code)
  {
    var key := ToUpper(code);
    CatalogKeysAreValidCodes(key);
    if key in TypeCatalog then
      RecordCodesMatchKeys(key);
      Some(TypeCatalog[key])
    else
      None
  }

  /** Codes that differ only in the case of ASCII letters find the same record. */
  lemma LookupIgnoresCase(a: string, b: string)
    requires |a| == |b|
    requires forall i :: 0 <= i < |a| ==> UpperChar(a[i]) == UpperChar(b[i])
    ensures GetInvestorType(a) == GetInvestorType(b)
  {
    assert ToUpper(a) == ToUpper(b);
  }

  /** "ratd" and "RATD" find the same record, whose code is "RATD". */
  lemma LowerCaseExample()
    ensures GetInvestorType("ratd") == GetInvestorType("RATD") == Some(TypeCatalog["RATD"])
  {
    LookupIgnoresCase("ratd", "RATD");
    assert ToUpper("RATD") == "RATD";
  }

  /** A lookup succeeds exactly for four characters that are, in either case,
      one letter of each axis in axis order. */
  lemma LookupSucceedsExactly(code: string)
    ensures GetInvestorType(code).Some? <==>
      && |code| == 4
      && UpperChar(code[0]) in AxisLetters(Risk)
      && UpperChar(code[1]) in AxisLetters(Decision)
      && UpperChar(code[2]) in AxisLetters(Time)
      && UpperChar(code[3]) in AxisLetters(Judge)
  {
  }

  /** Every valid code finds its own record (round trip). */
  lemma LookupRoundTrip(code: string)
    requires ValidCode(code)
    ensures code in TypeCatalog && GetInvestorType(code) == Some(TypeCatalog[code])
    ensures GetInvestorType(code).value.code == code
  {
    assert ToUpper(code) == code;
    CatalogKeysAreValidCodes(code);
  }

  /** Every code a record refers to in its match lists can be looked up. */
  lemma MatchesLookUp(code: string, m: string)
    requires code in TypeCatalog && m in TypeCatalog[code].Referenced()
    ensures GetInvestorType(m).Some?
  {
    MatchesResolve(code, m);
    CatalogKeysAreValidCodes(m);
    LookupRoundTrip(m);
  }
}
