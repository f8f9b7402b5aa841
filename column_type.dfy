/** The column-type classifier of the typed table accessor.

    The column catalogue reports each column's type as a string such as
    "int(11)" or "VARCHAR(255)". The classifier folds that string to lower
    case and matches it by prefix against three keywords; a string that
    matches none of them has no type, and the column is not used. */
module ColumnTypes {

  /** The scalar coercions the accessor applies when it reads a cell. */
  datatype ColumnType = STRING | INT | FLOAT

  /** "No type" is `None`: the classifier's `undefined`. */
  datatype Option<T> = None | Some(value: T)

  const IntPrefix: string := "int"
  const VarcharPrefix: string := "varchar"
  const FloatPrefix: string := "float"

  /** Lower-casing of one character. The accessor runs as Lua, where lower-casing
      is the C library's, so only the letters 'A' to 'Z' change. */
  function LowerChar(c: char): (r: char)
    ensures !('A' <= r <= 'Z')
    ensures 'A' <= c <= 'Z' ==> r as int == c as int + 32
    ensures !('A' <= c <= 'Z') ==> r == c
  {
    if 'A' <= c <= 'Z' then (c as int - 'A' as int + 'a' as int) as char else c
  }

  /** Upper-casing of one character, the inverse direction of `LowerChar`;
      it builds upper-case inputs for the case-folding lemmas. */
  function UpperChar(c: char): (r: char)
    ensures 'a' <= c <= 'z' ==> r as int == c as int - 32
    ensures !('a' <= c <= 'z') ==> r == c
    ensures LowerChar(r) == LowerChar(c)
  {
    if 'a' <= c <= 'z' then (c as int - 'a' as int + 'A' as int) as char else c
  }

  /** The lower-cased copy of a string, character by character. */
  function Lower(s: string): (r: string)
    ensures |r| == |s|
    ensures forall i :: 0 <= i < |s| ==> r[i] == LowerChar(s[i])
  {
    if s == [] then [] else [LowerChar(s[0])] + Lower(s[1..])
  }

  /** The upper-cased copy of a string, character by character. */
  function Upper(s: string): (r: string)
    ensures |r| == |s|
    ensures forall i :: 0 <= i < |s| ==> r[i] == UpperChar(s[i])
  {
    if s == [] then [] else [UpperChar(s[0])] + Upper(s[1..])
  }

  /** Two strings that differ at most in the case of their letters. */
  predicate EqualIgnoringCase(a: string, b: string)
  {
    |a| == |b| && forall i :: 0 <= i < |a| ==> LowerChar(a[i]) == LowerChar(b[i])
  }

  /** No string starts with two of the keywords, so the order in which the
      classifier tries them does not matter. */
  lemma PrefixesDisjoint(s: string)
    ensures !(IntPrefix <= s && VarcharPrefix <= s)
    ensures !(IntPrefix <= s && FloatPrefix <= s)
    ensures !(VarcharPrefix <= s && FloatPrefix <= s)
  {
    if IntPrefix <= s { assert s[0] == 'i'; }
    if VarcharPrefix <= s { assert s[0] == 'v'; }
  }

  /** The classifier: lower-case, then the first keyword the string starts
      with decides the type. */
  function GetColumnType(input: string): (r: Option<ColumnType>)
    ensures r == Some(INT) <==> IntPrefix <= Lower(input)
    ensures r == Some(STRING) <==> VarcharPrefix <= Lower(input)
    ensures r == Some(FLOAT) <==> FloatPrefix <= Lower(input)
    ensures r == None <==>
      !(IntPrefix <= Lower(input)) && !(VarcharPrefix <= Lower(input)) && !(FloatPrefix <= Lower(input))
  {
    var low := Lower(input);
    PrefixesDisjoint(low);
    if IntPrefix <= low then Some(INT)
    else if VarcharPrefix <= low then Some(STRING)
    else if FloatPrefix <= low then Some(FLOAT)
    else None
  }

  /** Strings equal up to case are classified alike. */
  lemma CaseInsensitive(a: string, b: string)
    requires EqualIgnoringCase(a, b)
    ensures GetColumnType(a) == GetColumnType(b)
  {
    assert Lower(a) == Lower(b);
  }

  /** Lower-casing the input first, or upper-casing it, changes nothing. */
  lemma CaseFoldingInvariant(s: string)
    ensures GetColumnType(Lower(s)) == GetColumnType(s)
    ensures GetColumnType(Upper(s)) == GetColumnType(s)
  {
    CaseInsensitive(Lower(s), s);
    CaseInsensitive(Upper(s), s);
  }

  /** A string whose first characters fold to the keyword `p` starts,
      once lower-cased, with `p`. */
  lemma FoldsToPrefix(s: string, p: string)
    requires |p| <= |s|
    requires forall i :: 0 <= i < |p| ==> LowerChar(s[i]) == p[i]
    ensures p <= Lower(s)
  {
    assert Lower(s)[..|p|] == p;
  }

  /** The keyword decides by prefix alone: whatever follows it (a width, a
      character set, "unsigned") does not matter, in either letter case. */
  lemma {:induction false} KeywordThenAnything(suffix: string)
    ensures GetColumnType(IntPrefix + suffix) == Some(INT)
    ensures GetColumnType(Upper(IntPrefix) + suffix) == Some(INT)
    ensures GetColumnType(VarcharPrefix + suffix) == Some(STRING)
    ensures GetColumnType(Upper(VarcharPrefix) + suffix) == Some(STRING)
    ensures GetColumnType(FloatPrefix + suffix) == Some(FLOAT)
    ensures GetColumnType(Upper(FloatPrefix) + suffix) == Some(FLOAT)
  {
    FoldsToPrefix(IntPrefix + suffix, IntPrefix);
    FoldsToPrefix(Upper(IntPrefix) + suffix, IntPrefix);
    FoldsToPrefix(VarcharPrefix + suffix, VarcharPrefix);
    FoldsToPrefix(Upper(VarcharPrefix) + suffix, VarcharPrefix);
    FoldsToPrefix(FloatPrefix + suffix, FloatPrefix);
    FoldsToPrefix(Upper(FloatPrefix) + suffix, FloatPrefix);
  }

  /** A string whose first character folds to none of 'i', 'v' and 'f' has
      no type. */
  lemma NoKeywordHead(s: string)
    requires s == [] || LowerChar(s[0]) !in {'i', 'v', 'f'}
    ensures GetColumnType(s) == None
  {
    if s != [] { assert Lower(s)[0] == LowerChar(s[0]); }
  }

  /** Type names this revision does not know, among them the wider and
      narrower integers, text and double precision: the column has no type. */
  lemma UnrecognisedTypes()
    ensures GetColumnType("bigint(20)") == None
    ensures GetColumnType("TINYINT(1)") == None
    ensures GetColumnType("text") == None
    ensures GetColumnType("double") == None
    ensures GetColumnType("") == None
  {
    NoKeywordHead("bigint(20)");
    NoKeywordHead("TINYINT(1)");
    NoKeywordHead("text");
    NoKeywordHead("double");
    NoKeywordHead("");
  }
}
