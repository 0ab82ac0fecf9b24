/**
 * The permissive boolean token parser used when a template hands a
 * boolean property over as a string (yamlbool.go).
 */
module YamlBool {
  import opened Wrappers

  /** The tokens of the first `case` of UnmarshalText's switch. */
  const TrueTokens: set<string> :=
    {"y", "Y", "yes", "Yes", "YES", "true", "True", "TRUE", "on", "On", "ON"}

  /** The tokens of the second `case`. */
  const FalseTokens: set<string> :=
    {"n", "N", "no", "No", "NO", "false", "False", "FALSE", "off", "Off", "OFF"}

  /** The words behind each token set, all in lower case. */
  const TrueWords: seq<string> := ["y", "yes", "true", "on"]
  const FalseWords: seq<string> := ["n", "no", "false", "off"]

  /** ASCII upper-casing of one character; every other character is kept. */
  function UpperChar(c: char): (u: char)
    ensures 'a' <= c <= 'z' ==> 'A' <= u <= 'Z'
    ensures !('a' <= c <= 'z') ==> u == c
  {
    if 'a' <= c <= 'z' then (c as int - 'a' as int + 'A' as int) as char else c
  }

  /** The word written all in capitals. */
  function Upper(s: string): (u: string)
    ensures |u| == |s|
  {
    if s == [] then [] else [UpperChar(s[0])] + Upper(s[1..])
  }

  /** The word with only its first letter a capital. */
  function Title(s: string): (t: string)
    ensures |t| == |s|
  {
    if s == [] then [] else [UpperChar(s[0])] + s[1..]
  }

  /** `b` is `w` in one of the three spellings the switch lists: lower, Title or UPPER case. */
  predicate SpelledAs(b: string, w: string) {
    b == w || b == Title(w) || b == Upper(w)
  }

  /** `b` spells one of `words`. */
  predicate SpellsOneOf(b: string, words: seq<string>) {
    exists i :: 0 <= i < |words| && SpelledAs(b, words[i])
  }

  /**
   * The switch of UnmarshalText as a value: Some(true) and Some(false) for
   * the two token lists, None for the `default` branch. The result is
   * characterised independently of the token lists: y/yes/true/on give true
   * and n/no/false/off give false, each only in lower, Title or UPPER case.
   */
  function Parse(b: string): (r: Option<bool>)
    ensures r == Some(true) <==> SpellsOneOf(b, TrueWords)
    ensures r == Some(false) <==> SpellsOneOf(b, FalseWords)
    ensures r == None <==> !SpellsOneOf(b, TrueWords) && !SpellsOneOf(b, FalseWords)
  {
    SpellingsAreTokens(b);
    if b in TrueTokens then Some(true)
    else if b in FalseTokens then Some(false)
    else None
  }

  /** The token lists are exactly the three spellings of the four words of each polarity. */
  lemma SpellingsAreTokens(b: string)
    ensures b in TrueTokens <==> SpellsOneOf(b, TrueWords)
    ensures b in FalseTokens <==> SpellsOneOf(b, FalseWords)
  {
    TrueSpellings(b);
    FalseSpellings(b);
  }

  lemma TrueSpellings(b: string)
    ensures b in TrueTokens <==> SpellsOneOf(b, TrueWords)
  {
    TrueWordSpellings();
    SpellsOneOfFour(b, TrueWords);
  }

  lemma FalseSpellings(b: string)
    ensures b in FalseTokens <==> SpellsOneOf(b, FalseWords)
  {
    FalseWordSpellings();
    SpellsOneOfFour(b, FalseWords);
  }

  /** The Title and UPPER spellings of the four true words. */
  lemma TrueWordSpellings()
    ensures Title("y") == "Y" && Upper("y") == "Y"
    ensures Title("yes") == "Yes" && Upper("yes") == "YES"
    ensures Title("true") == "True" && Upper("true") == "TRUE"
    ensures Title("on") == "On" && Upper("on") == "ON"
  {
  }

  /** The Title and UPPER spellings of the four false words. */
  lemma FalseWordSpellings()
    ensures Title("n") == "N" && Upper("n") == "N"
    ensures Title("no") == "No" && Upper("no") == "NO"
    ensures Title("false") == "False" && Upper("false") == "FALSE"
    ensures Title("off") == "Off" && Upper("off") == "OFF"
  {
  }

  /** Spelling one of a four-word list is spelling one of its four words. */
  lemma SpellsOneOfFour(b: string, words: seq<string>)
    requires |words| == 4
    ensures SpellsOneOf(b, words) <==>
      SpelledAs(b, words[0]) || SpelledAs(b, words[1]) || SpelledAs(b, words[2]) || SpelledAs(b, words[3])
  {
    if SpellsOneOf(b, words) {
      var i :| 0 <= i < |words| && SpelledAs(b, words[i]);
      assert i == 0 || i == 1 || i == 2 || i == 3;
    }
  }

  /** No token parses both ways. */
  lemma TokensDisjoint()
    ensures forall b :: b in TrueTokens ==> b !in FalseTokens
  {
    forall b | b in TrueTokens
      ensures b !in FalseTokens
    {
      assert b[0] in "yYtToO";
    }
  }

  /** Mixed case, digits and the empty text fall to the `default` branch. */
  lemma OtherTokensRejected()
    ensures Parse("yEs") == None && Parse("1") == None && Parse("") == None
  {
    MixedCaseRejected();
    assert "1"[0] == '1';
  }

  lemma MixedCaseRejected()
    ensures "yEs" !in TrueTokens && "yEs" !in FalseTokens
  {
    assert "yEs"[1] == 'E';
  }

  /** The error UnmarshalText returns for a token it does not know. */
  datatype ParseError = CannotParse(input: string)

  /** A boolean property that a template may have written as a YAML token. */
  class YAMLBool {
    var value: bool

    constructor (v: bool)
      ensures value == v
    {
      value := v;
    }

    /**
     * Parses `b`, writing the result into this object; on an unknown token
     * it returns the error and leaves the object as it was.
     */
    method UnmarshalText(b: string) returns (err: Option<ParseError>)
      modifies this
      ensures err == None <==> Parse(b).Some?
      ensures err.Some? ==> err.value == CannotParse(b) && value == old(value)
      ensures err.None? ==> value == Parse(b).value
    {
      if b in TrueTokens {
        value := true;
      } else if b in FalseTokens {
        value := false;
      } else {
        return Some(CannotParse(b));
      }
      return None;
    }
  }
}
