/**
 * The fixed-token prefix matcher of src/tokeniser.rs: a token is the first
 * entry of a fixed table whose text is a prefix of the input.
 */
module Tokeniser {
  import opened Wrappers

  datatype TokenType =
    | Nil
    | True
    | False
    | OpenParen
    | CloseParen
    | OpenBrace
    | CloseBrace
    | Dot
    | SemiColon
    | Comma
    | Bang
    | String(text: string)
    | Symbol(name: string)

  datatype Token = Token(tokenType: TokenType, length: nat)

  /** `scan_str`: the non-empty prefixes of `s`, shortest first. */
  function ScanStr(s: string): (r: seq<string>)
    ensures |r| == |s|
    ensures forall i :: 0 <= i < |r| ==> |r[i]| == i + 1 && r[i] <= s
    ensures forall n :: 0 < n <= |s| ==> s[..n] in r
  {
    var r := seq(|s|, i requires 0 <= i < |s| => s[..i + 1]);
    assert forall n :: 0 < n <= |s| ==> r[n - 1] == s[..n];
    r
  }

  /** `match_str`: whether `m` begins `input`. */
  function MatchStr(m: string, input: string): (r: bool)
    ensures r <==> m <= input
    ensures |input| < |m| ==> !r
  {
    if |input| >= |m| then input[..|m|] == m else false
  }

  /** The table `Token::next` searches, in order. */
  const Table: seq<(TokenType, string)> := [
    (OpenBrace, "{"),
    (CloseBrace, "}"),
    (OpenParen, "("),
    (CloseParen, ")"),
    (Nil, "nil"),
    (False, "false"),
    (True, "true")
  ]

  /** The first index `j >= i` of `Table` whose text begins `input`. */
  function FirstMatch(input: string, i: nat): (r: Option<nat>)
    requires i <= |Table|
    ensures r.Some? ==> i <= r.value < |Table| && Table[r.value].1 <= input
    ensures r.Some? ==> forall k :: i <= k < r.value ==> !(Table[k].1 <= input)
    ensures r.None? ==> forall k :: i <= k < |Table| ==> !(Table[k].1 <= input)
    decreases |Table| - i
  {
    if i == |Table| then None
    else if MatchStr(Table[i].1, input) then Some(i)
    else FirstMatch(input, i + 1)
  }

  /** `Token::next`: the first table entry whose text begins `input`, as a
      token as long as that text. */
  function Next(input: string): (r: Option<Token>)
    ensures r.None? <==> forall k :: 0 <= k < |Table| ==> !(Table[k].1 <= input)
    ensures r.Some? ==> exists j ::
      && 0 <= j < |Table| && Table[j].1 <= input
      && r.value == Token(Table[j].0, |Table[j].1|)
      && (forall k :: 0 <= k < j ==> !(Table[k].1 <= input))
  {
    match FirstMatch(input, 0)
    case None => None
    case Some(j) => Some(Token(Table[j].0, |Table[j].1|))
  }

  /** The token covers a non-empty prefix of the input, and that prefix is
      exactly the text of its type's table entry. */
  lemma {:induction false} NextCoversPrefix(input: string)
    requires Next(input).Some?
    ensures var t := Next(input).value;
      && 0 < t.length <= |input|
      && (exists j :: 0 <= j < |Table| && Table[j] == (t.tokenType, input[..t.length]))
  {
    var t := Next(input).value;
    var j :| 0 <= j < |Table| && Table[j].1 <= input && t == Token(Table[j].0, |Table[j].1|);
    assert Table[j].1 == input[..t.length];
  }

  /** Only the seven table types are ever produced. */
  lemma NextTypes(input: string)
    requires Next(input).Some?
    ensures Next(input).value.tokenType in {OpenBrace, CloseBrace, OpenParen, CloseParen, Nil, False, True}
  {
  }

  /** Nothing begins the empty input. */
  lemma NextEmpty()
    ensures Next("") == None
  {
  }

  /** No word boundary is required after a keyword: `falseee` yields
      `False` of length 5, and `nilly` yields `Nil` of length 3. */
  lemma NextIgnoresWordBoundary()
    ensures Next("falseee") == Some(Token(False, 5))
    ensures Next("nilly") == Some(Token(Nil, 3))
  {
    assert FirstMatch("falseee", 4) == Some(5) by {
      assert "nil"[0] != "falseee"[0];
      assert "falseee"[..5] == "false";
      assert MatchStr("false", "falseee");
    }
    assert FirstMatch("nilly", 0) == Some(4) by {
      assert "nilly"[0] == 'n' && "nilly"[..3] == "nil";
      assert MatchStr("nil", "nilly");
    }
  }
}
