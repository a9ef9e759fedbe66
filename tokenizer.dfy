/** tokenize: spaCy tokens filtered for BM25, with a fallback to plain
    alphabetic tokens. The spaCy pipeline is a parameter `nlp` that maps a
    text to its token records. */
module Tokenizer {
  import opened Seqs

  /** The token attributes tokenize reads. */
  datatype Token = Token(text: string, lemmaForm: string, isStop: bool, isPunct: bool, isSpace: bool, isAlpha: bool)

  /** Python's str.isspace, character by character. */
  predicate IsSpaceChar(c: char)
  {
    c == ' ' || '\t' <= c <= '\r' || '\U{1c}' <= c <= '\U{1f}' || c == '\U{85}' || c == '\U{a0}'
    || c == '\U{1680}' || '\U{2000}' <= c <= '\U{200a}' || c == '\U{2028}' || c == '\U{2029}'
    || c == '\U{202f}' || c == '\U{205f}' || c == '\U{3000}'
  }

  /** `not text.strip()`: empty or made only of whitespace. */
  predicate IsBlank(s: string)
  {
    forall i :: 0 <= i < |s| ==> IsSpaceChar(s[i])
  }

  function LowerChar(c: char): char
  {
    if 'A' <= c <= 'Z' then (c as int + 32) as char else c
  }

  /** Lower-casing, for ASCII letters. */
  function Lower(s: string): (r: string)
    ensures |r| == |s|
    ensures forall i :: 0 <= i < |s| ==> r[i] == LowerChar(s[i])
    ensures forall i :: 0 <= i < |r| ==> !('A' <= r[i] <= 'Z')
  {
    Map(s, LowerChar)
  }

  /** The main filter: no stop word, punctuation or space token, and a
      token text longer than one character that is not blank. */
  predicate KeepPrimary(t: Token)
  {
    !t.isStop && !t.isPunct && !t.isSpace && |t.text| > 1 && !IsBlank(t.text)
  }

  /** The fallback filter: alphabetic tokens longer than one character. */
  predicate KeepFallback(t: Token)
  {
    t.isAlpha && |t.text| > 1
  }

  function LemmaOf(t: Token): string { t.lemmaForm }
  function LowerText(t: Token): string { Lower(t.text) }

  /** The lemmas of the tokens the main filter keeps, in order. */
  function PrimaryTokens(doc: seq<Token>): seq<string>
  {
    Map(Filter(doc, KeepPrimary), LemmaOf)
  }

  /** The lower-cased texts of the tokens the fallback filter keeps, in order. */
  function FallbackTokens(doc: seq<Token>): seq<string>
  {
    Map(Filter(doc, KeepFallback), LowerText)
  }

  /** tokenize: blank text gives no tokens; otherwise the lower-cased text
      is segmented and the main filter's lemmas are returned, or, when the
      main filter keeps nothing, the fallback's texts. */
  function Tokenize(text: string, nlp: string -> seq<Token>): (r: seq<string>)
    ensures IsBlank(text) ==> r == []
    ensures !IsBlank(text) && PrimaryTokens(nlp(Lower(text))) != [] ==> r == PrimaryTokens(nlp(Lower(text)))
    ensures !IsBlank(text) && PrimaryTokens(nlp(Lower(text))) == [] ==> r == FallbackTokens(nlp(Lower(text)))
  {
    if IsBlank(text) then []
    else
      var doc := nlp(Lower(text));
      var tokens := PrimaryTokens(doc);
      if tokens != [] then tokens else FallbackTokens(doc)
  }

  /** The result is empty exactly when the text is blank or both filters
      reject every token of the segmented lower-cased text. */
  lemma TokenizeEmptyIff(text: string, nlp: string -> seq<Token>)
    ensures Tokenize(text, nlp) == [] <==>
              IsBlank(text) ||
              (forall i :: 0 <= i < |nlp(Lower(text))| ==>
                 !KeepPrimary(nlp(Lower(text))[i]) && !KeepFallback(nlp(Lower(text))[i]))
  {
    var doc := nlp(Lower(text));
    FilterEmptyIff(doc, KeepPrimary);
    FilterEmptyIff(doc, KeepFallback);
  }

  /** Every token comes from a token record the filter in use accepted:
      a main-filter lemma, or, in the fallback, the lower-cased text of an
      alphabetic record. */
  lemma TokenizeSources(text: string, nlp: string -> seq<Token>, k: int)
    requires 0 <= k < |Tokenize(text, nlp)|
    ensures !IsBlank(text)
    ensures exists t :: t in nlp(Lower(text)) &&
              ((KeepPrimary(t) && Tokenize(text, nlp)[k] == t.lemmaForm) ||
               (KeepFallback(t) && Tokenize(text, nlp)[k] == Lower(t.text)))
  {
    var doc := nlp(Lower(text));
    if PrimaryTokens(doc) != [] {
      var t := Filter(doc, KeepPrimary)[k];
      assert t in Filter(doc, KeepPrimary);
    } else {
      var t := Filter(doc, KeepFallback)[k];
      assert t in Filter(doc, KeepFallback);
    }
  }

  /** When the fallback is in use, every token is longer than one
      character and carries no upper-case ASCII letter. (The main filter's
      lemmas are whatever spaCy reports and are not constrained.) */
  lemma TokenizeFallbackLower(text: string, nlp: string -> seq<Token>, k: int)
    requires !IsBlank(text) && PrimaryTokens(nlp(Lower(text))) == []
    requires 0 <= k < |Tokenize(text, nlp)|
    ensures |Tokenize(text, nlp)[k]| > 1
    ensures forall i :: 0 <= i < |Tokenize(text, nlp)[k]| ==> !('A' <= Tokenize(text, nlp)[k][i] <= 'Z')
  {
    var t := Filter(nlp(Lower(text)), KeepFallback)[k];
    assert KeepFallback(t);
  }
}
