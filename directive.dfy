/**
 * The navigation directive in the shopping assistant's reply: the reply text
 * is trimmed, the first case-insensitive `NAVIGATE:` followed by `/` and a
 * run of word characters is taken as the path to navigate to, and that one
 * token is cut out of the text shown to the customer.
 */
module Directive {
  import opened Wrappers

  /** ASCII white space, as removed by `trim`. */
  predicate IsSpace(c: char) {
    c == ' ' || c == '\t' || c == '\n' || c == '\U{000B}' || c == '\U{000C}' || c == '\r'
  }

  /** A character of the regular-expression class `\w`. */
  predicate IsWordChar(c: char) {
    ('a' <= c <= 'z') || ('A' <= c <= 'Z') || ('0' <= c <= '9') || c == '_'
  }

  // ---------------------------------------------------------------- trim

  /** The number of leading white-space characters. */
  function LeadingSpaces(s: string): (k: nat)
    ensures k <= |s|
    ensures forall i :: 0 <= i < k ==> IsSpace(s[i])
    ensures k == |s| || !IsSpace(s[k])
  {
    if s == [] || !IsSpace(s[0]) then 0 else 1 + LeadingSpaces(s[1..])
  }

  /** The length of `s` without its trailing white space. */
  function TrailingStart(s: string): (k: nat)
    ensures k <= |s|
    ensures forall i :: k <= i < |s| ==> IsSpace(s[i])
    ensures k == 0 || !IsSpace(s[k - 1])
  {
    if s == [] || !IsSpace(s[|s| - 1]) then |s| else TrailingStart(s[..|s| - 1])
  }

  predicate IsTrimmed(s: string) {
    s == [] || (!IsSpace(s[0]) && !IsSpace(s[|s| - 1]))
  }

  /** JavaScript's string trim, for ASCII white space. */
  function Trim(s: string): (r: string)
    ensures IsTrimmed(r)
  {
    var rest := s[LeadingSpaces(s)..];
    rest[..TrailingStart(rest)]
  }

  /**
   * Trim removes white space at the two ends only: the text is what lies
   * between its leading and its trailing white space.
   */
  lemma TrimRemovesOnlyOuterSpace(s: string)
    ensures var a := LeadingSpaces(s);
      var n := |Trim(s)|;
      && a + n <= |s|
      && Trim(s) == s[a..a + n]
      && (forall i :: 0 <= i < a ==> IsSpace(s[i]))
      && (forall i :: a + n <= i < |s| ==> IsSpace(s[i]))
  {
    var a := LeadingSpaces(s);
    var rest := s[a..];
    var n := TrailingStart(rest);
    assert Trim(s) == rest[..n];
    forall i | a + n <= i < |s|
      ensures IsSpace(s[i])
    {
      assert s[i] == rest[i - a];
    }
  }

  /** The trimmed text is determined by where the leading and the trailing white space end. */
  lemma TrimIs(s: string, a: nat, b: nat)
    requires a <= b <= |s|
    requires forall k :: 0 <= k < a ==> IsSpace(s[k])
    requires forall k :: b <= k < |s| ==> IsSpace(s[k])
    requires a < b ==> !IsSpace(s[a]) && !IsSpace(s[b - 1])
    ensures Trim(s) == s[a..b]
  {
  }

  lemma {:induction false} LeadingSpacesOfTrimmed(s: string)
    requires s == [] || !IsSpace(s[0])
    ensures LeadingSpaces(s) == 0
  {
  }

  lemma {:induction false} TrailingStartOfTrimmed(s: string)
    requires s == [] || !IsSpace(s[|s| - 1])
    ensures TrailingStart(s) == |s|
  {
  }

  /** Text without white space at either end is left as it is, so trimming twice is trimming once. */
  lemma TrimTrimmed(s: string)
    requires IsTrimmed(s)
    ensures Trim(s) == s
  {
    LeadingSpacesOfTrimmed(s);
    assert s[0..] == s;
    TrailingStartOfTrimmed(s);
  }

  lemma TrimIdempotent(s: string)
    ensures Trim(Trim(s)) == Trim(s)
  {
    TrimTrimmed(Trim(s));
  }

  // ---------------------------------------------------------------- the directive token

  const Prefix: string := "NAVIGATE:"

  /** Case folding as the `i` flag applies it without the `u` flag: ASCII letters only. */
  function ToUpper(c: char): (u: char)
    ensures !('a' <= u <= 'z')
    ensures IsWordChar(u) == IsWordChar(c)
    ensures !('a' <= c <= 'z') ==> u == c
    ensures 'A' <= u <= 'Z' ==> c == u || c as int == u as int + 32
  {
    if 'a' <= c <= 'z' then (c as int - 32) as char else c
  }

  /** `NAVIGATE:` in any letter case, then `/`, begins at position `i` of `s`. */
  predicate DirectiveAt(s: string, i: nat)
    ensures DirectiveAt(s, i) <==>
      && i + |Prefix| < |s|
      && s[i + |Prefix|] == '/'
      && forall j :: 0 <= j < |Prefix| ==>
           s[i + j] == Prefix[j] || ('A' <= Prefix[j] <= 'Z' && s[i + j] as int == Prefix[j] as int + 32)
  {
    && i + |Prefix| < |s|
    && (forall j :: 0 <= j < |Prefix| ==> ToUpper(s[i + j]) == Prefix[j])
    && s[i + |Prefix|] == '/'
  }

  /** The leftmost position, from `from` on, where a directive begins. */
  function FindDirective(s: string, from: nat): (r: Option<nat>)
    requires from <= |s|
    decreases |s| - from
    ensures r.Some? ==> from <= r.value < |s| && DirectiveAt(s, r.value)
    ensures r.Some? ==> forall j :: from <= j < r.value ==> !DirectiveAt(s, j)
    ensures r.None? ==> forall j :: from <= j < |s| ==> !DirectiveAt(s, j)
  {
    if from == |s| then None
    else if DirectiveAt(s, from) then Some(from)
    else FindDirective(s, from + 1)
  }

  /** The end of the longest run of word characters that starts at `from` (the greedy `[\w]*`). */
  function WordRunEnd(s: string, from: nat): (e: nat)
    requires from <= |s|
    decreases |s| - from
    ensures from <= e <= |s|
    ensures forall k :: from <= k < e ==> IsWordChar(s[k])
    ensures e == |s| || !IsWordChar(s[e])
  {
    if from == |s| || !IsWordChar(s[from]) then from else WordRunEnd(s, from + 1)
  }

  // ---------------------------------------------------------------- the reply

  /** The assistant's answer: the text for the customer and, optionally, a path. */
  datatype Reply = Reply(reply: string, navigate: Option<string>)

  /** The post-processing of the generated text in `POST /api/chat`. */
  function ParseReply(raw: string): (r: Reply)
    ensures IsTrimmed(r.reply)
    ensures r.navigate.Some? ==> |r.navigate.value| >= 1 && r.navigate.value[0] == '/'
  {
    var text := Trim(raw);
    match FindDirective(text, 0)
    case None => Reply(text, None)
    case Some(i) =>
      var slash := i + |Prefix|;
      var end := WordRunEnd(text, slash + 1);
      Reply(Trim(text[..i] + text[end..]), Some(text[slash..end]))
  }

  /**
   * When the trimmed text holds a directive, the first one is taken: the path
   * is the `/` after `NAVIGATE:` and the longest run of word characters after
   * it (the next character, if any, is not a word character), and the reply
   * is the text with exactly that token cut out, then trimmed.
   */
  lemma ParseTakesFirstDirective(raw: string, i: nat)
    requires DirectiveAt(Trim(raw), i)
    requires forall j :: 0 <= j < i ==> !DirectiveAt(Trim(raw), j)
    ensures var text := Trim(raw);
      var slash := i + |Prefix|;
      var end := WordRunEnd(text, slash + 1);
      && text[slash] == '/'
      && (forall k :: slash < k < end ==> IsWordChar(text[k]))
      && (end == |text| || !IsWordChar(text[end]))
      && ParseReply(raw) == Reply(Trim(text[..i] + text[end..]), Some(text[slash..end]))
  {
    FindDirectiveIs(Trim(raw), 0, i);
  }

  /** Without a directive the reply is the trimmed text and there is nowhere to navigate. */
  lemma ParseWithoutDirective(raw: string)
    requires forall j :: 0 <= j < |Trim(raw)| ==> !DirectiveAt(Trim(raw), j)
    ensures ParseReply(raw) == Reply(Trim(raw), None)
  {
  }

  /** A path is produced exactly when the trimmed text holds a directive. */
  lemma ParseNavigatesIffDirective(raw: string)
    ensures ParseReply(raw).navigate.Some? <==> exists j :: 0 <= j < |Trim(raw)| && DirectiveAt(Trim(raw), j)
  {
    var text := Trim(raw);
    var found := FindDirective(text, 0);
    if found.Some? {
      assert DirectiveAt(text, found.value);
    }
  }

  /** The first directive from `from` on is determined by the positions it skips. */
  lemma FindDirectiveIs(s: string, from: nat, i: nat)
    requires from <= i < |s| && DirectiveAt(s, i)
    requires forall j :: from <= j < i ==> !DirectiveAt(s, j)
    ensures FindDirective(s, from) == Some(i)
  {
  }

  /** The greedy run ends at the first character that is not a word character. */
  lemma WordRunEndIs(s: string, from: nat, e: nat)
    requires from <= e <= |s|
    requires forall k :: from <= k < e ==> IsWordChar(s[k])
    requires e == |s| || !IsWordChar(s[e])
    ensures WordRunEnd(s, from) == e
  {
  }

  // The three replies below are given as examples of the protocol. Each is
  // proved from small facts about the literal text, one lemma per fact.

  const CartExample: string := "Sure, heading " + "to cart now. " + "NAVIGATE:/cart"

  lemma CartExampleTrimmed()
    ensures Trim(CartExample) == CartExample
  {
    TrimTrimmed(CartExample);
  }

  lemma CartExampleFirst()
    ensures FindDirective(CartExample, 0) == Some(27)
  {
    var head := "Sure, heading " + "to cart now. ";
    assert CartExample[..27] == head;
    forall j | 0 <= j < 27
      ensures !DirectiveAt(CartExample, j)
    {
      assert CartExample[j] == head[j];
      if j == 11 || j == 22 {
        assert CartExample[j + 1] == head[j + 1];
      }
    }
    FindDirectiveIs(CartExample, 0, 27);
  }

  lemma CartExampleRun()
    ensures WordRunEnd(CartExample, 37) == 41
  {
    WordRunEndIs(CartExample, 37, 41);
  }

  lemma CartExampleRest()
    ensures Trim(CartExample[..27] + CartExample[41..]) == "Sure, heading to cart now."
  {
    var rest := CartExample[..27] + CartExample[41..];
    assert rest == "Sure, heading to cart now. ";
    TrimIs(rest, 0, 26);
  }

  /** A directive at the end: the path is taken and the reply keeps the sentence. */
  lemma ParseExampleCart()
    ensures ParseReply(CartExample) == Reply("Sure, heading to cart now.", Some("/cart"))
  {
    CartExampleTrimmed();
    CartExampleFirst();
    CartExampleRun();
    CartExampleRest();
    assert CartExample[36..41] == "/cart";
  }

  const PlainExample: string := "I recommend " + "the Bluetooth " + "Speaker."

  /** No directive: the reply is the text, and there is nowhere to navigate. */
  lemma ParseExampleNoDirective()
    ensures ParseReply(PlainExample) == Reply(PlainExample, None)
  {
    TrimTrimmed(PlainExample);
    assert forall j :: 0 <= j < |PlainExample| ==> !DirectiveAt(PlainExample, j);
    ParseWithoutDirective(PlainExample);
  }

  const TwoDirectivesExample: string := "NAVIGATE:/admin" + " Some trailing " + "text NAVIGATE:/"

  lemma TwoDirectivesExampleTrimmed()
    ensures Trim(TwoDirectivesExample) == TwoDirectivesExample
  {
    TrimTrimmed(TwoDirectivesExample);
  }

  lemma TwoDirectivesExampleFirst()
    ensures FindDirective(TwoDirectivesExample, 0) == Some(0)
  {
    FindDirectiveIs(TwoDirectivesExample, 0, 0);
  }

  lemma TwoDirectivesExampleRun()
    ensures WordRunEnd(TwoDirectivesExample, 10) == 15
  {
    WordRunEndIs(TwoDirectivesExample, 10, 15);
  }

  lemma TwoDirectivesExampleRest()
    ensures Trim(TwoDirectivesExample[..0] + TwoDirectivesExample[15..]) == "Some trailing text NAVIGATE:/"
  {
    var rest := TwoDirectivesExample[..0] + TwoDirectivesExample[15..];
    assert rest == " Some trailing text NAVIGATE:/";
    assert rest[0] == ' ' && rest[1] == 'S' && rest[29] == '/';
    TrimIs(rest, 1, 30);
    assert rest[1..30] == "Some trailing text NAVIGATE:/";
  }

  /**
   * Two directives: the first gives the path and is cut out; the second,
   * `NAVIGATE:/` with an empty run, stays in the reply.
   */
  lemma ParseExampleTwoDirectives()
    ensures ParseReply(TwoDirectivesExample) == Reply("Some trailing text NAVIGATE:/", Some("/admin"))
  {
    TwoDirectivesExampleTrimmed();
    TwoDirectivesExampleFirst();
    TwoDirectivesExampleRun();
    TwoDirectivesExampleRest();
    assert TwoDirectivesExample[9..15] == "/admin";
  }
}
