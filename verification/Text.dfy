/** The validator for free-form order text. */
module Text {
  import opened Data

  /** The characters Python's `str.strip` removes. */
  predicate IsSpace(c: char) {
    || '\t' <= c <= '\r'
    || '\U{1C}' <= c <= ' '
    || c == '\U{85}' || c == '\U{A0}' || c == '\U{1680}'
    || '\U{2000}' <= c <= '\U{200A}'
    || c == '\U{2028}' || c == '\U{2029}' || c == '\U{202F}' || c == '\U{205F}' || c == '\U{3000}'
  }

  function TrimLeft(s: string): string {
    if s != [] && IsSpace(s[0]) then TrimLeft(s[1..]) else s
  }

  function TrimRight(s: string): string {
    if s != [] && IsSpace(s[|s| - 1]) then TrimRight(s[..|s| - 1]) else s
  }

  function Strip(s: string): string {
    TrimRight(TrimLeft(s))
  }

  /** `OrderValidator.validate`; None stands for OrderValidationError. */
  function Validate(maxLength: int, text: string): Option<string> {
    var normalized := Strip(text);
    if normalized == [] || |normalized| > maxLength then None else Some(normalized)
  }

  ghost predicate Blank(s: string) {
    forall i :: 0 <= i < |s| ==> IsSpace(s[i])
  }

  ghost predicate Bare(s: string) {
    s != [] ==> !IsSpace(s[0]) && !IsSpace(s[|s| - 1])
  }

  lemma {:induction false} TrimLeftFacts(s: string) returns (before: string)
    ensures s == before + TrimLeft(s) && Blank(before)
    ensures TrimLeft(s) != [] ==> !IsSpace(TrimLeft(s)[0])
  {
    before := [];
    if s != [] && IsSpace(s[0]) {
      var more := TrimLeftFacts(s[1..]);
      before := [s[0]] + more;
    }
  }

  lemma {:induction false} TrimRightFacts(s: string) returns (after: string)
    ensures s == TrimRight(s) + after && Blank(after)
    ensures TrimRight(s) != [] ==> !IsSpace(TrimRight(s)[|TrimRight(s)| - 1])
  {
    after := [];
    if s != [] && IsSpace(s[|s| - 1]) {
      var more := TrimRightFacts(s[..|s| - 1]);
      after := more + [s[|s| - 1]];
    }
  }

  /** Strip cuts blanks off both ends and leaves text that begins and ends with a visible character. */
  lemma StripFacts(s: string) returns (before: string, after: string)
    ensures s == before + Strip(s) + after && Blank(before) && Blank(after)
    ensures Bare(Strip(s))
  {
    before := TrimLeftFacts(s);
    after := TrimRightFacts(TrimLeft(s));
    assert Strip(s) != [] ==> Strip(s)[0] == TrimLeft(s)[0];
  }

  /** Text is accepted exactly when some character is visible and the stripped text fits. */
  lemma ValidateAccepts(maxLength: int, text: string)
    ensures Validate(maxLength, text).Some? <==> !Blank(text) && |Strip(text)| <= maxLength
  {
    var before, after := StripFacts(text);
    var core := Strip(text);
    if core != [] {
      assert text[|before|] == core[0];
      assert !Blank(text);
    } else {
      assert text == before + after;
    }
  }

  /** What validation returns, validation accepts and returns unchanged. */
  lemma ValidatedIsFixed(maxLength: int, text: string)
    requires Validate(maxLength, text).Some?
    ensures var t := Validate(maxLength, text).value;
      1 <= |t| <= maxLength && Bare(t) && Validate(maxLength, t) == Some(t)
  {
    var before, after := StripFacts(text);
    var t := Strip(text);
    assert TrimLeft(t) == t && TrimRight(t) == t;
  }
}
