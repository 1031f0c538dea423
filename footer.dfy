/**
 * The footer's telephone link: the phone string with every whitespace
 * character removed (`replace(/\s+/g, "")`), prefixed with the `tel:` scheme.
 */
module Footer {

  const TelScheme: string := "tel:"

  /**
   * The characters the JavaScript regular-expression class `\s` matches:
   * the WhiteSpace and LineTerminator code points of ECMAScript
   * (tab, line feed, vertical tab, form feed, carriage return, space,
   * no-break space, the Zs separators, line and paragraph separators and
   * the byte-order mark).
   */
  predicate IsWhitespace(c: char) {
    || c == '\t' || c == '\n' || c == '\U{000B}' || c == '\U{000C}' || c == '\r'
    || c == ' ' || c == '\U{00A0}' || c == '\U{1680}'
    || ('\U{2000}' <= c <= '\U{200A}')
    || c == '\U{2028}' || c == '\U{2029}' || c == '\U{202F}' || c == '\U{205F}'
    || c == '\U{3000}' || c == '\U{FEFF}'
  }

  predicate NoWhitespace(s: string) {
    forall i :: 0 <= i < |s| ==> !IsWhitespace(s[i])
  }

  /**
   * `s.replace(/\s+/g, "")`: deleting every maximal run of whitespace is the
   * same as deleting every whitespace character, which is what this does,
   * one character at a time from the front.
   */
  function StripWhitespace(s: string): (r: string)
    ensures NoWhitespace(r)
    ensures |r| <= |s|
  {
    if s == [] then []
    else if IsWhitespace(s[0]) then StripWhitespace(s[1..])
    else [s[0]] + StripWhitespace(s[1..])
  }

  /** The `href` of the footer's telephone link. */
  function TelHref(phone: string): (r: string)
    ensures |r| >= |TelScheme| && r[..|TelScheme|] == TelScheme
    ensures NoWhitespace(r[|TelScheme|..])
    ensures r[|TelScheme|..] == StripWhitespace(phone)
  {
    TelScheme + StripWhitespace(phone)
  }

  /** A string without whitespace is left as it is. */
  lemma {:induction false} StripClean(s: string)
    requires NoWhitespace(s)
    ensures StripWhitespace(s) == s
  {
    if s != [] {
      StripClean(s[1..]);
    }
  }

  /** Stripping twice is stripping once. */
  lemma StripIdempotent(s: string)
    ensures StripWhitespace(StripWhitespace(s)) == StripWhitespace(s)
  {
    StripClean(StripWhitespace(s));
  }

  /**
   * Stripping works piecewise: the stripped concatenation is the
   * concatenation of the stripped parts, so the kept characters stay in
   * their original order.
   */
  lemma {:induction false} StripConcat(a: string, b: string)
    ensures StripWhitespace(a + b) == StripWhitespace(a) + StripWhitespace(b)
  {
    if a == [] {
      assert a + b == b;
    } else {
      assert (a + b)[1..] == a[1..] + b;
      StripConcat(a[1..], b);
    }
  }

  /**
   * Exactly the whitespace is removed: every other character occurs as
   * often in the result as in the input, and whitespace not at all.
   */
  lemma {:induction false} StripCounts(s: string, c: char)
    ensures multiset(StripWhitespace(s))[c] == if IsWhitespace(c) then 0 else multiset(s)[c]
  {
    if s != [] {
      StripCounts(s[1..], c);
      assert s == [s[0]] + s[1..];
    }
  }

  /** A space before a whitespace-free word disappears and the word stays. */
  lemma StripSpaceWord(a: string, w: string)
    requires NoWhitespace(w)
    ensures StripWhitespace(a + " " + w) == StripWhitespace(a) + w
  {
    StripConcat(a + " ", w);
    StripConcat(a, " ");
    StripClean(w);
  }

  /** Three blank-free groups joined by single spaces strip to the groups run together. */
  lemma StripSpacedGroups(a: string, b: string, c: string)
    requires NoWhitespace(a) && NoWhitespace(b) && NoWhitespace(c)
    ensures StripWhitespace(a + " " + b + " " + c) == a + b + c
  {
    StripSpaceWord(a + " " + b, c);
    StripSpaceWord(a, b);
    StripClean(a);
  }

  /**
   * Stripping the phone number the site shows (identity.phone in the
   * content data) keeps its thirteen non-blank characters.
   */
  lemma ShownPhoneStripped(phone: string)
    requires phone == "+91 88549 28428"
    ensures StripWhitespace(phone) == "+918854928428"
  {
    assert phone == "+91" + " " + "88549" + " " + "28428";
    StripSpacedGroups("+91", "88549", "28428");
  }

  /** The shown phone number gives the link `tel:+918854928428`. */
  lemma ShownPhoneHref(phone: string)
    requires phone == "+91 88549 28428"
    ensures TelHref(phone) == "tel:+918854928428"
  {
    ShownPhoneStripped(phone);
    assert TelScheme + "+918854928428" == "tel:+918854928428";
  }
}
