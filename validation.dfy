/**
 * The rule a danmaku (on-screen message) must pass before it is broadcast.
 *
 * The handler accepts a text when the regular expression
 * `^[\p{Han}\p{Katakana}\p{Hiragana}\p{Hangul}a-zA-Z0-9\s]+$` matches it and
 * it has at most 20 runes. A Dafny `string` is a sequence of Unicode scalar
 * values, so one `char` is one rune and `|s|` is the rune count. The four
 * Unicode script tables are not written out: they are the four predicates of
 * a `Scripts` value, and `WellFormed` states the two facts about the real
 * tables that the lemmas below use.
 */
module Validation {

  /** Membership in the Unicode scripts Han, Katakana, Hiragana and Hangul. */
  datatype Scripts = Scripts(han: char -> bool, katakana: char -> bool, hiragana: char -> bool, hangul: char -> bool)
  {
    /** Whether `c` belongs to one of the four scripts. */
    predicate InScript(c: char)
    {
      han(c) || katakana(c) || hiragana(c) || hangul(c)
    }

    /**
     * Facts of the Unicode script tables: none of the four scripts contains
     * an ASCII code point (below U+0080) or a code point of the pictographic
     * emoji blocks U+1F300 to U+1FAFF.
     */
    ghost predicate WellFormed()
    {
      forall c: char :: InScript(c) ==> 0x80 <= c as int && !(0x1F300 <= c as int <= 0x1FAFF)
    }
  }

  /** The largest accepted rune count. */
  const MaxRunes: nat := 20

  /** `a-zA-Z0-9` of the character class. */
  predicate IsAsciiAlnum(c: char)
  {
    'a' <= c <= 'z' || 'A' <= c <= 'Z' || '0' <= c <= '9'
  }

  /** `\s` of Go's regular expressions: tab, newline, form feed, carriage return and space. */
  predicate IsSpace(c: char)
  {
    c == '\t' || c == '\n' || c == '\U{000C}' || c == '\r' || c == ' '
  }

  /** Whether `c` is in the character class of the pattern. */
  predicate Allowed(scripts: Scripts, c: char)
  {
    scripts.InScript(c) || IsAsciiAlnum(c) || IsSpace(c)
  }

  /** The anchored pattern `^[...]+$`: one or more characters, all of them in the class. */
  predicate MatchesPattern(scripts: Scripts, s: string)
  {
    |s| > 0 && forall i :: 0 <= i < |s| ==> Allowed(scripts, s[i])
  }

  /** The text is accepted when the pattern matches and it has at most 20 runes. */
  predicate IsValidDanmaku(scripts: Scripts, s: string)
  {
    MatchesPattern(scripts, s) && |s| <= MaxRunes
  }

  /** A text of allowed characters is accepted exactly when it has 1 to 20 runes. */
  lemma LengthRule(scripts: Scripts, s: string)
    requires forall i :: 0 <= i < |s| ==> Allowed(scripts, s[i])
    ensures IsValidDanmaku(scripts, s) <==> 1 <= |s| <= 20
  {
  }

  /** Twenty allowed runes are accepted; one more allowed rune makes the text rejected. */
  lemma TwentyAcceptedTwentyOneRejected(scripts: Scripts, s: string, c: char)
    requires |s| == 20 && Allowed(scripts, c)
    requires forall i :: 0 <= i < |s| ==> Allowed(scripts, s[i])
    ensures IsValidDanmaku(scripts, s)
    ensures !IsValidDanmaku(scripts, s + [c])
  {
  }

  /** The empty text is rejected. */
  lemma EmptyRejected(scripts: Scripts)
    ensures !IsValidDanmaku(scripts, "")
  {
  }

  /** One character outside the class, at any position, makes the text rejected. */
  lemma ForeignCharRejected(scripts: Scripts, s: string, i: nat)
    requires i < |s| && !Allowed(scripts, s[i])
    ensures !IsValidDanmaku(scripts, s)
  {
  }

  /** An exclamation mark anywhere makes the text rejected. */
  lemma PunctuationRejected(scripts: Scripts, s: string, i: nat)
    requires scripts.WellFormed()
    requires i < |s| && s[i] == '!'
    ensures !IsValidDanmaku(scripts, s)
  {
    assert !scripts.InScript(s[i]);
  }

  /** A pictographic emoji (U+1F300 to U+1FAFF) anywhere makes the text rejected. */
  lemma EmojiRejected(scripts: Scripts, s: string, i: nat)
    requires scripts.WellFormed()
    requires i < |s| && 0x1F300 <= s[i] as int <= 0x1FAFF
    ensures !IsValidDanmaku(scripts, s)
  {
    assert !scripts.InScript(s[i]);
  }

  /** Concrete boundary: twenty ASCII runes are accepted and twenty-one are not, whatever the script tables. */
  lemma AsciiBoundaryExamples(scripts: Scripts)
    ensures IsValidDanmaku(scripts, "Hello World 2024 abc")
    ensures !IsValidDanmaku(scripts, "Hello World 2024 abcd")
  {
    assert |"Hello World 2024 abcd"| == 21;
  }
}
