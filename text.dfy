/**
 * The blank test of Hutool's StrUtil, which every lookup applies to the text
 * read from Redis. A string is blank when every character is a blank
 * character; a missing value (Java null) is blank too.
 */
module Text {
  import opened Wrappers

  /**
   * CharUtil.isBlankChar: Java whitespace and space separators, plus the
   * byte-order mark, U+202A, NUL, U+3164, U+2800 and U+180E.
   */
  predicate IsBlankChar(c: char) {
    c in {'\U{0020}', '\U{0009}', '\U{000A}', '\U{000B}', '\U{000C}', '\U{000D}', '\U{001C}', '\U{001D}',
          '\U{001E}', '\U{001F}', '\U{00A0}', '\U{1680}', '\U{2000}', '\U{2001}', '\U{2002}', '\U{2003}',
          '\U{2004}', '\U{2005}', '\U{2006}', '\U{2007}', '\U{2008}', '\U{2009}', '\U{200A}', '\U{2028}',
          '\U{2029}', '\U{202F}', '\U{205F}', '\U{3000}', '\U{FEFF}', '\U{202A}', '\U{0000}', '\U{3164}',
          '\U{2800}', '\U{180E}'}
  }

  /** StrUtil.isBlank on a present string: no character but blank ones. */
  predicate IsBlank(s: string) {
    forall i :: 0 <= i < |s| ==> IsBlankChar(s[i])
  }

  /** StrUtil.isNotBlank: present and holding at least one non-blank character. */
  predicate IsNotBlank(s: Option<string>) {
    s.Some? && !IsBlank(s.value)
  }

  /** The null marker the lookups cache for a shop that does not exist. */
  const NullMarker: string := " "

  lemma NullMarkerIsBlank()
    ensures IsBlank(NullMarker) && !IsNotBlank(Some(NullMarker))
  {
  }

  /** A string whose first character is not blank passes the isNotBlank test. */
  lemma NotBlankByFirst(s: string)
    requires |s| > 0 && !IsBlankChar(s[0])
    ensures IsNotBlank(Some(s))
  {
  }

  /** A present, blank string is empty or starts with a blank character. */
  lemma BlankFirst(s: string)
    requires IsBlank(s) && |s| > 0
    ensures IsBlankChar(s[0])
  {
  }
}
