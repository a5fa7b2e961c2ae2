/**
  The few string operations the form handlers perform before they look at a value:
  `replace(',', '.')` on amount text, `trim()` on a new category name, and
  `toISOString().split('T')[0]` for today's date.
*/
module Text {

  /** ECMAScript WhiteSpace and LineTerminator code points, the set `String.prototype.trim` strips. */
  predicate IsWhitespace(c: char)
  {
    c == '\t' || c == '\n' || c == '\U{000B}' || c == '\U{000C}' || c == '\r' || c == ' '
    || c == '\U{00A0}' || c == '\U{1680}' || ('\U{2000}' <= c <= '\U{200A}')
    || c == '\U{2028}' || c == '\U{2029}' || c == '\U{202F}' || c == '\U{205F}'
    || c == '\U{3000}' || c == '\U{FEFF}'
  }

  predicate IsBlank(s: string)
  {
    forall i :: 0 <= i < |s| ==> IsWhitespace(s[i])
  }

  /** `s.replace(',', '.')`: a string pattern replaces only its first occurrence. */
  function ReplaceFirstComma(s: string): string
  {
    if s == [] then []
    else if s[0] == ',' then ['.'] + s[1..]
    else [s[0]] + ReplaceFirstComma(s[1..])
  }

  /** Number of whitespace characters at the start of `s`. */
  function LeadingWhitespace(s: string): (k: nat)
    ensures k <= |s| && IsBlank(s[..k])
    ensures k == |s| || !IsWhitespace(s[k])
  {
    if s != [] && IsWhitespace(s[0]) then 1 + LeadingWhitespace(s[1..]) else 0
  }

  /** Number of whitespace characters at the end of `s`. */
  function TrailingWhitespace(s: string): (k: nat)
    ensures k <= |s| && IsBlank(s[|s| - k..])
    ensures k == |s| || !IsWhitespace(s[|s| - k - 1])
  {
    if s != [] && IsWhitespace(s[|s| - 1]) then
      var k := TrailingWhitespace(s[..|s| - 1]);
      assert s[..|s| - 1][|s| - 1 - k..] + [s[|s| - 1]] == s[|s| - 1 - k..];
      1 + k
    else 0
  }

  /** `String.prototype.trim`. */
  function Trim(s: string): string
  {
    var t := s[LeadingWhitespace(s)..];
    t[..|t| - TrailingWhitespace(t)]
  }

  /** `iso.split('T')[0]`: everything before the first 'T', or all of `iso` if it has none. */
  function DatePart(iso: string): string
  {
    if iso == [] || iso[0] == 'T' then [] else [iso[0]] + DatePart(iso[1..])
  }

  // ---------------------------------------------------------------- lemmas

  /** Text without a comma goes to the number parser unchanged. */
  lemma {:induction false} ReplaceFirstCommaNoComma(s: string)
    requires ',' !in s
    ensures ReplaceFirstComma(s) == s
  {
    if s != [] {
      assert s[1..] <= s[1..] && forall c :: c in s[1..] ==> c in s;
      ReplaceFirstCommaNoComma(s[1..]);
    }
  }

  /** Exactly the first comma becomes a dot; later commas are kept as they are. */
  lemma {:induction false} ReplaceFirstCommaAt(s: string, k: nat)
    requires k < |s| && s[k] == ',' && ',' !in s[..k]
    ensures ReplaceFirstComma(s) == s[..k] + ['.'] + s[k + 1..]
  {
    if k > 0 {
      assert s[1..][..k - 1] == s[1..k];
      assert forall c :: c in s[1..k] ==> c in s[..k];
      ReplaceFirstCommaAt(s[1..], k - 1);
      assert s[..k] == [s[0]] + s[1..][..k - 1];
    }
  }

  /** A blank name trims to the empty string and a non-blank one does not. */
  lemma TrimEmptyIffBlank(s: string)
    ensures Trim(s) == [] <==> IsBlank(s)
  {
    var k := LeadingWhitespace(s);
    if IsBlank(s) {
      assert k == |s|;
      assert s[k..] == [];
    } else {
      var i :| 0 <= i < |s| && !IsWhitespace(s[i]);
      assert forall j :: 0 <= j < k ==> s[..k][j] == s[j];
      assert k <= i;
      var t := s[k..];
      var n := TrailingWhitespace(t);
      assert t[0] == s[k] && !IsWhitespace(t[0]);
      assert n > 0 ==> t[|t| - n..][0] == t[|t| - n];
      assert n < |t|;
    }
  }

  /** A trimmed name has no whitespace at either end. */
  lemma TrimHasNoOuterWhitespace(s: string)
    ensures Trim(s) == [] || (!IsWhitespace(Trim(s)[0]) && !IsWhitespace(Trim(s)[|Trim(s)| - 1]))
  {
    var k := LeadingWhitespace(s);
    var t := s[k..];
    if Trim(s) != [] {
      assert Trim(s)[0] == s[k];
    }
  }

  /** Trimming a trimmed name changes nothing. */
  lemma TrimIdempotent(s: string)
    ensures Trim(Trim(s)) == Trim(s)
  {
    var u := Trim(s);
    TrimHasNoOuterWhitespace(s);
    assert LeadingWhitespace(u) == 0;
    assert u[0..] == u;
    assert TrailingWhitespace(u) == 0;
    assert u[..|u|] == u;
  }

  /** The date half of an ISO timestamp is recovered exactly. */
  lemma {:induction false} DatePartOfTimestamp(date: string, time: string)
    requires 'T' !in date
    ensures DatePart(date + "T" + time) == date
  {
    if date != [] {
      assert (date + "T" + time)[1..] == date[1..] + "T" + time;
      assert forall c :: c in date[1..] ==> c in date;
      DatePartOfTimestamp(date[1..], time);
    }
  }
}
