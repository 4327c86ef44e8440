/** What a global regular expression reports for one match: its capture
    groups, each either the captured text or `undefined`. The regular
    expressions themselves are not modelled; each recognizer is represented
    by the matches it reports, in the order `exec` finds them. */
module Captures {
  import opened Options
  import opened JsText
  import opened Numerals

  datatype RawMatch = RawMatch(groups: seq<Option<string>>)

  /** `match[i]` for a group number `i >= 1`: `undefined` past the last
      group. */
  function Group(m: RawMatch, i: nat): Option<string>
    requires i >= 1
  {
    if i <= |m.groups| then m.groups[i - 1] else None
  }

  /** `\d+` group that must take part in the match. */
  predicate HoldsDigits(g: Option<string>) {
    g.Some? && IsDigits(g.value)
  }

  /** `(\d+)?`: absent, or digits. */
  predicate MayHoldDigits(g: Option<string>) {
    g.None? || IsDigits(g.value)
  }

  /** `(\d+(?:\.\d+)?)` group that must take part in the match. */
  predicate HoldsNumeral(g: Option<string>) {
    g.Some? && IsNumeral(g.value)
  }

  /** `[\w\s\d]+`: the text after the dimensions that may name an edge
      banding. */
  predicate IsPhraseText(s: string) {
    |s| > 0 && forall i :: 0 <= i < |s| ==> IsWordChar(s[i]) || IsSpace(s[i])
  }

  /** `([\w\s\d]+)?` */
  predicate MayHoldPhrase(g: Option<string>) {
    g.None? || IsPhraseText(g.value)
  }

  /** JavaScript `g || fallback` on a capture: an absent or empty capture is
      falsy. */
  function Or(g: Option<string>, fallback: string): (r: string)
    ensures g.Some? && g.value != "" ==> r == g.value
    ensures g.None? ==> r == fallback
  {
    if g.Some? && g.value != "" then g.value else fallback
  }
}
