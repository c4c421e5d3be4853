/**
 * `escapeHtml` (app.js): every user-supplied string is passed through it before it is spliced
 * into markup. It is five `replaceAll` calls in a row, `&` first.
 */
module Escape {
  import opened Wrappers

  /** `s.replaceAll(c, rep)` for a one-character search string. */
  function ReplaceAll(s: string, c: char, rep: string): (r: string)
    ensures c !in rep ==> c !in r
  {
    if s == [] then "" else (if s[0] == c then rep else [s[0]]) + ReplaceAll(s[1..], c, rep)
  }

  /** `escapeHtml(s)`: `null` and `undefined` become the empty string. */
  function EscapeHtml(s: Option<string>): string {
    Replacements(s.GetOr(""))
  }

  /** The five replacements in the order the source applies them. */
  function Replacements(t: string): string {
    var amp := ReplaceAll(t, '&', "&amp;");
    var lt := ReplaceAll(amp, '<', "&lt;");
    var gt := ReplaceAll(lt, '>', "&gt;");
    var quot := ReplaceAll(gt, '"', "&quot;");
    ReplaceAll(quot, '\'', "&#039;")
  }

  // ---------------------------------------------------------------------------------------------
  // An independent reference: escape each character on its own

  /** The entity a single character is written as. */
  function EscapeChar(x: char): string {
    if x == '&' then "&amp;"
    else if x == '<' then "&lt;"
    else if x == '>' then "&gt;"
    else if x == '"' then "&quot;"
    else if x == '\'' then "&#039;"
    else [x]
  }

  function EscapeEach(s: string): string {
    if s == [] then "" else EscapeChar(s[0]) + EscapeEach(s[1..])
  }

  lemma {:induction false} ReplaceAllAppend(a: string, b: string, c: char, rep: string)
    ensures ReplaceAll(a + b, c, rep) == ReplaceAll(a, c, rep) + ReplaceAll(b, c, rep)
  {
    if a == [] {
      assert a + b == b;
    } else {
      assert (a + b)[0] == a[0] && (a + b)[1..] == a[1..] + b;
      ReplaceAllAppend(a[1..], b, c, rep);
    }
  }

  lemma ReplacementsAppend(a: string, b: string)
    ensures Replacements(a + b) == Replacements(a) + Replacements(b)
  {
    var a1, b1 := ReplaceAll(a, '&', "&amp;"), ReplaceAll(b, '&', "&amp;");
    ReplaceAllAppend(a, b, '&', "&amp;");
    var a2, b2 := ReplaceAll(a1, '<', "&lt;"), ReplaceAll(b1, '<', "&lt;");
    ReplaceAllAppend(a1, b1, '<', "&lt;");
    var a3, b3 := ReplaceAll(a2, '>', "&gt;"), ReplaceAll(b2, '>', "&gt;");
    ReplaceAllAppend(a2, b2, '>', "&gt;");
    var a4, b4 := ReplaceAll(a3, '"', "&quot;"), ReplaceAll(b3, '"', "&quot;");
    ReplaceAllAppend(a3, b3, '"', "&quot;");
    ReplaceAllAppend(a4, b4, '\'', "&#039;");
  }

  /** A string none of whose characters is `c` is left alone by replacing `c`. */
  lemma {:induction false} ReplaceAllAbsent(s: string, c: char, rep: string)
    requires c !in s
    ensures ReplaceAll(s, c, rep) == s
  {
    if s != [] {
      ReplaceAllAbsent(s[1..], c, rep);
    }
  }

  lemma ReplaceAllOne(x: char, c: char, rep: string)
    ensures ReplaceAll([x], c, rep) == if x == c then rep else [x]
  {
    assert [x][1..] == [];
  }

  /** An entity written by the first or second replacement goes through the last three intact. */
  lemma PassesLaterReplacements(e: string)
    requires '<' !in e && '>' !in e && '"' !in e && '\'' !in e
    ensures ReplaceAll(ReplaceAll(ReplaceAll(ReplaceAll(e, '<', "&lt;"), '>', "&gt;"), '"', "&quot;"), '\'', "&#039;") == e
  {
    ReplaceAllAbsent(e, '<', "&lt;");
    LastThreeKeep(e);
  }

  lemma ReplacementsOfChar(x: char)
    ensures Replacements([x]) == EscapeChar(x)
  {
    ReplaceAllOne(x, '&', "&amp;");
    if x == '&' {
      PassesLaterReplacements("&amp;");
    } else {
      ReplaceAllOne(x, '<', "&lt;");
      if x == '<' {
        LastThreeKeep("&lt;");
      } else {
        ReplaceAllOne(x, '>', "&gt;");
        if x == '>' {
          LastTwoKeep("&gt;");
        } else {
          ReplaceAllOne(x, '"', "&quot;");
          if x == '"' {
            ReplaceAllAbsent("&quot;", '\'', "&#039;");
          } else {
            ReplaceAllOne(x, '\'', "&#039;");
          }
        }
      }
    }
  }

  lemma LastThreeKeep(e: string)
    requires '>' !in e && '"' !in e && '\'' !in e
    ensures ReplaceAll(ReplaceAll(ReplaceAll(e, '>', "&gt;"), '"', "&quot;"), '\'', "&#039;") == e
  {
    ReplaceAllAbsent(e, '>', "&gt;");
    LastTwoKeep(e);
  }

  lemma LastTwoKeep(e: string)
    requires '"' !in e && '\'' !in e
    ensures ReplaceAll(ReplaceAll(e, '"', "&quot;"), '\'', "&#039;") == e
  {
    ReplaceAllAbsent(e, '"', "&quot;");
    ReplaceAllAbsent(e, '\'', "&#039;");
  }

  /** The chained replacement escapes each character independently: because `&` is replaced
      first, no entity produced by one step is touched by a later step. */
  lemma {:induction false} EscapeHtmlIsPerCharacter(s: string)
    ensures EscapeHtml(Some(s)) == EscapeEach(s)
  {
    if s != [] {
      assert s == [s[0]] + s[1..];
      ReplacementsAppend([s[0]], s[1..]);
      ReplacementsOfChar(s[0]);
      EscapeHtmlIsPerCharacter(s[1..]);
    }
  }

  lemma EscapeHtmlOfNothing()
    ensures EscapeHtml(None) == ""
  {
  }

  // ---------------------------------------------------------------------------------------------
  // What the escaped text looks like

  const ENTITIES: seq<string> := ["&amp;", "&lt;", "&gt;", "&quot;", "&#039;"]

  /** The characters markup gives a meaning to, none of which survives escaping raw. */
  predicate IsMarkupChar(x: char) {
    x == '<' || x == '>' || x == '"' || x == '\''
  }

  /** One of the five entities begins at position `i` of `t`. */
  predicate StartsEntity(t: string, i: nat)
    requires i <= |t|
  {
    exists e :: e in ENTITIES && e <= t[i..]
  }

  predicate AmpersandsStartEntities(t: string) {
    forall i :: 0 <= i < |t| && t[i] == '&' ==> StartsEntity(t, i)
  }

  lemma {:induction false} EscapeEachIsSafe(s: string)
    ensures forall k :: 0 <= k < |EscapeEach(s)| ==> !IsMarkupChar(EscapeEach(s)[k])
    ensures AmpersandsStartEntities(EscapeEach(s))
  {
    if s != [] {
      EscapeEachIsSafe(s[1..]);
      var e, w := EscapeChar(s[0]), EscapeEach(s[1..]);
      var t := e + w;
      assert t == EscapeEach(s);
      assert e in ENTITIES || (e == [s[0]] && s[0] != '&' && !IsMarkupChar(s[0]));
      forall i | 0 <= i < |t| && t[i] == '&'
        ensures StartsEntity(t, i)
      {
        if i < |e| {
          assert i == 0;
          assert e <= t[i..];
        } else {
          var j := i - |e|;
          assert w[j] == '&';
          var f :| f in ENTITIES && f <= w[j..];
          assert t[i..] == w[j..];
        }
      }
    }
  }

  /** The escaped text contains no raw `<`, `>`, `"` or `'`, and every `&` in it is the start of
      one of the five entities. */
  lemma EscapeHtmlIsSafe(s: Option<string>)
    ensures forall k :: 0 <= k < |EscapeHtml(s)| ==> !IsMarkupChar(EscapeHtml(s)[k])
    ensures AmpersandsStartEntities(EscapeHtml(s))
  {
    EscapeHtmlIsPerCharacter(s.GetOr(""));
    EscapeEachIsSafe(s.GetOr(""));
  }

  // ---------------------------------------------------------------------------------------------
  // Nothing is escaped twice: decoding the five entities recovers the input

  /** How a browser reads the five entities back (and every other character as itself). */
  function Unescape(t: string): string
    decreases |t|
  {
    if t == [] then ""
    else if "&amp;" <= t then "&" + Unescape(t[5..])
    else if "&lt;" <= t then "<" + Unescape(t[4..])
    else if "&gt;" <= t then ">" + Unescape(t[4..])
    else if "&quot;" <= t then "\"" + Unescape(t[6..])
    else if "&#039;" <= t then "'" + Unescape(t[6..])
    else [t[0]] + Unescape(t[1..])
  }

  lemma UnescapeChar(x: char, w: string)
    ensures Unescape(EscapeChar(x) + w) == [x] + Unescape(w)
  {
    var t := EscapeChar(x) + w;
    if x == '&' {
      assert "&amp;" <= t && t[5..] == w;
    } else if x == '<' {
      assert !("&amp;" <= t) by { assert t[1] == 'l'; }
      assert "&lt;" <= t && t[4..] == w;
    } else if x == '>' {
      assert !("&amp;" <= t) by { assert t[1] == 'g'; }
      assert !("&lt;" <= t) by { assert t[1] == 'g'; }
      assert "&gt;" <= t && t[4..] == w;
    } else if x == '"' {
      assert !("&amp;" <= t) && !("&lt;" <= t) && !("&gt;" <= t) by { assert t[1] == 'q'; }
      assert "&quot;" <= t && t[6..] == w;
    } else if x == '\'' {
      assert !("&amp;" <= t) && !("&lt;" <= t) && !("&gt;" <= t) && !("&quot;" <= t) by { assert t[1] == '#'; }
      assert "&#039;" <= t && t[6..] == w;
    } else {
      assert t[0] == x && t[1..] == w;
    }
  }

  lemma {:induction false} UnescapeEscapeEach(s: string)
    ensures Unescape(EscapeEach(s)) == s
  {
    if s != [] {
      UnescapeChar(s[0], EscapeEach(s[1..]));
      UnescapeEscapeEach(s[1..]);
    }
  }

  /** Decoding what `escapeHtml` produced gives back exactly its input: no character is
      escaped twice. */
  lemma EscapeHtmlRoundTrip(s: string)
    ensures Unescape(EscapeHtml(Some(s))) == s
  {
    EscapeHtmlIsPerCharacter(s);
    UnescapeEscapeEach(s);
  }
}
