/**
 * The e-mail check both sign-in paths apply (app.js): `/^\S+@\S+\.\S+$/.test(email)`.
 * `MatchesPattern` is the language of the regular expression read literally; `IsValidEmail`
 * is a direct scan, proved to accept exactly that language.
 */
module Email {
  import opened Wrappers
  import opened Text

  /** One or more characters, none of them white space: what `\S+` matches. */
  predicate NonSpaceRun(s: string) {
    |s| >= 1 && forall k :: 0 <= k < |s| ==> !IsSpace(s[k])
  }

  /** `s` is in the language of `^\S+@\S+\.\S+$`. */
  ghost predicate MatchesPattern(s: string) {
    exists a, b, c :: NonSpaceRun(a) && NonSpaceRun(b) && NonSpaceRun(c) && s == a + "@" + b + "." + c
  }

  /** The first `@` in `s` at or after position `from`. */
  function FindAt(s: string, from: nat): (r: Option<nat>)
    requires from <= |s|
    ensures r.Some? ==> from <= r.value < |s| && s[r.value] == '@'
    ensures forall k :: from <= k < |s| && (r.None? || k < r.value) ==> s[k] != '@'
    decreases |s| - from
  {
    if from == |s| then None
    else if s[from] == '@' then Some(from)
    else FindAt(s, from + 1)
  }

  /** The scan: no white space anywhere, an `@` after at least one character, and a `.` with at
      least one character between it and that `@` and at least one after it. */
  predicate IsValidEmail(s: string) {
    && |s| >= 1
    && (forall k :: 0 <= k < |s| ==> !IsSpace(s[k]))
    && match FindAt(s, 1)
       case None => false
       case Some(i) => i + 2 <= |s| - 1 && '.' in s[i + 2 .. |s| - 1]
  }

  /** The scan accepts exactly the strings the regular expression matches. */
  lemma IsValidEmailMatchesPattern(s: string)
    ensures IsValidEmail(s) <==> MatchesPattern(s)
  {
    if IsValidEmail(s) {
      var i := FindAt(s, 1).value;
      var tail := s[i + 2 .. |s| - 1];
      var k :| 0 <= k < |tail| && tail[k] == '.';
      var j := i + 2 + k;
      var a, b, c := s[..i], s[i + 1 .. j], s[j + 1 ..];
      assert s == a + "@" + b + "." + c;
      assert NonSpaceRun(a) && NonSpaceRun(b) && NonSpaceRun(c);
    }
    if MatchesPattern(s) {
      var a, b, c :| NonSpaceRun(a) && NonSpaceRun(b) && NonSpaceRun(c) && s == a + "@" + b + "." + c;
      PatternScan(s, a, b, c);
    }
  }

  lemma PatternScan(s: string, a: string, b: string, c: string)
    requires NonSpaceRun(a) && NonSpaceRun(b) && NonSpaceRun(c) && s == a + "@" + b + "." + c
    ensures IsValidEmail(s)
  {
    var at, dot := |a|, |a| + 1 + |b|;
    assert s[at] == '@' && s[dot] == '.';
    forall k | 0 <= k < |s| ensures !IsSpace(s[k]) {
      if k < at {
        assert s[k] == a[k];
      } else if at < k < dot {
        assert s[k] == b[k - at - 1];
      } else if dot < k {
        assert s[k] == c[k - dot - 1];
      }
    }
    var r := FindAt(s, 1);
    assert r.Some? && r.value <= at;
    var i := r.value;
    assert s[i + 2 .. |s| - 1][dot - (i + 2)] == '.';
  }
}
