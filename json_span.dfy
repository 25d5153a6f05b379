/**
 * The fallback `content.match(/\{[\s\S]*\}/)` used to dig a JSON object out of a
 * model's reply: the leftmost match of a greedy pattern, which runs from the
 * first `{` to the last `}` after it.
 */
module JsonSpan {
  import opened Wrappers

  /** The index of the first c in s. */
  function FirstIndex(s: string, c: char): (r: Option<nat>)
    ensures r.Some? ==> r.value < |s| && s[r.value] == c && forall k :: 0 <= k < r.value ==> s[k] != c
    ensures r.None? ==> forall k :: 0 <= k < |s| ==> s[k] != c
  {
    if s == [] then None
    else if s[0] == c then Some(0)
    else match FirstIndex(s[1..], c)
      case None => None
      case Some(i) => Some(i + 1)
  }

  /** The index of the last c in s. */
  function LastIndex(s: string, c: char): (r: Option<nat>)
    ensures r.Some? ==> r.value < |s| && s[r.value] == c && forall k :: r.value < k < |s| ==> s[k] != c
    ensures r.None? ==> forall k :: 0 <= k < |s| ==> s[k] != c
  {
    if s == [] then None
    else if s[|s| - 1] == c then Some(|s| - 1)
    else LastIndex(s[..|s| - 1], c)
  }

  /** `match(...)?.[0]`: the matched text, or `None` when nothing matches. */
  function ExtractSpan(s: string): Option<string> {
    match (FirstIndex(s, '{'), LastIndex(s, '}'))
    case (Some(i), Some(j)) => if i < j then Some(s[i..j + 1]) else None
    case _ => None
  }

  /** Some `{` comes before some `}`. */
  predicate HasSpan(s: string) {
    exists i, j :: 0 <= i < j < |s| && s[i] == '{' && s[j] == '}'
  }

  /** The pattern matches exactly when a `{` precedes a `}`. */
  lemma SpanExistsIff(s: string)
    ensures ExtractSpan(s).Some? <==> HasSpan(s)
  {
    var f := FirstIndex(s, '{');
    var l := LastIndex(s, '}');
    if HasSpan(s) {
      var i, j :| 0 <= i < j < |s| && s[i] == '{' && s[j] == '}';
      assert f.Some? && f.value <= i;
      assert l.Some? && j <= l.value;
    }
  }

  /** The match is the widest one: it runs from the first `{` to the last `}`, so every
    * `{`...`}` stretch of s lies inside it. */
  lemma SpanIsMaximal(s: string)
    requires ExtractSpan(s).Some?
    ensures var i := FirstIndex(s, '{').value;
      var j := LastIndex(s, '}').value;
      && i < j && ExtractSpan(s).value == s[i..j + 1]
      && forall i', j' :: 0 <= i' < j' < |s| && s[i'] == '{' && s[j'] == '}' ==> i <= i' && j' <= j
    ensures var t := ExtractSpan(s).value; |t| >= 2 && t[0] == '{' && t[|t| - 1] == '}'
  {
    var i := FirstIndex(s, '{').value;
    var j := LastIndex(s, '}').value;
    assert ExtractSpan(s).value == s[i..j + 1];
  }

  /** Extracting again from an extracted span gives the span back. */
  lemma SpanIdempotent(s: string)
    requires ExtractSpan(s).Some?
    ensures ExtractSpan(ExtractSpan(s).value) == ExtractSpan(s)
  {
    var t := ExtractSpan(s).value;
    SpanIsMaximal(s);
    var ft := FirstIndex(t, '{');
    var lt := LastIndex(t, '}');
    assert ft == Some(0);
    assert lt == Some(|t| - 1);
    assert t[0..|t|] == t;
  }
}
