/** htmlEscape of pkg/report: five replacements in a fixed order. */
module HtmlEscape {

  /** strings.ReplaceAll for a pattern of one character. */
  function ReplaceAll(s: string, c: char, sub: string): string {
    if s == [] then []
    else (if s[0] == c then sub else [s[0]]) + ReplaceAll(s[1..], c, sub)
  }

  const AMP := "&amp;"
  const LT := "&lt;"
  const GT := "&gt;"
  const QUOT := "&quot;"
  const APOS := "&#x27;"

  /** The code: ampersands first, then the other four. */
  function Escape(s: string): string {
    var a := ReplaceAll(s, '&', AMP);
    var b := ReplaceAll(a, '<', LT);
    var c := ReplaceAll(b, '>', GT);
    var d := ReplaceAll(c, '"', QUOT);
    ReplaceAll(d, '\'', APOS)
  }

  /** What one character becomes. */
  function Entity(c: char): string {
    match c
    case '&' => AMP
    case '<' => LT
    case '>' => GT
    case '"' => QUOT
    case '\'' => APOS
    case _ => [c]
  }

  /** The meaning: one pass, character by character. */
  function SinglePass(s: string): string {
    if s == [] then [] else Entity(s[0]) + SinglePass(s[1..])
  }

  lemma {:induction false} ReplaceAppend(s: string, t: string, c: char, sub: string)
    ensures ReplaceAll(s + t, c, sub) == ReplaceAll(s, c, sub) + ReplaceAll(t, c, sub)
  {
    if s == [] {
      assert s + t == t;
    } else {
      assert (s + t)[1..] == s[1..] + t;
      ReplaceAppend(s[1..], t, c, sub);
    }
  }

  lemma {:induction false} ReplaceAbsent(s: string, c: char, sub: string)
    requires c !in s
    ensures ReplaceAll(s, c, sub) == s
  {
    if s != [] {
      ReplaceAbsent(s[1..], c, sub);
    }
  }

  lemma EscapeAppend(s: string, t: string)
    ensures Escape(s + t) == Escape(s) + Escape(t)
  {
    var s1, t1 := ReplaceAll(s, '&', AMP), ReplaceAll(t, '&', AMP);
    ReplaceAppend(s, t, '&', AMP);
    var s2, t2 := ReplaceAll(s1, '<', LT), ReplaceAll(t1, '<', LT);
    ReplaceAppend(s1, t1, '<', LT);
    var s3, t3 := ReplaceAll(s2, '>', GT), ReplaceAll(t2, '>', GT);
    ReplaceAppend(s2, t2, '>', GT);
    var s4, t4 := ReplaceAll(s3, '"', QUOT), ReplaceAll(t3, '"', QUOT);
    ReplaceAppend(s3, t3, '"', QUOT);
    ReplaceAppend(s4, t4, '\'', APOS);
  }

  lemma ReplaceChar(x: char, c: char, sub: string)
    ensures ReplaceAll([x], c, sub) == if x == c then sub else [x]
  {
    assert ReplaceAll([x], c, sub) == (if x == c then sub else [x]) + ReplaceAll([], c, sub);
  }

  lemma EntityPlain(x: char, c: char)
    requires c == '<' || c == '>' || c == '"' || c == '\''
    requires x != c
    ensures c !in Entity(x)
  {
  }

  /** One replacement: it rewrites its own character and leaves inserted entities alone. */
  lemma Stage(x: char, s: string, done: bool, c: char) returns (s': string, done': bool)
    requires s == if done then Entity(x) else [x]
    requires done ==> x != c && (c == '<' || c == '>' || c == '"' || c == '\'')
    ensures s' == ReplaceAll(s, c, Entity(c))
    ensures done' == (done || x == c)
    ensures s' == if done' then Entity(x) else [x]
  {
    s', done' := ReplaceAll(s, c, Entity(c)), done || x == c;
    if done {
      EntityPlain(x, c);
      ReplaceAbsent(s, c, Entity(c));
    } else {
      ReplaceChar(x, c, Entity(c));
    }
  }

  lemma EscapeChar(x: char)
    ensures Escape([x]) == Entity(x)
  {
    var a, one := Stage(x, [x], false, '&');
    var b, two := Stage(x, a, one, '<');
    var c, three := Stage(x, b, two, '>');
    var d, four := Stage(x, c, three, '"');
    var e, five := Stage(x, d, four, '\'');
    assert e == Escape([x]);
  }

  /** The order of the replacements is right: together they map each character once. */
  lemma {:induction false} EscapeIsSinglePass(s: string)
    ensures Escape(s) == SinglePass(s)
  {
    if s != [] {
      assert s == [s[0]] + s[1..];
      EscapeAppend([s[0]], s[1..]);
      EscapeChar(s[0]);
      EscapeIsSinglePass(s[1..]);
    }
  }

  /** Each character comes out as itself or as its entity, whatever surrounds it. */
  lemma EscapeByCharacter(c: char, rest: string)
    ensures Escape("") == ""
    ensures Escape([c] + rest) ==
            (if c == '&' then "&amp;" else if c == '<' then "&lt;" else if c == '>' then "&gt;"
             else if c == '"' then "&quot;" else if c == '\'' then "&#x27;" else [c]) + Escape(rest)
  {
    EscapeAppend([c], rest);
    EscapeChar(c);
  }

  // ---- The output is safe text, and nothing is lost ----

  /** The text starts with one of the five entities. */
  predicate StartsEntity(s: string) {
    AMP <= s || LT <= s || GT <= s || QUOT <= s || APOS <= s
  }

  ghost predicate SafeText(s: string) {
    && '<' !in s && '>' !in s && '"' !in s && '\'' !in s
    && forall i :: 0 <= i < |s| && s[i] == '&' ==> StartsEntity(s[i..])
  }

  lemma EntityShape(c: char)
    ensures var e := Entity(c);
            && '<' !in e && '>' !in e && '"' !in e && '\'' !in e
            && forall i :: 0 <= i < |e| && e[i] == '&' ==> i == 0 && StartsEntity(e)
  {
  }

  lemma EntitySafe(c: char, rest: string)
    requires SafeText(rest)
    ensures SafeText(Entity(c) + rest)
  {
    hide Entity;
    EntityShape(c);
    var e := Entity(c);
    var s := e + rest;
    forall i | 0 <= i < |s| && s[i] == '&'
      ensures StartsEntity(s[i..])
    {
      if i < |e| {
        assert i == 0 && e <= s[0..];
      } else {
        assert s[i..] == rest[i - |e|..];
      }
    }
  }

  lemma {:induction false} SinglePassSafe(s: string)
    ensures SafeText(SinglePass(s))
  {
    if s != [] {
      SinglePassSafe(s[1..]);
      EntitySafe(s[0], SinglePass(s[1..]));
    }
  }

  /** No raw markup character survives, and every ampersand opens one of the five entities. */
  lemma EscapedTextIsSafe(s: string)
    ensures SafeText(Escape(s))
  {
    EscapeIsSinglePass(s);
    SinglePassSafe(s);
  }

  /** Reads the five entities back. */
  function Unescape(s: string): string {
    if s == [] then []
    else if AMP <= s then "&" + Unescape(s[|AMP|..])
    else if LT <= s then "<" + Unescape(s[|LT|..])
    else if GT <= s then ">" + Unescape(s[|GT|..])
    else if QUOT <= s then "\"" + Unescape(s[|QUOT|..])
    else if APOS <= s then "'" + Unescape(s[|APOS|..])
    else [s[0]] + Unescape(s[1..])
  }

  lemma UnescapeEntity(c: char, rest: string)
    ensures Unescape(Entity(c) + rest) == [c] + Unescape(rest)
  {
    var s := Entity(c) + rest;
    assert s[|Entity(c)|..] == rest;
    match c
    case '&' =>
    case '<' => assert s[1] == 'l';
    case '>' => assert s[1] == 'g';
    case '"' => assert s[1] == 'q';
    case '\'' => assert s[1] == '#';
    case _ => assert s[0] == c;
  }

  lemma {:induction false} UnescapeInverts(s: string)
    ensures Unescape(Escape(s)) == s
  {
    EscapeIsSinglePass(s);
    if s != [] {
      UnescapeEntity(s[0], SinglePass(s[1..]));
      EscapeIsSinglePass(s[1..]);
      UnescapeInverts(s[1..]);
    }
  }

  lemma EscapeInjective(s: string, t: string)
    requires Escape(s) == Escape(t)
    ensures s == t
  {
    UnescapeInverts(s);
    UnescapeInverts(t);
  }
}
