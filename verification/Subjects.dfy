/** Subject matching: the string test of the memory broker against the meaning
    of a pattern as dot-separated tokens. */
module Subjects {

  predicate HasPrefix(s: string, prefix: string) {
    |prefix| <= |s| && s[..|prefix|] == prefix
  }

  predicate HasSuffix(s: string, suffix: string) {
    |suffix| <= |s| && s[|s| - |suffix|..] == suffix
  }

  function TrimSuffix(s: string, suffix: string): string {
    if HasSuffix(s, suffix) then s[..|s| - |suffix|] else s
  }

  /** The broker's test. */
  predicate MatchSubject(pattern: string, subject: string) {
    if pattern == subject then true
    else if HasSuffix(pattern, ".>") then HasPrefix(subject, TrimSuffix(pattern, ".>") + ".")
    else pattern == ">"
  }

  // ---------- Tokens ----------

  predicate IsToken(t: string) {
    t != "" && '.' !in t
  }

  predicate IsSubject(tokens: seq<string>) {
    tokens != [] && forall i :: 0 <= i < |tokens| ==> IsToken(tokens[i])
  }

  /** Literal tokens, of which only the last may be the wildcard. */
  predicate IsPattern(tokens: seq<string>) {
    IsSubject(tokens) && forall i :: 0 <= i < |tokens| - 1 ==> tokens[i] != ">"
  }

  function JoinDots(tokens: seq<string>): string {
    if tokens == [] then ""
    else if |tokens| == 1 then tokens[0]
    else tokens[0] + "." + JoinDots(tokens[1..])
  }

  /** Token by token; a final `>` stands for one or more tokens. */
  predicate TokensMatch(pattern: seq<string>, subject: seq<string>) {
    if pattern == [">"] then subject != []
    else if pattern == [] || subject == [] then pattern == subject
    else pattern[0] == subject[0] && TokensMatch(pattern[1..], subject[1..])
  }

  /** Without the wildcard only the subject itself matches; with it, every
      subject that has the tokens before it and at least one more. */
  lemma {:induction false} TokensMatchMeans(pattern: seq<string>, subject: seq<string>)
    requires IsPattern(pattern)
    ensures var n := |pattern| - 1;
            TokensMatch(pattern, subject) <==>
              if pattern[n] == ">" then |subject| > n && subject[..n] == pattern[..n] else subject == pattern
    decreases |pattern|
  {
    var n := |pattern| - 1;
    if n == 0 {
      assert pattern == [pattern[0]];
      assert subject != [] && subject[1..] == [] ==> subject == [subject[0]];
      assert pattern[1..] == [];
    } else if subject != [] {
      assert pattern != [">"] by { assert pattern[0] != ">"; }
      TokensMatchMeans(pattern[1..], subject[1..]);
      assert pattern == [pattern[0]] + pattern[1..] && subject == [subject[0]] + subject[1..];
      assert pattern[..n] == [pattern[0]] + pattern[1..][..n - 1];
      assert |subject| > n ==> subject[..n] == [subject[0]] + subject[1..][..n - 1];
    }
  }

  // ---------- The first dot ends the first token ----------

  lemma FirstDot(a: string, x: string, b: string, y: string)
    requires '.' !in a && '.' !in b
    ensures HasPrefix(b + "." + y, a + "." + x) <==> a == b && HasPrefix(y, x)
  {
    var l, r := a + "." + x, b + "." + y;
    assert |a| < |b| ==> r[|a|] == b[|a|] && b[|a|] in b;
    assert |b| < |a| ==> l[|b|] == a[|b|] && a[|b|] in a;
    assert l[|a|] == '.' && r[|b|] == '.';
    if a == b && HasPrefix(y, x) {
      assert r[..|l|] == a + "." + y[..|x|];
    }
    if HasPrefix(r, l) {
      forall i | 0 <= i < |l| ensures l[i] == r[i] {
        assert r[..|l|][i] == r[i];
      }
      assert |a| == |b|;
      assert a == l[..|a|] && b == r[..|b|];
      assert l[..|a|] == r[..|a|];
      forall i | 0 <= i < |x| ensures x[i] == y[i] {
        assert l[|a| + 1 + i] == x[i] && r[|a| + 1 + i] == y[i];
      }
      assert y[..|x|] == x;
    }
  }

  lemma FirstDotEqual(a: string, x: string, b: string, y: string)
    requires '.' !in a && '.' !in b
    ensures a + "." + x == b + "." + y <==> a == b && x == y
  {
    if a + "." + x == b + "." + y {
      FirstDot(a, x, b, y);
      FirstDot(b, y, a, x);
      assert HasPrefix(x, y) && HasPrefix(y, x);
      assert x[..|y|] == x && y[..|x|] == y;
    }
  }

  lemma NoDotPrefix(a: string, x: string, b: string)
    requires '.' !in b
    ensures !HasPrefix(b, a + "." + x)
  {
    var l := a + "." + x;
    assert l[|a|] == '.';
    assert |l| <= |b| ==> b[..|l|][|a|] == b[|a|] && b[|a|] in b;
  }

  lemma NoDotSuffix(t: string)
    requires '.' !in t
    ensures !HasSuffix(t, ".>")
  {
    assert |t| >= 2 ==> t[|t| - 2..][0] == t[|t| - 2] && t[|t| - 2] in t;
  }

  /** `a.rest` ends in the wildcard iff `rest` does or is it. */
  lemma SuffixOfRest(a: string, rest: string)
    requires rest != ""
    ensures HasSuffix(a + "." + rest, ".>") <==> HasSuffix(rest, ".>") || rest == ">"
    ensures HasSuffix(rest, ".>") ==> TrimSuffix(a + "." + rest, ".>") == a + "." + TrimSuffix(rest, ".>")
    ensures rest == ">" ==> TrimSuffix(a + "." + rest, ".>") == a
  {
    var s := a + "." + rest;
    if |rest| >= 2 {
      assert s[|s| - 2..] == rest[|rest| - 2..];
      assert s[..|s| - 2] == a + "." + rest[..|rest| - 2];
    } else {
      assert s[|s| - 2..] == "." + rest && ("." + rest)[1] == rest[0] && rest == [rest[0]];
      assert s[..|s| - 2] == a;
    }
  }

  lemma JoinNonEmpty(tokens: seq<string>)
    requires IsSubject(tokens)
    ensures JoinDots(tokens) != ""
  {}

  // ---------- One token at a time ----------

  lemma SingleTokenPattern(t: string, subject: seq<string>)
    requires IsToken(t) && t != ">" && IsSubject(subject)
    ensures MatchSubject(t, JoinDots(subject)) <==> subject == [t]
  {
    NoDotSuffix(t);
    if |subject| > 1 {
      assert '.' in JoinDots(subject) by {
        assert JoinDots(subject)[|subject[0]|] == '.';
      }
    }
  }

  lemma HeadOfPattern(p0: string, rest: string, s0: string, sub: string)
    requires IsToken(p0) && p0 != ">" && IsToken(s0) && rest != "" && sub != ""
    ensures MatchSubject(p0 + "." + rest, s0 + "." + sub) <==> p0 == s0 && MatchSubject(rest, sub)
  {
    var pattern, subject := p0 + "." + rest, s0 + "." + sub;
    FirstDotEqual(p0, rest, s0, sub);
    SuffixOfRest(p0, rest);
    assert |pattern| > 1;
    if rest == ">" {
      FirstDot(p0, "", s0, sub);
      assert p0 + "." + "" == p0 + ".";
    } else if HasSuffix(rest, ".>") {
      var x := TrimSuffix(rest, ".>");
      FirstDot(p0, x + ".", s0, sub);
      assert p0 + "." + x + "." == p0 + "." + (x + ".");
    }
  }

  lemma LongPatternShortSubject(p0: string, rest: string, t: string)
    requires IsToken(p0) && p0 != ">" && IsToken(t) && rest != ""
    ensures !MatchSubject(p0 + "." + rest, t)
  {
    var pattern := p0 + "." + rest;
    assert pattern[|p0|] == '.';
    SuffixOfRest(p0, rest);
    if HasSuffix(pattern, ".>") {
      if rest == ">" {
        NoDotPrefix(p0, "", t);
        assert p0 + "." + "" == p0 + ".";
      } else {
        var x := TrimSuffix(rest, ".>");
        NoDotPrefix(p0, x + ".", t);
        assert p0 + "." + x + "." == p0 + "." + (x + ".");
      }
    }
  }

  /** For every subject of non-empty tokens and every pattern of literal tokens
      that may end in `>`, the string test is token-by-token matching. */
  lemma {:induction false} MatchSubjectIsTokenMatch(pattern: seq<string>, subject: seq<string>)
    requires IsPattern(pattern) && IsSubject(subject)
    ensures MatchSubject(JoinDots(pattern), JoinDots(subject)) <==> TokensMatch(pattern, subject)
    decreases |pattern|
  {
    if |pattern| == 1 {
      if pattern[0] == ">" {
        assert pattern == [">"];
      } else {
        SingleTokenPattern(pattern[0], subject);
        assert TokensMatch(pattern, subject) <==> subject == [pattern[0]];
      }
    } else {
      assert pattern[0] != ">";
      JoinNonEmpty(pattern[1..]);
      if |subject| == 1 {
        LongPatternShortSubject(pattern[0], JoinDots(pattern[1..]), subject[0]);
      } else {
        JoinNonEmpty(subject[1..]);
        HeadOfPattern(pattern[0], JoinDots(pattern[1..]), subject[0], JoinDots(subject[1..]));
        MatchSubjectIsTokenMatch(pattern[1..], subject[1..]);
      }
    }
  }

  // ---------- The hub's subjects ----------

  const NAMESPACE := "blockforge.>"

  function RoomSubject(roomID: string): string {
    "blockforge.rooms." + roomID
  }

  function UserSubject(userID: string): string {
    "blockforge.users." + userID
  }

  /** Every subject the hub publishes reaches the server's subscription, for
      every room and user ID, also one with dots, blanks or wildcards in it. */
  lemma HubSubjectsReachTheSubscription(id: string)
    ensures MatchSubject("blockforge.>", RoomSubject(id)) && MatchSubject("blockforge.>", UserSubject(id))
    ensures MatchSubject(NAMESPACE, RoomSubject(id)) && MatchSubject(NAMESPACE, UserSubject(id))
    ensures !MatchSubject(NAMESPACE, "blockforge")
  {
    assert TrimSuffix(NAMESPACE, ".>") + "." == "blockforge.";
    assert RoomSubject(id)[..11] == "blockforge.";
    assert UserSubject(id)[..11] == "blockforge.";
  }

  /** Different rooms and users have different subjects, and no room has the
      subject of a user. */
  lemma HubSubjectsAreDistinct(a: string, b: string)
    ensures RoomSubject(a) == RoomSubject(b) <==> a == b
    ensures UserSubject(a) == UserSubject(b) <==> a == b
    ensures RoomSubject(a) != UserSubject(b)
  {
    assert RoomSubject(a)[17..] == a && RoomSubject(b)[17..] == b;
    assert UserSubject(a)[17..] == a && UserSubject(b)[17..] == b;
    assert RoomSubject(a)[11] == 'r' && UserSubject(b)[11] == 'u';
  }
}
