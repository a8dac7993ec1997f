/** The string operations the screener applies to names and keys. */
module Text {

  /** White space as the trimming functions see it. */
  predicate IsSpace(c: char) {
    || c == ' ' || '\t' <= c <= '\r' || c == '\U{0085}' || c == '\U{00A0}' || c == '\U{1680}'
    || '\U{2000}' <= c <= '\U{200A}' || c == '\U{2028}' || c == '\U{2029}' || c == '\U{202F}'
    || c == '\U{205F}' || c == '\U{3000}'
  }

  function TrimLeft(s: string): string {
    if s != "" && IsSpace(s[0]) then TrimLeft(s[1..]) else s
  }

  function TrimRight(s: string): string {
    if s != "" && IsSpace(s[|s| - 1]) then TrimRight(s[..|s| - 1]) else s
  }

  function TrimSpace(s: string): string { TrimRight(TrimLeft(s)) }

  function UpperChar(c: char): char {
    if 'a' <= c <= 'z' then c - 'a' + 'A' else c
  }

  function ToUpper(s: string): string {
    if s == "" then "" else [UpperChar(s[0])] + ToUpper(s[1..])
  }

  /** Deletes every occurrence of the given characters. */
  function Without(s: string, drop: set<char>): string {
    if s == "" then "" else (if s[0] in drop then "" else [s[0]]) + Without(s[1..], drop)
  }

  predicate ColonFree(s: string) { ':' !in s }

  /** The part of a key before its first colon. */
  function FirstField(s: string): string {
    if s == "" || s[0] == ':' then "" else [s[0]] + FirstField(s[1..])
  }

  lemma {:induction false} FirstFieldOfJoin(a: string, rest: string)
    requires ColonFree(a)
    ensures FirstField(a + ":" + rest) == a
  {
    var s := a + ":" + rest;
    if a != "" {
      assert s[1..] == a[1..] + ":" + rest;
      FirstFieldOfJoin(a[1..], rest);
    }
  }

  /** Two keys built with a colon agree only when their first fields and their tails do. */
  lemma FieldsSplit(a: string, restA: string, b: string, restB: string)
    requires ColonFree(a) && ColonFree(b)
    requires a + ":" + restA == b + ":" + restB
    ensures a == b && restA == restB
  {
    FirstFieldOfJoin(a, restA);
    FirstFieldOfJoin(b, restB);
    assert restA == (a + ":" + restA)[|a| + 1..];
    assert restB == (b + ":" + restB)[|b| + 1..];
  }

  /** Read from the right: strings that end in fields without a colon agree only when those fields and the rest do. */
  lemma LastFieldsSplit(a: string, x: string, b: string, y: string)
    requires ColonFree(x) && ColonFree(y) && a + ":" + x == b + ":" + y
    ensures a == b && x == y
  {
    var s := a + ":" + x;
    assert s[|a|] == ':' && s[|b|] == ':' by { assert s == b + ":" + y; }
    assert forall i :: |a| < i < |s| ==> s[i] == x[i - |a| - 1];
    assert forall i :: |b| < i < |s| ==> s[i] == y[i - |b| - 1] by { assert s == b + ":" + y; }
    assert |a| == |b|;
    assert a == s[..|a|] && b == s[..|b|] && x == s[|a| + 1..] && y == s[|b| + 1..];
  }

  /** How many colons a string holds. */
  function Colons(s: string): nat { if s == "" then 0 else Colons(s[1..]) + if s[0] == ':' then 1 else 0 }

  lemma {:induction false} ColonsAppend(a: string, b: string)
    ensures Colons(a + b) == Colons(a) + Colons(b)
  {
    if a == "" {
      assert a + b == b;
    } else {
      ColonsAppend(a[1..], b);
      assert (a + b)[1..] == a[1..] + b;
    }
  }

  lemma {:induction false} NoColons(s: string)
    ensures Colons(s) == 0 <==> ColonFree(s)
  {
    if s != "" {
      NoColons(s[1..]);
    }
  }

  /** Exchange names and fee keys are kept trimmed and upper-case. */
  function NormalName(s: string): string { ToUpper(TrimSpace(s)) }

  /** Symbols also lose the separators of the various exchanges. */
  function NormalSymbol(s: string): string { Without(ToUpper(TrimSpace(s)), {'-', '_', '/'}) }

  predicate Trimmed(s: string) { s == "" || (!IsSpace(s[0]) && !IsSpace(s[|s| - 1])) }

  lemma {:induction false} TrimLeftShape(s: string)
    ensures var r := TrimLeft(s); |r| <= |s| && r == s[|s| - |r|..] && (r != "" ==> !IsSpace(r[0]))
  {
    if s != "" && IsSpace(s[0]) {
      TrimLeftShape(s[1..]);
    }
  }

  lemma {:induction false} TrimRightShape(s: string)
    ensures var r := TrimRight(s); |r| <= |s| && r == s[..|r|] && (r != "" ==> !IsSpace(r[|r| - 1]))
  {
    if s != "" && IsSpace(s[|s| - 1]) {
      TrimRightShape(s[..|s| - 1]);
    }
  }

  lemma TrimTrims(s: string)
    ensures Trimmed(TrimSpace(s))
    ensures Trimmed(s) ==> TrimSpace(s) == s
  {
    TrimLeftShape(s);
    TrimRightShape(TrimLeft(s));
  }

  lemma {:induction false} ToUpperAt(s: string)
    ensures |ToUpper(s)| == |s| && forall i :: 0 <= i < |s| ==> ToUpper(s)[i] == UpperChar(s[i])
  {
    if s != "" {
      ToUpperAt(s[1..]);
    }
  }

  lemma NormalNameIdempotent(s: string)
    ensures Trimmed(NormalName(s)) && NormalName(NormalName(s)) == NormalName(s)
  {
    hide TrimLeft;
    hide TrimRight;
    hide ToUpper;
    var t := TrimSpace(s);
    TrimTrims(s);
    UpperStaysTrimmed(t);
    TrimTrims(ToUpper(t));
    UpperTwice(t);
  }

  lemma UpperStaysTrimmed(t: string)
    requires Trimmed(t)
    ensures Trimmed(ToUpper(t))
  {
    hide ToUpper;
    ToUpperAt(t);
  }

  lemma UpperTwice(t: string)
    ensures ToUpper(ToUpper(t)) == ToUpper(t)
  {
    hide ToUpper;
    ToUpperAt(t);
    ToUpperAt(ToUpper(t));
  }

  predicate AllSpaces(s: string) { forall c :: c in s ==> IsSpace(c) }

  lemma {:induction false} TrimLeftDropsSpaces(s: string) returns (left: string)
    ensures s == left + TrimLeft(s) && AllSpaces(left)
  {
    left := "";
    if s != "" && IsSpace(s[0]) {
      var rest := TrimLeftDropsSpaces(s[1..]);
      left := [s[0]] + rest;
    }
  }

  lemma {:induction false} TrimRightDropsSpaces(s: string) returns (right: string)
    ensures s == TrimRight(s) + right && AllSpaces(right)
  {
    right := "";
    if s != "" && IsSpace(s[|s| - 1]) {
      var front := s[..|s| - 1];
      var rest := TrimRightDropsSpaces(front);
      right := rest + [s[|s| - 1]];
      assert s == front + [s[|s| - 1]] == TrimRight(front) + right;
    }
  }

  /** The same letter, in upper case if it is a small one. */
  predicate InUpperCase(c: char, u: char) { if 'a' <= c <= 'z' then 'A' <= u <= 'Z' && u - 'A' == c - 'a' else u == c }

  /** The normal form is the name without the spaces around it, character by character in upper case. */
  lemma NormalNameSpelled(s: string) returns (left: string, name: string, right: string)
    ensures s == left + name + right && AllSpaces(left) && AllSpaces(right) && Trimmed(name)
    ensures |NormalName(s)| == |name| && forall i :: 0 <= i < |name| ==> InUpperCase(name[i], NormalName(s)[i])
  {
    hide TrimLeft;
    hide TrimRight;
    hide IsSpace;
    hide ToUpper;
    left := TrimLeftDropsSpaces(s);
    right := TrimRightDropsSpaces(TrimLeft(s));
    name := TrimSpace(s);
    TrimTrims(s);
    ToUpperAt(name);
    assert s == left + (name + right) == left + name + right;
  }

  lemma {:induction false} WithoutKeepsRest(s: string, drop: set<char>)
    ensures forall c :: c in Without(s, drop) <==> c in s && c !in drop
  {
    if s != "" {
      WithoutKeepsRest(s[1..], drop);
    }
  }

  /** A normal symbol has no separators and no small letters, and every other character of the trimmed symbol. */
  lemma NormalSymbolSpelled(s: string, c: char)
    ensures c in NormalSymbol(s) ==> c !in {'-', '_', '/'} && !('a' <= c <= 'z')
    ensures c in TrimSpace(s) && c !in {'-', '_', '/'} ==> UpperChar(c) in NormalSymbol(s)
  {
    var t := TrimSpace(s);
    ToUpperAt(t);
    WithoutKeepsRest(ToUpper(t), {'-', '_', '/'});
    assert c in t ==> UpperChar(c) in ToUpper(t);
  }

  /** Symbol normalization is not idempotent: deleting a separator can expose a leading space. */
  lemma NormalSymbolNotIdempotent()
    ensures NormalSymbol("- A") == " A" && NormalSymbol(" A") == "A"
  {
    var drop := {'-', '_', '/'};
    assert TrimSpace("- A") == "- A" && ToUpper("- A") == "- A";
    assert "- A"[1..] == " A" && " A"[1..] == "A" && "A"[1..] == "";
    assert Without("A", drop) == "A";
    assert TrimLeft(" A") == "A" && TrimSpace(" A") == "A" && ToUpper("A") == "A";
  }
}
