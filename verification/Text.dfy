/** The parts of Go's `strings` package the source relies on, on sequences of characters. */
module Text {

  const NEWLINE := '\n'

  /** `unicode.IsSpace`. */
  predicate IsSpace(c: char) {
    || '\t' <= c <= '\r' || c == ' ' || c == '\U{85}' || c == '\U{A0}' || c == '\U{1680}'
    || '\U{2000}' <= c <= '\U{200A}' || c == '\U{2028}' || c == '\U{2029}'
    || c == '\U{202F}' || c == '\U{205F}' || c == '\U{3000}'
  }

  function TrimLeft(s: string): string {
    if s != "" && IsSpace(s[0]) then TrimLeft(s[1..]) else s
  }

  function TrimRight(s: string): string {
    if s != "" && IsSpace(s[|s| - 1]) then TrimRight(s[..|s| - 1]) else s
  }

  function TrimSpace(s: string): string {
    TrimRight(TrimLeft(s))
  }

  /** Does not begin or end with a space; the empty string qualifies. */
  predicate Trimmed(s: string) {
    s != "" ==> !IsSpace(s[0]) && !IsSpace(s[|s| - 1])
  }

  predicate AllSpaces(s: string) {
    forall i :: 0 <= i < |s| ==> IsSpace(s[i])
  }

  lemma {:induction false} TrimLeftDrops(sp: string, s: string)
    requires AllSpaces(sp) && (s != "" ==> !IsSpace(s[0]))
    ensures TrimLeft(sp + s) == s
  {
    if sp != "" {
      assert (sp + s)[1..] == sp[1..] + s;
      TrimLeftDrops(sp[1..], s);
    } else {
      assert sp + s == s;
    }
  }

  lemma {:induction false} TrimRightDrops(s: string, sp: string)
    requires AllSpaces(sp) && (s != "" ==> !IsSpace(s[|s| - 1]))
    ensures TrimRight(s + sp) == s
  {
    if sp != "" {
      assert (s + sp)[..|s + sp| - 1] == s + sp[..|sp| - 1];
      TrimRightDrops(s, sp[..|sp| - 1]);
    } else {
      assert s + sp == s;
    }
  }

  /** Trimming takes exactly the surrounding spaces off a text with none of its own at the ends. */
  lemma TrimSpaceDrops(before: string, s: string, after: string)
    requires AllSpaces(before) && AllSpaces(after) && Trimmed(s)
    ensures TrimSpace(before + s + after) == s
  {
    if s != "" {
      assert before + s + after == before + (s + after);
      TrimLeftDrops(before, s + after);
    } else {
      assert before + s + after == (before + after) + "";
      TrimLeftDrops(before + after, "");
      assert after[..0] == "";
      TrimRightDrops("", "");
      return;
    }
    TrimRightDrops(s, after);
  }

  predicate HasPrefix(s: string, prefix: string) {
    prefix <= s
  }

  predicate Contains(s: string, sub: string) {
    HasPrefix(s, sub) || (s != "" && Contains(s[1..], sub))
  }

  lemma {:induction false} ContainsWithin(before: string, sub: string, after: string)
    ensures Contains(before + sub + after, sub)
  {
    var s := before + sub + after;
    if before != "" {
      ContainsWithin(before[1..], sub, after);
      assert s[1..] == before[1..] + sub + after;
    } else {
      assert s == sub + after;
    }
  }

  /** Contained means: somewhere in the text. */
  lemma {:induction false} ContainsIff(s: string, sub: string)
    ensures Contains(s, sub) <==> exists a, b :: s == a + sub + b
  {
    if Contains(s, sub) {
      var i := FindIn(s, sub);
      assert s == s[..i] + sub + s[i + |sub|..];
    }
    forall a, b | s == a + sub + b ensures Contains(s, sub) {
      ContainsWithin(a, sub, b);
    }
  }

  lemma {:induction false} FindIn(s: string, sub: string) returns (i: nat)
    requires Contains(s, sub)
    ensures i + |sub| <= |s| && s[i..i + |sub|] == sub
  {
    i := 0;
    if !HasPrefix(s, sub) {
      i := FindIn(s[1..], sub);
      assert s[1..][i..i + |sub|] == s[i + 1..i + 1 + |sub|];
      i := i + 1;
    }
  }

  /** `strings.Split` with a one-character separator. */
  function Split(s: string, sep: char): (parts: seq<string>)
    ensures |parts| >= 1
  {
    if s == "" then [""]
    else
      var rest := Split(s[1..], sep);
      if s[0] == sep then [""] + rest else [[s[0]] + rest[0]] + rest[1..]
  }

  /** `strings.Join` with a one-character separator. */
  function Join(parts: seq<string>, sep: char): string {
    if parts == [] then ""
    else if |parts| == 1 then parts[0]
    else parts[0] + [sep] + Join(parts[1..], sep)
  }

  lemma {:induction false} SplitAtFirst(a: string, sep: char, b: string)
    requires sep !in a
    ensures Split(a + [sep] + b, sep) == [a] + Split(b, sep)
  {
    var s := a + [sep] + b;
    if a != "" {
      assert s[1..] == a[1..] + [sep] + b;
      SplitAtFirst(a[1..], sep, b);
      assert [a[0]] + a[1..] == a;
    } else {
      assert s[1..] == b;
    }
  }

  lemma {:induction false} SplitWithout(a: string, sep: char)
    requires sep !in a
    ensures Split(a, sep) == [a]
  {
    if a != "" {
      SplitWithout(a[1..], sep);
      assert [a[0]] + a[1..] == a;
    }
  }

  /** `p` lies in `s` between `a` and `b`, with separators or the ends of `s` around it and none inside. */
  predicate IsPart(s: string, sep: char, a: string, p: string, b: string) {
    && s == a + p + b && sep !in p
    && (a == "" || a[|a| - 1] == sep) && (b == "" || b[0] == sep)
  }

  /** The parts of `[c] + s`, from those of `s`. */
  function Before(c: char, sep: char, parts: seq<string>): seq<string>
    requires |parts| >= 1
  {
    if c == sep then [""] + parts else [[c] + parts[0]] + parts[1..]
  }

  lemma SplitBefore(c: char, s: string, sep: char)
    ensures Split([c] + s, sep) == Before(c, sep, Split(s, sep))
  {
    assert ([c] + s)[1..] == s;
  }

  lemma BeforeConcat(c: char, sep: char, x: seq<string>, y: seq<string>)
    requires |x| >= 1
    ensures Before(c, sep, x + y) == Before(c, sep, x) + y
  {
    assert (x + y)[1..] == x[1..] + y;
  }

  lemma {:induction false} SplitConcat(a: string, sep: char, b: string)
    ensures Split(a + [sep] + b, sep) == Split(a, sep) + Split(b, sep)
  {
    if a == "" {
      assert a + [sep] + b == [sep] + b;
      SplitBefore(sep, b, sep);
    } else {
      var t := a[1..] + [sep] + b;
      assert a + [sep] + b == [a[0]] + t && a == [a[0]] + a[1..];
      SplitConcat(a[1..], sep, b);
      SplitBefore(a[0], t, sep);
      SplitBefore(a[0], a[1..], sep);
      BeforeConcat(a[0], sep, Split(a[1..], sep), Split(b, sep));
    }
  }

  lemma {:induction false} PartAround(s: string, sep: char, i: nat) returns (a: string, b: string)
    requires i < |Split(s, sep)|
    ensures IsPart(s, sep, a, Split(s, sep)[i], b) && (a == "" <==> i == 0)
  {
    if s == "" {
      return "", "";
    }
    if s[0] == sep {
      if i == 0 {
        return "", s;
      }
      a, b := PartAround(s[1..], sep, i - 1);
    } else {
      a, b := PartAround(s[1..], sep, i);
      if i == 0 {
        return;
      }
    }
    a := [s[0]] + a;
    assert s == [s[0]] + s[1..];
  }

  /** The parts of a split are just the stretches between separators. */
  lemma {:induction false} SplitPartIff(s: string, sep: char, p: string)
    ensures p in Split(s, sep) <==> exists a, b :: IsPart(s, sep, a, p, b)
  {
    if p in Split(s, sep) {
      var i :| 0 <= i < |Split(s, sep)| && Split(s, sep)[i] == p;
      var a, b := PartAround(s, sep, i);
    }
    forall a, b | IsPart(s, sep, a, p, b) ensures p in Split(s, sep) {
      PartIsSplit(s, sep, a, p, b);
    }
  }

  lemma {:induction false} PartIsSplit(s: string, sep: char, a: string, p: string, b: string)
    requires IsPart(s, sep, a, p, b)
    ensures p in Split(s, sep)
  {
    var t := p + b;
    if b == "" {
      assert t == p;
      SplitWithout(p, sep);
    } else {
      assert t == p + [sep] + b[1..];
      SplitAtFirst(p, sep, b[1..]);
    }
    assert p in Split(t, sep) by { assert Split(t, sep)[0] == p; }
    if a == "" {
      assert s == t;
    } else {
      assert s == a[..|a| - 1] + [sep] + t;
      SplitConcat(a[..|a| - 1], sep, t);
    }
  }

  /** What trimming leaves is the text without spaces at its ends. */
  lemma TrimSpaceMeans(s: string) returns (before: string, after: string)
    ensures s == before + TrimSpace(s) + after && AllSpaces(before) && AllSpaces(after) && Trimmed(TrimSpace(s))
  {
    before := TrimLeftMeans(s);
    after := TrimRightMeans(TrimLeft(s));
    assert before + (TrimSpace(s) + after) == before + TrimSpace(s) + after;
    if TrimSpace(s) != "" {
      assert TrimSpace(s)[0] == TrimLeft(s)[0];
    }
  }

  lemma {:induction false} TrimLeftMeans(s: string) returns (before: string)
    ensures s == before + TrimLeft(s) && AllSpaces(before) && (TrimLeft(s) != "" ==> !IsSpace(TrimLeft(s)[0]))
  {
    before := "";
    if s != "" && IsSpace(s[0]) {
      before := TrimLeftMeans(s[1..]);
      before := [s[0]] + before;
    }
  }

  lemma {:induction false} TrimRightMeans(s: string) returns (after: string)
    ensures s == TrimRight(s) + after && AllSpaces(after)
    ensures TrimRight(s) != "" ==> !IsSpace(TrimRight(s)[|TrimRight(s)| - 1])
  {
    after := "";
    if s != "" && IsSpace(s[|s| - 1]) {
      after := TrimRightMeans(s[..|s| - 1]);
      after := after + [s[|s| - 1]];
      assert s == s[..|s| - 1] + [s[|s| - 1]];
    }
  }

  /** The first part of a split: the text up to the first separator. */
  function UpTo(s: string, sep: char): string {
    if s == "" || s[0] == sep then "" else [s[0]] + UpTo(s[1..], sep)
  }

  lemma {:induction false} SplitFirst(s: string, sep: char)
    ensures Split(s, sep)[0] == UpTo(s, sep)
  {
    if s != "" {
      SplitFirst(s[1..], sep);
    }
  }

  lemma {:induction false} UpToBeyond(a: string, b: string, sep: char)
    requires sep !in a
    ensures UpTo(a + b, sep) == a + UpTo(b, sep)
  {
    if a != "" {
      assert (a + b)[1..] == a[1..] + b;
      UpToBeyond(a[1..], b, sep);
      assert [a[0]] + (a[1..] + UpTo(b, sep)) == a + UpTo(b, sep);
    } else {
      assert a + b == b;
    }
  }

  lemma {:induction false} UpToSpaces(s: string, sep: char)
    requires AllSpaces(s)
    ensures AllSpaces(UpTo(s, sep))
  {
    if s != "" {
      UpToSpaces(s[1..], sep);
    }
  }

  /** ASCII letters only. */
  function LowerChar(c: char): char {
    if 'A' <= c <= 'Z' then c - 'A' + 'a' else c
  }

  function ToLower(s: string): (r: string)
    ensures |r| == |s| && forall i :: 0 <= i < |s| ==> r[i] == LowerChar(s[i])
  {
    seq(|s|, i requires 0 <= i < |s| => LowerChar(s[i]))
  }

  lemma LowerAlready(s: string)
    requires forall i :: 0 <= i < |s| ==> !('A' <= s[i] <= 'Z')
    ensures ToLower(s) == s
  {
  }

  /** The 26 capitals become the small letters 32 places on; everything else stays. */
  lemma LowerMeans(c: char)
    ensures 65 <= c as int <= 90 ==> LowerChar(c) as int == c as int + 32
    ensures !(65 <= c as int <= 90) ==> LowerChar(c) == c
  {
  }

  lemma LowerExample()
    ensures ToLower("AZaz-09 {") == "azaz-09 {"
  {
    assert LowerChar('A') == 'a' && LowerChar('Z') == 'z';
  }
}
