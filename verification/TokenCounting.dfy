/**
 Counting the tokens of a JSON document (metering/token_counter.go). The source collects texts while
 ranging over maps in an unspecified order and adds up their counts; the total is a function of the
 document alone.
 */
module TokenCounting {
  import opened Text
  import opened Json
  import opened MapSum

  const TEXTUAL_FIELDS := {"prompt", "content", "message", "text", "input", "query", "instruction", "system",
                           "user", "assistant", "completion", "response", "output", "choices"}

  predicate IsTextualField(name: string) {
    ToLower(name) in TEXTUAL_FIELDS
  }

  /** `\s` of a Go regular expression. */
  predicate IsRegexSpace(c: char) {
    c == '\t' || c == '\n' || c == '\U{0C}' || c == '\r' || c == ' '
  }

  /** Every run of spaces becomes one; `inRun` says whether the last character was one. */
  function Collapse(s: string, inRun: bool): string {
    if s == "" then ""
    else if IsRegexSpace(s[0]) then (if inRun then "" else " ") + Collapse(s[1..], true)
    else [s[0]] + Collapse(s[1..], false)
  }

  /** A quarter of the characters, but at least one for a text that is not blank. */
  function TextTokens(text: string): nat {
    var cleaned := Collapse(TrimSpace(text), false);
    if |cleaned| / 4 < 1 && |cleaned| > 0 then 1 else |cleaned| / 4
  }

  // ----- what a text counts -----------------------------------------------------------------------

  predicate IsWord(w: string) {
    w != "" && forall i :: 0 <= i < |w| ==> !IsSpace(w[i])
  }

  predicate IsGap(g: string) {
    g != "" && forall i :: 0 <= i < |g| ==> IsRegexSpace(g[i])
  }

  /** The words with the gaps between them. */
  function Spaced(words: seq<string>, gaps: seq<string>): string
    requires |words| == |gaps| + 1
  {
    if gaps == [] then words[0] else words[0] + gaps[0] + Spaced(words[1..], gaps[1..])
  }

  lemma {:induction false} CollapseGap(g: string, rest: string)
    requires forall i :: 0 <= i < |g| ==> IsRegexSpace(g[i])
    ensures Collapse(g + rest, true) == Collapse(rest, true)
  {
    if g == "" {
      assert g + rest == rest;
    } else {
      assert (g + rest)[1..] == g[1..] + rest;
      CollapseGap(g[1..], rest);
    }
  }

  lemma {:induction false} CollapseWord(w: string, rest: string, inRun: bool)
    requires IsWord(w)
    ensures Collapse(w + rest, inRun) == w + Collapse(rest, false)
  {
    assert (w + rest)[1..] == w[1..] + rest && !IsSpace(w[0]);
    if |w| == 1 {
      assert w[1..] + rest == rest && w == [w[0]];
    } else {
      CollapseWord(w[1..], rest, false);
      assert w == [w[0]] + w[1..];
    }
  }

  lemma {:induction false} CollapseSpaced(words: seq<string>, gaps: seq<string>, inRun: bool)
    requires |words| == |gaps| + 1
    requires (forall w :: w in words ==> IsWord(w)) && (forall g :: g in gaps ==> IsGap(g))
    ensures Collapse(Spaced(words, gaps), inRun) == Join(words, ' ')
  {
    var w := words[0];
    if gaps == [] {
      assert w + "" == w;
      CollapseWord(w, "", inRun);
    } else {
      var g, rest := gaps[0], Spaced(words[1..], gaps[1..]);
      assert IsGap(g);
      assert w + g + rest == w + (g + rest) && (g + rest)[1..] == g[1..] + rest;
      CollapseWord(w, g + rest, inRun);
      assert Collapse(g + rest, false) == " " + Collapse(g[1..] + rest, true);
      CollapseGap(g[1..], rest);
      CollapseSpaced(words[1..], gaps[1..], true);
    }
  }

  lemma {:induction false} SpacedTrimmed(words: seq<string>, gaps: seq<string>)
    requires |words| == |gaps| + 1 && forall w :: w in words ==> IsWord(w)
    ensures Spaced(words, gaps) != "" && Trimmed(Spaced(words, gaps))
  {
    assert IsWord(words[0]);
    if gaps != [] {
      SpacedTrimmed(words[1..], gaps[1..]);
    }
  }

  /**
     A text counts a quarter of the characters of its words with single spaces between, rounded down, but
     at least one; however wide the gaps, and whatever spaces are around. A blank text counts nothing.
   */
  lemma TextTokensMeans(before: string, words: seq<string>, gaps: seq<string>, after: string)
    requires |words| == |gaps| + 1 && AllSpaces(before) && AllSpaces(after)
    requires (forall w :: w in words ==> IsWord(w)) && (forall g :: g in gaps ==> IsGap(g))
    ensures var n := |Join(words, ' ')|; TextTokens(before + Spaced(words, gaps) + after) == if n < 4 then 1 else n / 4
    ensures TextTokens(before) == 0
  {
    SpacedTrimmed(words, gaps);
    TrimSpaceDrops(before, Spaced(words, gaps), after);
    CollapseSpaced(words, gaps, false);
    assert Join(words, ' ') != "" by { assert IsWord(words[0]); }
    TrimSpaceDrops(before, "", "");
    assert before + "" + "" == before;
  }

  /** The names that make a string count once more, in whatever case they are written. */
  lemma TextualNames(name: string)
    ensures IsTextualField(name) <==>
      || ToLower(name) == "prompt" || ToLower(name) == "content" || ToLower(name) == "message"
      || ToLower(name) == "text" || ToLower(name) == "input" || ToLower(name) == "query"
      || ToLower(name) == "instruction" || ToLower(name) == "system" || ToLower(name) == "user"
      || ToLower(name) == "assistant" || ToLower(name) == "completion" || ToLower(name) == "response"
      || ToLower(name) == "output" || ToLower(name) == "choices"
  {
  }

  /** A non-empty string directly under a textual key is counted once more. */
  function Extra(key: string, v: Value): nat {
    if IsTextualField(key) && v.Str? then TextTokens(v.s) else 0
  }

  /** The count of a document: each string leaf once, and the extras. */
  ghost function Tokens(v: Value): int {
    match v
    case Str(s) => TextTokens(s)
    case Arr(items) => ItemTokens(items)
    case Obj(fields) => Sum(map k | k in fields :: Tokens(fields[k]) + Extra(k, fields[k]))
    case _ => 0
  }

  ghost function ItemTokens(items: seq<Value>): int {
    if items == [] then 0 else Tokens(items[0]) + ItemTokens(items[1..])
  }

  function TotalTokens(texts: seq<string>): nat {
    if texts == [] then 0 else TextTokens(texts[0]) + TotalTokens(texts[1..])
  }

  lemma {:induction false} TotalAppends(a: seq<string>, b: seq<string>)
    ensures TotalTokens(a + b) == TotalTokens(a) + TotalTokens(b)
  {
    if a == [] {
      assert a + b == b;
    } else {
      TotalAppends(a[1..], b);
      assert (a + b)[1..] == a[1..] + b;
    }
  }

  lemma EmptyCountsNothing()
    ensures TextTokens("") == 0
  {
    assert TrimSpace("") == "" && Collapse("", false) == "";
  }

  /** Whatever order the fields are visited in, the texts collected add up to the document's count. */
  method ExtractTextFromJSON(data: Value) returns (texts: seq<string>)
    ensures TotalTokens(texts) == Tokens(data)
    decreases data, 0
  {
    texts := [];
    match data {
      case Obj(fields) =>
        ghost var shares := map k | k in fields :: Tokens(fields[k]) + Extra(k, fields[k]);
        var todo := fields.Keys;
        assert (map k | k in todo :: shares[k]) == shares;
        while todo != {}
          invariant todo <= fields.Keys
          invariant TotalTokens(texts) + Sum(map k | k in todo :: shares[k]) == Sum(shares)
          decreases todo
        {
          var key :| key in todo;
          ghost var rest := map k | k in todo :: shares[k];
          SumTakes(rest, key);
          assert rest - {key} == map k | k in todo - {key} :: shares[k];
          var found := TextOfField(key, fields[key]);
          var nested := ExtractTextFromJSON(fields[key]);
          TotalAppends(texts, found);
          TotalAppends(texts + found, nested);
          texts := texts + found + nested;
          todo := todo - {key};
        }
      case Arr(items) => texts := ExtractTextFromItems(items);
      case Str(s) =>
        EmptyCountsNothing();
        if s != "" {
          texts := [s];
        }
      case _ =>
    }
  }

  method TextOfField(key: string, v: Value) returns (texts: seq<string>)
    ensures TotalTokens(texts) == Extra(key, v)
  {
    EmptyCountsNothing();
    texts := if IsTextualField(key) && v.Str? && v.s != "" then [v.s] else [];
  }

  method ExtractTextFromItems(items: seq<Value>) returns (texts: seq<string>)
    ensures TotalTokens(texts) == ItemTokens(items)
    decreases items, 1
  {
    texts := [];
    for i := 0 to |items|
      invariant TotalTokens(texts) + ItemTokens(items[i..]) == ItemTokens(items)
    {
      assert items[i..][1..] == items[i + 1..];
      var nested := ExtractTextFromJSON(items[i]);
      TotalAppends(texts, nested);
      texts := texts + nested;
    }
  }

  /** Only a document that is an object is counted this way. */
  method CountJSONTokens(data: Value) returns (totalTokens: nat)
    ensures totalTokens == if data.Obj? then Tokens(data) else 0
  {
    totalTokens := 0;
    if !data.Obj? {
      return;
    }
    var textFields := ExtractTextFromJSON(data);
    for i := 0 to |textFields|
      invariant totalTokens + TotalTokens(textFields[i..]) == TotalTokens(textFields)
    {
      assert textFields[i..][1..] == textFields[i + 1..];
      totalTokens := totalTokens + TextTokens(textFields[i]);
    }
  }

  // ----- what the count counts --------------------------------------------------------------------

  /** The count of a document, part by part: a field adds its value's count, and a string under a textual key twice. */
  lemma FieldAdds(fields: Object, key: string, v: Value)
    requires key !in fields
    ensures Tokens(Obj(fields[key := v])) ==
      Tokens(Obj(fields)) + if v.Str? && IsTextualField(key) then 2 * TextTokens(v.s) else Tokens(v)
  {
    ShareAdds(fields, key, v, Tokens(v) + Extra(key, v));
    SharesAddUp(fields);
    SharesAddUp(fields[key := v]);
    StringCounts(v);
  }

  lemma ShareAdds(fields: Object, key: string, v: Value, share: int)
    requires key !in fields && share == Tokens(v) + Extra(key, v)
    ensures Sum(Shares(fields[key := v])) == Sum(Shares(fields)) + share
  {
    SharesGrow(fields, key, v, share);
    SumUpdate(Shares(fields), key, share);
  }

  lemma StringCounts(v: Value)
    ensures v.Str? ==> Tokens(v) == TextTokens(v.s)
  {
  }

  lemma SharesGrow(fields: Object, key: string, v: Value, share: int)
    requires key !in fields && share == Tokens(v) + Extra(key, v)
    ensures Shares(fields[key := v]) == Shares(fields)[key := share]
  {
    var more, grown := Shares(fields[key := v]), Shares(fields)[key := share];
    assert more.Keys == grown.Keys;
    forall k | k in more
      ensures more[k] == grown[k]
    {
      if k != key {
        assert fields[key := v][k] == fields[k];
      }
    }
  }

  ghost function Shares(fields: Object): map<string, int> {
    map k | k in fields :: Tokens(fields[k]) + Extra(k, fields[k])
  }

  lemma SharesAddUp(fields: Object)
    ensures Tokens(Obj(fields)) == Sum(Shares(fields))
    ensures fields == map[] ==> Tokens(Obj(fields)) == 0
  {
    assert Shares(fields).Keys == fields.Keys;
    if fields == map[] {
      assert Shares(fields) == map[];
    }
  }

  lemma PartsAdd(text: string, v: Value, items: seq<Value>, n: Number, b: bool)
    ensures Tokens(Str(text)) == TextTokens(text)
    ensures Tokens(Arr([v] + items)) == Tokens(v) + Tokens(Arr(items))
    ensures Tokens(Arr([])) == Tokens(Obj(map[])) == Tokens(Num(n)) == Tokens(Bool(b)) == Tokens(Null) == 0
  {
    assert ([v] + items)[1..] == items;
    SharesAddUp(map[]);
  }

  /** Every string in the document, once. */
  ghost function LeafTokens(v: Value): int {
    match v
    case Str(s) => TextTokens(s)
    case Arr(items) => ItemLeafTokens(items)
    case Obj(fields) => Sum(map k | k in fields :: LeafTokens(fields[k]))
    case _ => 0
  }

  ghost function ItemLeafTokens(items: seq<Value>): int {
    if items == [] then 0 else LeafTokens(items[0]) + ItemLeafTokens(items[1..])
  }

  /** Every string that is itself the value of a textual key, at any depth, once. */
  ghost function KeyedTokens(v: Value): int {
    match v
    case Arr(items) => ItemKeyedTokens(items)
    case Obj(fields) => Sum(map k | k in fields :: KeyedTokens(fields[k]) + Extra(k, fields[k]))
    case _ => 0
  }

  ghost function ItemKeyedTokens(items: seq<Value>): int {
    if items == [] then 0 else KeyedTokens(items[0]) + ItemKeyedTokens(items[1..])
  }

  /** A string under a textual key is billed twice, any other string once, and nothing else is billed. */
  lemma {:induction false} TextualKeysCountTwice(v: Value)
    ensures Tokens(v) == LeafTokens(v) + KeyedTokens(v)
    decreases v, 0
  {
    match v
    case Arr(items) => ItemsCountTwice(items);
    case Obj(fields) =>
      var leaves := map k | k in fields :: LeafTokens(fields[k]);
      var keyed := map k | k in fields :: KeyedTokens(fields[k]) + Extra(k, fields[k]);
      var both := map k | k in fields :: Tokens(fields[k]) + Extra(k, fields[k]);
      forall k | k in fields
        ensures both[k] == leaves[k] + keyed[k]
      {
        TextualKeysCountTwice(fields[k]);
      }
      SumAdds(leaves, keyed, both);
    case _ =>
  }

  lemma {:induction false} ItemsCountTwice(items: seq<Value>)
    ensures ItemTokens(items) == ItemLeafTokens(items) + ItemKeyedTokens(items)
    decreases items, 1
  {
    if items != [] {
      TextualKeysCountTwice(items[0]);
      ItemsCountTwice(items[1..]);
    }
  }
}
