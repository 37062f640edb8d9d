/** Which tokenizer a model name resolves to (metering/accurate_tokenizer.go). */
module TokenizerRegistry {
  import opened Text

  datatype TokenizerConfig = TokenizerConfig(kind: string, identifier: string)

  /** Lower case, without surrounding spaces, up to the first colon. */
  function Clean(model: string): string {
    UpTo(ToLower(TrimSpace(model)), ':')
  }

  /** The first `n` characters of `s` end where a dash follows, or at its end. */
  predicate EndsPart(s: string, n: int) {
    0 <= n <= |s| && (n == |s| || s[n] == '-')
  }

  /**
     The longest known name among the dash-delimited prefixes of `s` no longer than `n`; `s` itself when none is
     known.
   */
  function LongestKnown(known: set<string>, s: string, n: int): string
    requires n <= |s|
    decreases n + 1
  {
    if n < 0 then s
    else if EndsPart(s, n) && s[..n] in known then s[..n]
    else LongestKnown(known, s, n - 1)
  }

  function Normalized(known: set<string>, model: string): string {
    LongestKnown(known, Clean(model), |Clean(model)|)
  }

  /** What "longest known prefix, else the cleaned name" comes to. */
  lemma {:induction false} LongestKnownIsLongest(known: set<string>, s: string, n: int)
    requires n <= |s|
    ensures var r := LongestKnown(known, s, n);
      if exists m :: 0 <= m <= n && EndsPart(s, m) && s[..m] in known
      then r in known && |r| <= n && EndsPart(s, |r|) && s[..|r|] == r
        && forall m :: 0 <= m <= n && EndsPart(s, m) && s[..m] in known ==> m <= |r|
      else r == s
    decreases n + 1
  {
    if n >= 0 && !(EndsPart(s, n) && s[..n] in known) {
      LongestKnownIsLongest(known, s, n - 1);
      assert forall m :: 0 <= m <= n && EndsPart(s, m) && s[..m] in known ==> m <= n - 1;
    }
  }

  // ----- split and join ---------------------------------------------------------------------------

  /** The name made of the first `i` parts. */
  function FirstParts(s: string, i: nat): string
    requires i <= |Split(s, '-')|
  {
    Join(Split(s, '-')[..i], '-')
  }

  lemma JoinFirst(head: string, tail: seq<string>, c: char)
    ensures Join([[c] + head] + tail, '-') == [c] + Join([head] + tail, '-')
    ensures tail != [] ==> Join([""] + tail, '-') == "-" + Join(tail, '-')
  {
    assert ([[c] + head] + tail)[1..] == tail && ([head] + tail)[1..] == tail && ([""] + tail)[1..] == tail;
    if tail != [] {
      assert "" + "-" + Join(tail, '-') == "-" + Join(tail, '-');
      assert [c] + head + "-" + Join(tail, '-') == [c] + (head + "-" + Join(tail, '-'));
    }
  }

  /** Joining the first parts again gives back a prefix of the name that ends at the end of a part. */
  lemma {:induction false} FirstPartsArePrefix(s: string, i: nat)
    requires 1 <= i <= |Split(s, '-')|
    ensures FirstParts(s, i) <= s && EndsPart(s, |FirstParts(s, i)|)
    ensures i == |Split(s, '-')| ==> FirstParts(s, i) == s
  {
    var parts := Split(s, '-');
    if s != "" {
      var rest := Split(s[1..], '-');
      assert s == [s[0]] + s[1..];
      if s[0] == '-' {
        assert parts[..i] == [""] + rest[..i - 1];
        if i > 1 {
          JoinFirst("", rest[..i - 1], '-');
          FirstPartsArePrefix(s[1..], i - 1);
        } else {
          assert FirstParts(s, i) == "";
        }
      } else {
        FirstPartsArePrefix(s[1..], i);
        assert parts[..i] == [[s[0]] + rest[0]] + rest[1..i];
        assert rest[..i] == [rest[0]] + rest[1..i];
        JoinFirst(rest[0], rest[1..i], s[0]);
      }
    } else {
      assert parts[..i] == [""];
    }
  }

  /** Every such prefix is the join of some number of first parts. */
  lemma {:induction false} PrefixIsFirstParts(s: string, n: int) returns (i: nat)
    requires EndsPart(s, n)
    ensures 1 <= i <= |Split(s, '-')| && FirstParts(s, i) == s[..n]
  {
    var parts := Split(s, '-');
    if s == "" {
      i := 1;
      assert parts[..1] == [""];
    } else {
      var rest := Split(s[1..], '-');
      assert s == [s[0]] + s[1..];
      if n == 0 {
        i := 1;
        assert parts[..1] == [""];
      } else if s[0] == '-' {
        var j := PrefixIsFirstParts(s[1..], n - 1);
        i := j + 1;
        assert parts[..i] == [""] + rest[..j];
        JoinFirst("", rest[..j], '-');
        assert s[..n] == "-" + s[1..][..n - 1];
      } else {
        i := PrefixIsFirstParts(s[1..], n - 1);
        assert parts[..i] == [[s[0]] + rest[0]] + rest[1..i];
        assert rest[..i] == [rest[0]] + rest[1..i];
        JoinFirst(rest[0], rest[1..i], s[0]);
        assert s[..n] == [s[0]] + s[1..][..n - 1];
      }
    }
  }

  lemma {:induction false} JoinLength(parts: seq<string>, i: nat)
    requires 1 <= i < |parts|
    ensures |Join(parts[..i], '-')| < |Join(parts[..i + 1], '-')|
  {
    assert parts[..i][1..] == parts[1..][..i - 1] && parts[..i + 1][1..] == parts[1..][..i];
    if i > 1 {
      JoinLength(parts[1..], i - 1);
    }
  }

  lemma {:induction false} MorePartsAreLonger(s: string, i: nat, j: nat)
    requires 1 <= i < j <= |Split(s, '-')|
    ensures |FirstParts(s, i)| < |FirstParts(s, j)|
    decreases j
  {
    JoinLength(Split(s, '-'), j - 1);
    if i < j - 1 {
      MorePartsAreLonger(s, i, j - 1);
    }
  }

  /** The search over part counts, from all of them down, finds the longest known prefix. */
  lemma SearchFindsLongest(known: set<string>, s: string, i: nat)
    requires i <= |Split(s, '-')|
    requires forall j :: i < j <= |Split(s, '-')| ==> FirstParts(s, j) !in known
    requires i > 0 ==> FirstParts(s, i) in known
    ensures LongestKnown(known, s, |s|) == if i > 0 then FirstParts(s, i) else s
  {
    LongestKnownIsLongest(known, s, |s|);
    if i > 0 {
      FirstPartsArePrefix(s, i);
      var m := |FirstParts(s, i)|;
      assert s[..m] == FirstParts(s, i);
    }
    var r := LongestKnown(known, s, |s|);
    if r in known && EndsPart(s, |r|) && s[..|r|] == r {
      var k := PrefixIsFirstParts(s, |r|);
      if i > 0 && k < i {
        MorePartsAreLonger(s, k, i);
      }
    }
  }

  function HuggingFace(identifier: string): TokenizerConfig {
    TokenizerConfig("huggingface", identifier)
  }

  const MODELS_AT_START := map[
    "llama" := HuggingFace("meta-llama/Llama-2-7b-hf"),
    "llama-2" := HuggingFace("meta-llama/Llama-2-7b-hf"),
    "llama-3" := HuggingFace("meta-llama/Meta-Llama-3-8B"),
    "llama2" := HuggingFace("meta-llama/Llama-2-7b-hf"),
    "llama3" := HuggingFace("meta-llama/Meta-Llama-3-8B"),
    "llama3.3" := HuggingFace("meta-llama/Llama-3.3-70B-Instruct"),
    "mistral" := HuggingFace("mistralai/Mistral-7B-v0.1"),
    "mistral-7b" := HuggingFace("mistralai/Mistral-7B-v0.1"),
    "mixtral" := HuggingFace("mistralai/Mixtral-8x7B-v0.1"),
    "falcon" := HuggingFace("tiiuae/falcon-7b"),
    "falcon-7b" := HuggingFace("tiiuae/falcon-7b"),
    "bert" := HuggingFace("bert-base-uncased"),
    "bert-base" := HuggingFace("bert-base-uncased")]

  class AccurateTokenizer {
    var modelMap: map<string, TokenizerConfig>

    constructor ()
      ensures modelMap == MODELS_AT_START
    {
      modelMap := MODELS_AT_START;
    }

    /** The last look at the first word alone never succeeds: the search has tried it already. */
    method NormalizeModelName(model: string) returns (r: string)
      ensures r == Normalized(modelMap.Keys, model)
    {
      var name := UpTo(ToLower(TrimSpace(model)), ':');
      var parts := Split(name, '-');
      if name in modelMap {
        FirstPartsArePrefix(name, |parts|);
        SearchFindsLongest(modelMap.Keys, name, |parts|);
        return name;
      }
      var i := |parts|;
      while i > 0
        invariant 0 <= i <= |parts|
        invariant forall j :: i < j <= |parts| ==> FirstParts(name, j) !in modelMap
      {
        var testName := Join(parts[..i], '-');
        if testName in modelMap {
          SearchFindsLongest(modelMap.Keys, name, i);
          return testName;
        }
        i := i - 1;
      }
      if '-' in name {
        var firstWord := UpTo(name, '-');
        SplitFirst(name, '-');
        assert parts[..1] == [firstWord];
        assert FirstParts(name, 1) == firstWord;
        if firstWord in modelMap {
          assert false;
        }
      }
      SearchFindsLongest(modelMap.Keys, name, 0);
      r := name;
    }

    method SetCustomMapping(modelName: string, config: TokenizerConfig)
      modifies this
      ensures modelMap == old(modelMap)[ToLower(modelName) := config]
    {
      modelMap := modelMap[ToLower(modelName) := config];
    }
  }

  // ----- what resolving means ---------------------------------------------------------------------

  /** Cleaning takes off the spaces around the name and the tag after its first colon, and lowers the rest. */
  lemma CleanMeans(before: string, name: string, tag: string, after: string)
    requires AllSpaces(before) && AllSpaces(after) && Trimmed(name + tag)
    requires ':' !in name && (tag == "" || tag[0] == ':')
    ensures Clean(before + (name + tag) + after) == ToLower(name)
  {
    TrimSpaceDrops(before, name + tag, after);
    assert ToLower(name + tag) == ToLower(name) + ToLower(tag);
    assert ':' !in ToLower(name);
    UpToBeyond(ToLower(name), ToLower(tag), ':');
    assert UpTo(ToLower(tag), ':') == "";
  }

  /** So a name resolves to its longest known beginning before a dash or its end, tag and case aside, or to itself. */
  lemma NormalizedMeans(known: set<string>, before: string, name: string, tag: string, after: string)
    requires AllSpaces(before) && AllSpaces(after) && Trimmed(name + tag)
    requires ':' !in name && (tag == "" || tag[0] == ':')
    ensures var s, r := ToLower(name), Normalized(known, before + (name + tag) + after);
      if exists m :: 0 <= m <= |s| && (m == |s| || s[m] == '-') && s[..m] in known
      then r in known && |r| <= |s| && r == s[..|r|] && (|r| == |s| || s[|r|] == '-')
        && forall m :: 0 <= m <= |s| && (m == |s| || s[m] == '-') && s[..m] in known ==> m <= |r|
      else r == s
  {
    CleanMeans(before, name, tag, after);
    LongestKnownIsLongest(known, ToLower(name), |name|);
  }

  // ----- custom mappings --------------------------------------------------------------------------

  lemma {:induction false} UpToLength(s: string, sep: char)
    ensures |UpTo(s, sep)| <= |s|
    ensures |UpTo(s, sep)| == |s| <==> sep !in s
    ensures sep !in s ==> UpTo(s, sep) == s
  {
    if s != "" {
      UpToLength(s[1..], sep);
    }
  }

  lemma {:induction false} TrimLeftLength(s: string)
    ensures |TrimLeft(s)| <= |s| && (|TrimLeft(s)| == |s| ==> TrimLeft(s) == s)
  {
    if s != "" && IsSpace(s[0]) {
      TrimLeftLength(s[1..]);
    }
  }

  lemma {:induction false} TrimRightLength(s: string)
    ensures |TrimRight(s)| <= |s| && (|TrimRight(s)| == |s| ==> TrimRight(s) == s)
  {
    if s != "" && IsSpace(s[|s| - 1]) {
      TrimRightLength(s[..|s| - 1]);
    }
  }

  /** Cleaning a name is only lowering it exactly when it has no colon and no surrounding space. */
  lemma CleanIsLowerIff(name: string)
    ensures Clean(name) == ToLower(name) <==> ':' !in name && TrimSpace(name) == name
  {
    var t := TrimSpace(name);
    TrimLeftLength(name);
    TrimRightLength(TrimLeft(name));
    UpToLength(ToLower(t), ':');
    assert ':' in ToLower(t) <==> ':' in t by {
      if ':' in t {
        var i :| 0 <= i < |t| && t[i] == ':';
        assert ToLower(t)[i] == ':';
      }
    }
  }

  /**
     `SetCustomMapping` stores the lowered name as it is, while a lookup cleans it first: the mapping
     is found under its own name exactly when that has no colon and no surrounding space.
   */
  lemma CustomMappingFoundIff(known: set<string>, name: string)
    requires ToLower(name) in known
    ensures Normalized(known, name) == ToLower(name) <==> ':' !in name && TrimSpace(name) == name
  {
    CleanIsLowerIff(name);
    var s := Clean(name);
    LongestKnownIsLongest(known, s, |s|);
    TrimLeftLength(name);
    TrimRightLength(TrimLeft(name));
    UpToLength(ToLower(TrimSpace(name)), ':');
    if s == ToLower(name) {
      assert EndsPart(s, |s|) && s[..|s|] == s;
    }
  }
}
