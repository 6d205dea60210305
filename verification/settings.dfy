/**
 * The two environment-variable parsers of the Django settings module.
 * The value of `os.getenv(name)` is a parameter: `None` when the variable is
 * unset, `Some(text)` otherwise.
 */
module Settings {
  import opened Common

  /** The spellings `env_bool` reads as true once stripped and lower-cased. */
  const TrueWords: set<string> := {"1", "true", "yes", "on"}

  /** `env_bool(name, default)`. */
  function EnvBool(value: Option<string>, default: bool): bool {
    match value
    case None => default
    case Some(text) => Lower(Trim(text)) in TrueWords
  }

  /** `[item.strip() for item in parts if item.strip()]`. */
  function StrippedItems(parts: seq<string>): (items: seq<string>)
    ensures forall k :: 0 <= k < |items| ==> items[k] != [] && IsTrimmed(items[k])
  {
    if parts == [] then []
    else
      var item := Trim(parts[0]);
      (if item != [] then [item] else []) + StrippedItems(parts[1..])
  }

  /** `env_list(name, default)`. */
  function EnvList(value: Option<string>, default: seq<string>): (r: seq<string>)
    // Whenever the variable is set and non-empty, every item is non-empty,
    // has no surrounding whitespace and holds no comma.
    ensures value.None? || value == Some("") ==> r == default
    ensures value.Some? && Trim(value.value) == "*" ==> r == ["*"]
    ensures value.Some? && value.value != [] ==>
      forall k :: 0 <= k < |r| ==> r[k] != [] && IsTrimmed(r[k]) && ',' !in r[k]
  {
    match value
    case None => default
    case Some(text) =>
      if text == [] then default
      else if Trim(text) == "*" then ["*"]
      else
        var parts := Split(text, ',');
        StrippedItemsHaveNoSeparator(parts, ',');
        StrippedItems(parts)
  }

  lemma {:induction false} StrippedItemsHaveNoSeparator(parts: seq<string>, sep: char)
    requires forall k :: 0 <= k < |parts| ==> sep !in parts[k]
    ensures forall k :: 0 <= k < |StrippedItems(parts)| ==> sep !in StrippedItems(parts)[k]
  {
    if parts != [] {
      StrippedItemsHaveNoSeparator(parts[1..], sep);
      TrimIsSlice(parts[0]);
    }
  }

  /** Every character of a trimmed string comes from the original. */
  lemma TrimIsSlice(s: string)
    ensures forall c :: c in Trim(s) ==> c in s
  {
    var t := TrimStart(s);
    TrimStartIsSuffix(s);
    TrimEndIsPrefix(t);
    forall c | c in Trim(s) ensures c in s {
      var i :| 0 <= i < |Trim(s)| && Trim(s)[i] == c;
      assert Trim(s)[i] == t[i];
      assert t[i] == s[|s| - |t| + i];
    }
  }

  // ---------------------------------------------------------------------------
  // env_bool
  // ---------------------------------------------------------------------------

  /** Lower-casing keeps whitespace and non-whitespace apart. */
  lemma LowerCharKeepsWhitespace(c: char)
    ensures IsWhitespace(LowerChar(c)) <==> IsWhitespace(c)
  {
  }

  lemma {:induction false} TrimStartCommutesWithLower(s: string)
    ensures Lower(TrimStart(s)) == TrimStart(Lower(s))
    decreases |s|
  {
    if s != [] {
      LowerCharKeepsWhitespace(s[0]);
      assert Lower(s)[1..] == Lower(s[1..]);
      TrimStartCommutesWithLower(s[1..]);
    }
  }

  lemma {:induction false} TrimEndCommutesWithLower(s: string)
    ensures Lower(TrimEnd(s)) == TrimEnd(Lower(s))
    decreases |s|
  {
    if s != [] {
      LowerCharKeepsWhitespace(s[|s| - 1]);
      assert Lower(s)[..|s| - 1] == Lower(s[..|s| - 1]);
      TrimEndCommutesWithLower(s[..|s| - 1]);
    }
  }

  /** Stripping and lower-casing commute. */
  lemma TrimCommutesWithLower(s: string)
    ensures Lower(Trim(s)) == Trim(Lower(s))
  {
    TrimStartCommutesWithLower(s);
    TrimEndCommutesWithLower(TrimStart(s));
  }

  /** `env_bool` gives `default` exactly when the variable is unset. */
  lemma EnvBoolDefaultOnlyWhenUnset(value: Option<string>)
    ensures EnvBool(value, true) != EnvBool(value, false) <==> value.None?
  {
  }

  /** Two values that differ only in letter case read the same. */
  lemma EnvBoolIgnoresCase(s: string, t: string, default: bool)
    requires Lower(s) == Lower(t)
    ensures EnvBool(Some(s), default) == EnvBool(Some(t), default)
  {
    TrimCommutesWithLower(s);
    TrimCommutesWithLower(t);
  }

  /** Surrounding whitespace is ignored. */
  lemma EnvBoolIgnoresPadding(p: string, s: string, q: string, default: bool)
    requires AllWhitespace(p) && AllWhitespace(q)
    ensures EnvBool(Some(p + s + q), default) == EnvBool(Some(s), default)
  {
    TrimIgnoresPadding(p, s, q);
  }

  /** Any capitalisation of the accepted words, padded with whitespace, reads as true. */
  lemma EnvBoolAcceptsTrueWords(p: string, s: string, q: string, default: bool)
    requires AllWhitespace(p) && AllWhitespace(q) && Lower(s) in TrueWords
    ensures EnvBool(Some(p + s + q), default)
  {
    TrimIgnoresPadding(p, s, q);
    TrimCommutesWithLower(s);
    TrueWordIsTrimmed(Lower(s));
    TrimOfTrimmed(Lower(s));
  }

  lemma TrueWordIsTrimmed(w: string)
    requires w in TrueWords
    ensures IsTrimmed(w)
  {
    assert w == "1" || w == "true" || w == "yes" || w == "on";
  }

  /** A set variable that is blank reads as false whatever the default. */
  lemma EnvBoolBlankIsFalse(s: string, default: bool)
    requires AllWhitespace(s)
    ensures !EnvBool(Some(s), default)
  {
    TrimEmptyIffWhitespace(s);
  }

  // ---------------------------------------------------------------------------
  // env_list
  // ---------------------------------------------------------------------------

  lemma {:induction false} SplitOfWhitespace(s: string, sep: char)
    requires AllWhitespace(s)
    ensures forall k :: 0 <= k < |Split(s, sep)| ==> AllWhitespace(Split(s, sep)[k])
    decreases |s|
  {
    if s != [] {
      SplitOfWhitespace(s[1..], sep);
    }
  }

  lemma {:induction false} StrippedItemsOfBlanks(parts: seq<string>)
    requires forall k :: 0 <= k < |parts| ==> AllWhitespace(parts[k])
    ensures StrippedItems(parts) == []
  {
    if parts != [] {
      TrimEmptyIffWhitespace(parts[0]);
      StrippedItemsOfBlanks(parts[1..]);
    }
  }

  /** A non-empty but whitespace-only value gives the empty list, not `default`. */
  lemma EnvListBlankIsEmpty(s: string, default: seq<string>)
    requires s != [] && AllWhitespace(s)
    ensures EnvList(Some(s), default) == []
  {
    TrimEmptyIffWhitespace(s);
    SplitOfWhitespace(s, ',');
    StrippedItemsOfBlanks(Split(s, ','));
  }

  /** A non-empty string with no surrounding whitespace: what `env_list` yields. */
  predicate IsCleanItem(s: string) { s != [] && IsTrimmed(s) }

  lemma {:induction false} StrippedItemsOfClean(items: seq<string>)
    requires forall k :: 0 <= k < |items| ==> IsCleanItem(items[k])
    ensures StrippedItems(items) == items
  {
    if items != [] {
      var head := items[0];
      assert IsCleanItem(head);
      TrimOfTrimmed(head);
      var rest := items[1..];
      assert forall k :: 0 <= k < |rest| ==> IsCleanItem(rest[k]) by {
        forall k | 0 <= k < |rest| ensures IsCleanItem(rest[k]) {
          assert rest[k] == items[k + 1];
        }
      }
      StrippedItemsOfClean(rest);
      assert items == [head] + rest;
    }
  }

  lemma {:induction false} JoinEnds(items: seq<string>, sep: string)
    requires |items| >= 1 && forall k :: 0 <= k < |items| ==> items[k] != []
    ensures var j := Join(items, sep);
      |j| >= |items| && j[0] == items[0][0] && j[|j| - 1] == items[|items| - 1][|items[|items| - 1]| - 1]
  {
    if |items| > 1 {
      JoinEnds(items[1..], sep);
    }
  }

  /**
   * Items that are non-empty, unpadded and comma-free survive a trip through a
   * comma-separated variable unchanged and in order.
   */
  lemma EnvListRoundTrip(items: seq<string>, default: seq<string>)
    requires |items| >= 1
    requires forall k :: 0 <= k < |items| ==> IsCleanItem(items[k]) && ',' !in items[k]
    ensures EnvList(Some(Join(items, ",")), default) == items
  {
    var j := Join(items, ",");
    JoinEnds(items, ",");
    assert IsTrimmed(j);
    TrimOfTrimmed(j);
    if j == "*" {
      assert |items| == 1;
      assert items[0] == j;
    } else {
      SplitJoin(items, ',');
      StrippedItemsOfClean(items);
    }
  }
}
