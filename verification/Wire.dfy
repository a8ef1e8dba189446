/** The flat `VERB key=value` grammar (crates/coral-client/src/wire.rs). Texts are sequences of
    Unicode characters, and positions count characters where the source counts bytes: `find` and
    `char_indices` only ever produce character boundaries. */
module Wire {
  import opened Prelude

  /** The Unicode White_Space property, which `char::is_whitespace` tests. */
  predicate IsWhitespace(c: char) {
    var n := c as int;
    || 9 <= n <= 13 || n == 0x20 || n == 0x85 || n == 0xA0 || n == 0x1680
    || 0x2000 <= n <= 0x200A || n == 0x2028 || n == 0x2029 || n == 0x202F || n == 0x205F || n == 0x3000
  }

  predicate Unspaced(s: string) {
    forall i | 0 <= i < |s| :: !IsWhitespace(s[i])
  }

  // ---- Words -------------------------------------------------------------

  /** The longest prefix without whitespace. */
  function UntilSpace(s: string): (w: string)
    ensures w <= s && Unspaced(w)
    ensures |w| < |s| ==> IsWhitespace(s[|w|])
  {
    if s == "" || IsWhitespace(s[0]) then "" else [s[0]] + UntilSpace(s[1..])
  }

  /** `split_whitespace`. */
  function Words(s: string): (ws: seq<string>)
    decreases |s|
  {
    if s == "" then []
    else if IsWhitespace(s[0]) then Words(s[1..])
    else [UntilSpace(s)] + Words(s[|UntilSpace(s)|..])
  }

  function ToAsciiUpper(c: char): char {
    if 'a' <= c <= 'z' then (c as int - 32) as char else c
  }

  function Uppercase(s: string): string {
    seq(|s|, i requires 0 <= i < |s| => ToAsciiUpper(s[i]))
  }

  function Verb(text: string): string {
    if Words(text) == [] then "" else Uppercase(Words(text)[0])
  }

  function FirstValue(words: seq<string>, key: string): Option<string> {
    if words == [] then None
    else if key + "=" <= words[0] then Some(words[0][|key| + 1..])
    else FirstValue(words[1..], key)
  }

  function Tok(text: string, key: string): Option<string> {
    FirstValue(Words(text), key)
  }

  // ---- Searching for `key=` ----------------------------------------------

  predicate OccursAt(text: string, needle: string, i: int) {
    0 <= i <= |text| - |needle| && text[i..i + |needle|] == needle
  }

  predicate AtWordStart(text: string, i: int)
    requires i <= |text|
  {
    i <= 0 || IsWhitespace(text[i - 1])
  }

  predicate OpensContainer(text: string, i: int) {
    0 <= i < |text| && (text[i] == '{' || text[i] == '[')
  }

  /** The matching rules of the doc comment: `key=` starts a word and a container follows at once. */
  predicate Eligible(text: string, needle: string, i: int) {
    OccursAt(text, needle, i) && AtWordStart(text, i) && OpensContainer(text, i + |needle|)
  }

  predicate IsFirstEligible(text: string, needle: string, i: int) {
    Eligible(text, needle, i) && NoneBefore(text, needle, i)
  }

  predicate NoneBefore(text: string, needle: string, n: int) {
    forall j | 0 <= j < n :: !Eligible(text, needle, j)
  }

  ghost predicate NoneAnywhere(text: string, needle: string) {
    forall j :: !Eligible(text, needle, j)
  }

  /** The occurrence at which the source's search stops: from `from` it visits the next occurrence
      and, if that one is not eligible, resumes behind it. */
  function Search(text: string, needle: string, from: nat): (r: Option<nat>)
    requires needle != "" && from <= |text|
    ensures r.Some? ==> from <= r.value && Eligible(text, needle, r.value)
    decreases |text| - from
  {
    match Find(text, needle, from)
    case None => None
    case Some(i) =>
      if Eligible(text, needle, i) then Some(i) else Search(text, needle, i + |needle|)
  }

  /** `str::find` on the rest of the text. */
  function Find(text: string, needle: string, from: nat): (r: Option<nat>)
    requires from <= |text|
    ensures r.Some? ==> from <= r.value && OccursAt(text, needle, r.value)
    decreases |text| - from
  {
    if OccursAt(text, needle, from) then Some(from)
    else if from == |text| then None
    else Find(text, needle, from + 1)
  }

  lemma {:induction false} FindIsFirst(text: string, needle: string, from: nat, j: nat)
    requires from <= |text| && from <= j && OccursAt(text, needle, j)
    ensures Find(text, needle, from).Some? && Find(text, needle, from).value <= j
    decreases |text| - from
  {
    if !OccursAt(text, needle, from) {
      FindIsFirst(text, needle, from + 1, j);
    }
  }

  /** No suffix of the needle that starts a word in it is also its prefix: eligible occurrences
      cannot overlap an earlier occurrence. */
  predicate Borderless(needle: string) {
    forall k | 0 < k < |needle| && IsWhitespace(needle[k - 1]) :: !(needle[k..] <= needle)
  }

  predicate PlainKey(key: string) { Borderless(key + "=") }

  /** Keys without whitespace are plain, and so are keys without an equals sign. */
  lemma CommonKeysArePlain(key: string)
    requires Unspaced(key) || '=' !in key
    ensures PlainKey(key)
  {
    var needle := key + "=";
    forall k | 0 < k < |needle| && IsWhitespace(needle[k - 1]) ensures !(needle[k..] <= needle) {
      assert needle[k..][|key| - k] == '=' && needle[|key| - k] == key[|key| - k];
    }
  }

  /** Occurrences overlap only at a border. */
  lemma OverlapIsBorder(text: string, needle: string, i: int, k: int)
    requires OccursAt(text, needle, i) && OccursAt(text, needle, i + k) && 0 < k < |needle|
    ensures text[i + k - 1] == needle[k - 1] && needle[k..] <= needle
  {
    assert text[i + k - 1] == text[i..i + |needle|][k - 1];
    assert needle[k..] == text[i..i + |needle|][k..] == text[i + k..i + k + |needle|][..|needle| - k];
  }

  /** So the jump behind a rejected occurrence skips no eligible one. */
  lemma JumpSkipsNothing(text: string, needle: string, i: int, j: int)
    requires Borderless(needle) && OccursAt(text, needle, i) && i < j < i + |needle|
    ensures !Eligible(text, needle, j)
  {
    if Eligible(text, needle, j) {
      OverlapIsBorder(text, needle, i, j - i);
    }
  }

  lemma NothingBefore(text: string, needle: string, from: nat, i: nat)
    requires from <= |text| && Find(text, needle, from) == Some(i) && NoneBefore(text, needle, from)
    ensures NoneBefore(text, needle, i)
  {
    forall j | from <= j < i ensures !Eligible(text, needle, j) {
      if Eligible(text, needle, j) { FindIsFirst(text, needle, from, j); }
    }
  }

  /** After a rejected occurrence at `i` everything up to the end of the jump is ruled out. */
  lemma NothingSkipped(text: string, needle: string, from: nat, i: nat)
    requires Borderless(needle) && from <= |text| && Find(text, needle, from) == Some(i)
    requires !Eligible(text, needle, i) && NoneBefore(text, needle, from)
    ensures NoneBefore(text, needle, i + |needle|)
  {
    NothingBefore(text, needle, from, i);
    forall j | i < j < i + |needle| ensures !Eligible(text, needle, j) {
      JumpSkipsNothing(text, needle, i, j);
    }
  }

  lemma FirstFound(text: string, needle: string, from: nat, i: nat)
    requires from <= |text| && Find(text, needle, from) == Some(i) && NoneBefore(text, needle, from)
    requires Eligible(text, needle, i)
    ensures IsFirstOrNone(text, needle, Some(i))
  {
    NothingBefore(text, needle, from, i);
  }

  lemma NothingFound(text: string, needle: string, from: nat)
    requires from <= |text| && Find(text, needle, from) == None && NoneBefore(text, needle, from)
    ensures IsFirstOrNone(text, needle, None)
  {
    forall j | from <= j ensures !Eligible(text, needle, j) {
      if Eligible(text, needle, j) { FindIsFirst(text, needle, from, j); }
    }
  }

  /** The first eligible occurrence, or there is none. */
  ghost predicate IsFirstOrNone(text: string, needle: string, r: Option<nat>) {
    match r
    case Some(i) => IsFirstEligible(text, needle, i)
    case None => NoneAnywhere(text, needle)
  }

  /** The search is exact. */
  lemma {:induction false} SearchFindsFirstEligible(text: string, needle: string, from: nat)
    requires needle != "" && Borderless(needle) && from <= |text| && NoneBefore(text, needle, from)
    ensures IsFirstOrNone(text, needle, Search(text, needle, from))
    decreases |text| - from
  {
    match Find(text, needle, from)
    case None => NothingFound(text, needle, from);
    case Some(i) =>
      if Eligible(text, needle, i) {
        FirstFound(text, needle, from, i);
      } else {
        NothingSkipped(text, needle, from, i);
        SearchFindsFirstEligible(text, needle, i + |needle|);
      }
  }

  /** The condition is exact: for every other key there is a text in which the jump misses the only
      eligible occurrence. */
  lemma OtherKeysAreMissed(key: string) returns (text: string, i: nat)
    requires !PlainKey(key)
    ensures Eligible(text, key + "=", i) && Search(text, key + "=", 0) == None
  {
    text, i := BorderIsMissed(key + "=");
  }

  lemma BorderIsMissed(needle: string) returns (text: string, i: nat)
    requires !Borderless(needle)
    ensures Eligible(text, needle, i) && Search(text, needle, 0) == None
  {
    var k :| 0 < k < |needle| && IsWhitespace(needle[k - 1]) && needle[k..] <= needle;
    var guard := if needle[0] == 'x' then 'y' else 'x';
    text, i := Overlapping(needle, k, guard), 1 + k;
    OverlappingOccurrences(needle, k, guard);
    TooShortToFind(text, needle, 1 + |needle|);
    assert !AtWordStart(text, 1);
  }

  lemma TooShortToFind(text: string, needle: string, from: nat)
    requires needle != "" && from <= |text| <= from + |needle|
    ensures Search(text, needle, from) == None
  {
    var r := Search(text, needle, from);
    assert r.Some? ==> OpensContainer(text, r.value + |needle|);
  }

  function Overlapping(needle: string, k: nat, guard: char): string
    requires k <= |needle|
  {
    [guard] + needle[..k] + needle + "{"
  }

  lemma OverlappingOccurrences(needle: string, k: nat, guard: char)
    requires 0 < k < |needle| && needle[k..] <= needle && guard != needle[0]
    ensures var text := Overlapping(needle, k, guard);
            && |text| == |needle| + k + 2 && text[0] == guard && text[k] == needle[k - 1] && text[|text| - 1] == '{'
            && Find(text, needle, 0) == Some(1) && OccursAt(text, needle, 1 + k)
  {
    var text := Overlapping(needle, k, guard);
    assert text[1 + k..1 + k + |needle|] == needle;
    OverlappingStart(needle, k, guard);
    assert !OccursAt(text, needle, 0) by {
      assert text[0..0 + |needle|][0] == guard;
    }
    assert Find(text, needle, 0) == Find(text, needle, 1);
  }

  lemma OverlappingStart(needle: string, k: nat, guard: char)
    requires 0 < k < |needle| && needle[k..] <= needle
    ensures OccursAt(Overlapping(needle, k, guard), needle, 1)
  {
    var text := Overlapping(needle, k, guard);
    assert needle[k..] == needle[..|needle| - k];
    assert text[1..1 + |needle|] == needle[..k] + needle[..|needle| - k];
    assert needle[..k] + needle[k..] == needle;
  }

  // ---- The string-aware bracket scanner ----------------------------------

  datatype Scanner = Scanner(depth: int, inString: bool, escaped: bool)

  const START := Scanner(0, false, false)

  function Step(st: Scanner, ch: char): Scanner {
    if st.inString then
      if st.escaped then st.(escaped := false)
      else if ch == '\\' then st.(escaped := true)
      else if ch == '"' then st.(inString := false)
      else st
    else if ch == '"' then st.(inString := true)
    else if ch == '{' || ch == '[' then st.(depth := st.depth + 1)
    else if ch == '}' || ch == ']' then st.(depth := st.depth - 1)
    else st
  }

  function Scan(st: Scanner, s: string): Scanner
    decreases |s|
  {
    if s == [] then st else Step(Scan(st, s[..|s| - 1]), s[|s| - 1])
  }

  /** `rest[..n]` is the shortest non-empty prefix whose depth is back at zero. */
  predicate ClosesAt(rest: string, n: nat) {
    && 0 < n <= |rest|
    && Scan(START, rest[..n]).depth == 0
    && forall m | 0 < m < n :: Scan(START, rest[..m]).depth != 0
  }

  predicate Unclosed(rest: string) {
    forall n | 0 < n <= |rest| :: Scan(START, rest[..n]).depth != 0
  }

  /** What the scan of `rest` must return. */
  ghost predicate IsContainerText(rest: string, r: Option<string>) {
    match r
    case Some(s) => ClosesAt(rest, |s|) && s == rest[..|s|]
    case None => Unclosed(rest)
  }

  lemma ContainerTextUnique(rest: string, r: Option<string>, r': Option<string>)
    requires IsContainerText(rest, r) && IsContainerText(rest, r')
    ensures r == r'
  {
    if r.Some? && r'.Some? {
      assert !(|r.value| < |r'.value|) && !(|r'.value| < |r.value|);
    }
  }

  /** What `json_val` must return: the value behind the occurrence its search stops at. */
  ghost predicate IsJsonVal(text: string, key: string, r: Option<string>) {
    match Search(text, key + "=", 0)
    case None => r == None
    case Some(i) => IsContainerText(text[i + |key| + 1..], r)
  }

  lemma ValueBehind(text: string, key: string, i: nat)
    requires Search(text, key + "=", 0) == Some(i)
    ensures i + |key| + 1 <= |text| && IsContainerText(text[i + |key| + 1..], JsonValue(text, key))
  {}

  lemma IsJsonValUnique(text: string, key: string, r: Option<string>, r': Option<string>)
    requires IsJsonVal(text, key, r) && IsJsonVal(text, key, r')
    ensures r == r'
  {
    match Search(text, key + "=", 0)
    case None =>
    case Some(i) => ContainerTextUnique(text[i + |key| + 1..], r, r');
  }

  /** `s` is the container text behind the first eligible occurrence, which is at `i`. */
  predicate Follows(text: string, key: string, i: nat, s: string) {
    && IsFirstEligible(text, key + "=", i)
    && s <= text[i + |key| + 1..]
    && ClosesAt(text[i + |key| + 1..], |s|)
  }

  lemma LeastClose(rest: string) returns (n: nat)
    requires !Unclosed(rest)
    ensures ClosesAt(rest, n)
  {
    n := 1;
    while Scan(START, rest[..n]).depth != 0
      invariant 0 < n <= |rest|
      invariant forall m | 0 < m < n :: Scan(START, rest[..m]).depth != 0
      decreases |rest| - n
    {
      n := n + 1;
    }
  }

  /** The value of `json_val` as a function, for use where a method cannot be called. */
  ghost function JsonValue(text: string, key: string): (r: Option<string>)
    ensures IsJsonVal(text, key, r)
  {
    match Search(text, key + "=", 0)
    case None => None
    case Some(i) =>
      var rest := text[i + |key| + 1..];
      if Unclosed(rest) then None
      else
        assert exists n: nat :: ClosesAt(rest, n) by { var n := LeastClose(rest); }
        var n: nat :| ClosesAt(rest, n);
        Some(rest[..n])
  }

  /** For plain keys `json_val` is exact on every text: it yields `s` if and only if `s` follows the
      first eligible occurrence, and hence nothing if and only if no text does. */
  lemma JsonValIsExact(text: string, key: string, s: string)
    requires PlainKey(key)
    ensures JsonValue(text, key) == Some(s) <==> exists i: nat :: Follows(text, key, i, s)
  {
    SearchFindsFirstEligible(text, key + "=", 0);
    if JsonValue(text, key) == Some(s) {
      var i := Search(text, key + "=", 0).value;
      assert s == text[i + |key| + 1..][..|s|];
      assert Follows(text, key, i, s);
    }
    forall i: nat | Follows(text, key, i, s) ensures JsonValue(text, key) == Some(s) {
      FollowingIsFound(text, key, i, s);
    }
  }

  lemma FollowingIsFound(text: string, key: string, i: nat, s: string)
    requires IsFirstOrNone(text, key + "=", Search(text, key + "=", 0)) && Follows(text, key, i, s)
    ensures JsonValue(text, key) == Some(s)
  {
    FirstEligibleUnique(text, key + "=", i, Search(text, key + "=", 0).value);
    assert s == text[i + |key| + 1..][..|s|];
    IsJsonValUnique(text, key, Some(s), JsonValue(text, key));
  }

  lemma FirstEligibleUnique(text: string, needle: string, i: nat, j: nat)
    requires IsFirstEligible(text, needle, i) && IsFirstEligible(text, needle, j)
    ensures i == j
  {
    assert !(i < j) && !(j < i);
  }

  /** `json_val`: find the key, then scan the value behind it. */
  method JsonVal(text: string, key: string) returns (r: Option<string>)
    ensures r == JsonValue(text, key)
  {
    var idx := FindKey(text, key + "=");
    if idx.None? {
      r := None;
    } else {
      r := ScanValue(text[idx.value + |key| + 1..]);
    }
    IsJsonValUnique(text, key, r, JsonValue(text, key));
  }

  /** The search loop of `json_val`. */
  method FindKey(text: string, needle: string) returns (idx: Option<nat>)
    requires needle != ""
    ensures idx == Search(text, needle, 0)
  {
    ghost var target := Search(text, needle, 0);
    var searchFrom: nat := 0;
    while true
      invariant searchFrom <= |text|
      invariant target == Search(text, needle, searchFrom)
      decreases |text| - searchFrom
    {
      var found := Find(text, needle, searchFrom);
      if found.None? {
        return None;
      }
      var abs := found.value;
      if AtWordStart(text, abs) && OpensContainer(text, abs + |needle|) {
        return Some(abs);
      }
      searchFrom := abs + |needle|;
    }
  }

  /** The scan loop of `json_val`. */
  method ScanValue(rest: string) returns (r: Option<string>)
    requires OpensContainer(rest, 0)
    ensures IsContainerText(rest, r)
  {
    var depth, inString, escaped := 0, false, false;
    for i := 0 to |rest|
      invariant Scan(START, rest[..i]) == Scanner(depth, inString, escaped)
      invariant i > 0 ==> depth > 0
      invariant forall m | 0 < m <= i :: Scan(START, rest[..m]).depth != 0
    {
      var ch := rest[i];
      assert rest[..i + 1][..i] == rest[..i];
      assert Scan(START, rest[..i + 1]) == Step(Scan(START, rest[..i]), ch);
      if inString {
        if escaped {
          escaped := false;
        } else if ch == '\\' {
          escaped := true;
        } else if ch == '"' {
          inString := false;
        }
        continue;
      }
      if ch == '"' {
        inString := true;
      } else if ch == '{' || ch == '[' {
        depth := depth + 1;
      } else if ch == '}' || ch == ']' {
        depth := depth - 1;
        if depth == 0 {
          return Some(rest[..i + 1]);
        }
      }
    }
    return None;
  }
}
