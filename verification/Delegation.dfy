/** Whole delegation messages: what an agent renders, the receiving agent recovers
    (crates/coral-client/src/wire.rs and the `handle` methods of the agents). */
module Delegation {
  import opened Prelude
  import opened Json
  import opened Wire
  import opened WireJson
  import opened ProofGuard

  datatype Field = Scalar(key: string, value: string) | Doc(key: string, json: Json)

  datatype Message = Message(verb: string, fields: seq<Field>)

  function Content(f: Field): string {
    match f
    case Scalar(_, value) => value
    case Doc(_, json) => Print(json)
  }

  function FieldText(f: Field): string { f.key + "=" + Content(f) }

  function RenderFrom(verb: string, fields: seq<Field>): string
    decreases |fields|
  {
    if fields == [] then verb
    else RenderFrom(verb, fields[..|fields| - 1]) + " " + FieldText(fields[|fields| - 1])
  }

  function Render(m: Message): string { RenderFrom(m.verb, m.fields) }

  predicate IsToken(s: string) { s != "" && Unspaced(s) && '=' !in s }

  predicate WellFormed(m: Message) {
    && IsToken(m.verb)
    && (forall f | f in m.fields :: IsToken(f.key))
    && (forall f | f in m.fields :: f.Scalar? ==> Unspaced(f.value))
    && (forall f | f in m.fields :: f.Doc? ==> IsContainer(f.json))
    && (forall i, j | 0 <= i < j < |m.fields| :: m.fields[i].key != m.fields[j].key)
  }

  /** Verbs are tokens in upper case. */
  lemma UpperIsToken(s: string)
    requires s != "" && forall i | 0 <= i < |s| :: 'A' <= s[i] <= 'Z' || s[i] == '_'
    ensures IsToken(s) && Uppercase(s) == s
  {
    assert forall i | 0 <= i < |s| :: Uppercase(s)[i] == s[i];
  }

  /** A delegation request: scalars, the reasoning trail if there is one, then the wager. */
  function Request(verb: string, scalars: seq<Field>, trail: Option<Json>, payload: Json): Message {
    Message(verb, scalars + (if trail.Some? then [Doc("toolTrail", trail.value)] else []) + [Doc("wager", payload)])
  }

  lemma RequestKeysAreTokens()
    ensures IsToken("toolTrail") && IsToken("wager") && "toolTrail" != "wager"
  {
    assert "toolTrail"[0] == 't' && "wager"[0] == 'w';
  }

  // ---- Words and scalar fields -------------------------------------------

  lemma {:induction false} WordsOfToken(w: string)
    requires w != "" && Unspaced(w)
    ensures UntilSpace(w) == w && Words(w) == [w]
  {
    var u := UntilSpace(w);
    assert w[..|u|] == u;
    assert |u| == |w|;
    assert w[|u|..] == "";
  }

  lemma {:induction false} UntilSpaceStops(a: string, b: string)
    requires a != "" && !IsWhitespace(a[0])
    ensures UntilSpace(a + " " + b) == UntilSpace(a)
    decreases |a|
  {
    var t := a + " " + b;
    assert t[1..] == a[1..] + " " + b;
    if |a| == 1 {
      assert a[1..] == "" && t[1..][0] == ' ';
      assert IsWhitespace(' ');
    } else if IsWhitespace(a[1]) {
      assert t[1..][0] == a[1..][0] == a[1];
    } else {
      UntilSpaceStops(a[1..], b);
    }
  }

  /** A space separates the words of the two sides. */
  lemma {:induction false} WordsSplit(a: string, b: string)
    ensures Words(a + " " + b) == Words(a) + Words(b)
    decreases |a|
  {
    var t := a + " " + b;
    if a == "" {
      assert t[0] == ' ' && IsWhitespace(' ');
      assert t[1..] == b;
    } else if IsWhitespace(a[0]) {
      assert t[0] == a[0] && t[1..] == a[1..] + " " + b;
      WordsSplit(a[1..], b);
    } else {
      var u := UntilSpace(a);
      UntilSpaceStops(a, b);
      assert t[0] == a[0];
      assert u != "";
      assert t[|u|..] == a[|u|..] + " " + b;
      WordsSplit(a[|u|..], b);
    }
  }

  lemma {:induction false} FirstValueConcat(a: seq<string>, b: seq<string>, key: string)
    ensures FirstValue(a + b, key) == if FirstValue(a, key).Some? then FirstValue(a, key) else FirstValue(b, key)
  {
    if a == [] {
      assert a + b == b;
    } else {
      assert (a + b)[1..] == a[1..] + b;
      FirstValueConcat(a[1..], b, key);
    }
  }

  /** The field text starts with `key=` exactly for its own key. */
  lemma OwnKeyOnly(f: Field, key: string)
    requires IsToken(f.key) && IsToken(key)
    ensures key + "=" <= FieldText(f) <==> key == f.key
    ensures FieldText(f)[|f.key| + 1..] == Content(f)
  {
    var t := FieldText(f);
    assert forall k | 0 <= k < |f.key| :: t[k] == f.key[k] != '=';
    if key + "=" <= t {
      assert t[|key|] == (key + "=")[|key|] == '=';
      assert forall k | 0 <= k < |key| :: t[k] == (key + "=")[k] == key[k] != '=';
      assert t[|f.key|] == '=';
      assert |key| == |f.key|;
      assert t[..|key|] == key && t[..|f.key|] == f.key;
    }
  }

  lemma PrefixHasEquals(key: string, s: string)
    requires key + "=" <= s
    ensures '=' in s
  {
    assert s[|key|] == (key + "=")[|key|];
  }

  lemma OccurrenceHasEquals(key: string, s: string, p: int)
    requires OccursAt(s, key + "=", p)
    ensures '=' in s
  {
    assert s[p + |key|] == s[p..p + |key + "="|][|key|] == (key + "=")[|key|];
  }

  lemma NoValueInVerb(verb: string, key: string)
    requires IsToken(verb)
    ensures FirstValue(Words(verb), key) == None
  {
    WordsOfToken(verb);
    if key + "=" <= verb { PrefixHasEquals(key, verb); }
  }

  lemma ScalarWord(f: Field, key: string)
    requires IsToken(f.key) && IsToken(key) && f.Scalar? && Unspaced(f.value)
    ensures FirstValue(Words(FieldText(f)), key) == if key == f.key then Some(f.value) else None
  {
    WordsOfToken(FieldText(f));
    OwnKeyOnly(f, key);
  }

  /** No scalar is found under `key` while only other scalars have been rendered. */
  lemma {:induction false} NoValueBefore(verb: string, fields: seq<Field>, key: string)
    requires IsToken(verb) && IsToken(key)
    requires forall f | f in fields :: IsToken(f.key) && f.Scalar? && Unspaced(f.value) && f.key != key
    ensures FirstValue(Words(RenderFrom(verb, fields)), key) == None
    decreases |fields|
  {
    if fields == [] {
      NoValueInVerb(verb, key);
    } else {
      var front, last := fields[..|fields| - 1], fields[|fields| - 1];
      NoValueBefore(verb, front, key);
      WordsSplit(RenderFrom(verb, front), FieldText(last));
      ScalarWord(last, key);
      FirstValueConcat(Words(RenderFrom(verb, front)), Words(FieldText(last)), key);
    }
  }

  /** Later fields cannot hide a value that was already found. */
  lemma {:induction false} ValueSurvives(verb: string, fields: seq<Field>, n: nat, key: string)
    requires n <= |fields| && FirstValue(Words(RenderFrom(verb, fields[..n])), key).Some?
    ensures FirstValue(Words(RenderFrom(verb, fields)), key) == FirstValue(Words(RenderFrom(verb, fields[..n])), key)
    decreases |fields|
  {
    if n == |fields| {
      assert fields[..n] == fields;
    } else {
      var front, last := fields[..|fields| - 1], fields[|fields| - 1];
      assert front[..n] == fields[..n];
      ValueSurvives(verb, front, n, key);
      WordsSplit(RenderFrom(verb, front), FieldText(last));
      FirstValueConcat(Words(RenderFrom(verb, front)), Words(FieldText(last)), key);
    }
  }

  /** `tok` recovers every scalar that stands before the first JSON field. */
  lemma TokRecoversScalar(m: Message, i: nat)
    requires WellFormed(m) && i < |m.fields| && forall j | 0 <= j <= i :: m.fields[j].Scalar?
    ensures Tok(Render(m), m.fields[i].key) == Some(m.fields[i].value)
  {
    var f, before := m.fields[i], m.fields[..i];
    NoValueBefore(m.verb, before, f.key);
    assert m.fields[..i + 1][..i] == before;
    WordsSplit(RenderFrom(m.verb, before), FieldText(f));
    ScalarWord(f, f.key);
    FirstValueConcat(Words(RenderFrom(m.verb, before)), Words(FieldText(f)), f.key);
    ValueSurvives(m.verb, m.fields, i + 1, f.key);
  }

  lemma {:induction false} UntilSpaceBehind(a: string, b: string)
    requires Unspaced(a)
    ensures UntilSpace(a + b) == a + UntilSpace(b)
  {
    if a == "" {
      assert a + b == b;
    } else {
      assert (a + b)[1..] == a[1..] + b;
      UntilSpaceBehind(a[1..], b);
    }
  }

  /** Whatever a first scalar holds, spaces included, `tok` yields its first word. */
  lemma FirstScalarRecovered(verb: string, fields: seq<Field>, key: string, value: string)
    requires IsToken(verb) && IsToken(key) && fields != [] && fields[0] == Scalar(key, value)
    ensures Tok(RenderFrom(verb, fields), key) == Some(UntilSpace(value))
  {
    var f := Scalar(key, value);
    assert fields[..1] == [f] && [f][..0] == [];
    UntilSpaceBehind(key + "=", value);
    assert FieldText(f) == key + "=" + value;
    assert FirstValue(Words(FieldText(f)), key) == Some(UntilSpace(value)) by {
      var w := UntilSpace(FieldText(f));
      assert Words(FieldText(f))[0] == w == key + "=" + UntilSpace(value);
    }
    NoValueInVerb(verb, key);
    WordsSplit(verb, FieldText(f));
    FirstValueConcat(Words(verb), Words(FieldText(f)), key);
    ValueSurvives(verb, fields, 1, key);
  }

  lemma {:induction false} WordsStartWithVerb(verb: string, fields: seq<Field>)
    requires IsToken(verb)
    ensures Words(RenderFrom(verb, fields)) != [] && Words(RenderFrom(verb, fields))[0] == verb
    decreases |fields|
  {
    if fields == [] {
      WordsOfToken(verb);
    } else {
      WordsStartWithVerb(verb, fields[..|fields| - 1]);
      WordsSplit(RenderFrom(verb, fields[..|fields| - 1]), FieldText(fields[|fields| - 1]));
    }
  }

  lemma {:induction false} VerbFirst(verb: string, fields: seq<Field>)
    ensures verb <= RenderFrom(verb, fields)
    decreases |fields|
  {
    if fields != [] {
      VerbFirst(verb, fields[..|fields| - 1]);
    }
  }

  /** Upper case, for ASCII letters: texts that differ in case alone have the same verb, and none of the letters
      of a verb is lower case. */
  lemma UppercaseFolds(s: string, t: string)
    requires |s| == |t|
    requires forall i | 0 <= i < |s| ::
      s[i] == t[i] || ('a' <= s[i] <= 'z' && t[i] as int == s[i] as int - 32)
    ensures Uppercase(s) == Uppercase(t)
    ensures forall i | 0 <= i < |s| :: !('a' <= Uppercase(s)[i] <= 'z')
    ensures forall i | 0 <= i < |s| && !('a' <= s[i] <= 'z') :: Uppercase(s)[i] == s[i]
  {
    assert forall i | 0 <= i < |s| :: Uppercase(s)[i] == Uppercase(t)[i];
  }

  /** `verb` recovers the verb, in upper case, whatever fields follow. */
  lemma VerbRecovered(m: Message)
    requires IsToken(m.verb)
    ensures Verb(Render(m)) == Uppercase(m.verb)
  {
    WordsStartWithVerb(m.verb, m.fields);
  }

  // ---- JSON fields -------------------------------------------------------

  /** An occurrence inside the printed value that the search would take for the key itself. */
  ghost predicate HasLookalike(v: Json, key: string) {
    exists p | 0 < p < |Print(v)| :: Eligible(Print(v), key + "=", p)
  }

  ghost predicate NoEligible(text: string, key: string) {
    NoneAnywhere(text, key + "=")
  }

  /** Around a space, eligibility is decided on one side alone. */
  lemma EligibleSplit(a: string, b: string, key: string, p: int)
    requires Unspaced(key) && Eligible(a + " " + b, key + "=", p)
    ensures if p < |a| then Eligible(a, key + "=", p) else Eligible(b, key + "=", p - |a| - 1)
  {
    var t, needle := a + " " + b, key + "=";
    assert t[|a|] == ' ';
    if p <= |a| <= p + |key| {
      NeedleHasNoSpace(t, key, p, |a|);
    } else if p < |a| {
      assert a[p..p + |needle|] == t[p..p + |needle|];
    } else {
      var q := p - |a| - 1;
      assert b[q..q + |needle|] == t[p..p + |needle|];
      assert t[p + |needle|] == b[q + |needle|];
    }
  }

  /** An occurrence holds no space. */
  lemma NeedleHasNoSpace(t: string, key: string, p: int, at: int)
    requires Unspaced(key) && OccursAt(t, key + "=", p) && p <= at <= p + |key|
    ensures at < |t| && t[at] != ' '
  {
    var needle := key + "=";
    assert t[p..p + |needle|][at - p] == needle[at - p];
    assert IsWhitespace(' ');
  }

  lemma NoEligibleSplit(a: string, b: string, key: string)
    requires Unspaced(key)
    ensures NoEligible(a + " " + b, key) <==> NoEligible(a, key) && NoEligible(b, key)
  {
    if NoEligible(a, key) && NoEligible(b, key) {
      forall p ensures !Eligible(a + " " + b, key + "=", p) {
        if Eligible(a + " " + b, key + "=", p) { EligibleSplit(a, b, key, p); }
      }
    } else if p :| Eligible(a, key + "=", p) {
      EligibleBeforeRest(a, b, key + "=", p);
    } else {
      var q :| Eligible(b, key + "=", q);
      EligibleAfterSpace(a, b, key + "=", q);
    }
  }

  lemma EligibleBeforeRest(a: string, b: string, needle: string, p: int)
    requires Eligible(a, needle, p)
    ensures Eligible(a + " " + b, needle, p)
  {
    var t := a + " " + b;
    assert t[p..p + |needle|] == a[p..p + |needle|];
    assert p > 0 ==> t[p - 1] == a[p - 1];
  }

  lemma EligibleAfterSpace(a: string, b: string, needle: string, p: int)
    requires Eligible(b, needle, p)
    ensures Eligible(a + " " + b, needle, |a| + 1 + p)
  {
    var t, q := a + " " + b, |a| + 1 + p;
    assert t[q..q + |needle|] == b[p..p + |needle|];
    assert t[q - 1] == (if p == 0 then ' ' else b[p - 1]);
    assert IsWhitespace(' ');
  }

  /** A field under another key offers an eligible occurrence only through a lookalike. */
  lemma OtherFieldNotEligible(f: Field, key: string)
    requires IsToken(f.key) && IsToken(key) && f.key != key
    requires f.Scalar? ==> Unspaced(f.value)
    requires f.Doc? ==> !HasLookalike(f.json, key)
    ensures NoEligible(FieldText(f), key)
  {
    var t, needle := FieldText(f), key + "=";
    forall p ensures !Eligible(t, needle, p) {
      if Eligible(t, needle, p) {
        assert t[p..p + |needle|] == needle;
        if p == 0 {
          assert needle <= t;
          OwnKeyOnly(f, key);
        } else if f.Doc? && p > |f.key| + 1 {
          InsideDoc(f, needle, p);
        }
      }
    }
  }

  /** A JSON field under another key is clean exactly if its value holds no lookalike. */
  lemma DocCleanIff(t: string, v: Json, key: string)
    requires IsToken(t) && IsToken(key) && t != key
    ensures NoEligible(FieldText(Doc(t, v)), key) <==> !HasLookalike(v, key)
  {
    if HasLookalike(v, key) {
      var p :| 0 < p < |Print(v)| && Eligible(Print(v), key + "=", p);
      EligibleInContext(t + "=", Print(v), "", key, p);
      assert t + "=" + Print(v) + "" == FieldText(Doc(t, v));
    } else {
      OtherFieldNotEligible(Doc(t, v), key);
    }
  }

  /** A scalar without a further equals sign is clean for every other key, spaces or not. */
  lemma PlainScalarIsClean(t: string, value: string, key: string)
    requires IsToken(t) && IsToken(key) && t != key && '=' !in value
    ensures NoEligible(FieldText(Scalar(t, value)), key)
  {
    forall p ensures !Eligible(FieldText(Scalar(t, value)), key + "=", p) {
      if Eligible(FieldText(Scalar(t, value)), key + "=", p) {
        OnlyEqualsSign(t, value, key, p);
        OwnKeyOnly(Scalar(t, value), key);
      }
    }
  }

  lemma OnlyEqualsSign(t: string, value: string, key: string, p: int)
    requires IsToken(t) && '=' !in value && OccursAt(FieldText(Scalar(t, value)), key + "=", p)
    ensures p == 0 ==> key + "=" <= FieldText(Scalar(t, value))
    ensures p > 0 ==> !IsWhitespace(FieldText(Scalar(t, value))[p - 1])
  {
    var text, needle := FieldText(Scalar(t, value)), key + "=";
    assert text == t + "=" + value;
    assert text[p + |key|] == text[p..p + |needle|][|key|] == '=';
    assert forall k | 0 <= k < |text| && k != |t| :: text[k] != '=';
    assert p > 0 ==> text[p - 1] == t[p - 1];
  }

  lemma InsideDoc(f: Field, needle: string, p: int)
    requires f.Doc? && p > |f.key| + 1 && Eligible(FieldText(f), needle, p)
    ensures Eligible(Print(f.json), needle, p - |f.key| - 1)
  {
    EligibleInSuffix(f.key + "=", Print(f.json), needle, p);
  }

  lemma EligibleInSuffix(front: string, s: string, needle: string, p: int)
    requires p > |front| && Eligible(front + s, needle, p)
    ensures Eligible(s, needle, p - |front|)
  {
    var t, q := front + s, p - |front|;
    assert s[q..q + |needle|] == t[p..p + |needle|];
    assert s[q - 1] == t[p - 1];
  }

  lemma {:induction false} NoEligibleBefore(verb: string, fields: seq<Field>, key: string)
    requires IsToken(verb) && IsToken(key)
    requires forall f | f in fields ::
      && IsToken(f.key) && f.key != key
      && (f.Scalar? ==> Unspaced(f.value))
      && (f.Doc? ==> !HasLookalike(f.json, key))
    ensures NoEligible(RenderFrom(verb, fields), key)
    decreases |fields|
  {
    if fields == [] {
      forall p ensures !Eligible(verb, key + "=", p) {
        if OccursAt(verb, key + "=", p) { OccurrenceHasEquals(key, verb, p); }
      }
    } else {
      var front, last := fields[..|fields| - 1], fields[|fields| - 1];
      NoEligibleBefore(verb, front, key);
      OtherFieldNotEligible(last, key);
      NoEligibleSplit(RenderFrom(verb, front), FieldText(last), key);
    }
  }

  lemma ConcatAssoc(a: string, b: string, c: string, d: string)
    ensures (a + b) + c + d == a + (b + (c + d))
  {}

  /** What stands behind the first `n` fields. */
  lemma {:induction false} RenderPrefix(verb: string, fields: seq<Field>, n: nat) returns (tail: string)
    requires n <= |fields|
    ensures RenderFrom(verb, fields) == RenderFrom(verb, fields[..n]) + tail
    ensures tail == "" || tail[0] == ' '
    decreases |fields|
  {
    if n == |fields| {
      assert fields[..n] == fields;
      tail := "";
    } else {
      var front, last := fields[..|fields| - 1], fields[|fields| - 1];
      assert front[..n] == fields[..n];
      var t := RenderPrefix(verb, front, n);
      tail := t + (" " + FieldText(last));
      ConcatAssoc(RenderFrom(verb, fields[..n]), t, " ", FieldText(last));
      assert t == "" ==> tail == " " + FieldText(last);
    }
  }

  /** Where field `i` starts in the rendered message. */
  function Offset(m: Message, i: nat): nat
    requires i < |m.fields|
  {
    |RenderFrom(m.verb, m.fields[..i])| + 1
  }

  /** `json_val` recovers every JSON field of a message, wherever it stands, provided no JSON before
      it holds a lookalike of its key. JSON behind it, and all scalars, are harmless. */
  lemma JsonValRecoversDoc(m: Message, i: nat)
    requires WellFormed(m) && i < |m.fields| && m.fields[i].Doc?
    requires forall j | 0 <= j < i :: m.fields[j].Doc? ==> !HasLookalike(m.fields[j].json, m.fields[i].key)
    ensures JsonValue(Render(m), m.fields[i].key) == Some(Print(m.fields[i].json))
    ensures Search(Render(m), m.fields[i].key + "=", 0) == Some(Offset(m, i))
  {
    var f, before := m.fields[i], m.fields[..i];
    NoEligibleBefore(m.verb, before, f.key);
    var tail := FieldInRendering(m.verb, m.fields, i);
    DocBehind(RenderFrom(m.verb, before), f.key, f.json, tail);
  }

  lemma FieldInRendering(verb: string, fields: seq<Field>, i: nat) returns (tail: string)
    requires i < |fields|
    ensures RenderFrom(verb, fields) == RenderFrom(verb, fields[..i]) + " " + FieldText(fields[i]) + tail
  {
    assert fields[..i + 1][..i] == fields[..i];
    tail := RenderPrefix(verb, fields, i + 1);
  }

  lemma DocBehind(head: string, key: string, v: Json, tail: string)
    requires Unspaced(key) && IsContainer(v) && NoEligible(head, key)
    ensures var text := head + " " + (key + "=" + Print(v)) + tail;
            JsonValue(text, key) == Some(Print(v)) && Search(text, key + "=", 0) == Some(|head| + 1)
  {
    var prefix := head + " ";
    var text := prefix + key + "=" + Print(v) + tail;
    var rest := key + "=" + Print(v) + tail;
    assert text == head + " " + rest;
    assert text == head + " " + (key + "=" + Print(v)) + tail;
    forall j | 0 <= j < |prefix| ensures !Eligible(text, key + "=", j) {
      if Eligible(text, key + "=", j) { EligibleBeforeSpace(head, rest, key, j); }
    }
    assert IsWhitespace(' ');
    CommonKeysArePlain(key);
    RoundTrip(prefix, key, v, tail);
  }

  lemma DocAtEnd(head: string, key: string, v: Json)
    requires Unspaced(key) && IsContainer(v) && NoEligible(head, key)
    ensures var text := head + " " + FieldText(Doc(key, v));
            JsonValue(text, key) == Some(Print(v)) && Search(text, key + "=", 0) == Some(|head| + 1)
  {
    DocBehind(head, key, v, "");
    var text := head + " " + FieldText(Doc(key, v));
    assert text + "" == text;
  }

  /** An eligible occurrence in an earlier part of the text is where the search stops. */
  lemma EarlierIsFound(head: string, tail: string, key: string) returns (i: nat)
    requires Unspaced(key) && !NoEligible(head, key)
    ensures Search(head, key + "=", 0) == Search(head + " " + tail, key + "=", 0) == Some(i)
    ensures i + |key| + 1 < |head|
  {
    var text, needle := head + " " + tail, key + "=";
    CommonKeysArePlain(key);
    SearchFindsFirstEligible(head, needle, 0);
    i := Search(head, needle, 0).value;
    EligibleBeforeRest(head, tail, needle, i);
    assert NoneBefore(text, needle, i) by {
      forall j | 0 <= j < i ensures !Eligible(text, needle, j) {
        if Eligible(text, needle, j) { EligibleSplit(head, tail, key, j); }
      }
    }
    SearchFindsFirstEligible(text, needle, 0);
    FirstEligibleUnique(text, needle, i, Search(text, needle, 0).value);
  }

  /** And so the container behind it is what `json_val` yields, whatever follows: if it closes in the
      earlier part it is read as it stands there; if not, it swallows the rest of that part. */
  lemma EarlierDecides(head: string, tail: string, key: string)
    requires Unspaced(key) && !NoEligible(head, key)
    ensures JsonValue(head, key).Some? ==> JsonValue(head + " " + tail, key) == JsonValue(head, key)
    ensures JsonValue(head, key).None? && JsonValue(head + " " + tail, key).Some? ==>
      Swallows(head, key, JsonValue(head + " " + tail, key).value)
  {
    var i := EarlierIsFound(head, tail, key);
    RestBehind(head, tail, i + |key| + 1);
    FoundDecides(head, head + " " + tail, " " + tail, key, i);
  }

  lemma RestBehind(head: string, tail: string, n: nat)
    requires n <= |head|
    ensures (head + " " + tail)[n..] == head[n..] + (" " + tail)
  {}

  lemma FoundDecides(head: string, text: string, more: string, key: string, i: nat)
    requires Search(head, key + "=", 0) == Search(text, key + "=", 0) == Some(i)
    requires i + |key| + 1 <= |head| && i + |key| + 1 <= |text|
    requires text[i + |key| + 1..] == head[i + |key| + 1..] + more
    ensures JsonValue(head, key).Some? ==> JsonValue(text, key) == JsonValue(head, key)
    ensures JsonValue(head, key).None? && JsonValue(text, key).Some? ==> Swallows(head, key, JsonValue(text, key).value)
  {
    ValueBehind(head, key, i);
    ValueBehind(text, key, i);
    ContainerExtends(head[i + |key| + 1..], more, JsonValue(head, key), JsonValue(text, key));
  }

  lemma ContainerExtends(rest: string, more: string, r: Option<string>, r': Option<string>)
    requires IsContainerText(rest, r) && IsContainerText(rest + more, r')
    ensures r.Some? ==> r' == r
    ensures r.None? && r'.Some? ==> rest < r'.value
  {
    if r.Some? {
      ClosesAtExtends(rest, more, |r.value|);
      ContainerTextUnique(rest + more, r, r');
    } else if r'.Some? {
      if |r'.value| <= |rest| {
        ClosesAtShortens(rest, more, |r'.value|);
        assert false;
      }
      assert r'.value[..|rest|] == rest;
    }
  }

  /** Behind a clean part, a text is read as if it stood alone. */
  lemma CleanPartIsSkipped(a: string, b: string, key: string)
    requires Unspaced(key) && NoEligible(a, key)
    ensures JsonValue(a + " " + b, key) == JsonValue(b, key)
  {
    CommonKeysArePlain(key);
    if JsonValue(b, key).Some? {
      ReadBehind(a, b, key, JsonValue(b, key).value);
    } else if JsonValue(a + " " + b, key).Some? {
      ReadBehind(a, b, key, JsonValue(a + " " + b, key).value);
    }
  }

  lemma ReadBehind(a: string, b: string, key: string, s: string)
    requires Unspaced(key) && NoEligible(a, key)
    ensures JsonValue(a + " " + b, key) == Some(s) <==> JsonValue(b, key) == Some(s)
  {
    CommonKeysArePlain(key);
    JsonValIsExact(b, key, s);
    JsonValIsExact(a + " " + b, key, s);
    FollowsBehind(a, b, key, s);
  }

  lemma FollowsBehind(a: string, b: string, key: string, s: string)
    requires Unspaced(key) && NoEligible(a, key)
    ensures (exists i: nat :: Follows(b, key, i, s)) <==> exists i: nat :: Follows(a + " " + b, key, i, s)
  {
    if i: nat :| Follows(b, key, i, s) {
      FollowsShifted(a, b, key, i, s);
    }
    if i: nat :| Follows(a + " " + b, key, i, s) {
      NotInCleanPart(a, b, key, i);
      FollowsShifted(a, b, key, i - |a| - 1, s);
    }
  }

  lemma NotInCleanPart(a: string, b: string, key: string, i: nat)
    requires Unspaced(key) && NoEligible(a, key) && Eligible(a + " " + b, key + "=", i)
    ensures i > |a|
  {
    EligibleSplit(a, b, key, i);
    assert IsWhitespace(' ') && (a + " " + b)[i..i + |key + "="|][0] == (a + " " + b)[i];
  }

  lemma FollowsShifted(a: string, b: string, key: string, i: nat, s: string)
    requires Unspaced(key) && NoEligible(a, key)
    ensures Follows(b, key, i, s) <==> Follows(a + " " + b, key, |a| + 1 + i, s)
  {
    FirstIsShifted(a, b, key, i);
    if IsFirstEligible(b, key + "=", i) {
      SuffixOfConcat(a, b, i + |key| + 1, |a| + 1 + i + |key| + 1);
    }
  }

  lemma SuffixOfConcat(a: string, b: string, m: nat, m': nat)
    requires m <= |b| && m' == |a| + 1 + m
    ensures m' <= |a + " " + b| && (a + " " + b)[m'..] == b[m..]
  {}

  lemma FirstIsShifted(a: string, b: string, key: string, i: nat)
    requires Unspaced(key) && NoEligible(a, key)
    ensures IsFirstEligible(b, key + "=", i) <==> IsFirstEligible(a + " " + b, key + "=", |a| + 1 + i)
  {
    var text, needle := a + " " + b, key + "=";
    if IsFirstEligible(b, needle, i) {
      EligibleAfterSpace(a, b, needle, i);
      NothingBeforeShifted(a, b, key, i);
    }
    if IsFirstEligible(text, needle, |a| + 1 + i) {
      EligibleSplit(a, b, key, |a| + 1 + i);
      forall j | 0 <= j < i ensures !Eligible(b, needle, j) {
        if Eligible(b, needle, j) { EligibleAfterSpace(a, b, needle, j); }
      }
    }
  }

  lemma NothingBeforeShifted(a: string, b: string, key: string, i: nat)
    requires Unspaced(key) && NoEligible(a, key) && NoneBefore(b, key + "=", i)
    ensures NoneBefore(a + " " + b, key + "=", |a| + 1 + i)
  {
    forall j | 0 <= j < |a| + 1 + i ensures !Eligible(a + " " + b, key + "=", j) {
      if Eligible(a + " " + b, key + "=", j) { EligibleSplit(a, b, key, j); }
    }
  }

  /** `s` contains everything behind the first eligible occurrence in `head`, and more. */
  ghost predicate Swallows(head: string, key: string, s: string) {
    var i := Search(head, key + "=", 0);
    i.Some? && head[i.value + |key| + 1..] < s
  }

  lemma ClosesAtExtends(rest: string, more: string, n: nat)
    requires ClosesAt(rest, n)
    ensures ClosesAt(rest + more, n) && (rest + more)[..n] == rest[..n]
  {
    assert forall m | 0 < m <= n :: (rest + more)[..m] == rest[..m];
  }

  lemma ClosesAtShortens(rest: string, more: string, n: nat)
    requires ClosesAt(rest + more, n) && n <= |rest|
    ensures ClosesAt(rest, n)
  {
    assert forall m | 0 < m <= n :: (rest + more)[..m] == rest[..m];
  }

  /** A genuine field at the end of the text is found if and only if nothing before it is eligible. */
  lemma DocAtEndFoundIff(head: string, key: string, v: Json)
    requires Unspaced(key) && IsContainer(v)
    ensures Search(head + " " + FieldText(Doc(key, v)), key + "=", 0) == Some(|head| + 1) <==> NoEligible(head, key)
  {
    if NoEligible(head, key) {
      DocAtEnd(head, key, v);
    } else {
      var i := EarlierIsFound(head, FieldText(Doc(key, v)), key);
    }
  }

  lemma EligibleBeforeSpace(a: string, b: string, key: string, p: int)
    requires Unspaced(key) && Eligible(a + " " + b, key + "=", p) && p <= |a|
    ensures Eligible(a, key + "=", p)
  {
    EligibleSplit(a, b, key, p);
    assert (a + " " + b)[p..p + |key| + 1][0] == (a + " " + b)[p];
    assert IsWhitespace(' ');
  }

  /** The condition is exact: the search stops at the genuine field if and only if no earlier JSON
      holds a lookalike. */
  lemma GenuineFieldFoundIff(m: Message, i: nat)
    requires WellFormed(m) && i < |m.fields| && m.fields[i].Doc?
    ensures Search(Render(m), m.fields[i].key + "=", 0) == Some(Offset(m, i)) <==>
      forall j | 0 <= j < i :: m.fields[j].Doc? ==> !HasLookalike(m.fields[j].json, m.fields[i].key)
  {
    if j :| 0 <= j < i && m.fields[j].Doc? && HasLookalike(m.fields[j].json, m.fields[i].key) {
      LookalikeShadows(m, i, j);
    } else {
      JsonValRecoversDoc(m, i);
    }
  }

  lemma LookalikeShadows(m: Message, i: nat, j: nat)
    requires WellFormed(m) && j < i < |m.fields| && m.fields[j].Doc?
    requires HasLookalike(m.fields[j].json, m.fields[i].key)
    ensures Search(Render(m), m.fields[i].key + "=", 0) != Some(Offset(m, i))
  {
    var f, key := m.fields[j], m.fields[i].key;
    var p :| 0 < p < |Print(f.json)| && Eligible(Print(f.json), key + "=", p);
    var front, tail := DocInContext(m, i, j);
    EligibleInContext(front, Print(f.json), tail, key, p);
    CommonKeysArePlain(key);
    SearchFindsFirstEligible(Render(m), key + "=", 0);
  }

  lemma DocInContext(m: Message, i: nat, j: nat) returns (front: string, tail: string)
    requires j < i < |m.fields| && m.fields[j].Doc?
    ensures Render(m) == front + Print(m.fields[j].json) + tail
    ensures |front| + |Print(m.fields[j].json)| < Offset(m, i)
  {
    var upTo := m.fields[..j + 1];
    front := DocEndsRendering(m.verb, upTo);
    tail := RenderPrefix(m.verb, m.fields, j + 1);
    assert m.fields[..i][..j + 1] == upTo;
    var between := RenderPrefix(m.verb, m.fields[..i], j + 1);
  }

  lemma DocEndsRendering(verb: string, fields: seq<Field>) returns (front: string)
    requires fields != [] && fields[|fields| - 1].Doc?
    ensures RenderFrom(verb, fields) == front + Print(fields[|fields| - 1].json)
  {
    var head, f := RenderFrom(verb, fields[..|fields| - 1]), fields[|fields| - 1];
    front := head + " " + (f.key + "=");
    Reassociate(head, " ", f.key, "=", Print(f.json));
  }

  lemma Reassociate(a: string, b: string, c: string, d: string, e: string)
    ensures a + b + (c + d + e) == a + b + (c + d) + e
  {}

  lemma EligibleInContext(front: string, s: string, tail: string, key: string, p: nat)
    requires 0 < p && Eligible(s, key + "=", p)
    ensures Eligible(front + s + tail, key + "=", |front| + p)
  {
    var text, needle, q := front + s + tail, key + "=", |front| + p;
    assert text[q..q + |needle|] == s[p..p + |needle|];
    assert text[q - 1] == s[p - 1] && text[q + |needle|] == s[p + |needle|];
  }

  /** The condition on lookalikes cannot be dropped, although the doc comment of `json_val` promises
      that text inside another field's JSON string is never mistaken for the key: whatever the genuine
      value, a string that holds a space, the key, an equals sign and a bracketed text wins. */
  lemma LookalikeWins(key: string, genuine: Json)
    requires IsToken(key) && key != "t" && IsContainer(genuine)
    requires NeedsNoEscape(key)
    ensures var note := Arr([Str(" " + key + "=[]")]);
            JsonValue(Render(Message("V", [Doc("t", note), Doc(key, genuine)])), key) == Some("[]")
  {
    var tail := LookalikeText(key, genuine);
    var prefix := "V t=[\" ";
    var text := prefix + key + "=" + Print(Arr([])) + tail;
    assert Print(Arr([])) == "[]";
    forall j | 0 <= j < |prefix| ensures !Eligible(text, key + "=", j) {
      assert text[..7] == prefix;
      NotInHead(key, text, j);
    }
    assert prefix[|prefix| - 1] == ' ' && IsWhitespace(' ');
    CommonKeysArePlain(key);
    RoundTrip(prefix, key, Arr([]), tail);
  }

  lemma LookalikeText(key: string, genuine: Json) returns (tail: string)
    requires IsToken(key) && NeedsNoEscape(key)
    ensures Render(Message("V", [Doc("t", Arr([Str(" " + key + "=[]")])), Doc(key, genuine)]))
         == "V t=[\" " + key + "=" + Print(Arr([])) + tail
  {
    var s := " " + key + "=[]";
    var note, later := Doc("t", Arr([Str(s)])), Doc(key, genuine);
    tail := "\"]" + " " + FieldText(later);
    NoteEscapes(key);
    NoteText(s);
    RenderTwo("V", note, later);
    EmptyArray();
    NoteAssoc("V" + " ", "t=[\"", " ", key, "=", "[]", "\"]", " " + FieldText(later));
    NoteSplits(key);
    TextPieces("V" + " ", "t=[\"" + s + "\"]", FieldText(later));
  }

  lemma NoteEscapes(key: string)
    requires NeedsNoEscape(key)
    ensures Escape(" " + key + "=[]") == " " + key + "=[]"
  {
    BracketsAreEscapeFree();
    EscapeFreeConcat(" ", key);
    EscapeFreeConcat(" " + key, "=[]");
    EscapePlain(" " + key + "=[]");
  }

  predicate NeedsNoEscape(s: string) {
    forall i | 0 <= i < |s| :: EscapeChar(s[i]) == [s[i]]
  }

  lemma BracketsAreEscapeFree()
    ensures NeedsNoEscape(" ") && NeedsNoEscape("=[]")
  {}

  lemma EscapeFreeConcat(a: string, b: string)
    requires NeedsNoEscape(a) && NeedsNoEscape(b)
    ensures NeedsNoEscape(a + b)
  {
    forall i | 0 <= i < |a + b| ensures EscapeChar((a + b)[i]) == [(a + b)[i]] {
      assert (a + b)[i] == if i < |a| then a[i] else b[i - |a|];
    }
  }

  lemma EmptyArray()
    ensures Print(Arr([])) == "[]"
  {}

  lemma NoteSplits(key: string)
    ensures " " + key + "=[]" == " " + key + "=" + "[]"
    ensures "V" + " " + "t=[\"" + " " == "V t=[\" "
  {}

  lemma TextPieces(a: string, b: string, c: string)
    ensures a + b + " " + c == a + b + (" " + c)
  {}

  lemma NoteAssoc(v: string, o: string, sp: string, k: string, eq: string, x: string, c: string, d: string)
    ensures v + (o + (sp + k + eq + x) + c) + d == (v + o + sp) + k + eq + x + (c + d)
  {}

  lemma NoteText(s: string)
    requires Escape(s) == s
    ensures FieldText(Doc("t", Arr([Str(s)]))) == "t=[\"" + s + "\"]"
  {
    OneItem(s);
    Wrapped("t=", ['['], ['"'], s, [']']);
    assert "t=" + ['['] + ['"'] == "t=[\"" && ['"'] + [']'] == "\"]";
  }

  lemma OneItem(s: string)
    ensures Print(Arr([Str(s)])) == ['['] + (['"'] + Escape(s) + ['"']) + [']']
  {
    assert PrintItems([Str(s)]) == Quote(s);
  }

  lemma Wrapped(t: string, open: string, quote: string, s: string, close: string)
    ensures t + (open + (quote + s + quote) + close) == (t + open + quote) + s + (quote + close)
  {}

  lemma RenderTwo(verb: string, f: Field, g: Field)
    ensures Render(Message(verb, [f, g])) == verb + " " + FieldText(f) + " " + FieldText(g)
  {
    assert [f, g][..1] == [f] && [f][..0] == [];
    assert RenderFrom(verb, [f]) == RenderFrom(verb, []) + " " + FieldText(f);
  }

  lemma NotInHead(key: string, text: string, j: int)
    requires IsToken(key) && key != "t" && |text| > 7 && text[..7] == "V t=[\" " && 0 <= j < 7
    ensures !Eligible(text, key + "=", j)
  {
    var needle := key + "=";
    var head := "V t=[\" ";
    assert forall k | 0 <= k < 7 :: text[k] == head[k];
    var n := |needle|;
    assert needle[n - 1] == '=' && forall k | 0 <= k < n - 1 :: needle[k] != '=' && needle[k] != ' ' by {
      assert IsWhitespace(' ');
    }
    if AtWordStart(text, j) && 0 <= j && j + n <= |text| {
      assert j == 0 || j == 2;
      assert text[j..j + n][0] == text[j] && text[j..j + n][1] == text[j + 1];
      assert |key| == 1 ==> key == [needle[0]];
    }
  }

  lemma {:induction false} EscapePlain(s: string)
    requires NeedsNoEscape(s)
    ensures Escape(s) == s
  {
    if s == [] {
    } else {
      EscapePlain(s[1..]);
      assert [s[0]] + s[1..] == s;
    }
  }

  // ---- Proof references on the wire --------------------------------------

  /** Every attestation that proof-guard accepts survives the scalar grammar and is not mistaken for
      the absence marker. */
  lemma ValidProofRefSurvives(verb: string, proofRef: string, rest: seq<Field>)
    requires IsValidProofRef(proofRef)
    requires WellFormed(Message(verb, [Scalar("proofRef", proofRef)] + rest))
    ensures Tok(Render(Message(verb, [Scalar("proofRef", proofRef)] + rest)), "proofRef") == Some(proofRef)
    ensures proofRef != "none" && proofRef != ""
  {
    TokRecoversScalar(Message(verb, [Scalar("proofRef", proofRef)] + rest), 0);
  }

  /** Such a reference never spoils the well-formedness of the message that carries it. */
  lemma ValidProofRefIsUnspaced(proofRef: string)
    requires IsValidProofRef(proofRef)
    ensures Unspaced(proofRef)
  {
    forall i | 0 <= i < |proofRef| ensures !IsWhitespace(proofRef[i]) {
      assert AllowedInProofRef(proofRef[i]);
    }
  }
}
