/** The scanner of the wire grammar undoes the JSON printer. */
module WireJson {
  import opened Prelude
  import opened Json
  import opened Wire

  /** Scanning from outside a string, at the given depth. */
  function Outside(depth: int): Scanner { Scanner(depth, false, false) }

  function Inside(depth: int): Scanner { Scanner(depth, true, false) }

  /** No prefix of `s` takes the scan below `floor`. */
  predicate Above(st: Scanner, s: string, floor: int) {
    forall k | 0 <= k <= |s| :: Scan(st, s[..k]).depth >= floor
  }

  /** Scanning `s` from `st` comes back to `st` and never dips below its depth. */
  predicate Neutral(st: Scanner, s: string) {
    Scan(st, s) == st && Above(st, s, st.depth)
  }

  lemma {:induction false} ScanConcat(st: Scanner, a: string, b: string)
    ensures Scan(st, a + b) == Scan(Scan(st, a), b)
    decreases |b|
  {
    if b == [] {
      assert a + b == a;
    } else {
      var front := b[..|b| - 1];
      assert (a + b)[..|a + b| - 1] == a + front;
      ScanConcat(st, a, front);
    }
  }

  lemma AboveConcat(st: Scanner, a: string, b: string, floor: int)
    requires Above(st, a, floor) && Above(Scan(st, a), b, floor)
    ensures Above(st, a + b, floor)
  {
    forall k | 0 <= k <= |a + b| ensures Scan(st, (a + b)[..k]).depth >= floor {
      if k <= |a| {
        assert (a + b)[..k] == a[..k];
      } else {
        assert (a + b)[..k] == a + b[..k - |a|];
        ScanConcat(st, a, b[..k - |a|]);
      }
    }
  }

  lemma NeutralConcat(st: Scanner, a: string, b: string)
    requires Neutral(st, a) && Neutral(st, b)
    ensures Neutral(st, a + b)
  {
    ScanConcat(st, a, b);
    AboveConcat(st, a, b, st.depth);
  }

  lemma ScanOne(st: Scanner, c: char)
    ensures Scan(st, [c]) == Step(st, c)
    ensures forall floor | floor <= st.depth && floor <= Step(st, c).depth :: Above(st, [c], floor)
  {
    assert [c][..0] == [];
    assert [c][..1] == [c];
  }

  /** Characters that do not move the scanner leave it alone in any number. */
  lemma {:induction false} StillNeutral(st: Scanner, s: string)
    requires forall i | 0 <= i < |s| :: Step(st, s[i]) == st
    ensures Neutral(st, s)
  {
    if s == [] {
    } else {
      StillNeutral(st, s[1..]);
      ScanOne(st, s[0]);
      NeutralConcat(st, [s[0]], s[1..]);
      assert [s[0]] + s[1..] == s;
    }
  }

  lemma EscapeCharNeutral(d: int, c: char)
    ensures Neutral(Inside(d), EscapeChar(c))
  {
    var e, st := EscapeChar(c), Inside(d);
    if e == [c] {
      StillNeutral(st, e);
    } else {
      ScanOne(st, e[0]);
      ScanOne(Step(st, e[0]), e[1]);
      ScanConcat(st, [e[0]], [e[1]]);
      AboveConcat(st, [e[0]], [e[1]], d);
      StillNeutral(st, e[2..]);
      NeutralConcat(st, [e[0]] + [e[1]], e[2..]);
      assert [e[0]] + [e[1]] + e[2..] == e;
    }
  }

  lemma {:induction false} EscapeNeutral(d: int, s: string)
    ensures Neutral(Inside(d), Escape(s))
  {
    if s == [] {
    } else {
      EscapeCharNeutral(d, s[0]);
      EscapeNeutral(d, s[1..]);
      NeutralConcat(Inside(d), EscapeChar(s[0]), Escape(s[1..]));
    }
  }

  lemma QuoteNeutral(d: int, s: string)
    ensures Neutral(Outside(d), Quote(s))
  {
    ScanOne(Outside(d), '"');
    EscapeNeutral(d, s);
    ScanConcat(Outside(d), ['"'], Escape(s));
    AboveConcat(Outside(d), ['"'], Escape(s), d);
    ScanOne(Inside(d), '"');
    ScanConcat(Outside(d), ['"'] + Escape(s), ['"']);
    AboveConcat(Outside(d), ['"'] + Escape(s), ['"'], d);
  }

  /** Bracketing: the depth is one higher in between, so it returns only at the closing bracket. */
  lemma Bracketed(d: int, open: char, inner: string, close: char)
    requires (open == '{' && close == '}') || (open == '[' && close == ']')
    requires Neutral(Outside(d + 1), inner)
    ensures Neutral(Outside(d), [open] + inner + [close])
    ensures forall k | 0 < k <= |inner| + 1 :: Scan(Outside(d), ([open] + inner + [close])[..k]).depth > d
  {
    var text := [open] + inner + [close];
    ScanOne(Outside(d), open);
    forall k | 0 < k <= |inner| + 1 ensures Scan(Outside(d), text[..k]).depth > d {
      assert text[..k] == [open] + inner[..k - 1];
      ScanConcat(Outside(d), [open], inner[..k - 1]);
    }
    ScanConcat(Outside(d), [open], inner);
    ScanOne(Outside(d + 1), close);
    ScanConcat(Outside(d), [open] + inner, [close]);
    forall k | 0 <= k <= |text| ensures Scan(Outside(d), text[..k]).depth >= d {
      if k == |text| { assert text[..k] == text; }
    }
  }

  lemma {:induction false} PrintNeutral(d: int, v: Json)
    ensures Neutral(Outside(d), Print(v))
    decreases v, 1
  {
    match v
    case Null => StillNeutral(Outside(d), "null");
    case Bool(b) => StillNeutral(Outside(d), if b then "true" else "false");
    case Number(lexeme) =>
      assert forall i | 0 <= i < |lexeme| :: IsNumberChar(lexeme[i]);
      StillNeutral(Outside(d), lexeme);
    case Str(s) => QuoteNeutral(d, s);
    case Arr(items) =>
      ItemsNeutral(d + 1, items);
      Bracketed(d, '[', PrintItems(items), ']');
    case Obj(members) =>
      MembersNeutral(d + 1, members);
      Bracketed(d, '{', PrintMembers(members), '}');
  }

  lemma {:induction false} ItemsNeutral(d: int, items: seq<Json>)
    ensures Neutral(Outside(d), PrintItems(items))
    decreases items, 0
  {
    if items == [] {
    } else {
      PrintNeutral(d, items[0]);
      if |items| == 1 {
        assert PrintItems(items) == Print(items[0]);
      } else {
        ItemsNeutral(d, items[1..]);
        StillNeutral(Outside(d), [',']);
        NeutralConcat(Outside(d), [','], PrintItems(items[1..]));
        NeutralConcat(Outside(d), Print(items[0]), [','] + PrintItems(items[1..]));
      }
    }
  }

  lemma {:induction false} MembersNeutral(d: int, members: seq<Member>)
    ensures Neutral(Outside(d), PrintMembers(members))
    decreases members, 0
  {
    if members == [] {
    } else {
      var st, name, value := Outside(d), Quote(members[0].name), Print(members[0].value);
      QuoteNeutral(d, members[0].name);
      PrintNeutral(d, members[0].value);
      StillNeutral(st, [':']);
      NeutralConcat(st, name, [':']);
      NeutralConcat(st, name + [':'], value);
      if |members| == 1 {
        assert PrintMembers(members) == name + [':'] + value;
      } else {
        MembersNeutral(d, members[1..]);
        StillNeutral(st, [',']);
        NeutralConcat(st, [','], PrintMembers(members[1..]));
        NeutralConcat(st, name + [':'] + value, [','] + PrintMembers(members[1..]));
      }
    }
  }

  /** A printed container closes exactly at its own end, whatever text follows. */
  lemma ContainerClosesAtItsEnd(v: Json, tail: string)
    requires IsContainer(v)
    ensures OpensContainer(Print(v), 0)
    ensures ClosesAt(Print(v) + tail, |Print(v)|)
  {
    var open, close := if v.Arr? then '[' else '{', if v.Arr? then ']' else '}';
    var inner := if v.Arr? then PrintItems(v.items) else PrintMembers(v.members);
    if v.Arr? { ItemsNeutral(1, v.items); } else { MembersNeutral(1, v.members); }
    Bracketed(0, open, inner, close);
    ClosesAtLastBracket([open] + inner + [close], tail);
  }

  lemma ClosesAtLastBracket(text: string, tail: string)
    requires text != "" && Scan(START, text).depth == 0
    requires forall k | 0 < k < |text| :: Scan(START, text[..k]).depth > 0
    ensures ClosesAt(text + tail, |text|)
  {
    assert (text + tail)[..|text|] == text;
    assert forall m | 0 < m < |text| :: (text + tail)[..m] == text[..m];
  }

  /** Printer and parser are inverse: if the text `prefix` before a printed container under `key`
      ends a word and holds no eligible occurrence of the key, `json_val` returns the printed
      container and nothing else. */
  lemma RoundTrip(prefix: string, key: string, v: Json, tail: string)
    requires IsContainer(v) && PlainKey(key)
    requires prefix == "" || IsWhitespace(prefix[|prefix| - 1])
    requires var text := prefix + key + "=" + Print(v) + tail;
             NoneBefore(text, key + "=", |prefix|)
    ensures Search(prefix + key + "=" + Print(v) + tail, key + "=", 0) == Some(|prefix|)
    ensures JsonValue(prefix + key + "=" + Print(v) + tail, key) == Some(Print(v))
  {
    var needle := key + "=";
    var text := prefix + key + "=" + Print(v) + tail;
    ContainerClosesAtItsEnd(v, tail);
    assert text == prefix + needle + (Print(v) + tail);
    assert text[|prefix|..|prefix| + |needle|] == needle;
    assert text[|prefix| + |needle|] == Print(v)[0];
    assert Eligible(text, needle, |prefix|);
    SearchFindsFirstEligible(text, needle, 0);
    assert Search(text, needle, 0) == Some(|prefix|);
    assert text[|prefix| + |key| + 1..] == Print(v) + tail;
    assert (Print(v) + tail)[..|Print(v)|] == Print(v);
    IsJsonValUnique(text, key, Some(Print(v)), JsonValue(text, key));
  }
}
